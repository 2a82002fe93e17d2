/** Exactly when routing takes a fire count past its loop cap. */
module EngineCaps {
  import opened Outcomes
  import opened Graph
  import opened Dod
  import opened EventLog
  import Exec = Executions
  import opened EngineState
  import opened EngineOps
  import opened EngineInvariants
  import opened EngineRuns
  import opened EngineEscapes

  /** What one routing adds to the count of `t`: each mention of it on the fired edge, uncapped or not. */
  function Added(c: Config, node: Node, s: State, t: string): nat {
    match ChooseRoute(c, node, s)
    case Fire(e) => multiset(e.to)[t]
    case _ => 0
  }

  lemma {:induction false} FireAllOthers(c: Config, s: State, f: string, targets: seq<string>, g: string, t: string)
    requires g != f
    ensures RouteCount(FireAll(c, s, f, targets).log, g, t) == RouteCount(s.log, g, t)
  {
    if targets != [] {
      var init, last := targets[..|targets| - 1], targets[|targets| - 1];
      FireAllOthers(c, s, f, init, g, t);
      FireOneFrame(c, FireAll(c, s, f, init), f, last);
      AppendCounts(FireAll(c, s, f, init).log, Route(f, last));
    }
  }

  lemma RouteCounts(c: Config, node: Node, s: State, f: string, t: string)
    ensures RouteCount(RouteFrom(c, s, node).log, f, t) ==
            RouteCount(s.log, f, t) + if f == node.id then Added(c, node, s, t) else 0
  {
    match ChooseRoute(c, node, s) {
      case Fire(e) =>
        FireAllFrame(c, s, node.id, e.to);
        if f != node.id {
          FireAllOthers(c, s, node.id, e.to, f, t);
        }
      case AskHuman => AppendCounts(s.log, HitlRaised(node.id));
      case NoRoute => AppendCounts(s.log, Fail(node.id));
      case Stop => AppendCounts(s.log, Terminate(node.id));
      case RouteRaises =>
    }
  }

  /**
   * Routing takes a count within its cap past it exactly when the edge it fires
   * lists the target often enough; and then that edge is the default one, or
   * lists the target at least twice.
   */
  lemma CapIsPassedExactly(c: Config, node: Node, s: State, t: string)
    requires LoopKey(node.id, t) in c.guards.loopCaps
    requires RouteCount(s.log, node.id, t) <= c.guards.loopCaps[LoopKey(node.id, t)]
    ensures RouteCount(RouteFrom(c, s, node).log, node.id, t) > c.guards.loopCaps[LoopKey(node.id, t)] <==>
            exists e :: ChooseRoute(c, node, s) == Fire(e) &&
                        RouteCount(s.log, node.id, t) + multiset(e.to)[t] > c.guards.loopCaps[LoopKey(node.id, t)]
    ensures RouteCount(RouteFrom(c, s, node).log, node.id, t) > c.guards.loopCaps[LoopKey(node.id, t)] ==>
              || (c.graph.Default(node.id).Some? && ChooseRoute(c, node, s) == Fire(c.graph.Default(node.id).value))
              || exists e | e in c.graph.Conditional(node.id) ::
                   ChooseRoute(c, node, s) == Fire(e) && multiset(e.to)[t] >= 2
  {
    RouteCounts(c, node, s, node.id, t);
    var edges, live := c.graph.Conditional(node.id), NotSkipped(c, s, node.id);
    FirstLiveMeans(edges, live);
    if FirstLive(edges, live).Some? {
      var e := FirstLive(edges, live).value;
      assert live(e) && e in edges;
      if t in e.to {
        assert RouteCount(s.log, node.id, t) < c.guards.loopCaps[LoopKey(node.id, t)];
      }
    }
  }

  // ---- over whole runs ----

  /** The state the head's dispatch routes from, if its turn is accepted and committed. */
  function RoutedFrom(c: Config, s: State): Option<State>
    requires s.queue != []
  {
    var id := s.queue[0];
    if Exec.Streak(s.rows, id) > c.guards.maxRetries || |s.rows| >= c.guards.maxTotalSteps
       || id !in c.graph.nodesById then None
    else AttemptRoutes(c, Begin(s.(queue := s.queue[1..]), id), c.graph.nodesById[id], c.world.turns(|s.rows|))
  }

  function AttemptRoutes(c: Config, s: State, node: Node, run: TurnRun): Option<State> {
    if !node.agentBacked || Enter(c, s, node).None? then None
    else TurnRoutes(c, TurnState(c, s, node, run), node, run.turn)
  }

  function TurnRoutes(c: Config, s: State, node: Node, turn: Turn): Option<State> {
    if turn.Finished? && RuleOn(c, s, turn) == Accepted then CommitTurn(c, s, node.id, turn) else None
  }

  /** What the head's dispatch adds to the count of f -> t. */
  function DispatchAdds(c: Config, s: State, f: string, t: string): nat
    requires s.queue != []
  {
    if f == s.queue[0] && RoutedFrom(c, s).Some? && f in c.graph.nodesById
    then Added(c, c.graph.nodesById[f], RoutedFrom(c, s).value, t)
    else 0
  }

  lemma SettleCounts(c: Config, s: State, node: Node, streak: nat, turn: Turn, f: string, t: string)
    ensures RouteCount(SettleTurn(c, s, node, streak, turn).log, f, t) ==
            RouteCount(s.log, f, t) +
            if f == node.id && TurnRoutes(c, s, node, turn).Some?
            then Added(c, node, TurnRoutes(c, s, node, turn).value, t) else 0
  {
    if TurnRoutes(c, s, node, turn).Some? {
      CommitCounts(c, s, node, turn, f, t);
      RouteCounts(c, node, CommitTurn(c, s, node.id, turn).value, f, t);
    } else {
      UnroutedCounts(c, s, node, streak, turn, f, t);
    }
  }

  lemma CommitCounts(c: Config, s: State, node: Node, turn: Turn, f: string, t: string)
    requires turn.Finished? && CommitTurn(c, s, node.id, turn).Some?
    ensures RouteCount(CommitTurn(c, s, node.id, turn).value.log, f, t) == RouteCount(s.log, f, t)
  {
    AppendCounts(s.log, Commit(node.id, turn.delta, s.version, s.version + 1));
  }

  /** A turn that is not routed at most fails the run. */
  lemma UnroutedCounts(c: Config, s: State, node: Node, streak: nat, turn: Turn, f: string, t: string)
    requires TurnRoutes(c, s, node, turn).None?
    ensures RouteCount(SettleTurn(c, s, node, streak, turn).log, f, t) == RouteCount(s.log, f, t)
  {
    match turn {
      case Transient(recordable) => RetryKeepsLog(c, s, node.id, streak + 1, recordable);
      case Broken(recordable) => FailCounts(s, node.id, None, recordable, f, t);
      case Finished(_, usage, _, _, writable, _, explains) =>
        FailCounts(s, node.id, None, explains, f, t);
        FailCounts(s, node.id, Some(usage), writable, f, t);
    }
  }

  lemma RetryKeepsLog(c: Config, s: State, node: string, streak: nat, recordable: bool)
    requires streak >= 1
    ensures Retry(c, s, node, streak, recordable).log == s.log
  {
  }

  lemma FailCounts(s: State, node: string, usage: Option<Usage>, writable: bool, f: string, t: string)
    ensures RouteCount(FailRun(s, node, usage, writable).log, f, t) == RouteCount(s.log, f, t)
  {
    AppendCounts(s.log, Fail(node));
  }

  lemma EnterCounts(c: Config, s: State, node: Node, f: string, t: string)
    requires Enter(c, s, node).Some?
    ensures RouteCount(Enter(c, s, node).value.log, f, t) == RouteCount(s.log, f, t)
  {
    if node.onEnter.Some? {
      AppendCounts(s.log, Commit(node.id, c.world.enter(|s.rows|, node.onEnter.value, s.shared).value, s.version,
                                 s.version + 1));
    }
  }

  lemma DispatchCounts(c: Config, s: State, f: string, t: string)
    requires Wired(c.graph) && s.queue != []
    ensures RouteCount(Dispatch(c, s).log, f, t) == RouteCount(s.log, f, t) + DispatchAdds(c, s, f, t)
  {
    var id := s.queue[0];
    FailCounts(s.(queue := s.queue[1..]), id, None, true, f, t);
    if id in c.graph.nodesById {
      AttemptCounts(c, Begin(s.(queue := s.queue[1..]), id), c.graph.nodesById[id], Exec.Streak(s.rows, id),
                    c.world.turns(|s.rows|), f, t);
    }
  }

  lemma AttemptCounts(c: Config, s: State, node: Node, streak: nat, run: TurnRun, f: string, t: string)
    ensures RouteCount(Attempt(c, s, node, streak, run).log, f, t) ==
            RouteCount(s.log, f, t) +
            if f == node.id && AttemptRoutes(c, s, node, run).Some?
            then Added(c, node, AttemptRoutes(c, s, node, run).value, t) else 0
  {
    if node.agentBacked && Enter(c, s, node).Some? {
      EnterCounts(c, s, node, f, t);
      SettleCounts(c, TurnState(c, s, node, run), node, streak, run.turn, f, t);
    }
  }

  /** The turns of the drain loop that take f -> t from within its cap past it. */
  ghost predicate TickPassesCap(c: Config, s: State, f: string, t: string)
    requires LoopKey(f, t) in c.guards.loopCaps
  {
    var cap := c.guards.loopCaps[LoopKey(f, t)];
    && s.phase == Draining && !Drained(c, s) && s.queue != []
    && RouteCount(s.log, f, t) <= cap < RouteCount(s.log, f, t) + DispatchAdds(c, s, f, t)
  }

  ghost function PassingCap(c: Config, f: string, t: string): State -> bool
    requires LoopKey(f, t) in c.guards.loopCaps
  {
    (s: State) => TickPassesCap(c, s, f, t)
  }

  lemma NextCounts(c: Config, s: State, action: Action, f: string, t: string)
    requires Wired(c.graph)
    ensures RouteCount(Next(c, s, action).log, f, t) ==
            RouteCount(s.log, f, t) +
            if action == Tick && s.phase == Draining && !Drained(c, s) && s.queue != []
            then DispatchAdds(c, s, f, t) else 0
  {
    match action {
      case Tick => AdvanceCounts(c, s, f, t);
      case Answer(i) =>
        if Answerable(s, i) {
          AppendCounts(s.log, HitlResolved(s.hitl[i].node));
        }
      case AnswerForeign(node) => AppendCounts(s.log, HitlResolved(node));
      case _ =>
    }
  }

  lemma AdvanceCounts(c: Config, s: State, f: string, t: string)
    requires Wired(c.graph)
    ensures RouteCount(Advance(c, s).log, f, t) ==
            RouteCount(s.log, f, t) +
            if s.phase == Draining && !Drained(c, s) && s.queue != [] then DispatchAdds(c, s, f, t) else 0
  {
    if s.phase == Ending {
      FinishFrame(c, s);
      if GateDecision(c, s).Some? {
        AppendCounts(s.log, DodEvaluated(GateDecision(c, s).value));
      }
    } else if s.phase == Draining && !Drained(c, s) && s.queue != [] {
      DispatchCounts(c, s, f, t);
    }
  }

  /** Over whole runs a count is past its cap exactly when some turn of the loop took it there. */
  lemma {:induction false} RunPassesCapExactly(c: Config, held: bool, actions: seq<Action>, f: string, t: string)
    requires Wired(c.graph) && LoopKey(f, t) in c.guards.loopCaps
    ensures RouteCount(Run(c, held, actions).log, f, t) > c.guards.loopCaps[LoopKey(f, t)] <==>
            Sometime(c, held, actions, PassingCap(c, f, t))
  {
    if actions != [] {
      var init, last := actions[..|actions| - 1], actions[|actions| - 1];
      RunPassesCapExactly(c, held, init, f, t);
      NextCounts(c, Run(c, held, init), last, f, t);
    }
  }
}
