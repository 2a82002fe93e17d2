/** Exactly when an exception escapes a drain, and when none can, so that every drain settles its run. */
module EngineEscapes {
  import opened Outcomes
  import opened StateMerge
  import opened Graph
  import opened Dod
  import opened Backoff
  import Exec = Executions
  import opened EngineState
  import opened EngineOps
  import opened EngineRuns
  import opened EngineRouting

  // ---- exactly when an exception escapes ----

  /** Edge `i` is the first the routing loop does not skip. */
  ghost predicate IsFirstTried(c: Config, node: Node, s: State, i: int) {
    var edges := c.graph.Conditional(node.id);
    && 0 <= i < |edges|
    && !IsCapped(c, s.log, node.id, edges[i]) && ConditionOf(c, s, edges[i]) != Fails
    && forall j | 0 <= j < i ::
         IsCapped(c, s.log, node.id, edges[j]) || ConditionOf(c, s, edges[j]) == Fails
  }

  /** The condition of the first edge tried raises, or no edge is tried and the human trigger raises. */
  ghost predicate RouteEscapes(c: Config, node: Node, s: State) {
    var edges := c.graph.Conditional(node.id);
    || (exists i :: IsFirstTried(c, node, s, i) && ConditionOf(c, s, edges[i]) == Raises)
    || (&& (forall e | e in edges :: IsCapped(c, s.log, node.id, e) || ConditionOf(c, s, e) == Fails)
        && TriggerOf(c, s, node) == Raises)
  }

  lemma {:induction false} FirstLiveIsFirst(edges: seq<Edge>, live: Edge -> bool) returns (i: nat)
    requires FirstLive(edges, live).Some?
    ensures i < |edges| && FirstLive(edges, live) == Some(edges[i]) && live(edges[i])
    ensures forall j | 0 <= j < i :: !live(edges[j])
  {
    var init := edges[..|edges| - 1];
    if FirstLive(init, live).Some? {
      i := FirstLiveIsFirst(init, live);
    } else {
      FirstLiveMeans(init, live);
      i := |init|;
      assert forall j | 0 <= j < i :: edges[j] == init[j] && init[j] in init;
    }
  }

  lemma RouteRaisesExactly(c: Config, node: Node, s: State)
    ensures ChooseRoute(c, node, s) == RouteRaises <==> RouteEscapes(c, node, s)
  {
    var edges, live := c.graph.Conditional(node.id), NotSkipped(c, s, node.id);
    FirstLiveMeans(edges, live);
    if FirstLive(edges, live).Some? {
      var i := FirstLiveIsFirst(edges, live);
      assert IsFirstTried(c, node, s, i);
      assert forall k | IsFirstTried(c, node, s, k) :: live(edges[k]);
      assert forall k | IsFirstTried(c, node, s, k) :: k == i;
      assert edges[i] in edges;
    } else {
      forall i
        ensures !IsFirstTried(c, node, s, i)
      {
        if 0 <= i < |edges| {
          assert !live(edges[i]);
        }
      }
    }
  }

  /**
   * A failure whose text cannot be written, a retry whose delay overflows, a
   * reported count that does not compare, a rejected turn whose record cannot
   * be written, a refused commit whose error cannot, or a committed turn whose
   * route raises.
   */
  ghost predicate TurnEscapes(c: Config, node: Node, s: State, streak: nat, turn: Turn) {
    match turn
    case Transient(recordable) => !recordable || (streak + 1 <= c.guards.maxRetries && Overflows(streak + 1))
    case Broken(recordable) => !recordable
    case Finished(_, _, _, _, writable, _, explains) =>
      match RuleOn(c, s, turn)
      case Incomparable => true
      case Rejected => !writable
      case Accepted =>
        if CommitTurn(c, s, node.id, turn).Some? then RouteEscapes(c, node, CommitTurn(c, s, node.id, turn).value)
        else !explains
  }

  /** The state a turn is settled in: after on_enter, and after any cancel that came in meanwhile. */
  function TurnState(c: Config, s: State, node: Node, run: TurnRun): State
    requires Enter(c, s, node).Some?
  {
    var entered := Enter(c, s, node).value;
    if run.cancelled then LandCancel(entered) else entered
  }

  /** A node without an agent, an on_enter that raises or is refused, or a turn that escapes. */
  ghost predicate AttemptEscapes(c: Config, node: Node, s: State, streak: nat, run: TurnRun) {
    || !node.agentBacked
    || Enter(c, s, node).None?
    || TurnEscapes(c, node, TurnState(c, s, node, run), streak, run.turn)
  }

  lemma RoutePhase(c: Config, s: State, node: Node)
    requires s.phase == Draining
    ensures RouteFrom(c, s, node).phase == Raised <==> RouteEscapes(c, node, s)
    ensures RouteFrom(c, s, node).everRaised <==> s.everRaised || RouteEscapes(c, node, s)
  {
    RouteRaisesExactly(c, node, s);
    match ChooseRoute(c, node, s) {
      case Fire(e) => FireAllFrame(c, s, node.id, e.to);
      case _ =>
    }
  }

  lemma TurnPhase(c: Config, s: State, node: Node, streak: nat, turn: Turn)
    requires s.phase == Draining && Exec.Latest(s.rows, node.id) >= 0
    ensures SettleTurn(c, s, node, streak, turn).phase == Raised <==> TurnEscapes(c, node, s, streak, turn)
    ensures SettleTurn(c, s, node, streak, turn).everRaised <==>
            s.everRaised || TurnEscapes(c, node, s, streak, turn)
  {
    if turn.Finished? && RuleOn(c, s, turn) == Accepted && CommitTurn(c, s, node.id, turn).Some? {
      RoutePhase(c, CommitTurn(c, s, node.id, turn).value, node);
    }
  }

  /** A dispatch its guards let through, of an unknown node or as an attempt that escapes. */
  ghost predicate DispatchEscapes(c: Config, s: State)
    requires s.queue != []
  {
    var id := s.queue[0];
    && Exec.Streak(s.rows, id) <= c.guards.maxRetries && |s.rows| < c.guards.maxTotalSteps
    && (id in c.graph.nodesById ==>
          AttemptEscapes(c, c.graph.nodesById[id], Begin(s.(queue := s.queue[1..]), id),
                         Exec.Streak(s.rows, id), c.world.turns(|s.rows|)))
  }

  lemma DispatchRaisesExactly(c: Config, s: State)
    requires Wired(c.graph) && s.queue != [] && s.phase == Draining
    ensures Dispatch(c, s).phase == Raised <==> DispatchEscapes(c, s)
    ensures Dispatch(c, s).everRaised <==> s.everRaised || DispatchEscapes(c, s)
  {
    var id := s.queue[0];
    if id in c.graph.nodesById {
      var node, begun, run := c.graph.nodesById[id], Begin(s.(queue := s.queue[1..]), id), c.world.turns(|s.rows|);
      AttemptPhase(c, begun, node, Exec.Streak(s.rows, id), run);
    }
  }

  lemma AttemptPhase(c: Config, s: State, node: Node, streak: nat, run: TurnRun)
    requires s.phase == Draining && Exec.Latest(s.rows, node.id) >= 0
    ensures Attempt(c, s, node, streak, run).phase == Raised <==> AttemptEscapes(c, node, s, streak, run)
    ensures Attempt(c, s, node, streak, run).everRaised <==> s.everRaised || AttemptEscapes(c, node, s, streak, run)
  {
    if node.agentBacked && Enter(c, s, node).Some? {
      TurnPhase(c, TurnState(c, s, node, run), node, streak, run.turn);
    }
  }

  /** Finalizing an active, unfailed run whose status can be written neither time. */
  ghost predicate FinalizeEscapes(c: Config, s: State) {
    var gate := c.world.gates(|s.log|);
    !s.failed && !IsTerminal(s.status) && gate.writeFails && gate.fallbackFails
  }

  lemma FinalizeRaisesExactly(c: Config, s: State)
    ensures Finalize(c, s).phase == Raised <==> FinalizeEscapes(c, s)
    ensures Finalize(c, s).everRaised <==> s.everRaised || FinalizeEscapes(c, s)
  {
    if !s.failed && !IsTerminal(s.status) {
      FinishWrites(c, s);
      FinalizeRemembers(c, s);
    }
  }

  lemma FinalizeRemembers(c: Config, s: State)
    requires !s.failed && !IsTerminal(s.status)
    ensures Finalize(c, s).everRaised <==> s.everRaised || FinalizeEscapes(c, s)
  {
    var gate, idle := c.world.gates(|s.log|), s.(phase := Idle);
    var out := if gate.cancelled then LandCancel(idle) else idle;
    WriteFinalRemembers(out, WaitingHuman, None, gate);
    WriteFinalRemembers(out, Completed, None, gate);
    WriteFinalRemembers(out, s.status, None, gate);
    if c.dod.Some? {
      var d := Judged(c, s, c.dod.value, gate);
      WriteFinalRemembers(out, if d.completed then Completed else Failed, Some(d), gate);
    }
  }

  lemma WriteFinalRemembers(s: State, status: Status, event: Option<Decision>, gate: GateRun)
    ensures WriteFinal(s, status, event, gate).everRaised <==> s.everRaised || (gate.writeFails && gate.fallbackFails)
  {
  }

  ghost predicate TickEscapes(c: Config, s: State) {
    if s.phase == Ending then FinalizeEscapes(c, s)
    else s.phase == Draining && !Drained(c, s) && s.queue != [] && DispatchEscapes(c, s)
  }

  ghost function Escaping(c: Config): State -> bool {
    (s: State) => TickEscapes(c, s)
  }

  lemma NextRaisesExactly(c: Config, s: State, action: Action)
    requires Wired(c.graph)
    ensures Next(c, s, action).everRaised <==> s.everRaised || (action == Tick && TickEscapes(c, s))
  {
    if action == Tick {
      if s.phase == Ending {
        FinalizeRaisesExactly(c, s);
      } else if s.phase == Draining && !Drained(c, s) && s.queue != [] {
        DispatchRaisesExactly(c, s);
      }
    }
  }

  /** Over whole runs: an exception has escaped exactly when some turn of the loop met one of those conditions. */
  lemma {:induction false} RunRaisesExactly(c: Config, held: bool, actions: seq<Action>)
    requires Wired(c.graph)
    ensures Run(c, held, actions).everRaised <==> Sometime(c, held, actions, Escaping(c))
  {
    if actions != [] {
      var init, last := actions[..|actions| - 1], actions[|actions| - 1];
      RunRaisesExactly(c, held, init);
      NextRaisesExactly(c, Run(c, held, init), last);
    }
  }

  // ---- when none does ----

  /**
   * What rules every escape out, said of this graph's own nodes and
   * expressions: agents behind all nodes; conditions, triggers and on_enter
   * mutations that never raise, the merge of the mutation's delta included;
   * turns whose counts compare and whose failures, rejections and refused
   * commits can be recorded; a retry budget within the largest float; and a
   * status write that succeeds at least the second time.
   */
  ghost predicate Tame(c: Config) {
    && (forall id | id in c.graph.nodesById :: NodeIsTame(c, c.graph.nodesById[id]))
    && (forall n :: TurnIsTame(c, c.world.turns(n).turn))
    && c.guards.maxRetries <= LARGEST_EXPONENT + 1
    && (forall k :: !(c.world.gates(k).writeFails && c.world.gates(k).fallbackFails))
  }

  ghost predicate NodeIsTame(c: Config, node: Node) {
    && node.agentBacked
    && (forall e, n, shared | e in c.graph.Conditional(node.id) :: ConditionAt(c, n, shared, e) != Raises)
    && (forall n, shared :: TriggerAt(c, n, shared, node) != Raises)
    && (node.onEnter.Some? ==> forall n, shared :: EnterSucceeds(c, n, node.onEnter.value, shared))
  }

  ghost predicate EnterSucceeds(c: Config, n: nat, mutation: string, shared: Shared) {
    var delta := c.world.enter(n, mutation, shared);
    delta.Some? && Merge(c.fields, shared, delta.value).Ok?
  }

  ghost predicate TurnIsTame(c: Config, turn: Turn) {
    match turn
    case Transient(recordable) => recordable
    case Broken(recordable) => recordable
    case Finished(_, _, _, _, writable, _, explains) =>
      explains && forall s :: RuleOn(c, s, turn) != Incomparable && (RuleOn(c, s, turn) == Rejected ==> writable)
  }

  lemma TameNodeRoutes(c: Config, node: Node, s: State)
    requires NodeIsTame(c, node)
    ensures !RouteEscapes(c, node, s)
  {
    forall i | IsFirstTried(c, node, s, i)
      ensures ConditionOf(c, s, c.graph.Conditional(node.id)[i]) != Raises
    {
      assert c.graph.Conditional(node.id)[i] in c.graph.Conditional(node.id);
    }
  }

  lemma TameAttempt(c: Config, node: Node, s: State, streak: nat, n: nat)
    requires Tame(c) && NodeIsTame(c, node)
    ensures !AttemptEscapes(c, node, s, streak, c.world.turns(n))
  {
    var run := c.world.turns(n);
    assert TurnIsTame(c, run.turn);
    assert node.onEnter.Some? ==> EnterSucceeds(c, |s.rows|, node.onEnter.value, s.shared);
    assert Enter(c, s, node).Some?;
    var settled := TurnState(c, s, node, run);
    if run.turn.Finished? && CommitTurn(c, settled, node.id, run.turn).Some? {
      TameNodeRoutes(c, node, CommitTurn(c, settled, node.id, run.turn).value);
    }
  }

  lemma TameNeverEscapes(c: Config, s: State)
    requires Tame(c) && forall id | id in s.queue :: id in c.graph.nodesById
    ensures !TickEscapes(c, s)
  {
    if s.queue != [] {
      var id := s.queue[0];
      assert id in s.queue;
      TameAttempt(c, c.graph.nodesById[id], Begin(s.(queue := s.queue[1..]), id), Exec.Streak(s.rows, id), |s.rows|);
    }
  }

  /** Queued nodes always exist, so the node lookup never fails, unless a foreign request names an unknown node. */
  lemma QueueIsKnown(c: Config, held: bool, actions: seq<Action>)
    requires Wired(c.graph) && Closed(c.graph) && TakesFrom(c.graph.nodesById.Keys, Run(c, held, actions))
    ensures forall id | id in Run(c, held, actions).queue :: id in c.graph.nodesById
  {
    RunStaysWithin(c, held, actions, c.graph.nodesById.Keys);
  }

  /** Then no exception ever escapes: every reachable state is held, idle or draining. */
  lemma {:induction false} TameRunNeverRaises(c: Config, held: bool, actions: seq<Action>)
    requires Wired(c.graph) && Closed(c.graph) && Tame(c)
    requires TakesFrom(c.graph.nodesById.Keys, Run(c, held, actions))
    ensures !Run(c, held, actions).everRaised && Run(c, held, actions).phase != Raised
  {
    if actions != [] {
      var init, last := actions[..|actions| - 1], actions[|actions| - 1];
      RunIsGood(c, held, init);
      TakesBefore(c, c.graph.nodesById.Keys, Run(c, held, init), last);
      TameRunNeverRaises(c, held, init);
      QueueIsKnown(c, held, init);
      TameNeverEscapes(c, Run(c, held, init));
      NextRaisesExactly(c, Run(c, held, init), last);
    }
    RunIsGood(c, held, actions);
  }

  /**
   * No run is stranded: under those conditions every drain left to itself,
   * first or resumed, ends COMPLETED, FAILED, CANCELLED, or waiting for a
   * pending human request - or with a request lost to a resume of another run.
   */
  lemma TameDrainSettlesTheRun(c: Config, held: bool, actions: seq<Action>)
    requires Wired(c.graph) && Closed(c.graph) && Tame(c)
    requires TakesFrom(c.graph.nodesById.Keys, Run(c, held, actions)) && Run(c, held, actions).phase == Draining
    ensures var t := Drain(c, Run(c, held, actions));
            && t.phase == Idle
            && (IsTerminal(t.status) || (t.status == WaitingHuman && PendingHitl(t)) || t.past.lost != [])
  {
    var more := DrainIsTicks(c, held, actions);
    TicksTakeNothing(c, held, actions, more);
    TameRunNeverRaises(c, held, more);
    RunIsGood(c, held, actions);
    DrainEnds(c, Run(c, held, actions));
  }

  lemma {:induction false} TicksTakeNothing(c: Config, held: bool, actions: seq<Action>, more: seq<Action>)
    requires Wired(c.graph) && actions <= more && forall i | |actions| <= i < |more| :: more[i] == Tick
    ensures Run(c, held, more).past.taken == Run(c, held, actions).past.taken
  {
    if more != actions {
      var init := more[..|more| - 1];
      TicksTakeNothing(c, held, actions, init);
      RunIsGood(c, held, init);
      NextTakes(c, Run(c, held, init), more[|more| - 1]);
    }
  }
}
