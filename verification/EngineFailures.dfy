/** Exactly which status each action leaves, and so exactly when a run is FAILED and a terminal status overwritten. */
module EngineFailures {
  import opened Graph
  import opened Dod
  import Exec = Executions
  import opened EngineState
  import opened EngineOps
  import opened EngineInvariants
  import opened EngineRuns
  import opened EngineTheorems
  import opened EngineRouting
  import opened EngineEscapes

  // ---- what fails a run ----

  /**
   * A broken turn whose error can be written, a rejected one whose record can,
   * one whose commit raises an error that can, or a committed one that finds no
   * route.
   */
  ghost predicate TurnFails(c: Config, node: Node, s: State, turn: Turn) {
    match turn
    case Transient(_) => false
    case Broken(recordable) => recordable
    case Finished(_, _, _, _, writable, _, explains) =>
      match RuleOn(c, s, turn)
      case Incomparable => false
      case Rejected => writable
      case Accepted =>
        if CommitTurn(c, s, node.id, turn).Some? then HasNoRoute(c, node, CommitTurn(c, s, node.id, turn).value)
        else explains
  }

  /** The guards let the head's dispatch through to its turn. */
  ghost predicate ReachesTurn(c: Config, s: State)
    requires s.queue != []
  {
    var id := s.queue[0];
    && Exec.Streak(s.rows, id) <= c.guards.maxRetries && |s.rows| < c.guards.maxTotalSteps
    && id in c.graph.nodesById
    && c.graph.nodesById[id].agentBacked
    && Enter(c, Begin(s.(queue := s.queue[1..]), id), c.graph.nodesById[id]).Some?
  }

  /** A dispatch with a spent guard, or whose turn fails. */
  ghost predicate DispatchFails(c: Config, s: State)
    requires s.queue != []
  {
    var id, begun := s.queue[0], Begin(s.(queue := s.queue[1..]), s.queue[0]);
    || Exec.Streak(s.rows, id) > c.guards.maxRetries
    || |s.rows| >= c.guards.maxTotalSteps
    || (ReachesTurn(c, s) && AttemptFails(c, c.graph.nodesById[id], begun, c.world.turns(|s.rows|)))
  }

  ghost predicate AttemptFails(c: Config, node: Node, s: State, run: TurnRun) {
    node.agentBacked && Enter(c, s, node).Some? && TurnFails(c, node, TurnState(c, s, node, run), run.turn)
  }

  /**
   * Finalizing an active, unfailed run whose first status write fails but not
   * the second, or whose definition of done is not met; a cancel that lands
   * meanwhile wins over both.
   */
  ghost predicate FinalizeFails(c: Config, s: State) {
    var gate := c.world.gates(|s.log|);
    && !s.failed && !IsTerminal(s.status) && !gate.cancelled
    && if gate.writeFails then !gate.fallbackFails
       else
         && !PendingHitl(s) && s.terminalReached && c.dod.Some?
         && !DefinitionMet(gate.box, c.dod.value, s.shared, c.guards.maxTokens, Exec.TotalTokens(s.rows),
                           gate.judgement)
  }

  /** The turns of the drain that fail the run. */
  ghost predicate TickFails(c: Config, s: State) {
    if s.phase == Ending then FinalizeFails(c, s)
    else s.phase == Draining && !Drained(c, s) && s.queue != [] && DispatchFails(c, s)
  }

  // ---- when a cancel lands ----

  /** A cancel's write would take effect: it selected the run while active, or may do so now. */
  predicate MayCancel(s: State) {
    s.past.selected || !IsTerminal(s.status)
  }

  /** The turns of the drain during which a cancel lands. */
  ghost predicate TickCancels(c: Config, s: State) {
    if s.phase == Ending then !s.failed && !IsTerminal(s.status) && c.world.gates(|s.log|).cancelled
    else
      && s.phase == Draining && !Drained(c, s) && s.queue != [] && ReachesTurn(c, s)
      && c.world.turns(|s.rows|).cancelled && MayCancel(s)
  }

  // ---- the status each step leaves ----

  lemma RouteStatus(c: Config, s: State, node: Node)
    ensures RouteFrom(c, s, node).status == (if HasNoRoute(c, node, s) then Failed else s.status)
    ensures RouteFrom(c, s, node).past == s.past
  {
    NoRouteExactly(c, node, s);
    match ChooseRoute(c, node, s) {
      case Fire(e) => FireAllFrame(c, s, node.id, e.to);
      case _ =>
    }
  }

  lemma TurnStatus(c: Config, s: State, node: Node, streak: nat, turn: Turn)
    requires Exec.Latest(s.rows, node.id) >= 0
    ensures var t := SettleTurn(c, s, node, streak, turn);
            t.status == (if TurnFails(c, node, s, turn) then Failed else s.status) && t.past == s.past
  {
    if turn.Finished? && RuleOn(c, s, turn) == Accepted && CommitTurn(c, s, node.id, turn).Some? {
      CommitFrame(c, s, node.id, turn);
      RouteStatus(c, CommitTurn(c, s, node.id, turn).value, node);
    }
  }

  lemma EnterStatus(c: Config, s: State, node: Node)
    requires Enter(c, s, node).Some?
    ensures var t := Enter(c, s, node).value;
            t.status == s.status && t.past == s.past && t.rows == s.rows
  {
  }

  lemma AttemptStatus(c: Config, s: State, node: Node, streak: nat, run: TurnRun)
    requires Exec.Latest(s.rows, node.id) >= 0 && node.agentBacked && Enter(c, s, node).Some?
    ensures var t := Attempt(c, s, node, streak, run);
            && t.status == (if AttemptFails(c, node, s, run) then Failed
                            else if run.cancelled && MayCancel(s) then Cancelled else s.status)
            && (t.past.selected <==> s.past.selected || (run.cancelled && MayCancel(s)))
  {
    EnterStatus(c, s, node);
    TurnStatus(c, TurnState(c, s, node, run), node, streak, run.turn);
  }

  lemma DispatchStatus(c: Config, s: State)
    requires Wired(c.graph) && s.queue != []
    ensures var t := Dispatch(c, s);
            var lands := ReachesTurn(c, s) && c.world.turns(|s.rows|).cancelled && MayCancel(s);
            && t.status == (if DispatchFails(c, s) then Failed else if lands then Cancelled else s.status)
            && (t.past.selected <==> s.past.selected || lands)
  {
    var id, begun := s.queue[0], Begin(s.(queue := s.queue[1..]), s.queue[0]);
    if ReachesTurn(c, s) {
      AttemptStatus(c, begun, c.graph.nodesById[id], Exec.Streak(s.rows, id), c.world.turns(|s.rows|));
    }
  }

  /** One dispatch leaves the run FAILED exactly if it fails, or the run was FAILED and no cancel landed. */
  lemma DispatchFailsExactly(c: Config, s: State)
    requires Wired(c.graph) && s.queue != []
    ensures Dispatch(c, s).status == Failed <==>
            || DispatchFails(c, s)
            || (s.status == Failed
                && !(ReachesTurn(c, s) && c.world.turns(|s.rows|).cancelled && MayCancel(s)))
  {
    DispatchStatus(c, s);
  }

  lemma FinalizeFailsExactly(c: Config, s: State)
    ensures Finalize(c, s).status == Failed <==> s.status == Failed || FinalizeFails(c, s)
  {
    if !s.failed && !IsTerminal(s.status) {
      FinishWrites(c, s);
      if c.dod.Some? {
        var gate := c.world.gates(|s.log|);
        DecideExact(gate.box, c.dod.value, s.shared, c.guards.maxTokens, Exec.TotalTokens(s.rows), gate.judgement);
      }
    }
  }

  lemma FinalizeCancels(c: Config, s: State)
    ensures Finalize(c, s).status == Cancelled <==>
            s.status == Cancelled || (!s.failed && !IsTerminal(s.status) && c.world.gates(|s.log|).cancelled)
    ensures Finalize(c, s).past.selected <==>
            s.past.selected || (!s.failed && !IsTerminal(s.status) && c.world.gates(|s.log|).cancelled)
  {
    FinishFrame(c, s);
    if !s.failed && !IsTerminal(s.status) {
      FinishWrites(c, s);
      FinalizeSelects(c, s);
    }
  }

  lemma FinalizeSelects(c: Config, s: State)
    requires !s.failed && !IsTerminal(s.status)
    ensures Finalize(c, s).past.selected <==> s.past.selected || c.world.gates(|s.log|).cancelled
  {
    var gate, idle := c.world.gates(|s.log|), s.(phase := Idle);
    var out := if gate.cancelled then LandCancel(idle) else idle;
    assert out.past.selected <==> s.past.selected || gate.cancelled;
  }

  /** What a turn of the drain does to FAILED, to CANCELLED, and to the cancels that selected the run. */
  lemma AdvanceStatus(c: Config, s: State)
    requires Wired(c.graph)
    ensures var t := Advance(c, s);
            && (t.status == Failed <==> TickFails(c, s) || (s.status == Failed && !TickCancels(c, s)))
            && (t.status == Cancelled <==>
                  !TickFails(c, s) && (s.status == Cancelled || TickCancels(c, s)))
            && (t.past.selected <==> s.past.selected || TickCancels(c, s))
  {
    if s.phase == Ending {
      FinalizeFailsExactly(c, s);
      FinalizeCancels(c, s);
    } else if s.phase == Draining && !Drained(c, s) && s.queue != [] {
      DispatchStatus(c, s);
    }
  }

  /**
   * The status any action leaves a run that had ended: FAILED by a turn that
   * fails, CANCELLED by a cancel that selected it while it was active, and
   * otherwise the status it had.
   */
  lemma TerminalStatusExactly(c: Config, s: State, action: Action)
    requires Wired(c.graph) && Good(c, s) && IsTerminal(s.status)
    ensures Next(c, s, action).status ==
            if action == Tick && TickFails(c, s) then Failed
            else if s.past.selected && (action == Cancel || (action == Tick && TickCancels(c, s))) then Cancelled
            else s.status
  {
    if action == Tick {
      AdvanceStatus(c, s);
      TerminalIsClosed(c, s, action);
    }
  }

  // ---- over whole runs ----

  /** The action selects the active run for cancelling. */
  ghost predicate Selects(c: Config, s: State, action: Action) {
    && !IsTerminal(s.status)
    && (action == Select || action == Cancel || (action == Tick && TickCancels(c, s)))
  }

  /** Some cancel selected the run while it was active. */
  ghost predicate EverSelected(c: Config, held: bool, actions: seq<Action>) {
    actions != [] &&
    var init, last := actions[..|actions| - 1], actions[|actions| - 1];
    EverSelected(c, held, init) || Selects(c, Run(c, held, init), last)
  }

  lemma {:induction false} SelectedExactly(c: Config, held: bool, actions: seq<Action>)
    requires Wired(c.graph)
    ensures Run(c, held, actions).past.selected <==> EverSelected(c, held, actions)
  {
    if actions != [] {
      var init, last := actions[..|actions| - 1], actions[|actions| - 1];
      SelectedExactly(c, held, init);
      NextSelects(c, Run(c, held, init), last);
    }
  }

  lemma NextSelects(c: Config, s: State, action: Action)
    requires Wired(c.graph)
    ensures Next(c, s, action).past.selected <==> s.past.selected || Selects(c, s, action)
  {
    if action == Tick {
      AdvanceStatus(c, s);
    }
  }

  /**
   * When a terminal status is overwritten by CANCELLED, exactly: a cancel that
   * selected the run while it was active writes after it ended.
   */
  lemma OverwrittenExactly(c: Config, held: bool, actions: seq<Action>, action: Action)
    requires Wired(c.graph) && IsTerminal(Run(c, held, actions).status)
    ensures var s := Run(c, held, actions);
            Next(c, s, action).status == Cancelled && s.status != Cancelled <==>
            && s.status != Cancelled && EverSelected(c, held, actions)
            && (action == Cancel || (action == Tick && TickCancels(c, s) && !TickFails(c, s)))
  {
    RunIsGood(c, held, actions);
    SelectedExactly(c, held, actions);
    TerminalStatusExactly(c, Run(c, held, actions), action);
  }

  /** A cancel lands on the run. */
  ghost predicate Lands(c: Config, s: State, action: Action) {
    (action == Cancel && MayCancel(s)) || (action == Tick && TickCancels(c, s))
  }

  /** Some turn failed the run, and no cancel has landed since. */
  ghost predicate LastFailed(c: Config, held: bool, actions: seq<Action>) {
    actions != [] &&
    var init, last := actions[..|actions| - 1], actions[|actions| - 1];
    || (last == Tick && TickFails(c, Run(c, held, init)))
    || (LastFailed(c, held, init) && !Lands(c, Run(c, held, init), last))
  }

  /** A run is FAILED exactly when some turn of its drain failed it and no cancel has landed since. */
  lemma {:induction false} RunFailsExactly(c: Config, held: bool, actions: seq<Action>)
    requires Wired(c.graph)
    ensures Run(c, held, actions).status == Failed <==> LastFailed(c, held, actions)
  {
    if actions != [] {
      var init, last := actions[..|actions| - 1], actions[|actions| - 1];
      RunFailsExactly(c, held, init);
      if last == Tick {
        AdvanceStatus(c, Run(c, held, init));
      }
    }
  }

  /**
   * A CANCELLED run stays CANCELLED until its drain, still under way, comes to
   * a dispatch that fails; then, and only then, it becomes FAILED.
   */
  lemma CancelledFailsExactly(c: Config, s: State, action: Action)
    requires Wired(c.graph) && Good(c, s) && s.status == Cancelled
    ensures Next(c, s, action).status ==
            if action == Tick && s.phase == Draining && !Drained(c, s) && s.queue != [] && DispatchFails(c, s)
            then Failed else Cancelled
  {
    TerminalStatusExactly(c, s, action);
  }

  /** Over whole runs: of all continuations of a CANCELLED run, exactly those with such a dispatch since are FAILED. */
  lemma CancelledRunFailsExactly(c: Config, held: bool, actions: seq<Action>, more: seq<Action>)
    requires Wired(c.graph) && Run(c, held, actions).status == Cancelled
    ensures !LastFailed(c, held, actions)
    ensures Run(c, held, actions + more).status ==
            if LastFailed(c, held, actions + more) then Failed else Cancelled
  {
    RunFailsExactly(c, held, actions);
    RunFailsExactly(c, held, actions + more);
    TerminalForever(c, held, actions, more);
  }
}
