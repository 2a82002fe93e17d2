/**
 * How a run ends and what it leaves behind, over whole runs: when a terminal
 * counts as reached, when the run becomes COMPLETED or CANCELLED, what its rows
 * are billed, which joins are queued, and what a resume starts.
 */
module EngineEndings {
  import opened Outcomes
  import opened StateMerge
  import opened Graph
  import opened Dod
  import opened Backoff
  import opened EventLog
  import Exec = Executions
  import opened EngineState
  import opened EngineOps
  import opened EngineInvariants
  import opened EngineRuns
  import opened EngineEscapes
  import opened EngineFailures
  import opened EngineOutcomes

  // ---- finalization ----

  /** The status of an active, unfailed run when its drain is over. */
  ghost predicate IsFinalStatus(c: Config, s: State, status: Status) {
    var gate := c.world.gates(|s.log|);
    status == if gate.cancelled then Cancelled
              else if gate.writeFails then if gate.fallbackFails then s.status else Failed
              else if exists h | h in s.hitl :: h.pending then WaitingHuman
              else if !s.terminalReached then s.status
              else if c.dod.None? || IsMet(c, s) then Completed
              else Failed
  }

  /** The definition of done is met on what the run has, by the judgement of its gate. */
  ghost predicate IsMet(c: Config, s: State)
    requires c.dod.Some?
  {
    var gate := c.world.gates(|s.log|);
    DefinitionMet(gate.box, c.dod.value, s.shared, c.guards.maxTokens, Exec.TotalTokens(s.rows), gate.judgement)
  }

  /** Finalization reaches the gate and can write what it finds. */
  ghost predicate IsGated(c: Config, s: State) {
    var gate := c.world.gates(|s.log|);
    && c.dod.Some? && s.terminalReached && !gate.cancelled && !gate.writeFails
    && forall h | h in s.hitl :: !h.pending
  }

  ghost predicate IsFinalized(c: Config, s: State, t: State) {
    var gate := c.world.gates(|s.log|);
    if s.failed || s.status in {Completed, Failed, Cancelled} then t == s.(phase := Idle)
    else
      && t == s.(log := t.log, status := t.status, phase := t.phase, everRaised := t.everRaised,
                 past := s.past.(selected := s.past.selected || gate.cancelled))
      && IsFinalStatus(c, s, t.status)
      && t.phase == (if gate.writeFails && gate.fallbackFails then Raised else Idle)
      && (t.everRaised <==> s.everRaised || t.phase == Raised)
      && if IsGated(c, s) then
           exists d: Decision | IsLogged(s, t, DodEvaluated(d)) :: d.completed <==> IsMet(c, s)
         else t.log == s.log
  }

  lemma FinalizeMeans(c: Config, s: State)
    requires Gapless(s.log)
    ensures IsFinalized(c, s, Finalize(c, s))
  {
    FinishFrame(c, s);
    GaplessLast(s.log);
    FinalizeRaisesExactly(c, s);
    if !s.failed && !IsTerminal(s.status) {
      FinishWrites(c, s);
      FinalizeSelects(c, s);
      if c.dod.Some? {
        var gate := c.world.gates(|s.log|);
        DecideExact(gate.box, c.dod.value, s.shared, c.guards.maxTokens, Exec.TotalTokens(s.rows), gate.judgement);
      }
      if IsGated(c, s) {
        var d := Judged(c, s, c.dod.value, c.world.gates(|s.log|));
        assert GateDecision(c, s) == Some(d);
        assert IsLogged(s, Finalize(c, s), DodEvaluated(d));
      }
    }
  }

  // ---- a terminal is reached ----

  /** Since the run was last resumed, a branch ended or was routed to the terminal. */
  predicate ReachedSince(log: Log) {
    log != [] &&
    match log[|log| - 1].event
    case HitlResolved(_) => false
    case Terminate(_) => true
    case Route(_, to) => to == TERMINAL || ReachedSince(log[..|log| - 1])
    case _ => ReachedSince(log[..|log| - 1])
  }

  lemma TerminalMoves(c: Config, s: State, op: Op)
    requires Enabled(c, s, op)
    ensures Apply(c, s, op).terminalReached <==>
              || op.EndBranch? || (op.FireTo? && op.t == TERMINAL)
              || (s.terminalReached && !op.AnswerRequest? && !op.Take?)
  {
    if IsOutside(op) {
      OutsideTerminal(c, s, op);
    } else if !op.EndBranch? && !op.FireTo? {
      TerminalStays(c, s, op);
    }
  }

  lemma TerminalStays(c: Config, s: State, op: Op)
    requires Enabled(c, s, op) && !IsOutside(op) && !op.EndBranch? && !op.FireTo?
    ensures Apply(c, s, op).terminalReached == s.terminalReached
  {
    match op {
      case Finish => FinishFrame(c, s);
      case Persist(id, turn) => CommitFrame(c, s, id, turn);
      case EnterCommit(_, _) =>
      case Requeue(_, _) =>
      case Overflow(_) =>
      case Ask(_) =>
      case FailWith(_, _) =>
      case Open(_) =>
      case Escape =>
    }
  }

  lemma OutsideTerminal(c: Config, s: State, op: Op)
    requires Enabled(c, s, op) && IsOutside(op)
    ensures Apply(c, s, op).terminalReached <==> s.terminalReached && !op.AnswerRequest? && !op.Take?
  {
  }

  lemma ReachedMoves(c: Config, s: State, op: Op)
    requires Enabled(c, s, op) && (s.terminalReached <==> ReachedSince(s.log))
    ensures Apply(c, s, op).terminalReached <==> ReachedSince(Apply(c, s, op).log)
  {
    LogMoves(c, s, op);
    TerminalMoves(c, s, op);
    if EventOf(c, s, op).Some? {
      AppendReached(s.log, EventOf(c, s, op).value);
    }
  }

  lemma AppendReached(log: Log, event: Event)
    ensures ReachedSince(Append(log, event)) <==>
              || event.Terminate? || (event.Route? && event.to == TERMINAL)
              || (ReachedSince(log) && !event.HitlResolved?)
  {
    assert Append(log, event)[..|log|] == log;
  }

  lemma {:induction false} ReachedAlong(c: Config, s: State, path: Path)
    requires AllEnabled(c, s, path) && (s.terminalReached <==> ReachedSince(s.log))
    ensures ApplyAll(c, s, path).terminalReached <==> ReachedSince(ApplyAll(c, s, path).log)
  {
    match path {
      case Here =>
      case After(earlier, op) =>
        ReachedAlong(c, s, earlier);
        ReachedMoves(c, ApplyAll(c, s, earlier), op);
    }
  }

  /** What the drain keeps in memory is what the log says since the last resume. */
  lemma {:induction false} TerminalReachedExactly(c: Config, held: bool, actions: seq<Action>)
    requires Wired(c.graph)
    ensures Run(c, held, actions).terminalReached <==> ReachedSince(Run(c, held, actions).log)
  {
    if actions != [] {
      var init := actions[..|actions| - 1];
      TerminalReachedExactly(c, held, init);
      RunIsGood(c, held, init);
      var path := NextPath(c, Run(c, held, init), actions[|actions| - 1]);
      ReachedAlong(c, Run(c, held, init), path);
    }
  }

  /**
   * When a run becomes COMPLETED, exactly: its drain is over, nothing failed
   * it and nobody is asked, a terminal was reached since it was last resumed,
   * the gate's write goes through with no cancel before it, and the definition
   * of done, if there is one, is met.
   */
  lemma CompletesExactly(c: Config, held: bool, actions: seq<Action>, action: Action)
    requires Wired(c.graph) && Run(c, held, actions).status != Completed
    ensures var s := Run(c, held, actions);
            Next(c, s, action).status == Completed <==>
            && action == Tick && s.phase == Ending && !s.failed && !IsTerminal(s.status) && !PendingHitl(s)
            && ReachedSince(s.log)
            && !c.world.gates(|s.log|).cancelled && !c.world.gates(|s.log|).writeFails
            && (c.dod.None? || IsMet(c, s))
  {
    TerminalReachedExactly(c, held, actions);
    RunIsGood(c, held, actions);
    var s := Run(c, held, actions);
    if action == Tick && s.phase == Ending {
      FinalizeMeans(c, s);
    } else if action == Tick && s.phase == Draining && !Drained(c, s) && s.queue != [] {
      DispatchStatus(c, s);
    }
  }

  /** Some cancel has landed on the run, and no turn of its drain has failed it since. */
  ghost predicate LastCancelled(c: Config, held: bool, actions: seq<Action>) {
    actions != [] &&
    var init, last := actions[..|actions| - 1], actions[|actions| - 1];
    && !(last == Tick && TickFails(c, Run(c, held, init)))
    && (LastCancelled(c, held, init) || Lands(c, Run(c, held, init), last))
  }

  /** A run is CANCELLED exactly when a cancel has landed and no turn has failed the run since. */
  lemma {:induction false} CancelledExactly(c: Config, held: bool, actions: seq<Action>)
    requires Wired(c.graph)
    ensures Run(c, held, actions).status == Cancelled <==> LastCancelled(c, held, actions)
  {
    if actions != [] {
      var init, last := actions[..|actions| - 1], actions[|actions| - 1];
      CancelledExactly(c, held, init);
      NextCancels(c, Run(c, held, init), last);
    }
  }

  lemma NextCancels(c: Config, s: State, action: Action)
    requires Wired(c.graph)
    ensures Next(c, s, action).status == Cancelled <==>
            !(action == Tick && TickFails(c, s)) && (s.status == Cancelled || Lands(c, s, action))
  {
    if action == Tick {
      AdvanceStatus(c, s);
    }
  }

  // ---- tokens ----

  /** What a turn adds to its attempt's row: its tokens, if it is committed or its rejection recorded. */
  function BilledFor(c: Config, s: State, turn: Turn): nat {
    if !turn.Finished? || IsUnreadable(c, turn) || !turn.writable then 0
    else if IsWithin(c, s, turn) && !(turn.persists && Merge(c.fields, s.shared, turn.delta).Ok?) then 0
    else turn.usage.input + turn.usage.output
  }

  lemma {:induction false} MarkBills(rows: Exec.Rows, i: nat, status: Exec.RowStatus, usage: Option<Usage>)
    requires i < |rows|
    ensures Exec.TotalTokens(Exec.Mark(rows, i, status, usage)) ==
            Exec.TotalTokens(rows) +
            if usage.Some? then usage.value.input + usage.value.output - rows[i].input - rows[i].output else 0
  {
    Exec.MarkPrefix(rows, i, status, usage);
    if i < |rows| - 1 {
      MarkBills(rows[..|rows| - 1], i, status, usage);
    }
  }

  /** Failing the run bills its open attempt what the turn spent, and otherwise nothing. */
  lemma FailBills(s: State, id: string, usage: Option<Usage>)
    requires usage.Some? ==> IsOpen(s, id)
    ensures Exec.TotalTokens(MarkRunFailed(s, id, usage).rows) ==
            Exec.TotalTokens(s.rows) + if usage.Some? then usage.value.input + usage.value.output else 0
  {
    var i := Exec.Latest(s.rows, id);
    if i >= 0 {
      MarkBills(s.rows, i, Exec.Failed, usage);
    }
  }

  lemma LastBills(s: State, id: string, status: Exec.RowStatus, usage: Option<Usage>)
    requires usage.Some? ==> IsOpen(s, id)
    ensures Exec.TotalTokens(MarkLast(s, status, usage).rows) ==
            Exec.TotalTokens(s.rows) + if usage.Some? then usage.value.input + usage.value.output else 0
  {
    if s.rows != [] {
      MarkBills(s.rows, |s.rows| - 1, status, usage);
    }
  }

  lemma RouteBills(c: Config, s: State, node: Node)
    ensures Exec.TotalTokens(RouteFrom(c, s, node).rows) == Exec.TotalTokens(s.rows)
  {
    match ChooseRoute(c, node, s) {
      case Fire(e) => FireAllFrame(c, s, node.id, e.to);
      case AskHuman => LastBills(s, node.id, Exec.WaitingHuman, None);
      case NoRoute => FailBills(s, node.id, None);
      case _ =>
    }
  }

  lemma TurnBills(c: Config, s: State, node: Node, streak: nat, turn: Turn)
    requires IsOpen(s, node.id)
    ensures Exec.TotalTokens(SettleTurn(c, s, node, streak, turn).rows) ==
            Exec.TotalTokens(s.rows) + BilledFor(c, s, turn)
  {
    FailBills(s, node.id, None);
    if turn.Finished? {
      RulesExactly(c, s, turn);
      FailBills(s, node.id, Some(turn.usage));
      if RuleOn(c, s, turn) == Accepted && CommitTurn(c, s, node.id, turn).Some? {
        CommitBills(c, s, node, turn);
      }
    } else if turn.Transient? {
      LastBills(s, node.id, Exec.Failed, None);
    }
  }

  lemma CommitBills(c: Config, s: State, node: Node, turn: Turn)
    requires IsOpen(s, node.id) && turn.Finished? && CommitTurn(c, s, node.id, turn).Some?
    ensures var committed := CommitTurn(c, s, node.id, turn).value;
            Exec.TotalTokens(RouteFrom(c, committed, node).rows) ==
            Exec.TotalTokens(s.rows) + turn.usage.input + turn.usage.output
  {
    CommitFrame(c, s, node.id, turn);
    LastBills(s, node.id, Exec.Succeeded, Some(turn.usage));
    RouteBills(c, CommitTurn(c, s, node.id, turn).value, node);
  }

  /** What one turn of the loop adds to the run's tokens. */
  ghost function BilledBy(c: Config, s: State): nat {
    if s.phase != Draining || Drained(c, s) || s.queue == [] || !ReachesTurn(c, s) then 0
    else
      var run := c.world.turns(|s.rows|);
      BilledFor(c, TurnState(c, Begin(s.(queue := s.queue[1..]), s.queue[0]), c.graph.nodesById[s.queue[0]], run),
                run.turn)
  }

  lemma AdvanceBills(c: Config, s: State)
    requires Wired(c.graph) && Good(c, s)
    ensures Exec.TotalTokens(Advance(c, s).rows) == Exec.TotalTokens(s.rows) + BilledBy(c, s)
  {
    if s.phase == Ending {
      FinishFrame(c, s);
    } else if s.phase == Draining && !Drained(c, s) && s.queue != [] {
      DispatchBills(c, s);
    }
  }

  lemma DispatchBills(c: Config, s: State)
    requires Wired(c.graph) && Good(c, s) && s.phase == Draining && s.queue != [] && !Drained(c, s)
    ensures Exec.TotalTokens(Dispatch(c, s).rows) == Exec.TotalTokens(s.rows) + BilledBy(c, s)
  {
    if ReachesTurn(c, s) {
      OpenedBills(c, s);
    } else {
      UnturnedBills(c, s);
    }
  }

  lemma OpenedBills(c: Config, s: State)
    requires Wired(c.graph) && Settled(s) && s.queue != [] && ReachesTurn(c, s)
    ensures var run := c.world.turns(|s.rows|);
            Exec.TotalTokens(Dispatch(c, s).rows) ==
            Exec.TotalTokens(s.rows) +
            BilledFor(c, TurnState(c, Begin(s.(queue := s.queue[1..]), s.queue[0]), c.graph.nodesById[s.queue[0]], run),
                      run.turn)
  {
    var id, popped, streak := s.queue[0], s.(queue := s.queue[1..]), Exec.Streak(s.rows, s.queue[0]);
    var node, run := c.graph.nodesById[id], c.world.turns(|s.rows|);
    BeginBills(s, id);
    BeginOpens(s, id);
    AttemptBills(c, Begin(popped, id), node, streak, run);
    assert Dispatch(c, s) == Attempt(c, Begin(popped, id), node, streak, run);
  }

  /** A dispatch that comes to no turn: a spent guard, an unknown node, no agent, or a refused mutation. */
  lemma UnturnedBills(c: Config, s: State)
    requires s.queue != [] && !ReachesTurn(c, s)
    ensures Exec.TotalTokens(Dispatch(c, s).rows) == Exec.TotalTokens(s.rows)
  {
    FailBills(s.(queue := s.queue[1..]), s.queue[0], None);
    BeginBills(s, s.queue[0]);
  }

  lemma BeginBills(s: State, id: string)
    requires s.queue != []
    ensures Exec.TotalTokens(Begin(s.(queue := s.queue[1..]), id).rows) == Exec.TotalTokens(s.rows)
  {
    Exec.NewRowCounts(s.rows, id, s.nextId, 0);
  }

  lemma AttemptBills(c: Config, s: State, node: Node, streak: nat, run: TurnRun)
    requires IsOpen(s, node.id) && node.agentBacked && Enter(c, s, node).Some?
    ensures Exec.TotalTokens(Attempt(c, s, node, streak, run).rows) ==
            Exec.TotalTokens(s.rows) + BilledFor(c, TurnState(c, s, node, run), run.turn)
  {
    EnterOpens(c, s, node);
    TurnBills(c, TurnState(c, s, node, run), node, streak, run.turn);
  }

  /** What all turns of the loop so far added. */
  ghost function Billed(c: Config, held: bool, actions: seq<Action>): nat {
    if actions == [] then 0
    else
      var init := actions[..|actions| - 1];
      Billed(c, held, init) + if actions[|actions| - 1] == Tick then BilledBy(c, Run(c, held, init)) else 0
  }

  /** The run's tokens are those of its committed and its recorded rejected turns, each counted once. */
  lemma {:induction false} TokensAreConserved(c: Config, held: bool, actions: seq<Action>)
    requires Wired(c.graph)
    ensures Exec.TotalTokens(Run(c, held, actions).rows) == Billed(c, held, actions)
  {
    if actions != [] {
      var init, last := actions[..|actions| - 1], actions[|actions| - 1];
      TokensAreConserved(c, held, init);
      RunIsGood(c, held, init);
      if last == Tick {
        AdvanceBills(c, Run(c, held, init));
      }
    }
  }

  // ---- complete joins ----

  /** All the node's sources have arrived since it last committed. */
  ghost predicate IsComplete(c: Config, log: Log, id: string) {
    && c.graph.IsJoinAll(id) && id != TERMINAL
    && c.graph.InboundSources(id) != {} && c.graph.InboundSources(id) <= Arrivals(log, id)
  }

  ghost predicate IsRunning(s: State, id: string) {
    s.rows != [] && s.rows[|s.rows| - 1].node == id && s.rows[|s.rows| - 1].status == Exec.Running
  }

  ghost predicate CompleteHeld(c: Config, s: State) {
    Clean(s) ==> forall id | IsComplete(c, s.log, id) :: id in s.queue || IsRunning(s, id)
  }

  lemma CompleteKept(c: Config, s: State, op: Op)
    requires Gapless(s.log) && CompleteHeld(c, s) && Enabled(c, s, op)
    ensures CompleteHeld(c, Apply(c, s, op))
  {
    if Clean(Apply(c, s, op)) {
      CleanBefore(c, s, op);
      forall id | IsComplete(c, Apply(c, s, op).log, id)
        ensures id in Apply(c, s, op).queue || IsRunning(Apply(c, s, op), id)
      {
        CompleteStep(c, s, op, id);
      }
    }
  }

  lemma CompleteStep(c: Config, s: State, op: Op, id: string)
    requires Gapless(s.log) && Clean(s) && Enabled(c, s, op) && !op.FailWith? && !op.Escape? && !op.Overflow?
    requires IsComplete(c, s.log, id) ==> id in s.queue || IsRunning(s, id)
    requires IsComplete(c, Apply(c, s, op).log, id)
    ensures id in Apply(c, s, op).queue || IsRunning(Apply(c, s, op), id)
  {
    QueueMoves(c, s, op);
    RowsMove(c, s, op);
    ArrivalsMove(c, s, op, id);
  }

  /** Only firing to a node completes it, and then it is queued; its own commit empties it. */
  lemma ArrivalsMove(c: Config, s: State, op: Op, id: string)
    requires Gapless(s.log) && Enabled(c, s, op) && IsComplete(c, Apply(c, s, op).log, id)
    ensures IsComplete(c, s.log, id) || (op.FireTo? && op.t == id && id in Apply(c, s, op).queue)
    ensures (op.Persist? || op.EnterCommit?) ==> op.id != id
  {
    LogMoves(c, s, op);
    var event := EventOf(c, s, op);
    if event.Some? {
      AppendArrivals(s.log, event.value, id);
      if event.value.Route? && event.value.to == id {
        assert op == FireTo(event.value.from, id);
        JoinEnters(c, s, event.value.from, id);
      }
    }
  }

  lemma {:induction false} CompleteAlong(c: Config, s: State, path: Path)
    requires Wired(c.graph) && Inv(c, s) && StatusHeld(c, s) && AllEnabled(c, s, path) && CompleteHeld(c, s)
    ensures CompleteHeld(c, ApplyAll(c, s, path))
  {
    match path {
      case Here =>
      case After(earlier, op) =>
        KeptAlong(c, s, earlier);
        CompleteAlong(c, s, earlier);
        CompleteKept(c, ApplyAll(c, s, earlier), op);
    }
  }

  lemma {:induction false} RunKeepsComplete(c: Config, held: bool, actions: seq<Action>)
    requires Wired(c.graph)
    ensures CompleteHeld(c, Run(c, held, actions))
  {
    if actions != [] {
      var init := actions[..|actions| - 1];
      RunKeepsComplete(c, held, init);
      RunIsGood(c, held, init);
      var path := NextPath(c, Run(c, held, init), actions[|actions| - 1]);
      CompleteAlong(c, Run(c, held, init), path);
    }
  }

  /**
   * No join is forgotten: between the actions of a clean run, a join-all node
   * whose sources have all arrived since its last commit is in the queue.
   */
  lemma CompleteJoinsAreQueued(c: Config, held: bool, actions: seq<Action>, id: string)
    requires Wired(c.graph) && Clean(Run(c, held, actions)) && IsComplete(c, Run(c, held, actions).log, id)
    ensures id in Run(c, held, actions).queue
  {
    RunKeepsComplete(c, held, actions);
    RunIsGood(c, held, actions);
    var s := Run(c, held, actions);
    if s.rows != [] {
      assert s.rows[|s.rows| - 1] in s.rows;
    }
  }

  /** Held joins are promoted in the order their nodes are declared. */
  lemma PromotedInOrder(c: Config, s: State, i: nat, j: nat) returns (k: nat, l: nat)
    requires i < j < |PendingJoins(c, s)|
    ensures k < l < |c.graph.nodes| && c.graph.nodes[k].joinAll && c.graph.nodes[l].joinAll
    ensures PendingJoins(c, s)[i] == c.graph.nodes[k].id && PendingJoins(c, s)[j] == c.graph.nodes[l].id
  {
    var a, b := PendingInOrder(s, c.graph.JoinAllNodes(), i, j);
    k, l := JoinsInOrder(c.graph.nodes, a, b);
  }

  lemma {:induction false} JoinsInOrder(nodes: seq<Node>, i: nat, j: nat) returns (k: nat, l: nat)
    requires i < j < |JoinAllAmong(nodes)|
    ensures k < l < |nodes| && nodes[k].joinAll && nodes[l].joinAll
    ensures JoinAllAmong(nodes)[i] == nodes[k].id && JoinAllAmong(nodes)[j] == nodes[l].id
  {
    var first := if nodes[0].joinAll then 1 else 0;
    if i < first {
      k := 0;
      l := JoinIsListed(nodes[1..], j - 1);
    } else {
      k, l := JoinsInOrder(nodes[1..], i - first, j - first);
      k := k + 1;
    }
    l := l + 1;
  }

  lemma {:induction false} JoinIsListed(nodes: seq<Node>, i: nat) returns (k: nat)
    requires i < |JoinAllAmong(nodes)|
    ensures k < |nodes| && nodes[k].joinAll && JoinAllAmong(nodes)[i] == nodes[k].id
  {
    var first := if nodes[0].joinAll then 1 else 0;
    if i < first {
      k := 0;
    } else {
      k := JoinIsListed(nodes[1..], i - first);
      k := k + 1;
    }
  }

  lemma {:induction false} PendingInOrder(s: State, ids: seq<string>, i: nat, j: nat)
    returns (k: nat, l: nat)
    requires i < j < |PendingAmong(s, ids)|
    ensures k < l < |ids| && PendingAmong(s, ids)[i] == ids[k] && PendingAmong(s, ids)[j] == ids[l]
  {
    var init := ids[..|ids| - 1];
    var earlier := PendingAmong(s, init);
    if j < |earlier| {
      k, l := PendingInOrder(s, init, i, j);
    } else {
      k := PendingIsListed(s, init, i);
      l := |init|;
    }
  }

  lemma {:induction false} PendingIsListed(s: State, ids: seq<string>, i: nat) returns (k: nat)
    requires i < |PendingAmong(s, ids)|
    ensures k < |ids| && PendingAmong(s, ids)[i] == ids[k]
  {
    var init := ids[..|ids| - 1];
    if i < |PendingAmong(s, init)| {
      k := PendingIsListed(s, init, i);
    } else {
      k := |init|;
    }
  }

  // ---- attempts ----

  /** Every dispatch of every run does exactly what the tables, the declared edges and the guards say. */
  lemma EveryDispatchIsDeclared(c: Config, doc: Workflow, held: bool, actions: seq<Action>)
    requires Wired(c.graph) && Represents(c.graph, doc)
    requires var s := Run(c, held, actions); s.phase == Draining && !Drained(c, s) && s.queue != []
    ensures IsDispatched(c, doc, Run(c, held, actions), Run(c, held, actions + [Tick]))
  {
    RunIsGood(c, held, actions);
    RunAppends(c, held, actions, Tick);
    DispatchMeans(c, doc, Run(c, held, actions));
  }

  /** And every finalization what the gate says. */
  lemma EveryFinalizationIsDeclared(c: Config, held: bool, actions: seq<Action>)
    requires Wired(c.graph) && Run(c, held, actions).phase == Ending
    ensures IsFinalized(c, Run(c, held, actions), Run(c, held, actions + [Tick]))
  {
    RunIsGood(c, held, actions);
    RunAppends(c, held, actions, Tick);
    FinalizeMeans(c, Run(c, held, actions));
  }

  /** In every run the attempts of a node are numbered 1, 2, 3, ..., and its streak is its trailing failures. */
  lemma AttemptsAreCounted(c: Config, held: bool, actions: seq<Action>, i: nat)
    requires Wired(c.graph) && i < |Run(c, held, actions).rows|
    ensures var rows := Run(c, held, actions).rows;
            rows[i].attempt == |Exec.Of(rows[..i], rows[i].node)| + 1
  {
    RunIsGood(c, held, actions);
    Exec.AttemptsAreNumbered(Run(c, held, actions).rows, i);
  }

  /** The action resumes the run at node `id`, with its own request or another run's. */
  predicate Resumes(s: State, action: Action, id: string) {
    || (action.Answer? && Answerable(s, action.request) && s.hitl[action.request].node == id)
    || (action == AnswerForeign(id) && Resumable(s))
  }

  /**
   * A resume drains the run at the request's node, whatever state it was left
   * in: the next turn dispatches that node, or fails the run if its retries or
   * the run's steps are spent. An own request is then no longer pending.
   */
  lemma ResumeIsDispatched(c: Config, doc: Workflow, held: bool, actions: seq<Action>, action: Action, id: string)
    requires Wired(c.graph) && Represents(c.graph, doc) && Resumes(Run(c, held, actions), action, id)
    ensures var s, t := Run(c, held, actions), Run(c, held, actions + [action]);
            && t == s.(queue := [id], terminalReached := false, failed := false, phase := Draining,
                       log := t.log, hitl := t.hitl, past := t.past)
            && IsLogged(s, t, HitlResolved(id))
            && t.hitl == (if action.Answer? then s.hitl[action.request := HitlRequest(id, false)] else s.hitl)
            && IsDispatched(c, doc, t, Run(c, held, actions + [action] + [Tick]))
  {
    RunIsGood(c, held, actions);
    RunAppends(c, held, actions, action);
    GaplessLast(Run(c, held, actions).log);
    EveryDispatchIsDeclared(c, doc, held, actions + [action]);
  }

  /** The engine waits 1, 2, 4, 8 and 16 seconds after a node's first failures in a row and 30 after any more. */
  lemma {:induction false} RetrySchedule(k: nat)
    requires k >= 1
    ensures Ceiling(k, RETRY_BASE, RETRY_CAP) == if k > 5 then 30.0 else [1.0, 2.0, 4.0, 8.0, 16.0][k - 1]
  {
    if k > 1 {
      RetrySchedule(k - 1);
      CeilingDoubles(k - 1, RETRY_BASE, RETRY_CAP);
    }
  }
}
