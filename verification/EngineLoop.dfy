/**
 * The engine loop as the source writes it: one object whose fields are the
 * run's context and tables, updated in place. Every method is proved to take
 * the whole state where the corresponding function of EngineState takes it.
 */
module EngineLoop {
  import opened Outcomes
  import opened StateMerge
  import opened Graph
  import opened Dod
  import opened Backoff
  import opened EventLog
  import Exec = Executions
  import opened EngineState
  import opened EngineRuns

  /** The row `resume_hitl` finds for the id it is given. */
  datatype Found = Missing | Own(request: nat) | Foreign(node: string, pending: bool)

  predicate IsPendingFor(s: State, found: Found) {
    match found
    case Missing => false
    case Own(i) => IsPendingAt(s, i)
    case Foreign(_, pending) => pending
  }

  function AnswerFound(s: State, found: Found): State
    requires IsPendingFor(s, found)
  {
    match found
    case Own(i) => AnswerHitl(s, i)
    case Foreign(node, _) => TakeAnswer(s, node)
  }

  class Engine {
    const c: Config

    // _RunCtx
    var queue: seq<string>
    var terminalReached: bool
    var failed: bool
    // run row
    var status: Status
    var shared: Shared
    var version: nat
    // other tables
    var rows: Exec.Rows
    var log: Log
    var hitl: seq<HitlRequest>
    // sleeps requested, ids minted
    var sleeps: seq<Sleep>
    var nextId: nat
    // set while a drain runs; an exception leaves it Raised
    var phase: Phase
    var everRaised: bool
    // what other processes did
    var past: Past

    ghost function Snap(): State
      reads this
    {
      State(queue, terminalReached, failed, status, shared, version, rows, log, hitl, sleeps, nextId,
            phase, everRaised, past)
    }

    /** The INSERT of `start_run`; the drain of a run that is not held follows separately. */
    constructor (config: Config, held: bool)
      ensures c == config && Snap() == Start(config, held)
    {
      c := config;
      queue := if held then [] else [config.graph.entry];
      terminalReached, failed := false, false;
      status := if held then Pending else Running;
      shared, version := config.initial, 0;
      rows, log, hitl, sleeps := [], [], [], [];
      nextId, everRaised := 0, false;
      phase := if held then Held else Draining;
      past := Past(!held, false, false, [], []);
    }

    /** An exception on its way out of the drain. */
    method Escape()
      modifies this
      ensures Snap() == Raise(old(Snap()))
    {
      phase := Raised;
      everRaised := true;
    }

    method LogEvent(event: Event)
      modifies this
      ensures Snap() == Logged(old(Snap()), event)
    {
      log := log + [Entry(LastSequence(log) + 1, event)];
    }

    /** `_consecutive_failures`: the node's rows from the latest back, until one did not fail. */
    method ConsecutiveFailures(id: string) returns (count: nat)
      ensures count == Exec.Streak(rows, id)
    {
      count := 0;
      var i := |rows|;
      assert rows[..i] == rows;
      while i > 0
        invariant 0 <= i <= |rows|
        invariant count + Exec.Streak(rows[..i], id) == Exec.Streak(rows, id)
      {
        i := i - 1;
        assert rows[..i + 1][..i] == rows[..i];
        if rows[i].node == id {
          if rows[i].status != Exec.Failed {
            return;
          }
          count := count + 1;
        }
      }
    }

    /** `_fail_run`; text or a record that cannot be written takes the whole transaction with it. */
    method FailRun(id: string, usage: Option<Usage>, writable: bool)
      modifies this
      ensures Snap() == EngineState.FailRun(old(Snap()), id, usage, writable)
    {
      var i := Exec.Latest(rows, id);
      var saved := rows;
      if i >= 0 {
        rows := rows[i := rows[i].(status := Exec.Failed)];
        if usage.Some? {
          rows := rows[i := rows[i].(input := usage.value.input, output := usage.value.output)];
        }
      }
      if !writable && (usage.None? || i >= 0) {
        rows := saved; // rollback
        Escape();
        return;
      }
      status := Failed;
      LogEvent(Fail(id));
      failed := true;
      queue := [];
    }

    /** `_commit_state`; false when the merge raises. */
    method CommitState(id: string, delta: Delta) returns (ok: bool)
      modifies this
      ensures ok <==> CommitDelta(c, old(Snap()), id, delta).Some?
      ensures Snap() == CommitDelta(c, old(Snap()), id, delta).GetOr(old(Snap()))
    {
      var merged := MergeDelta(c.fields, shared, delta);
      if merged.Err? {
        return false;
      }
      var before := version;
      shared := merged.value;
      version := before + 1;
      LogEvent(Commit(id, delta, before, before + 1));
      ok := true;
    }

    /** `_commit_turn` with no rival writer; false when it raises and rolls back. */
    method CommitTurn(id: string, turn: Turn) returns (ok: bool)
      requires turn.Finished?
      modifies this
      ensures ok <==> EngineState.CommitTurn(c, old(Snap()), id, turn).Some?
      ensures Snap() == EngineState.CommitTurn(c, old(Snap()), id, turn).GetOr(old(Snap()))
    {
      if !turn.writable || !turn.persists {
        return false;
      }
      ok := CommitState(id, turn.delta);
      if ok && rows != [] {
        rows := rows[|rows| - 1 := rows[|rows| - 1].(status := Exec.Succeeded,
                                                     input := turn.usage.input, output := turn.usage.output)];
      }
    }

    /** `_edge_is_loop_capped` */
    method EdgeIsLoopCapped(f: string, e: Edge) returns (capped: bool)
      ensures capped <==> IsCapped(c, log, f, e)
    {
      for i := 0 to |e.to|
        invariant forall t | t in e.to[..i] ::
            LoopKey(f, t) in c.guards.loopCaps ==> RouteCount(log, f, t) < c.guards.loopCaps[LoopKey(f, t)]
      {
        var t := e.to[i];
        assert e.to[..i + 1] == e.to[..i] + [t];
        if LoopKey(f, t) in c.guards.loopCaps && RouteCount(log, f, t) >= c.guards.loopCaps[LoopKey(f, t)] {
          return true;
        }
      }
      assert e.to[..|e.to|] == e.to;
      capped := false;
    }

    /** `_fire_edge` */
    method FireEdge(f: string, targets: seq<string>)
      modifies this
      ensures Snap() == FireAll(c, old(Snap()), f, targets)
    {
      for i := 0 to |targets|
        invariant Snap() == FireAll(c, old(Snap()), f, targets[..i])
      {
        assert targets[..i + 1][..i] == targets[..i];
        FireTarget(f, targets[i]);
      }
      assert targets[..|targets|] == targets;
    }

    method FireTarget(f: string, target: string)
      modifies this
      ensures Snap() == FireOne(c, old(Snap()), f, target)
    {
      LogEvent(EventLog.Route(f, target));
      if target == TERMINAL {
        terminalReached := true;
      } else if c.graph.IsJoinAll(target) {
        var arrivals := Arrivals(log, target);
        if c.graph.InboundSources(target) <= arrivals && target !in queue {
          queue := queue + [target];
        }
      } else {
        queue := queue + [target];
      }
    }

    method RaiseHitl(id: string)
      modifies this
      ensures Snap() == EngineState.RaiseHitl(old(Snap()), id)
    {
      if rows != [] {
        rows := rows[|rows| - 1 := rows[|rows| - 1].(status := Exec.WaitingHuman)];
      }
      hitl := hitl + [HitlRequest(id, true)];
      LogEvent(HitlRaised(id));
    }

    /** The edge loop of `_route`: the first edge neither capped nor false, if any. */
    method FirstRoutable(node: Node) returns (found: Option<Edge>)
      ensures found == FirstLive(c.graph.Conditional(node.id), NotSkipped(c, Snap(), node.id))
    {
      var conditional := c.graph.Conditional(node.id);
      ghost var live := NotSkipped(c, Snap(), node.id);
      for i := 0 to |conditional|
        invariant FirstLive(conditional[..i], live) == None
      {
        var e := conditional[i];
        FirstLiveExtends(conditional, i, live);
        var capped := EdgeIsLoopCapped(node.id, e);
        if capped {
          continue;
        }
        if ConditionAt(c, |rows|, shared, e) != Fails {
          FirstLiveStays(conditional, i + 1, live);
          return Some(e);
        }
      }
      assert conditional[..|conditional|] == conditional;
      found := None;
    }

    /** `_route` */
    method Route(node: Node)
      modifies this
      ensures Snap() == RouteFrom(c, old(Snap()), node)
    {
      var edge := FirstRoutable(node);
      if edge.Some? {
        if ConditionAt(c, |rows|, shared, edge.value) == Raises {
          Escape();
        } else {
          FireEdge(node.id, edge.value.to);
        }
        return;
      }
      if node.hitl.Some? && node.hitl.value.enabled {
        var asks := TriggerAt(c, |rows|, shared, node);
        if asks == Raises {
          Escape();
          return;
        }
        if asks == Holds {
          RaiseHitl(node.id);
          return;
        }
      }
      var fallback := c.graph.Default(node.id);
      if fallback.Some? {
        FireEdge(node.id, fallback.value.to);
        return;
      }
      if c.graph.HasOutgoingEdges(node.id) {
        FailRun(node.id, None, true);
        return;
      }
      LogEvent(Terminate(node.id));
      terminalReached := true;
    }

    /** The turn's outcome: retry, rejection, or commit and route. */
    method SettleTurn(node: Node, failures: nat, turn: Turn)
      modifies this
      ensures Snap() == EngineState.SettleTurn(c, old(Snap()), node, failures, turn)
    {
      match turn {
        case Transient(recordable) =>
          Requeue(node.id, failures + 1, recordable);
        case Broken(recordable) =>
          FailRun(node.id, None, recordable);
        case Finished(_, usage, toolCalls, repairs, writable, _, explains) =>
          if toolCalls.None? {
            Escape();
            return;
          }
          if toolCalls.value > c.guards.maxToolCalls {
            FailRun(node.id, Some(usage), writable);
            return;
          }
          if repairs.None? {
            Escape();
            return;
          }
          if repairs.value > c.guards.maxRepairs {
            FailRun(node.id, Some(usage), writable);
            return;
          }
          if ExceedsCap(c.guards.maxTokens, Exec.TotalTokens(rows), usage.Total()) {
            FailRun(node.id, Some(usage), writable);
            return;
          }
          var ok := CommitTurn(node.id, turn);
          if ok {
            Route(node);
          } else {
            FailRun(node.id, None, explains);
          }
      }
    }

    /** The transient branch of `_dispatch`. */
    method Requeue(id: string, streak: nat, recordable: bool)
      requires streak >= 1
      modifies this
      ensures Snap() == Retry(c, old(Snap()), id, streak, recordable)
    {
      if !recordable {
        Escape();
        return;
      }
      if rows != [] {
        rows := rows[|rows| - 1 := rows[|rows| - 1].(status := Exec.Failed)];
      }
      if streak > c.guards.maxRetries {
        queue := [id] + queue;
        return;
      }
      if Overflows(streak) {
        Escape();
        return;
      }
      sleeps := sleeps + [Sleep(streak, Delay(streak, RETRY_BASE, RETRY_CAP, c.world.rng(|sleeps|)))];
      queue := [id] + queue;
    }

    /** `_dispatch` from the agent lookup on, for an attempt already inserted. */
    method RunAttempt(node: Node, failures: nat, run: TurnRun)
      modifies this
      ensures Snap() == Attempt(c, old(Snap()), node, failures, run)
    {
      if !node.agentBacked {
        Escape();
        return;
      }
      if node.onEnter.Some? {
        var delta := c.world.enter(|rows|, node.onEnter.value, shared);
        if delta.None? {
          Escape();
          return;
        }
        var ok := CommitState(node.id, delta.value);
        if !ok {
          Escape();
          return;
        }
      }
      if run.cancelled {
        CancelFromOutside();
      }
      SettleTurn(node, failures, run.turn);
    }

    /** The INSERT that opens an attempt. */
    method InsertAttempt(id: string)
      modifies this
      ensures Snap() == Begin(old(Snap()), id)
    {
      rows := rows + [Exec.Row(id, Exec.MaxAttempt(rows, id) + 1, Exec.VisitFor(rows, id, nextId),
                               Exec.Running, 0, 0)];
      nextId := nextId + 1;
    }

    /** `_dispatch` */
    method Dispatch()
      requires queue != []
      modifies this
      ensures Snap() == EngineState.Dispatch(c, old(Snap()))
    {
      var id := queue[0];
      queue := queue[1..];
      var failures := ConsecutiveFailures(id);
      if failures > c.guards.maxRetries || |rows| >= c.guards.maxTotalSteps {
        FailRun(id, None, true);
        return;
      }
      var run := c.world.turns(|rows|);
      InsertAttempt(id);
      if id in c.graph.nodesById {
        RunAttempt(c.graph.nodesById[id], failures, run);
      } else {
        Escape();
      }
    }

    /** `_pending_joins` */
    method PendingJoins() returns (pending: seq<string>)
      ensures pending == EngineState.PendingJoins(c, Snap())
    {
      var joins := c.graph.JoinAllNodes();
      pending := [];
      for i := 0 to |joins|
        invariant pending == PendingAmong(Snap(), joins[..i])
      {
        assert joins[..i + 1][..i] == joins[..i];
        if joins[i] in queue {
          continue;
        }
        var arrivals := Arrivals(log, joins[i]);
        if arrivals != {} {
          pending := pending + [joins[i]];
        }
      }
      assert joins[..|joins|] == joins;
    }

    /** The loop that promotes the held joins. */
    method PushAll(ids: seq<string>)
      modifies this
      ensures Snap() == old(Snap()).(queue := old(queue) + ids)
    {
      for i := 0 to |ids|
        invariant Snap() == old(Snap()).(queue := old(queue) + ids[..i])
      {
        assert old(queue) + ids[..i + 1] == old(queue) + ids[..i] + [ids[i]];
        queue := queue + [ids[i]];
      }
      assert ids[..|ids|] == ids;
    }

    /** One turn of the drain loop; true when the loop is left. */
    method DrainTurn() returns (done: bool)
      requires phase == Draining && !failed
      modifies this
      ensures done <==> Drained(c, old(Snap()))
      ensures Snap() == if done then old(Snap()) else Iterate(c, old(Snap()))
    {
      if queue != [] {
        Dispatch();
        return false;
      }
      if exists h | h in hitl :: h.pending {
        return true;
      }
      var stragglers := PendingJoins();
      if stragglers == [] {
        return true;
      }
      PushAll(stragglers);
      assert [] + stragglers == stragglers;
      done := false;
    }

    /** `_drain_queue` */
    method DrainQueue()
      requires phase == Draining
      modifies this
      ensures Snap() == Drain(c, old(Snap()))
    {
      var done := false;
      while !done && !failed && phase == Draining
        invariant phase == Draining || phase == Raised
        invariant done ==> phase == Draining && Drained(c, Snap())
        invariant Drain(c, Snap()) == Drain(c, old(Snap()))
        decreases !done, if failed then 0 else 1, StepsLeft(c, Snap()), if queue == [] then 1 else 0
      {
        if queue != [] {
          DispatchAdvances(c, Snap());
        }
        IterateStays(c, Snap());
        done := DrainTurn();
      }
      if phase == Draining {
        LeaveDrain();
      }
    }

    /** Out of the loop, into finalization. */
    method LeaveDrain()
      requires phase == Draining && Drained(c, Snap())
      modifies this
      ensures Snap() == Drain(c, old(Snap()))
    {
      phase := Ending;
      FinalizeStatus();
    }

    /** `_update_run_status_if_active` */
    method UpdateStatusIfActive(next: Status) returns (updated: bool)
      modifies this
      ensures updated <==> !IsTerminal(old(status))
      ensures Snap() == SetStatusIfActive(old(Snap()), next)
    {
      updated := !IsTerminal(status);
      if updated {
        status := next;
      }
    }

    /** Another process selects the run to cancel it. */
    method SelectFromOutside()
      modifies this
      ensures Snap() == SelectToCancel(old(Snap()))
    {
      if !IsTerminal(status) {
        past := past.(selected := true);
      }
    }

    /** Its cancel lands, if it selected the run while active. */
    method CancelFromOutside()
      modifies this
      ensures Snap() == LandCancel(old(Snap()))
    {
      SelectFromOutside();
      if past.selected {
        status := Cancelled;
      }
    }

    /** `_write_final`: event and status in one transaction, else a status-only FAILED. */
    method WriteFinal(next: Status, event: Option<Decision>, gate: GateRun)
      modifies this
      ensures Snap() == EngineState.WriteFinal(old(Snap()), next, event, gate)
    {
      if !gate.writeFails {
        var logBefore := log;
        if event.Some? {
          LogEvent(DodEvaluated(event.value));
        }
        var updated := UpdateStatusIfActive(next);
        if !updated {
          log := logBefore; // rollback
        }
        return;
      }
      if gate.fallbackFails {
        Escape();
        return;
      }
      var _ := UpdateStatusIfActive(Failed);
    }

    /** `_finalize_status` */
    method FinalizeStatus()
      modifies this
      ensures Snap() == Finalize(c, old(Snap()))
    {
      var gate := c.world.gates(|log|);
      phase := Idle;
      if failed || IsTerminal(status) {
        return;
      }
      var next, event := status, None;
      if exists h | h in hitl :: h.pending {
        next := WaitingHuman;
      } else if terminalReached && c.dod.None? {
        next := Completed;
      } else if terminalReached {
        var decision := Decide(gate.box, c.dod.value, shared, c.guards.maxTokens, Exec.TotalTokens(rows),
                               gate.judgement);
        next, event := if decision.completed then Completed else Failed, Some(decision);
      }
      if gate.cancelled {
        CancelFromOutside();
      }
      WriteFinal(next, event, gate);
    }

    /**
     * `resume_hitl`: the request is found by its id alone, whichever run it
     * belongs to, and refused unless it is pending; otherwise a fresh context
     * drains this run from the request's node.
     */
    method ResumeHitl(found: Found) returns (accepted: bool)
      requires Resumable(Snap())
      modifies this
      ensures accepted <==> IsPendingFor(old(Snap()), found)
      ensures Snap() == if accepted then Drain(c, AnswerFound(old(Snap()), found)) else old(Snap())
    {
      match found {
        case Missing =>
          return false;
        case Own(i) =>
          if i >= |hitl| || !hitl[i].pending {
            return false;
          }
          hitl := hitl[i := HitlRequest(hitl[i].node, false)];
          Reopen(hitl[i].node);
        case Foreign(node, pending) =>
          if !pending {
            return false;
          }
          past := past.(taken := past.taken + [node], reopened := past.reopened || status == Completed);
          Reopen(node);
      }
      DrainQueue();
      accepted := true;
    }

    method Reopen(id: string)
      modifies this
      ensures Snap() == Resume(old(Snap()), id)
    {
      LogEvent(HitlResolved(id));
      queue, terminalReached, failed, phase := [id], false, false, Draining;
    }
  }

  lemma FirstLiveExtends(edges: seq<Edge>, i: nat, live: Edge -> bool)
    requires i < |edges| && FirstLive(edges[..i], live) == None
    ensures FirstLive(edges[..i + 1], live) == if live(edges[i]) then Some(edges[i]) else None
  {
    assert edges[..i + 1][..i] == edges[..i];
  }

  lemma {:induction false} FirstLiveStays(edges: seq<Edge>, n: nat, live: Edge -> bool)
    requires n <= |edges| && FirstLive(edges[..n], live).Some?
    ensures FirstLive(edges, live) == FirstLive(edges[..n], live)
  {
    if n == |edges| {
      assert edges[..n] == edges;
    } else {
      assert edges[..|edges| - 1][..n] == edges[..n];
      FirstLiveStays(edges[..|edges| - 1], n, live);
    }
  }
}
