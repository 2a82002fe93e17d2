/** What the invariants mean for whole runs: the engine's promises, stated on every reachable state. */
module EngineTheorems {
  import opened Outcomes
  import opened Backoff
  import opened EventLog
  import Exec = Executions
  import opened EngineState
  import opened EngineOps
  import opened EngineInvariants
  import opened EngineRuns

  // ---- no run is stranded ----

  /**
   * Between drains a run is finished, or waits for a human who can still
   * answer, or has lost a request of its own to a resume of another run; or it
   * was never let in. Otherwise an exception has escaped.
   */
  lemma NoRunIsStranded(c: Config, held: bool, actions: seq<Action>)
    requires Wired(c.graph)
    ensures var s := Run(c, held, actions);
            && (s.phase == Idle ==>
                  || IsTerminal(s.status)
                  || (s.status == WaitingHuman && exists i :: Answerable(s, i))
                  || s.past.lost != [])
            && (s.phase == Held ==> s.status == Pending || s.status == Cancelled)
            && (s.phase == Raised ==> s.everRaised)
  {
    RunIsGood(c, held, actions);
    var s := Run(c, held, actions);
    if PendingHitl(s) {
      var h :| h in s.hitl && h.pending;
      var i :| 0 <= i < |s.hitl| && s.hitl[i] == h;
      assert Resumable(s) ==> Answerable(s, i);
    }
  }

  /** Between drains, unfinished, and with nobody to ask. */
  predicate IsStuck(s: State) {
    s.phase == Idle && !IsTerminal(s.status) && !PendingHitl(s)
  }

  predicate IsOnlyPending(s: State, i: nat) {
    IsPendingAt(s, i) && forall j | 0 <= j < |s.hitl| && s.hitl[j].pending :: j == i
  }

  /** A finalization that finds no request, no terminal and nothing wrong. */
  predicate FindsNothing(c: Config, s: State) {
    var gate := c.world.gates(|s.log|);
    && s.phase == Ending && !s.failed && !IsTerminal(s.status) && !PendingHitl(s) && !s.terminalReached
    && !gate.cancelled && !gate.writeFails
  }

  /**
   * When a run gets stuck, exactly: another run is resumed with its only
   * pending request, while it waits; or its drain had nothing to show but
   * requests that went that way, and finalization leaves its status as it was.
   */
  lemma StuckExactly(c: Config, held: bool, actions: seq<Action>, action: Action)
    requires Wired(c.graph) && !IsStuck(Run(c, held, actions))
    ensures var s := Run(c, held, actions);
            && (IsStuck(Next(c, s, action)) <==>
                  || (action.AnswerElsewhere? && s.phase == Idle && !IsTerminal(s.status)
                      && IsOnlyPending(s, action.request))
                  || (action == Tick && FindsNothing(c, s)))
            && (FindsNothing(c, s) ==> s.past.lost != [])
  {
    RunIsGood(c, held, actions);
    var s := Run(c, held, actions);
    match action {
      case Tick => AdvanceSticks(c, s);
      case AnswerElsewhere(i) => LosingSticks(s, i);
      case _ =>
    }
  }

  lemma AdvanceSticks(c: Config, s: State)
    requires Wired(c.graph) && Good(c, s) && !IsStuck(s)
    ensures IsStuck(Advance(c, s)) <==> FindsNothing(c, s)
  {
    if s.phase == Ending {
      FinishFrame(c, s);
      if !s.failed && !IsTerminal(s.status) {
        FinishWrites(c, s);
      }
    } else if s.phase == Draining && !Drained(c, s) {
      IterateStays(c, s);
    }
  }

  lemma LosingSticks(s: State, i: nat)
    ensures IsPendingAt(s, i) ==> (PendingHitl(LoseRequest(s, i)) <==> !IsOnlyPending(s, i))
  {
    if IsPendingAt(s, i) {
      var t := LoseRequest(s, i);
      if j :| 0 <= j < |s.hitl| && s.hitl[j].pending && j != i {
        assert t.hitl[j] in t.hitl;
      }
    }
  }

  /** Whatever the world does, a drain left to itself ends with the run in one of those states. */
  lemma DrainLeavesNoRunning(c: Config, held: bool, actions: seq<Action>)
    requires Wired(c.graph) && InDrain(Run(c, held, actions))
    ensures var t := Drain(c, Run(c, held, actions));
            || (t.phase == Idle && IsTerminal(t.status))
            || (t.phase == Idle && t.status == WaitingHuman && PendingHitl(t))
            || (t.phase == Idle && t.past.lost != [])
            || (t.phase == Raised && t.everRaised)
  {
    RunIsGood(c, held, actions);
    DrainEnds(c, Run(c, held, actions));
  }

  // ---- COMPLETED ----

  /**
   * A COMPLETED run that was not resumed since met its definition of done on
   * the state it still has; and an action leaves everything of it as it is,
   * unless it resumes the run with another run's request or lands a cancel that
   * selected the run while it was active.
   */
  lemma CompletedIsSoundAndFinal(c: Config, held: bool, actions: seq<Action>, next: Action)
    requires Wired(c.graph)
    requires Run(c, held, actions).status == Completed && !Run(c, held, actions).past.reopened
    ensures var s := Run(c, held, actions);
            && GatePassed(c, s)
            && (c.dod.Some? ==> HasPassedGate(s.log))
            && (Next(c, s, next) == s <==> !Disturbs(s, next))
  {
    RunIsGood(c, held, actions);
    var s := Run(c, held, actions);
    CompletedStep(c, s, next);
  }

  predicate Disturbs(s: State, action: Action) {
    action.AnswerForeign? || (action == Cancel && s.past.selected)
  }

  lemma CompletedStep(c: Config, s: State, action: Action)
    requires Good(c, s) && s.status == Completed && !s.past.reopened
    ensures !Disturbs(s, action) ==> Next(c, s, action) == s
    ensures Disturbs(s, action) ==> Next(c, s, action).status != Completed || Next(c, s, action).past.reopened
  {
    match action {
      case Answer(i) => PendingIsPending(s, i);
      case AnswerElsewhere(i) => PendingIsPending(s, i);
      case _ =>
    }
  }

  lemma PendingIsPending(s: State, i: nat)
    ensures IsPendingAt(s, i) ==> PendingHitl(s)
  {
    if IsPendingAt(s, i) {
      assert s.hitl[i] in s.hitl;
    }
  }

  /** Some action of a continuation disturbs the run. */
  predicate AnyDisturbs(s: State, more: seq<Action>) {
    more != [] && (AnyDisturbs(s, more[..|more| - 1]) || Disturbs(s, more[|more| - 1]))
  }

  /** Over whole runs: of all continuations of such a run, exactly those without such an action leave it as it is. */
  lemma {:induction false} CompletedRunStays(c: Config, held: bool, actions: seq<Action>, more: seq<Action>)
    requires Wired(c.graph)
    requires Run(c, held, actions).status == Completed && !Run(c, held, actions).past.reopened
    ensures Run(c, held, actions + more) == Run(c, held, actions) <==> !AnyDisturbs(Run(c, held, actions), more)
    ensures IsApart(Run(c, held, actions), Run(c, held, actions + more))
  {
    if more == [] {
      assert actions + more == actions;
    } else {
      var init, last := more[..|more| - 1], more[|more| - 1];
      CompletedRunStays(c, held, actions, init);
      RunContinues(c, held, actions, more);
      RunIsGood(c, held, actions + init);
      StaysApart(c, Run(c, held, actions), Run(c, held, actions + init), last);
    }
  }

  /** The same state, or one no longer COMPLETED and at rest. */
  predicate IsApart(s: State, t: State) {
    IsTerminal(t.status) && (t == s || t.status != Completed || t.past.reopened)
  }

  /** A run disturbed never gets back to being COMPLETED and not resumed since. */
  lemma StaysApart(c: Config, s: State, t: State, action: Action)
    requires Wired(c.graph) && Good(c, t) && s.status == Completed && !s.past.reopened && IsApart(s, t)
    ensures Next(c, t, action) == s <==> t == s && !Disturbs(s, action)
    ensures IsApart(s, Next(c, t, action))
  {
    TerminalIsClosed(c, t, action);
    if t == s {
      CompletedStep(c, s, action);
    } else {
      ReopenedStays(c, t, action);
    }
  }

  lemma ReopenedStays(c: Config, s: State, action: Action)
    requires Wired(c.graph) && Good(c, s)
    ensures Next(c, s, action).past.reopened <==>
            s.past.reopened || (action.AnswerForeign? && Resumable(s) && s.status == Completed)
  {
    var path := NextPath(c, s, action);
    assert ApplyAll(c, s, Here) == s;
    if FromDispatch(path) {
      PastAlong(c, s, path);
    } else {
      PastMoves(c, s, path.op);
    }
  }

  /** The run was resumed with another run's request while it was COMPLETED. */
  ghost predicate EverReopened(c: Config, held: bool, actions: seq<Action>) {
    actions != [] &&
    var s, last := Run(c, held, actions[..|actions| - 1]), actions[|actions| - 1];
    || EverReopened(c, held, actions[..|actions| - 1])
    || (last.AnswerForeign? && Resumable(s) && s.status == Completed)
  }

  lemma {:induction false} ReopenedExactly(c: Config, held: bool, actions: seq<Action>)
    requires Wired(c.graph)
    ensures Run(c, held, actions).past.reopened <==> EverReopened(c, held, actions)
  {
    if actions != [] {
      var init, last := actions[..|actions| - 1], actions[|actions| - 1];
      ReopenedExactly(c, held, init);
      RunIsGood(c, held, init);
      ReopenedStays(c, Run(c, held, init), last);
    }
  }

  /** The run was COMPLETED at some point. */
  ghost predicate EverCompleted(c: Config, held: bool, actions: seq<Action>) {
    || Run(c, held, actions).status == Completed
    || (actions != [] && EverCompleted(c, held, actions[..|actions| - 1]))
  }

  /** A gate result of 1 is in the log exactly when the run has been COMPLETED under a definition of done. */
  lemma {:induction false} PassedGateIffCompleted(c: Config, held: bool, actions: seq<Action>)
    requires Wired(c.graph)
    ensures HasPassedGate(Run(c, held, actions).log) <==> EverCompleted(c, held, actions) && c.dod.Some?
  {
    RunIsGood(c, held, actions);
    if actions != [] {
      var init, last := actions[..|actions| - 1], actions[|actions| - 1];
      PassedGateIffCompleted(c, held, init);
      RunIsGood(c, held, init);
      NextPassesGate(c, Run(c, held, init), last);
    }
  }

  lemma NextPassesGate(c: Config, s: State, action: Action)
    requires Wired(c.graph) && Good(c, s)
    ensures HasPassedGate(s.log) ==> HasPassedGate(Next(c, s, action).log)
    ensures HasPassedGate(Next(c, s, action).log) && !HasPassedGate(s.log) ==>
              c.dod.Some? && Next(c, s, action).status == Completed
  {
    var path := NextPath(c, s, action);
    assert ApplyAll(c, s, Here) == s;
    if FromDispatch(path) {
      GateAlong(c, s, path);
    } else if path.op == Finish {
      FinishPasses(c, s);
    } else {
      GateStays(c, s, path.op);
    }
  }

  lemma GateStays(c: Config, s: State, op: Op)
    requires Enabled(c, s, op) && !op.Finish?
    ensures HasPassedGate(Apply(c, s, op).log) <==> HasPassedGate(s.log)
  {
    LogMoves(c, s, op);
    if EventOf(c, s, op).Some? {
      AppendFlags(s.log, EventOf(c, s, op).value);
    }
  }

  lemma {:induction false} GateAlong(c: Config, s: State, path: Path)
    requires AllEnabled(c, s, path) && FromDispatch(path)
    ensures HasPassedGate(ApplyAll(c, s, path).log) <==> HasPassedGate(s.log)
  {
    match path {
      case Here =>
      case After(earlier, op) =>
        GateAlong(c, s, earlier);
        GateStays(c, ApplyAll(c, s, earlier), op);
    }
  }

  lemma FinishPasses(c: Config, s: State)
    ensures HasPassedGate(s.log) ==> HasPassedGate(Finalize(c, s).log)
    ensures HasPassedGate(Finalize(c, s).log) && !HasPassedGate(s.log) ==>
              c.dod.Some? && Finalize(c, s).status == Completed
  {
    FinishFrame(c, s);
    if GateDecision(c, s).Some? {
      AppendFlags(s.log, DodEvaluated(GateDecision(c, s).value));
      FinishWrites(c, s);
    }
  }

  /** The terminal statuses are closed, and COMPLETED is entered only from an active status. */
  lemma TerminalIsClosed(c: Config, s: State, action: Action)
    requires Wired(c.graph) && Good(c, s) && IsTerminal(s.status)
    ensures StaysTerminal(s.status, Next(c, s, action).status)
  {
    var path := NextPath(c, s, action);
    TerminalAlong(c, s, path);
  }

  predicate StaysTerminal(before: Status, after: Status) {
    after == before || after == Failed || after == Cancelled
  }

  /** Over whole runs: once terminal, always terminal. */
  lemma {:induction false} TerminalForever(c: Config, held: bool, actions: seq<Action>, more: seq<Action>)
    requires Wired(c.graph) && IsTerminal(Run(c, held, actions).status)
    ensures StaysTerminal(Run(c, held, actions).status, Run(c, held, actions + more).status)
  {
    if more == [] {
      assert actions + more == actions;
    } else {
      var init, last := more[..|more| - 1], more[|more| - 1];
      TerminalForever(c, held, actions, init);
      RunContinues(c, held, actions, more);
      RunIsGood(c, held, actions + init);
      TerminalIsClosed(c, Run(c, held, actions + init), last);
    }
  }

  lemma {:induction false} TerminalAlong(c: Config, s: State, path: Path)
    requires IsTerminal(s.status) && AllEnabled(c, s, path)
    ensures StaysTerminal(s.status, ApplyAll(c, s, path).status)
  {
    match path {
      case Here =>
      case After(earlier, op) =>
        TerminalAlong(c, s, earlier);
        TerminalOp(c, ApplyAll(c, s, earlier), op);
    }
  }

  lemma TerminalOp(c: Config, s: State, op: Op)
    requires IsTerminal(s.status) && Enabled(c, s, op)
    ensures StaysTerminal(s.status, Apply(c, s, op).status)
  {
    if op.Finish? {
      FinishFrame(c, s);
    } else if op != CancelRun && op != SelectRun && !op.Lose? {
      StatusMoves(c, s, op);
    }
  }

  // ---- event sourcing ----

  /** Sequences run 1, 2, ..., versions chain, and the state is the fold of the committed diffs. */
  lemma RunIsEventSourced(c: Config, held: bool, actions: seq<Action>)
    requires Wired(c.graph)
    ensures var s := Run(c, held, actions);
            && (forall i | 0 <= i < |s.log| :: s.log[i].sequence == i + 1)
            && Chained(s.log) && s.version == CommitCount(s.log)
            && Replay(c.fields, c.initial, s.log) == Ok(s.shared)
  {
    RunIsGood(c, held, actions);
  }

  // ---- caps ----

  /** Steps, tokens and loop iterations stay within the guards over the whole run, resumes included. */
  lemma RunStaysWithinGuards(c: Config, held: bool, actions: seq<Action>, f: string, t: string)
    requires Wired(c.graph)
    ensures var s := Run(c, held, actions);
            && |s.rows| <= c.guards.maxTotalSteps
            && (!HasFailed(s.log) && c.guards.maxTokens.Some? ==>
                  Exec.TotalTokens(s.rows) <= c.guards.maxTokens.value)
            && (CapBinds(c, f, t) ==> RouteCount(s.log, f, t) <= c.guards.loopCaps[LoopKey(f, t)])
  {
    RunIsGood(c, held, actions);
  }

  // ---- activations ----

  /** Completed attempts plus queued activations of a join-any node are exactly what caused them. */
  lemma ActivationsAreConserved(c: Config, held: bool, actions: seq<Action>, id: string)
    requires Wired(c.graph) && IsJoinAny(c, id) && Clean(Run(c, held, actions))
    ensures var s := Run(c, held, actions);
            Exec.Completed(s.rows, id) + multiset(s.queue)[id] ==
            (if id == c.graph.entry && !held then 1 else 0) + RoutesTo(s.log, id) + ResolvedCount(s.log, id)
  {
    RunIsGood(c, held, actions);
    var s := Run(c, held, actions);
    EnteredStays(c, held, actions);
    Exec.CompletedWhenNoneRunning(s.rows, id);
    assert Balanced(c, s, id);
  }

  lemma {:induction false} EnteredStays(c: Config, held: bool, actions: seq<Action>)
    requires Wired(c.graph)
    ensures Run(c, held, actions).past.entered == !held
  {
    if actions != [] {
      var init, last := actions[..|actions| - 1], actions[|actions| - 1];
      EnteredStays(c, held, init);
      RunIsGood(c, held, init);
      var path := NextPath(c, Run(c, held, init), last);
      assert ApplyAll(c, Run(c, held, init), Here) == Run(c, held, init);
      if FromDispatch(path) {
        PastAlong(c, Run(c, held, init), path);
      } else {
        PastMoves(c, Run(c, held, init), path.op);
      }
    }
  }

  // ---- human requests ----

  /**
   * Every request in the table was raised in the log. Every answered one was
   * resolved there or lost to a resume of another run, and every resolution is
   * of an answered one or of another run's request, node by node; so table and
   * log agree exactly when as many were lost as taken.
   */
  lemma RequestsAreConserved(c: Config, held: bool, actions: seq<Action>, id: string)
    requires Wired(c.graph)
    ensures var s := Run(c, held, actions); var lost, taken := multiset(s.past.lost)[id], multiset(s.past.taken)[id];
            && Asked(s.hitl, id) == RaisedCount(s.log, id)
            && Answered(s.hitl, id) + taken == ResolvedCount(s.log, id) + lost
            && (Answered(s.hitl, id) == ResolvedCount(s.log, id) <==> lost == taken)
  {
    RunIsGood(c, held, actions);
    assert RequestsAgree(Run(c, held, actions), id);
  }

  // ---- retries ----

  /**
   * In an unfailed run a transient failure is followed at once by the same node
   * under the same visit, now or as the next dispatch.
   */
  lemma FailuresAreRetriedAtOnce(c: Config, held: bool, actions: seq<Action>, i: nat)
    requires Wired(c.graph) && Clean(Run(c, held, actions))
    requires i < |Run(c, held, actions).rows| && Run(c, held, actions).rows[i].status == Exec.Failed
    ensures var s := Run(c, held, actions);
            if i + 1 < |s.rows| then s.rows[i + 1].node == s.rows[i].node && s.rows[i + 1].visit == s.rows[i].visit
            else s.queue != [] && s.queue[0] == s.rows[i].node
                 && Exec.VisitFor(s.rows, s.rows[i].node, s.nextId) == s.rows[i].visit
  {
    RunIsGood(c, held, actions);
    var s := Run(c, held, actions);
    if i + 1 == |s.rows| {
      LatestOfLast(s.rows);
    }
  }

  /** No node ever has more than maxRetries + 1 failures in a row, and a visit is one block of its attempts. */
  lemma RetriesAreBounded(c: Config, held: bool, actions: seq<Action>, id: string)
    requires Wired(c.graph)
    ensures var s := Run(c, held, actions);
            Exec.Streak(s.rows, id) <= c.guards.maxRetries + 1 && Exec.VisitBlocks(s.rows)
  {
    RunIsGood(c, held, actions);
    Exec.StreakBound(Run(c, held, actions).rows, c.guards.maxRetries, id);
  }

  /** A visit id is stable across retries and human answers, and fresh on every other re-entry. */
  lemma VisitsAreStable(c: Config, held: bool, actions: seq<Action>, i: nat, j: nat)
    requires Wired(c.graph) && Exec.IsNext(Run(c, held, actions).rows, i, j)
    ensures var rows := Run(c, held, actions).rows;
            rows[j].visit == rows[i].visit <==>
            rows[i].status == Exec.Failed || rows[i].status == Exec.WaitingHuman
  {
    RunIsGood(c, held, actions);
    Exec.FollowsMeans(Run(c, held, actions).rows, i, j);
  }

  function TotalDelay(sleeps: seq<Sleep>): real {
    if sleeps == [] then 0.0 else TotalDelay(sleeps[..|sleeps| - 1]) + sleeps[|sleeps| - 1].delay
  }

  /** The sum of the capped exponentials over a list of streaks. */
  function TotalCeiling(streaks: seq<nat>): real
    requires forall i | 0 <= i < |streaks| :: streaks[i] >= 1
  {
    if streaks == [] then 0.0
    else TotalCeiling(streaks[..|streaks| - 1]) + Ceiling(streaks[|streaks| - 1], RETRY_BASE, RETRY_CAP)
  }

  ghost predicate FairJitter(c: Config) {
    forall n, b | b >= 0.0 :: 0.0 <= c.world.rng(n)(b) <= b
  }

  lemma {:induction false} DelaysBounded(c: Config, sleeps: seq<Sleep>, streaks: seq<nat>)
    requires FairJitter(c) && StreaksMatch(sleeps, streaks)
    requires forall i | 0 <= i < |sleeps| ::
               && sleeps[i].streak >= 1
               && sleeps[i].delay == Delay(sleeps[i].streak, RETRY_BASE, RETRY_CAP, c.world.rng(i))
    ensures forall i | 0 <= i < |streaks| :: streaks[i] >= 1
    ensures TotalCeiling(streaks) / 2.0 <= TotalDelay(sleeps) <= TotalCeiling(streaks)
  {
    if sleeps != [] {
      var n := |sleeps| - 1;
      DelaysBounded(c, sleeps[..n], streaks[..n]);
      DelayBounds(sleeps[n].streak, RETRY_BASE, RETRY_CAP, c.world.rng(n));
    }
  }

  /**
   * An unfailed run has slept exactly after its failures within the budget, in
   * order, for a total between half and all of their capped exponentials.
   */
  lemma SleepsAreExact(c: Config, held: bool, actions: seq<Action>)
    requires Wired(c.graph) && FairJitter(c) && Clean(Run(c, held, actions))
    ensures var s := Run(c, held, actions);
            var streaks := Exec.SleptStreaks(s.rows, c.guards.maxRetries);
            && StreaksMatch(s.sleeps, streaks)
            && (forall i | 0 <= i < |streaks| :: streaks[i] >= 1)
            && TotalCeiling(streaks) / 2.0 <= TotalDelay(s.sleeps) <= TotalCeiling(streaks)
  {
    RunIsGood(c, held, actions);
    var s := Run(c, held, actions);
    DelaysBounded(c, s.sleeps, Exec.SleptStreaks(s.rows, c.guards.maxRetries));
  }
}
