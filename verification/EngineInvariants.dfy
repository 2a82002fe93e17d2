/**
 * The invariants of a run, each kept by every enabled operation. What an
 * operation does to the log and to the rows is stated once, so that each
 * invariant is proved from the event appended or the row changed.
 */
module EngineInvariants {
  import opened Outcomes
  import opened StateMerge
  import opened Graph
  import opened Dod
  import opened Backoff
  import opened EventLog
  import Exec = Executions
  import opened EngineState
  import opened EngineOps

  // ---- what an operation appends and which row it changes ----

  /** The decision a finishing drain writes, if it reaches the gate and the write goes through. */
  function GateDecision(c: Config, s: State): Option<Decision> {
    var gate := c.world.gates(|s.log|);
    if s.failed || IsTerminal(s.status) || PendingHitl(s) || !s.terminalReached || c.dod.None?
       || gate.cancelled || gate.writeFails then None
    else Some(Judged(c, s, c.dod.value, gate))
  }

  function EventOf(c: Config, s: State, op: Op): Option<Event> {
    match op
    case EnterCommit(id, delta) => Some(Commit(id, delta, s.version, s.version + 1))
    case Persist(id, turn) => if turn.Finished? then Some(Commit(id, turn.delta, s.version, s.version + 1)) else None
    case FailWith(id, _) => Some(Fail(id))
    case FireTo(f, t) => Some(Route(f, t))
    case Ask(id) => Some(HitlRaised(id))
    case EndBranch(id) => Some(Terminate(id))
    case AnswerRequest(i) => if i < |s.hitl| then Some(HitlResolved(s.hitl[i].node)) else None
    case Take(node) => Some(HitlResolved(node))
    case Finish => if GateDecision(c, s).Some? then Some(DodEvaluated(GateDecision(c, s).value)) else None
    case _ => None
  }

  lemma WriteFinalFrame(s: State, status: Status, event: Option<Decision>, gate: GateRun)
    ensures var t := WriteFinal(s, status, event, gate);
            && t == s.(log := t.log, status := t.status, phase := t.phase, everRaised := t.everRaised)
            && t.log == if gate.writeFails || IsTerminal(s.status) || event.None? then s.log
                        else Append(s.log, DodEvaluated(event.value))
  {
    if gate.writeFails {
      if gate.fallbackFails {
      } else {
      }
    } else if IsTerminal(s.status) {
    } else {
    }
  }

  /** Finishing touches the log, the status, the phase and what cancels did, and logs at most the gate's decision. */
  lemma FinishFrame(c: Config, s: State)
    ensures var t := Finalize(c, s);
            && t == s.(log := t.log, status := t.status, phase := t.phase, everRaised := t.everRaised, past := t.past)
            && t.past == s.past.(selected := t.past.selected) && (s.past.selected ==> t.past.selected)
            && t.log == match GateDecision(c, s)
                        case Some(d) => Append(s.log, DodEvaluated(d))
                        case None => s.log
  {
    var gate, idle := c.world.gates(|s.log|), s.(phase := Idle);
    if !s.failed && !IsTerminal(s.status) {
      var out := if gate.cancelled then LandCancel(idle) else idle;
      assert out == s.(phase := Idle, status := out.status, past := s.past.(selected := out.past.selected));
      assert s.past.selected ==> out.past.selected;
      assert IsTerminal(out.status) <==> gate.cancelled;
      if PendingHitl(s) {
        WriteFinalFrame(out, WaitingHuman, None, gate);
      } else if !s.terminalReached {
        WriteFinalFrame(out, s.status, None, gate);
      } else if c.dod.None? {
        WriteFinalFrame(out, Completed, None, gate);
      } else {
        var d := Judged(c, s, c.dod.value, gate);
        WriteFinalFrame(out, if d.completed then Completed else Failed, Some(d), gate);
      }
    }
  }

  /** The operations that are not part of a dispatch, save finishing. */
  predicate IsOutside(op: Op) {
    op.CancelRun? || op.SelectRun? || op.Lose? || op.Take? || op.AnswerRequest? || op.Quiesce? || op.Promote?
  }

  /** They leave the attempts, the shared state and the sleeps alone, and log at most an answer. */
  lemma OutsideFrame(c: Config, s: State, op: Op)
    requires Enabled(c, s, op) && IsOutside(op)
    ensures var t := Apply(c, s, op);
            && t == s.(queue := t.queue, terminalReached := t.terminalReached, failed := t.failed,
                       status := t.status, log := t.log, hitl := t.hitl, phase := t.phase, past := t.past)
            && t.log == (if op.Take? then Append(s.log, HitlResolved(op.node))
                         else if op.AnswerRequest? then Append(s.log, HitlResolved(s.hitl[op.request].node))
                         else s.log)
  {
  }

  lemma LogMoves(c: Config, s: State, op: Op)
    requires Enabled(c, s, op)
    ensures Apply(c, s, op).log == match EventOf(c, s, op)
                                   case Some(event) => Append(s.log, event)
                                   case None => s.log
  {
    if IsOutside(op) {
      OutsideFrame(c, s, op);
    } else {
      match op {
        case Finish => FinishFrame(c, s);
        case FireTo(f, t) => FireOneFrame(c, s, f, t);
        case Persist(id, turn) =>
        case EnterCommit(_, _) =>
        case Requeue(_, _) =>
        case Overflow(_) =>
        case Ask(_) =>
        case FailWith(_, _) =>
        case Open(_) =>
        case EndBranch(_) =>
        case Escape =>
      }
    }
  }

  datatype RowChange = Unchanged | Opens(id: string) | Marks(i: nat, status: Exec.RowStatus, usage: Option<Usage>)

  function RowChangeOf(s: State, op: Op): RowChange {
    match op
    case Open(id) => Opens(id)
    case Requeue(_, _) => if s.rows == [] then Unchanged else Marks(|s.rows| - 1, Exec.Failed, None)
    case Overflow(_) => if s.rows == [] then Unchanged else Marks(|s.rows| - 1, Exec.Failed, None)
    case Persist(_, turn) =>
      if s.rows == [] || !turn.Finished? then Unchanged else Marks(|s.rows| - 1, Exec.Succeeded, Some(turn.usage))
    case Ask(_) => if s.rows == [] then Unchanged else Marks(|s.rows| - 1, Exec.WaitingHuman, None)
    case FailWith(id, usage) =>
      var i := Exec.Latest(s.rows, id);
      if i < 0 then Unchanged else Marks(i, Exec.Failed, usage)
    case _ => Unchanged
  }

  /** A marked row is the latest of its node. */
  ghost predicate IsChange(rows: Exec.Rows, change: RowChange) {
    change.Marks? ==> change.i < |rows| && change.i == Exec.Latest(rows, rows[change.i].node)
  }

  function Changed(rows: Exec.Rows, newId: nat, change: RowChange): Exec.Rows {
    match change
    case Unchanged => rows
    case Opens(id) => Exec.NewRow(rows, id, newId)
    case Marks(i, status, usage) => if i < |rows| then Exec.Mark(rows, i, status, usage) else rows
  }

  lemma RowsMove(c: Config, s: State, op: Op)
    requires Enabled(c, s, op)
    ensures IsChange(s.rows, RowChangeOf(s, op))
    ensures Apply(c, s, op).rows == Changed(s.rows, s.nextId, RowChangeOf(s, op))
    ensures Apply(c, s, op).nextId == s.nextId + if op.Open? then 1 else 0
  {
    ChangeIsLatest(s, op);
    IdsMove(c, s, op);
    if !RowChangeOf(s, op).Unchanged? {
      RowsChange(c, s, op);
    } else if op.Finish? {
      FinishFrame(c, s);
    } else if op.FireTo? {
      FireOneFrame(c, s, op.f, op.t);
    } else {
      RowsStay(c, s, op);
    }
  }

  lemma RowsChange(c: Config, s: State, op: Op)
    requires Enabled(c, s, op) && !RowChangeOf(s, op).Unchanged?
    ensures Apply(c, s, op).rows == Changed(s.rows, s.nextId, RowChangeOf(s, op))
  {
    match op {
      case Persist(id, turn) => CommitFrame(c, s, id, turn);
      case FailWith(_, _) =>
      case Requeue(_, _) =>
      case Overflow(_) =>
      case Ask(_) =>
      case Open(_) =>
    }
  }

  /** The operations that touch no row. */
  lemma RowsStay(c: Config, s: State, op: Op)
    requires Enabled(c, s, op) && RowChangeOf(s, op).Unchanged? && !op.Finish? && !op.FireTo?
    ensures Apply(c, s, op).rows == s.rows
  {
  }

  lemma IdsMove(c: Config, s: State, op: Op)
    requires Enabled(c, s, op)
    ensures Apply(c, s, op).nextId == s.nextId + if op.Open? then 1 else 0
  {
    if IsOutside(op) {
      OutsideFrame(c, s, op);
    } else {
      match op {
        case Finish => FinishFrame(c, s);
        case FireTo(f, t) => FireOneFrame(c, s, f, t);
        case Persist(id, turn) => CommitFrame(c, s, id, turn);
        case Requeue(_, _) =>
        case Overflow(_) =>
        case Ask(_) =>
        case FailWith(_, _) =>
        case Open(_) =>
        case EnterCommit(_, _) =>
        case EndBranch(_) =>
        case Escape =>
      }
    }
  }

  lemma ChangeIsLatest(s: State, op: Op)
    ensures IsChange(s.rows, RowChangeOf(s, op))
  {
    LatestOfLast(s.rows);
  }

  lemma CommitFrame(c: Config, s: State, id: string, turn: Turn)
    requires turn.Finished? && CommitTurn(c, s, id, turn).Some?
    ensures var t := CommitTurn(c, s, id, turn).value;
            && t == s.(shared := t.shared, version := s.version + 1, log := t.log, rows := t.rows)
            && Merge(c.fields, s.shared, turn.delta) == Ok(t.shared)
            && t.rows == if s.rows == [] then [] else Exec.Mark(s.rows, |s.rows| - 1, Exec.Succeeded, Some(turn.usage))
  {
  }

  lemma LatestOfLast(rows: Exec.Rows)
    ensures rows != [] ==> Exec.Latest(rows, rows[|rows| - 1].node) == |rows| - 1
  {
  }

  // ---- event sourcing ----

  /** The log is gapless, its versions chain, and replaying its diffs gives the shared state. */
  ghost predicate LogSound(c: Config, s: State) {
    && Gapless(s.log) && Chained(s.log)
    && s.version == CommitCount(s.log)
    && Replay(c.fields, c.initial, s.log) == Ok(s.shared)
  }

  lemma LogSoundKept(c: Config, s: State, op: Op)
    requires LogSound(c, s) && Enabled(c, s, op)
    ensures LogSound(c, Apply(c, s, op))
  {
    LogMoves(c, s, op);
    StateMoves(c, s, op);
    if EventOf(c, s, op).Some? {
      AppendSound(c, s, Apply(c, s, op), EventOf(c, s, op).value);
    }
  }

  lemma AppendSound(c: Config, s: State, t: State, event: Event)
    requires LogSound(c, s) && t.log == Append(s.log, event)
    requires if event.Commit? then
               && Merge(c.fields, s.shared, event.diff) == Ok(t.shared)
               && event.before == s.version && event.after == t.version == s.version + 1
             else t.shared == s.shared && t.version == s.version
    ensures LogSound(c, t)
  {
    AppendGapless(s.log, event);
    ReplayAppend(c.fields, c.initial, s.log, event);
  }

  /** Shared state and version move only with a COMMIT. */
  lemma StateMoves(c: Config, s: State, op: Op)
    requires Enabled(c, s, op)
    ensures var t := Apply(c, s, op);
            if EventOf(c, s, op).Some? && EventOf(c, s, op).value.Commit? then
              && Merge(c.fields, s.shared, EventOf(c, s, op).value.diff) == Ok(t.shared)
              && t.version == s.version + 1
            else t.shared == s.shared && t.version == s.version
  {
    if op.Persist? {
      CommitFrame(c, s, op.id, op.turn);
    } else if !op.EnterCommit? {
      StateStays(c, s, op);
    }
  }

  lemma StateStays(c: Config, s: State, op: Op)
    requires Enabled(c, s, op) && !op.Persist? && !op.EnterCommit?
    ensures Apply(c, s, op).shared == s.shared && Apply(c, s, op).version == s.version
  {
    if IsOutside(op) {
      OutsideFrame(c, s, op);
    } else {
      match op {
        case Finish => FinishFrame(c, s);
        case FireTo(f, t) => FireOneFrame(c, s, f, t);
        case Requeue(_, _) =>
        case Overflow(_) =>
        case Ask(_) =>
        case FailWith(_, _) =>
        case Open(_) =>
        case EndBranch(_) =>
        case Escape =>
      }
    }
  }

  // ---- attempts ----

  /** Attempts ascend, streaks stay within the budget, visits are blocks, steps are capped. */
  ghost predicate RowsSound(c: Config, s: State) {
    Exec.RowsSound(s.rows, c.guards.maxRetries, s.nextId) && |s.rows| <= c.guards.maxTotalSteps
  }

  lemma RowsSoundKept(c: Config, s: State, op: Op)
    requires RowsSound(c, s) && Enabled(c, s, op)
    ensures RowsSound(c, Apply(c, s, op))
  {
    RowsMove(c, s, op);
    match RowChangeOf(s, op) {
      case Unchanged =>
      case Opens(id) => Exec.NewRowSound(s.rows, c.guards.maxRetries, s.nextId, id);
      case Marks(i, status, usage) => Exec.MarkSound(s.rows, c.guards.maxRetries, s.nextId, i, status, usage);
    }
  }

  // ---- caps ----

  /** No binding loop cap is passed. */
  ghost predicate CapsHeld(c: Config, s: State) {
    forall f, t | CapBinds(c, f, t) :: RouteCount(s.log, f, t) <= c.guards.loopCaps[LoopKey(f, t)]
  }

  lemma CapsHeldKept(c: Config, s: State, op: Op)
    requires CapsHeld(c, s) && Enabled(c, s, op)
    ensures CapsHeld(c, Apply(c, s, op))
  {
    LogMoves(c, s, op);
    var event := EventOf(c, s, op);
    if event.Some? {
      AppendCounts(s.log, event.value);
      if event.value.Route? {
        assert op == FireTo(event.value.from, event.value.to);
      }
    }
  }

  ghost predicate WithinTokens(c: Config, rows: Exec.Rows) {
    c.guards.maxTokens.Some? ==> Exec.TotalTokens(rows) <= c.guards.maxTokens.value
  }

  /** An unfailed run is within its token cap. */
  ghost predicate TokensHeld(c: Config, s: State) {
    HasFailed(s.log) || WithinTokens(c, s.rows)
  }

  lemma TokensHeldKept(c: Config, s: State, op: Op)
    requires TokensHeld(c, s) && Enabled(c, s, op)
    ensures TokensHeld(c, Apply(c, s, op))
    ensures op.Persist? ==> WithinTokens(c, Apply(c, s, op).rows)
  {
    LogMoves(c, s, op);
    if EventOf(c, s, op).Some? {
      AppendFlags(s.log, EventOf(c, s, op).value);
    }
    if !op.FailWith? {
      TokensMove(c, s, op);
    }
  }

  /** Only a committed turn adds tokens, and only within the cap. */
  lemma TokensMove(c: Config, s: State, op: Op)
    requires Enabled(c, s, op) && !op.FailWith?
    ensures if op.Persist? then WithinTokens(c, Apply(c, s, op).rows)
            else Exec.TotalTokens(Apply(c, s, op).rows) == Exec.TotalTokens(s.rows)
  {
    RowsMove(c, s, op);
    match RowChangeOf(s, op) {
      case Unchanged =>
      case Opens(id) => Exec.NewRowCounts(s.rows, id, s.nextId, c.guards.maxRetries);
      case Marks(i, status, usage) => Exec.MarkLastCounts(s.rows, status, usage, c.guards.maxRetries);
    }
  }

  // ---- the queue ----

  /** A join-all node is queued at most once. */
  ghost predicate JoinsOnce(c: Config, s: State) {
    forall id | c.graph.IsJoinAll(id) :: multiset(s.queue)[id] <= 1
  }

  ghost predicate Distinct(ids: seq<string>) {
    forall i, j | 0 <= i < j < |ids| :: ids[i] != ids[j]
  }

  lemma {:induction false} PendingAmongMeans(s: State, ids: seq<string>)
    requires Distinct(ids)
    ensures forall id :: id in PendingAmong(s, ids) <==>
                         id in ids && id !in s.queue && Arrivals(s.log, id) != {}
    ensures Distinct(PendingAmong(s, ids))
  {
    if ids != [] {
      var init, last := ids[..|ids| - 1], ids[|ids| - 1];
      assert ids == init + [last];
      PendingAmongMeans(s, init);
      assert last !in init;
    }
  }

  lemma {:induction false} DistinctOnce(ids: seq<string>)
    requires Distinct(ids)
    ensures forall id :: multiset(ids)[id] <= 1
  {
    if ids != [] {
      var init, last := ids[..|ids| - 1], ids[|ids| - 1];
      assert ids == init + [last];
      DistinctOnce(init);
      assert last !in init;
    }
  }

  /** How the queue moves: the head leaves, a node is pushed, or a new queue is set. */
  lemma QueueMoves(c: Config, s: State, op: Op)
    requires Enabled(c, s, op)
    ensures var t := Apply(c, s, op);
            match op
            case Open(id) => s.queue == [id] + t.queue
            case Requeue(id, _) => t.queue == [id] + s.queue
            case FailWith(_, _) => t.queue == []
            case FireTo(_, to) =>
              if to == TERMINAL then t.queue == s.queue
              else if c.graph.IsJoinAll(to) then
                t.queue == s.queue ||
                (t.queue == s.queue + [to] && to !in s.queue && c.graph.InboundSources(to) <= Arrivals(t.log, to))
              else t.queue == s.queue + [to]
            case Promote => s.queue == [] && t.queue == PendingJoins(c, s)
            case AnswerRequest(i) => i < |s.hitl| && t.queue == [s.hitl[i].node]
            case Take(node) => t.queue == [node]
            case _ => t.queue == s.queue
  {
    match op {
      case FireTo(_, to) => FireQueues(c, s, op.f, to);
      case Open(_) =>
      case Requeue(_, _) =>
      case FailWith(_, _) =>
      case Promote =>
      case AnswerRequest(_) =>
      case Take(_) =>
      case _ => QueueStays(c, s, op);
    }
  }

  lemma QueueStays(c: Config, s: State, op: Op)
    requires Enabled(c, s, op)
    requires !op.FireTo? && !op.Open? && !op.Requeue? && !op.FailWith?
    requires !op.Promote? && !op.AnswerRequest? && !op.Take?
    ensures Apply(c, s, op).queue == s.queue
  {
    match op {
      case Finish => FinishFrame(c, s);
      case Persist(id, turn) => CommitFrame(c, s, id, turn);
      case EnterCommit(_, _) =>
      case Overflow(_) =>
      case Ask(_) =>
      case EndBranch(_) =>
      case Escape =>
      case CancelRun =>
      case SelectRun =>
      case Lose(_) =>
      case Quiesce =>
    }
  }

  lemma FireQueues(c: Config, s: State, f: string, t: string)
    ensures var u := FireOne(c, s, f, t);
            if t == TERMINAL then u.queue == s.queue
            else if c.graph.IsJoinAll(t) then
              u.queue == s.queue ||
              (u.queue == s.queue + [t] && t !in s.queue && c.graph.InboundSources(t) <= Arrivals(u.log, t))
            else u.queue == s.queue + [t]
  {
  }

  lemma JoinsOnceKept(c: Config, s: State, op: Op)
    requires Distinct(c.graph.JoinAllNodes()) && JoinsOnce(c, s) && Enabled(c, s, op)
    ensures JoinsOnce(c, Apply(c, s, op))
  {
    QueueMoves(c, s, op);
    if op.Promote? {
      PendingAmongMeans(s, c.graph.JoinAllNodes());
      DistinctOnce(PendingJoins(c, s));
    }
  }

  lemma HeadIsOnce(c: Config, s: State)
    requires JoinsOnce(c, s) && s.queue != []
    ensures c.graph.IsJoinAll(s.queue[0]) ==> s.queue[0] !in s.queue[1..]
  {
    assert s.queue == [s.queue[0]] + s.queue[1..];
  }

  // ---- conservation of activations ----

  /** Standing attempts plus queued activations of a node match what caused them. */
  ghost predicate Balanced(c: Config, s: State, id: string) {
    Exec.Standing(s.rows, id) + multiset(s.queue)[id] ==
    (if id == c.graph.entry && s.past.entered then 1 else 0) + RoutesTo(s.log, id) + ResolvedCount(s.log, id)
  }

  ghost predicate IsJoinAny(c: Config, id: string) {
    id != TERMINAL && !c.graph.IsJoinAll(id)
  }

  ghost predicate BalanceHeld(c: Config, s: State) {
    Clean(s) ==> forall id | IsJoinAny(c, id) :: Balanced(c, s, id)
  }

  /** A raised exception is remembered. */
  lemma RaiseIsRemembered(c: Config, s: State, op: Op)
    requires Enabled(c, s, op)
    ensures s.everRaised || op.Escape? || op.Overflow? ==> Apply(c, s, op).everRaised
  {
    if IsOutside(op) {
      OutsideFrame(c, s, op);
    } else {
      match op {
        case Finish => FinishFrame(c, s);
        case FireTo(f, t) => FireOneFrame(c, s, f, t);
        case Persist(id, turn) => CommitFrame(c, s, id, turn);
        case EnterCommit(_, _) =>
        case Requeue(_, _) =>
        case Overflow(_) =>
        case Ask(_) =>
        case FailWith(_, _) =>
        case Open(_) =>
        case EndBranch(_) =>
        case Escape =>
      }
    }
  }

  lemma CleanBefore(c: Config, s: State, op: Op)
    requires Enabled(c, s, op) && Clean(Apply(c, s, op))
    ensures Clean(s) && !op.FailWith? && !op.Escape? && !op.Overflow?
  {
    RaiseIsRemembered(c, s, op);
    LogMoves(c, s, op);
    if EventOf(c, s, op).Some? {
      AppendFlags(s.log, EventOf(c, s, op).value);
    }
  }

  lemma BalanceKept(c: Config, s: State, op: Op)
    requires forall id :: id in c.graph.JoinAllNodes() <==> c.graph.IsJoinAll(id)
    requires Distinct(c.graph.JoinAllNodes())
    requires BalanceHeld(c, s) && Enabled(c, s, op)
    ensures BalanceHeld(c, Apply(c, s, op))
  {
    if Clean(Apply(c, s, op)) {
      CleanBefore(c, s, op);
      forall id | IsJoinAny(c, id)
        ensures Balanced(c, Apply(c, s, op), id)
      {
        assert Balanced(c, s, id);
        BalanceStep(c, s, op, id);
      }
    }
  }

  lemma BalanceStep(c: Config, s: State, op: Op, id: string)
    requires forall j :: j in c.graph.JoinAllNodes() <==> c.graph.IsJoinAll(j)
    requires Distinct(c.graph.JoinAllNodes())
    requires Clean(s) && Enabled(c, s, op) && !op.FailWith? && !op.Overflow? && IsJoinAny(c, id) && Balanced(c, s, id)
    ensures Balanced(c, Apply(c, s, op), id)
  {
    PastMoves(c, s, op);
    StandingMoves(c, s, op, id);
    CausesMove(c, s, op, id);
    QueuedMoves(c, s, op, id);
  }

  /** The run's own operations leave what others did alone. */
  lemma PastStays(c: Config, s: State, op: Op)
    requires Enabled(c, s, op) && !op.Finish? && !op.Take? && !op.Lose? && op != CancelRun && op != SelectRun
    ensures Apply(c, s, op).past == s.past
  {
    if IsOutside(op) {
    } else {
      match op {
        case FireTo(f, t) => FireOneFrame(c, s, f, t);
        case Persist(id, turn) => CommitFrame(c, s, id, turn);
        case EnterCommit(_, _) =>
        case Requeue(_, _) =>
        case Overflow(_) =>
        case Ask(_) =>
        case FailWith(_, _) =>
        case Open(_) =>
        case EndBranch(_) =>
        case Escape =>
      }
    }
  }

  /** Foreign requests taken and own ones lost. */
  function PastAfter(s: State, op: Op): Past {
    match op
    case Take(node) =>
      s.past.(taken := s.past.taken + [node], reopened := s.past.reopened || s.status == Completed)
    case Lose(i) => if i < |s.hitl| then s.past.(lost := s.past.lost + [s.hitl[i].node]) else s.past
    case _ => s.past
  }

  /** What other processes do is remembered, and nothing else adds to it. */
  lemma PastMoves(c: Config, s: State, op: Op)
    requires Enabled(c, s, op)
    ensures Apply(c, s, op).past == PastAfter(s, op).(selected := Apply(c, s, op).past.selected)
    ensures s.past.selected ==> Apply(c, s, op).past.selected
  {
    if op.Take? || op.Lose? {
      CrossingsMove(c, s, op);
    } else if op.Finish? {
      FinishFrame(c, s);
    } else if op.CancelRun? || op.SelectRun? {
      CancelsMove(c, s, op);
    } else {
      PastStays(c, s, op);
    }
  }

  lemma CrossingsMove(c: Config, s: State, op: Op)
    requires Enabled(c, s, op) && (op.Take? || op.Lose?)
    ensures Apply(c, s, op).past == PastAfter(s, op)
  {
  }

  lemma CancelsMove(c: Config, s: State, op: Op)
    requires op.CancelRun? || op.SelectRun?
    ensures var p := Apply(c, s, op).past; p == s.past.(selected := p.selected) && (s.past.selected ==> p.selected)
  {
  }

  /** An attempt stands once opened, and no longer once a retry marks it failed. */
  lemma StandingMoves(c: Config, s: State, op: Op, id: string)
    requires Clean(s) && Enabled(c, s, op) && !op.FailWith? && !op.Overflow?
    ensures Exec.Standing(Apply(c, s, op).rows, id) ==
            Exec.Standing(s.rows, id) + (if op == Op.Open(id) then 1 else 0)
            - (if op.Requeue? && op.id == id then 1 else 0)
  {
    RowsMove(c, s, op);
    match RowChangeOf(s, op) {
      case Unchanged =>
      case Opens(n) => Exec.NewRowCounts(s.rows, n, s.nextId, c.guards.maxRetries);
      case Marks(_, status, usage) => Exec.MarkLastCounts(s.rows, status, usage, c.guards.maxRetries);
    }
  }

  /** A route to a node, and being resumed with a request for it, are causes. */
  ghost predicate Causes(s: State, op: Op, id: string) {
    || (op.FireTo? && op.t == id)
    || (op.AnswerRequest? && op.request < |s.hitl| && s.hitl[op.request].node == id)
    || (op.Take? && op.node == id)
  }

  lemma CausesMove(c: Config, s: State, op: Op, id: string)
    requires Enabled(c, s, op)
    ensures RoutesTo(Apply(c, s, op).log, id) + ResolvedCount(Apply(c, s, op).log, id) ==
            RoutesTo(s.log, id) + ResolvedCount(s.log, id) +
            if Causes(s, op, id) then 1 else 0
  {
    LogMoves(c, s, op);
    EventCauses(c, s, op, id);
    if EventOf(c, s, op).Some? {
      AppendCauses(s.log, EventOf(c, s, op).value, id);
    }
  }

  lemma EventCauses(c: Config, s: State, op: Op, id: string)
    requires Enabled(c, s, op)
    ensures Causes(s, op, id) <==> EventOf(c, s, op).Some? && IsCause(EventOf(c, s, op).value, id)
  {
  }

  lemma QueuedMoves(c: Config, s: State, op: Op, id: string)
    requires forall j :: j in c.graph.JoinAllNodes() <==> c.graph.IsJoinAll(j)
    requires Distinct(c.graph.JoinAllNodes())
    requires Clean(s) && Enabled(c, s, op) && !op.FailWith? && !op.Overflow? && IsJoinAny(c, id)
    ensures multiset(Apply(c, s, op).queue)[id] ==
            multiset(s.queue)[id]
            + (if Causes(s, op, id) || (op.Requeue? && op.id == id) then 1 else 0)
            - (if op == Op.Open(id) then 1 else 0)
  {
    if op.Promote? {
      PromotedQueues(c, s, id);
    } else if op.FireTo? {
      FiredQueues(c, s, op, id);
    } else if op.AnswerRequest? || op.Take? {
      ResumedFromEmpty(c, s, op);
      QueueMoves(c, s, op);
    } else {
      QueueMoves(c, s, op);
    }
  }

  lemma PromotedQueues(c: Config, s: State, id: string)
    requires forall j :: j in c.graph.JoinAllNodes() <==> c.graph.IsJoinAll(j)
    requires Distinct(c.graph.JoinAllNodes()) && Enabled(c, s, Promote) && IsJoinAny(c, id)
    ensures multiset(Apply(c, s, Promote).queue)[id] == multiset(s.queue)[id]
  {
    PendingAmongMeans(s, c.graph.JoinAllNodes());
    assert id !in PendingJoins(c, s);
  }

  /** A clean run is resumed from an empty queue. */
  lemma ResumedFromEmpty(c: Config, s: State, op: Op)
    requires Clean(s) && Enabled(c, s, op) && (op.AnswerRequest? || op.Take?)
    ensures s.queue == []
  {
  }

  lemma FiredQueues(c: Config, s: State, op: Op, id: string)
    requires Enabled(c, s, op) && op.FireTo? && IsJoinAny(c, id)
    ensures multiset(Apply(c, s, op).queue)[id] == multiset(s.queue)[id] + if op.t == id then 1 else 0
  {
    QueueMoves(c, s, op);
  }

  // ---- human requests ----

  /** Requests ever made for a node, and those answered. */
  function Asked(hitl: seq<HitlRequest>, node: string): nat {
    if hitl == [] then 0
    else Asked(hitl[..|hitl| - 1], node) + if hitl[|hitl| - 1].node == node then 1 else 0
  }

  function Answered(hitl: seq<HitlRequest>, node: string): nat {
    if hitl == [] then 0
    else Answered(hitl[..|hitl| - 1], node) + if hitl[|hitl| - 1] == HitlRequest(node, false) then 1 else 0
  }

  /** The request table agrees with the log, up to answers that went to or came from another run. */
  ghost predicate RequestsHeld(s: State) {
    forall id :: RequestsAgree(s, id)
  }

  ghost predicate RequestsAgree(s: State, id: string) {
    && Asked(s.hitl, id) == RaisedCount(s.log, id)
    && Answered(s.hitl, id) + multiset(s.past.taken)[id] == ResolvedCount(s.log, id) + multiset(s.past.lost)[id]
  }

  lemma {:induction false} AnswerCounts(hitl: seq<HitlRequest>, i: nat, id: string)
    requires i < |hitl| && hitl[i].pending
    ensures var answered := hitl[i := HitlRequest(hitl[i].node, false)];
            && Asked(answered, id) == Asked(hitl, id)
            && Answered(answered, id) == Answered(hitl, id) + if hitl[i].node == id then 1 else 0
  {
    var init, answered := hitl[..|hitl| - 1], hitl[i := HitlRequest(hitl[i].node, false)];
    if i < |init| {
      AnswerCounts(init, i, id);
      assert answered[..|hitl| - 1] == init[i := HitlRequest(init[i].node, false)];
    } else {
      assert answered[..|hitl| - 1] == init;
    }
  }

  /** Human requests are only added by asking and only answered, never renamed. */
  lemma HitlMoves(c: Config, s: State, op: Op)
    requires Enabled(c, s, op)
    ensures !op.Ask? && !op.AnswerRequest? && !op.Lose? ==> Apply(c, s, op).hitl == s.hitl
    ensures op.Ask? ==> Apply(c, s, op).hitl == s.hitl + [HitlRequest(op.id, true)]
    ensures op.AnswerRequest? || op.Lose? ==>
              Apply(c, s, op).hitl == s.hitl[op.request := HitlRequest(s.hitl[op.request].node, false)]
  {
    if !op.Ask? && !op.AnswerRequest? && !op.Lose? {
      HitlStays(c, s, op);
    }
  }

  lemma HitlStays(c: Config, s: State, op: Op)
    requires Enabled(c, s, op) && !op.Ask? && !op.AnswerRequest? && !op.Lose?
    ensures Apply(c, s, op).hitl == s.hitl
  {
    if !IsOutside(op) {
      match op {
        case Finish => FinishFrame(c, s);
        case FireTo(f, t) => FireOneFrame(c, s, f, t);
        case Persist(id, turn) => CommitFrame(c, s, id, turn);
        case EnterCommit(_, _) =>
        case Requeue(_, _) =>
        case Overflow(_) =>
        case FailWith(_, _) =>
        case Open(_) =>
        case EndBranch(_) =>
        case Escape =>
      }
    }
  }

  lemma RequestsHeldKept(c: Config, s: State, op: Op)
    requires RequestsHeld(s) && Enabled(c, s, op)
    ensures RequestsHeld(Apply(c, s, op))
  {
    forall id
      ensures RequestsAgree(Apply(c, s, op), id)
    {
      assert RequestsAgree(s, id);
      RequestsStep(c, s, op, id);
    }
  }

  lemma RequestsStep(c: Config, s: State, op: Op, id: string)
    requires RequestsAgree(s, id) && Enabled(c, s, op)
    ensures RequestsAgree(Apply(c, s, op), id)
  {
    LogMoves(c, s, op);
    HitlMoves(c, s, op);
    PastMoves(c, s, op);
    RequestsAdd(s, Apply(c, s, op), op, EventOf(c, s, op), id);
  }

  /** The same, said of what the operation does to the log, the table and what others did. */
  lemma RequestsAdd(s: State, t: State, op: Op, event: Option<Event>, id: string)
    requires RequestsAgree(s, id)
    requires t.log == match event case Some(e) => Append(s.log, e) case None => s.log
    requires t.past == PastAfter(s, op).(selected := t.past.selected)
    requires match op
             case Ask(node) => t.hitl == s.hitl + [HitlRequest(node, true)] && event == Some(HitlRaised(node))
             case AnswerRequest(i) =>
               && IsPendingAt(s, i) && t.hitl == s.hitl[i := HitlRequest(s.hitl[i].node, false)]
               && event == Some(HitlResolved(s.hitl[i].node))
             case Lose(i) =>
               && IsPendingAt(s, i) && t.hitl == s.hitl[i := HitlRequest(s.hitl[i].node, false)] && event.None?
             case Take(node) => t.hitl == s.hitl && event == Some(HitlResolved(node))
             case _ => t.hitl == s.hitl && (event.Some? ==> !event.value.HitlRaised? && !event.value.HitlResolved?)
    ensures RequestsAgree(t, id)
  {
    if event.Some? {
      AppendRequests(s.log, event.value, id);
    }
    TableAdds(s.hitl, t.hitl, op, id);
  }

  lemma TableAdds(hitl: seq<HitlRequest>, more: seq<HitlRequest>, op: Op, id: string)
    requires op.Ask? ==> more == hitl + [HitlRequest(op.id, true)]
    requires op.AnswerRequest? || op.Lose? ==>
               && op.request < |hitl| && hitl[op.request].pending
               && more == hitl[op.request := HitlRequest(hitl[op.request].node, false)]
    requires !op.Ask? && !op.AnswerRequest? && !op.Lose? ==> more == hitl
    ensures Asked(more, id) == Asked(hitl, id) + if op == Ask(id) then 1 else 0
    ensures Answered(more, id) == Answered(hitl, id) +
            if (op.AnswerRequest? || op.Lose?) && hitl[op.request].node == id then 1 else 0
  {
    if op.Ask? {
      assert more[..|hitl|] == hitl;
    } else if op.AnswerRequest? || op.Lose? {
      AnswerCounts(hitl, op.request, id);
    }
  }

  // ---- retry chains and sleeps ----

  ghost predicate ChainsHeld(s: State) {
    Clean(s) ==> Exec.FailuresFollowed(s.rows)
  }

  lemma ChainsHeldKept(c: Config, s: State, op: Op)
    requires ChainsHeld(s) && Enabled(c, s, op)
    ensures ChainsHeld(Apply(c, s, op))
  {
    if Clean(Apply(c, s, op)) {
      CleanBefore(c, s, op);
      RowsMove(c, s, op);
      if op.Open? {
        NewRowFollows(s, op.id);
      }
    }
  }

  lemma NewRowFollows(s: State, id: string)
    requires Exec.FailuresFollowed(s.rows) && FailureQueued(s) && s.queue != [] && id == s.queue[0]
    ensures Exec.FailuresFollowed(Exec.NewRow(s.rows, id, s.nextId))
  {
    var more := Exec.NewRow(s.rows, id, s.nextId);
    forall i | 0 <= i < |more| - 1 && more[i].status == Exec.Failed
      ensures more[i + 1].node == more[i].node && more[i + 1].visit == more[i].visit
    {
      if i == |s.rows| - 1 {
        assert Exec.Latest(s.rows, id) == i;
      } else {
        assert more[i] == s.rows[i] && more[i + 1] == s.rows[i + 1];
      }
    }
  }

  ghost predicate StreaksMatch(sleeps: seq<Sleep>, streaks: seq<nat>) {
    |sleeps| == |streaks| && forall i | 0 <= i < |sleeps| :: sleeps[i].streak == streaks[i]
  }

  /** The sleeps of an unfailed run follow exactly the failures within the budget, in order. */
  ghost predicate SleepsHeld(c: Config, s: State) {
    Clean(s) ==> StreaksMatch(s.sleeps, Exec.SleptStreaks(s.rows, c.guards.maxRetries))
  }

  /** Only a retry within the budget sleeps. */
  lemma SleepsMove(c: Config, s: State, op: Op)
    requires Enabled(c, s, op)
    ensures var t := Apply(c, s, op);
            if op.Requeue? && op.streak <= c.guards.maxRetries then
              |t.sleeps| == |s.sleeps| + 1 && t.sleeps[..|s.sleeps|] == s.sleeps
              && t.sleeps[|s.sleeps|].streak == op.streak >= 1
              && t.sleeps[|s.sleeps|].delay ==
                 Delay(op.streak, RETRY_BASE, RETRY_CAP, c.world.rng(|s.sleeps|))
            else t.sleeps == s.sleeps
  {
    match op {
      case Finish => FinishFrame(c, s);
      case FireTo(f, t) => FireOneFrame(c, s, f, t);
      case _ =>
    }
  }

  lemma SleepsHeldKept(c: Config, s: State, op: Op)
    requires SleepsHeld(c, s) && Enabled(c, s, op)
    ensures SleepsHeld(c, Apply(c, s, op))
  {
    if Clean(Apply(c, s, op)) {
      CleanBefore(c, s, op);
      RowsMove(c, s, op);
      SleepsMove(c, s, op);
      SleptMove(c, s, op);
      var t := Apply(c, s, op);
      forall i | 0 <= i < |s.sleeps|
        ensures t.sleeps[i] == s.sleeps[i]
      {
        assert t.sleeps[..|s.sleeps|][i] == s.sleeps[i];
      }
    }
  }

  lemma SleptMove(c: Config, s: State, op: Op)
    requires Clean(s) && Enabled(c, s, op) && !op.FailWith? && !op.Overflow?
    ensures Exec.SleptStreaks(Changed(s.rows, s.nextId, RowChangeOf(s, op)), c.guards.maxRetries) ==
            Exec.SleptStreaks(s.rows, c.guards.maxRetries) +
            if op.Requeue? && op.streak <= c.guards.maxRetries then [op.streak] else []
  {
    MarksOpen(c, s, op);
    SleptChange(s.rows, s.nextId, RowChangeOf(s, op), c.guards.maxRetries);
  }

  /** Outside a failing run only the latest, unfailed attempt is marked, and only a retry marks it FAILED. */
  lemma MarksOpen(c: Config, s: State, op: Op)
    requires Enabled(c, s, op) && !op.FailWith? && !op.Overflow?
    ensures var change := RowChangeOf(s, op);
            && (change.Marks? ==>
                  && change.i == |s.rows| - 1 && s.rows[change.i].status != Exec.Failed
                  && (change.status == Exec.Failed <==> op.Requeue?))
            && (op.Requeue? ==>
                  change.Marks? && op.streak == Exec.Streak(s.rows[..|s.rows| - 1], s.rows[change.i].node) + 1)
  {
  }

  lemma SleptChange(rows: Exec.Rows, newId: nat, change: RowChange, maxRetries: nat)
    requires change.Marks? ==> change.i == |rows| - 1 && rows[change.i].status != Exec.Failed
    ensures Exec.SleptStreaks(Changed(rows, newId, change), maxRetries) ==
            Exec.SleptStreaks(rows, maxRetries) +
            if change.Marks? && change.status == Exec.Failed
               && Exec.Streak(rows[..|rows| - 1], rows[change.i].node) + 1 <= maxRetries
            then [Exec.Streak(rows[..|rows| - 1], rows[change.i].node) + 1] else []
  {
    match change {
      case Unchanged =>
      case Opens(id) => Exec.NewRowCounts(rows, id, newId, maxRetries);
      case Marks(_, status, usage) => Exec.MarkLastCounts(rows, status, usage, maxRetries);
    }
  }

  /** Every sleep waits the backoff of its streak. */
  ghost predicate DelaysHeld(c: Config, s: State) {
    forall i | 0 <= i < |s.sleeps| ::
      && s.sleeps[i].streak >= 1
      && s.sleeps[i].delay == Delay(s.sleeps[i].streak, RETRY_BASE, RETRY_CAP, c.world.rng(i))
  }

  lemma DelaysHeldKept(c: Config, s: State, op: Op)
    requires DelaysHeld(c, s) && Enabled(c, s, op)
    ensures DelaysHeld(c, Apply(c, s, op))
  {
    SleepsMove(c, s, op);
    var t := Apply(c, s, op);
    forall i | 0 <= i < |t.sleeps|
      ensures t.sleeps[i].streak >= 1
      ensures t.sleeps[i].delay == Delay(t.sleeps[i].streak, RETRY_BASE, RETRY_CAP, c.world.rng(i))
    {
      if i < |s.sleeps| {
        assert t.sleeps[..|s.sleeps|][i] == s.sleeps[i];
      }
    }
  }
}
