/**
 * The engine's steps as sequences of atomic ones. Each operation is one
 * durable write or one change of the in-memory context, so the states between
 * operations are all the states a run can be in.
 */
module EngineOps {
  import opened Outcomes
  import opened StateMerge
  import opened Graph
  import opened Dod
  import opened Backoff
  import opened EventLog
  import Exec = Executions
  import opened EngineState

  datatype Op =
    | Open(id: string)
    | EnterCommit(id: string, delta: Delta)
    | CancelRun
    | Requeue(id: string, streak: nat)
    | Overflow(id: string)
    | FailWith(id: string, usage: Option<Usage>)
    | Persist(id: string, turn: Turn)
    | FireTo(f: string, t: string)
    | Ask(id: string)
    | EndBranch(id: string)
    | Escape
    | Promote
    | Quiesce
    | Finish
    | AnswerRequest(request: nat)
    | Take(node: string)
    | Lose(request: nat)
    | SelectRun

  function Apply(c: Config, s: State, op: Op): State {
    match op
    case Open(id) => if s.queue == [] then s else Begin(s.(queue := s.queue[1..]), id)
    case EnterCommit(id, delta) => CommitDelta(c, s, id, delta).GetOr(s)
    case CancelRun => LandCancel(s)
    case Requeue(id, streak) => if streak == 0 then s else Requeued(c, s, id, streak)
    case Overflow(_) => Raise(MarkLast(s, Exec.Failed, None))
    case FailWith(id, usage) => MarkRunFailed(s, id, usage)
    case Persist(id, turn) => if turn.Finished? then CommitTurn(c, s, id, turn).GetOr(s) else s
    case FireTo(f, t) => FireOne(c, s, f, t)
    case Ask(id) => RaiseHitl(s, id)
    case EndBranch(id) => Logged(s, Terminate(id)).(terminalReached := true)
    case Escape => Raise(s)
    case Promote => s.(queue := PendingJoins(c, s))
    case Quiesce => s.(phase := Ending)
    case Finish => Finalize(c, s)
    case AnswerRequest(i) => if i < |s.hitl| then AnswerHitl(s, i) else s
    case Take(node) => TakeAnswer(s, node)
    case Lose(i) => if i < |s.hitl| then LoseRequest(s, i) else s
    case SelectRun => SelectToCancel(s)
  }

  /** No FAIL event and no escaped exception. */
  ghost predicate Clean(s: State) {
    !HasFailed(s.log) && !s.everRaised
  }

  /** The last row is the open attempt of `id`. */
  ghost predicate IsOpen(s: State, id: string) {
    && s.rows != []
    && s.rows[|s.rows| - 1].node == id
    && s.rows[|s.rows| - 1].status == Exec.Running
    && s.rows[|s.rows| - 1].input == s.rows[|s.rows| - 1].output == 0
    && (Clean(s) ==> Exec.NoneRunning(s.rows[..|s.rows| - 1]))
  }

  /** The last row is the committed attempt of `id`. */
  ghost predicate IsCommitted(s: State, id: string) {
    && s.rows != []
    && s.rows[|s.rows| - 1].node == id
    && s.rows[|s.rows| - 1].status == Exec.Succeeded
    && (Clean(s) ==> Exec.NoneRunning(s.rows))
  }

  /** A failed last attempt is at the head of the queue. */
  ghost predicate FailureQueued(s: State) {
    s.rows != [] && s.rows[|s.rows| - 1].status == Exec.Failed ==>
      s.queue != [] && s.queue[0] == s.rows[|s.rows| - 1].node
  }

  /** Bookkeeping of an unfailed run between the turns of the loop. */
  ghost predicate Settled(s: State) {
    && (s.phase == Raised ==> s.everRaised)
    && (Clean(s) ==> Exec.NoneRunning(s.rows) && FailureQueued(s) && (s.phase != Draining ==> s.queue == []))
  }

  /** Something is left that the drain, a human or the gate will act on, or was before another run took it. */
  ghost predicate Live(c: Config, s: State) {
    || Ends(s)
    || s.queue != []
    || exists id | id in c.graph.JoinAllNodes() :: Arrivals(s.log, id) != {}
  }

  /** What finalization will find to act on. */
  ghost predicate Ends(s: State) {
    s.failed || s.terminalReached || PendingHitl(s) || s.past.lost != []
  }

  /** A target the loop cap binds: no default edge leads there and no edge lists it twice. */
  ghost predicate CapBinds(c: Config, f: string, t: string) {
    && LoopKey(f, t) in c.guards.loopCaps
    && (c.graph.Default(f).Some? ==> t !in c.graph.Default(f).value.to)
    && (forall e | e in c.graph.Conditional(f) :: multiset(e.to)[t] <= 1)
  }

  ghost predicate BelowCap(c: Config, log: Log, f: string, t: string) {
    CapBinds(c, f, t) ==> RouteCount(log, f, t) < c.guards.loopCaps[LoopKey(f, t)]
  }

  /** When the engine performs each operation. */
  ghost predicate Enabled(c: Config, s: State, op: Op) {
    match op
    case Open(id) =>
      && s.queue != [] && s.queue[0] == id && Settled(s) && s.phase == Draining
      && Exec.Streak(s.rows, id) <= c.guards.maxRetries && |s.rows| < c.guards.maxTotalSteps
    case EnterCommit(id, delta) => IsOpen(s, id) && s.phase == Draining && CommitDelta(c, s, id, delta).Some?
    case CancelRun => true
    case Requeue(id, streak) =>
      && IsOpen(s, id) && s.phase == Draining
      && (c.graph.IsJoinAll(id) ==> id !in s.queue)
      && streak == Exec.Streak(s.rows[..|s.rows| - 1], id) + 1
    case Overflow(id) => IsOpen(s, id) && s.phase == Draining
    case FailWith(_, _) => s.phase == Draining
    case Persist(id, turn) =>
      && IsOpen(s, id) && s.phase == Draining
      && turn.Finished? && RuleOn(c, s, turn) == Accepted && CommitTurn(c, s, id, turn).Some?
    case FireTo(f, t) =>
      IsCommitted(s, f) && s.phase == Draining && c.graph.Leads(f, t) && BelowCap(c, s.log, f, t)
    case Ask(id) => IsCommitted(s, id) && s.phase == Draining
    case EndBranch(id) => IsCommitted(s, id) && s.phase == Draining
    case Escape => s.phase == Draining
    case Promote => Settled(s) && s.queue == [] && s.phase == Draining && !Drained(c, s)
    case Quiesce =>
      && Settled(s) && s.phase == Draining && Drained(c, s) && Live(c, s)
      && (s.failed ==> HasFailed(s.log))
    case Finish => Settled(s) && s.phase == Ending && Ends(s)
    case AnswerRequest(i) => Settled(s) && Answerable(s, i)
    case Take(_) => Settled(s) && Resumable(s)
    case Lose(i) => IsPendingAt(s, i)
    case SelectRun => true
  }

  /** A sequence of operations, oldest innermost. */
  datatype Path = Here | After(earlier: Path, op: Op)

  function ApplyAll(c: Config, s: State, path: Path): State {
    match path
    case Here => s
    case After(earlier, op) => Apply(c, ApplyAll(c, s, earlier), op)
  }

  ghost predicate AllEnabled(c: Config, s: State, path: Path) {
    match path
    case Here => true
    case After(earlier, op) => AllEnabled(c, s, earlier) && Enabled(c, ApplyAll(c, s, earlier), op)
  }

  /** The operations a dispatch is made of. */
  predicate IsDispatchOp(op: Op) {
    || op.Open? || op.EnterCommit? || op.CancelRun? || op.Requeue? || op.Overflow? || op.FailWith?
    || op.Persist? || op.FireTo? || op.Ask? || op.EndBranch? || op.Escape?
  }

  predicate FromDispatch(path: Path) {
    path.After? ==> FromDispatch(path.earlier) && IsDispatchOp(path.op)
  }

  /** The operations a drain turn may end on. */
  predicate IsLast(op: Op) {
    op.Requeue? || op.Overflow? || op.FailWith? || op.FireTo? || op.Ask? || op.EndBranch? || op.Escape? || op.Promote?
  }

  // ---- a dispatch is a sequence of enabled operations ----

  /** What firing leaves alone, and how it moves the fire counts. */
  lemma {:induction false} FireAllFrame(c: Config, s: State, f: string, targets: seq<string>)
    ensures var u := FireAll(c, s, f, targets);
            && u == s.(queue := u.queue, log := u.log, terminalReached := u.terminalReached)
            && (HasFailed(u.log) <==> HasFailed(s.log))
            && (forall t :: RouteCount(u.log, f, t) == RouteCount(s.log, f, t) + multiset(targets)[t])
  {
    if targets != [] {
      var init, last := targets[..|targets| - 1], targets[|targets| - 1];
      FireAllFrame(c, s, f, init);
      FireOneFrame(c, FireAll(c, s, f, init), f, last);
      CountLast(targets);
    }
  }

  lemma CountLast(targets: seq<string>)
    requires targets != []
    ensures forall t :: multiset(targets)[t] ==
                        multiset(targets[..|targets| - 1])[t] + if targets[|targets| - 1] == t then 1 else 0
  {
    assert targets == targets[..|targets| - 1] + [targets[|targets| - 1]];
  }

  lemma FireOneFrame(c: Config, s: State, f: string, t: string)
    ensures var u := FireOne(c, s, f, t);
            && u == s.(queue := u.queue, log := u.log, terminalReached := u.terminalReached)
            && u.log == Append(s.log, Route(f, t))
            && (HasFailed(u.log) <==> HasFailed(s.log))
            && (forall t' :: RouteCount(u.log, f, t') == RouteCount(s.log, f, t') + if t == t' then 1 else 0)
  {
    AppendCounts(s.log, Route(f, t));
    AppendFlags(s.log, Route(f, t));
  }

  /** The edge may fire without passing a binding cap. */
  ghost predicate Fireable(c: Config, s: State, f: string, targets: seq<string>) {
    && (forall t | t in targets :: c.graph.Leads(f, t))
    && (forall t | t in targets && CapBinds(c, f, t) ::
          multiset(targets)[t] <= 1 && RouteCount(s.log, f, t) < c.guards.loopCaps[LoopKey(f, t)])
  }

  lemma FireableInit(c: Config, s: State, f: string, init: seq<string>, last: string)
    requires Fireable(c, s, f, init + [last])
    ensures Fireable(c, s, f, init)
    ensures c.graph.Leads(f, last)
    ensures CapBinds(c, f, last) ==>
              multiset(init)[last] == 0 && RouteCount(s.log, f, last) < c.guards.loopCaps[LoopKey(f, last)]
  {
    var targets := init + [last];
    assert last in targets;
    assert forall t | t in init :: t in targets && multiset(init)[t] <= multiset(targets)[t];
  }

  lemma {:induction false} FireOps(c: Config, s0: State, before: Path, f: string, targets: seq<string>)
    returns (path: Path)
    requires AllEnabled(c, s0, before) && FromDispatch(before)
    requires var s := ApplyAll(c, s0, before);
             IsCommitted(s, f) && s.phase == Draining && Fireable(c, s, f, targets)
    ensures AllEnabled(c, s0, path) && ApplyAll(c, s0, path) == FireAll(c, ApplyAll(c, s0, before), f, targets)
    ensures if targets == [] then path == before else path.After? && path.op.FireTo?
    ensures FromDispatch(path)
  {
    if targets == [] {
      path := before;
    } else {
      FireLast(c, ApplyAll(c, s0, before), f, targets);
      var earlier := FireOps(c, s0, before, f, targets[..|targets| - 1]);
      path := After(earlier, FireTo(f, targets[|targets| - 1]));
    }
  }

  /** The last target of an edge may fire once the others have. */
  lemma FireLast(c: Config, s: State, f: string, targets: seq<string>)
    requires targets != [] && IsCommitted(s, f) && s.phase == Draining && Fireable(c, s, f, targets)
    ensures Fireable(c, s, f, targets[..|targets| - 1])
    ensures Enabled(c, FireAll(c, s, f, targets[..|targets| - 1]), FireTo(f, targets[|targets| - 1]))
  {
    var init, last := targets[..|targets| - 1], targets[|targets| - 1];
    assert targets == init + [last];
    FireableInit(c, s, f, init, last);
    FireAllFrame(c, s, f, init);
    FireEnabled(c, s, FireAll(c, s, f, init), f, last, init);
  }

  lemma FireEnabled(c: Config, s: State, t: State, f: string, last: string, init: seq<string>)
    requires IsCommitted(s, f) && s.phase == Draining && c.graph.Leads(f, last)
    requires t == s.(queue := t.queue, log := t.log, terminalReached := t.terminalReached)
    requires HasFailed(t.log) <==> HasFailed(s.log)
    requires RouteCount(t.log, f, last) == RouteCount(s.log, f, last) + multiset(init)[last]
    requires CapBinds(c, f, last) ==>
               multiset(init)[last] == 0 && RouteCount(s.log, f, last) < c.guards.loopCaps[LoopKey(f, last)]
    ensures Enabled(c, t, FireTo(f, last))
  {
  }

  /** Whatever edge routing picks may fire: uncapped if conditional, unbound if default. */
  lemma ChosenIsFireable(c: Config, s: State, node: Node, e: Edge)
    requires ChooseRoute(c, node, s) == Fire(e)
    ensures Fireable(c, s, node.id, e.to)
    ensures e in c.graph.Conditional(node.id) || c.graph.Default(node.id) == Some(e)
  {
    var live := NotSkipped(c, s, node.id);
    FirstLiveMeans(c.graph.Conditional(node.id), live);
    if FirstLive(c.graph.Conditional(node.id), live).Some? {
      assert live(e) && e in c.graph.Conditional(node.id);
    } else {
      assert c.graph.Default(node.id) == Some(e);
    }
  }

  /** Every edge has a target (the document model refuses others). */
  ghost predicate EdgesHaveTargets(g: CompiledGraph) {
    && (forall f, e | e in g.Conditional(f) :: e.to != [])
    && (forall f | g.Default(f).Some? :: g.Default(f).value.to != [])
  }

  lemma RouteOps(c: Config, s0: State, before: Path, node: Node) returns (path: Path)
    requires EdgesHaveTargets(c.graph) && AllEnabled(c, s0, before) && FromDispatch(before)
    requires var s := ApplyAll(c, s0, before); IsCommitted(s, node.id) && s.phase == Draining
    ensures AllEnabled(c, s0, path) && ApplyAll(c, s0, path) == RouteFrom(c, ApplyAll(c, s0, before), node)
    ensures path.After? && IsLast(path.op) && FromDispatch(path)
  {
    var s := ApplyAll(c, s0, before);
    match ChooseRoute(c, node, s) {
      case Fire(e) =>
        ChosenIsFireable(c, s, node, e);
        path := FireOps(c, s0, before, node.id, e.to);
      case AskHuman => path := After(before, Ask(node.id));
      case NoRoute => path := After(before, FailWith(node.id, None));
      case Stop => path := After(before, EndBranch(node.id));
      case RouteRaises => path := After(before, Escape);
    }
  }

  lemma CommitOpens(c: Config, s: State, id: string, turn: Turn)
    requires IsOpen(s, id) && turn.Finished? && CommitTurn(c, s, id, turn).Some?
    ensures IsCommitted(CommitTurn(c, s, id, turn).value, id)
    ensures CommitTurn(c, s, id, turn).value.phase == s.phase
  {
    var t := CommitTurn(c, s, id, turn).value;
    AppendFlags(s.log, Commit(id, turn.delta, s.version, s.version + 1));
    if Clean(t) {
      forall r | r in t.rows
        ensures r.status != Exec.Running
      {
        var k :| 0 <= k < |t.rows| && t.rows[k] == r;
        if k < |s.rows| - 1 {
          assert s.rows[..|s.rows| - 1][k] == r;
        }
      }
    }
  }

  /** The open attempt of a node whose turn is about to be settled. */
  ghost predicate MayTurn(c: Config, s: State, node: Node, streak: nat) {
    && IsOpen(s, node.id) && s.phase == Draining
    && (c.graph.IsJoinAll(node.id) ==> node.id !in s.queue)
    && streak == Exec.Streak(s.rows[..|s.rows| - 1], node.id)
  }

  lemma MayCommit(c: Config, s: State, node: Node, streak: nat, turn: Turn)
    requires MayTurn(c, s, node, streak)
    requires turn.Finished? && RuleOn(c, s, turn) == Accepted && CommitTurn(c, s, node.id, turn).Some?
    ensures Enabled(c, s, Persist(node.id, turn))
  {
  }

  /** What a turn that is not committed ends on. */
  function ClosingOp(c: Config, s: State, node: Node, streak: nat, turn: Turn): Op {
    match turn
    case Transient(recordable) =>
      if !recordable then Escape
      else if streak + 1 <= c.guards.maxRetries && Overflows(streak + 1) then Overflow(node.id)
      else Requeue(node.id, streak + 1)
    case Broken(recordable) => if recordable then FailWith(node.id, None) else Escape
    case Finished(_, usage, _, _, writable, _, explains) =>
      match RuleOn(c, s, turn)
      case Incomparable => Escape
      case Rejected => if writable then FailWith(node.id, Some(usage)) else Escape
      case Accepted => if explains then FailWith(node.id, None) else Escape
  }

  lemma ClosingSettles(c: Config, s: State, node: Node, streak: nat, turn: Turn)
    requires MayTurn(c, s, node, streak)
    requires turn.Finished? && RuleOn(c, s, turn) == Accepted ==> CommitTurn(c, s, node.id, turn).None?
    ensures var op := ClosingOp(c, s, node, streak, turn);
            Enabled(c, s, op) && IsLast(op) && Apply(c, s, op) == SettleTurn(c, s, node, streak, turn)
  {
    assert Exec.Latest(s.rows, node.id) >= 0;
  }

  lemma CancelMayTurn(c: Config, s: State, node: Node, streak: nat)
    requires MayTurn(c, s, node, streak)
    ensures MayTurn(c, LandCancel(s), node, streak)
  {
  }

  /** A turn after any concurrent cancel: the retry, the rejection, or the commit and its route. */
  lemma SettleOps(c: Config, s0: State, before: Path, node: Node, streak: nat, turn: Turn)
    returns (path: Path)
    requires EdgesHaveTargets(c.graph) && AllEnabled(c, s0, before) && FromDispatch(before)
    requires MayTurn(c, ApplyAll(c, s0, before), node, streak)
    ensures AllEnabled(c, s0, path)
    ensures ApplyAll(c, s0, path) == SettleTurn(c, ApplyAll(c, s0, before), node, streak, turn)
    ensures path.After? && IsLast(path.op) && FromDispatch(path)
  {
    var s := ApplyAll(c, s0, before);
    if turn.Finished? && RuleOn(c, s, turn) == Accepted && CommitTurn(c, s, node.id, turn).Some? {
      MayCommit(c, s, node, streak, turn);
      CommitOpens(c, s, node.id, turn);
      path := RouteOps(c, s0, After(before, Persist(node.id, turn)), node);
    } else {
      ClosingSettles(c, s, node, streak, turn);
      path := After(before, ClosingOp(c, s, node, streak, turn));
    }
  }

  lemma BeginOpens(s: State, id: string)
    requires Settled(s) && s.queue != []
    ensures IsOpen(Begin(s.(queue := s.queue[1..]), id), id)
    ensures Begin(s.(queue := s.queue[1..]), id).rows[..|s.rows|] == s.rows
  {
  }

  lemma EnterOpens(c: Config, s: State, node: Node)
    requires IsOpen(s, node.id) && Enter(c, s, node).Some?
    ensures var t := Enter(c, s, node).value;
            IsOpen(t, node.id) && t == s.(shared := t.shared, version := t.version, log := t.log)
  {
    if node.onEnter.Some? {
      AppendFlags(s.log, Commit(node.id, c.world.enter(|s.rows|, node.onEnter.value, s.shared).value, s.version,
                                s.version + 1));
    }
  }

  lemma TurnOps(c: Config, s0: State, before: Path, node: Node, streak: nat, run: TurnRun)
    returns (path: Path)
    requires EdgesHaveTargets(c.graph) && AllEnabled(c, s0, before) && FromDispatch(before)
    requires MayTurn(c, ApplyAll(c, s0, before), node, streak)
    ensures AllEnabled(c, s0, path)
    ensures ApplyAll(c, s0, path) == RunTurn(c, ApplyAll(c, s0, before), node, streak, run)
    ensures path.After? && IsLast(path.op) && FromDispatch(path)
  {
    if run.cancelled {
      CancelMayTurn(c, ApplyAll(c, s0, before), node, streak);
      path := SettleOps(c, s0, After(before, CancelRun), node, streak, run.turn);
    } else {
      path := SettleOps(c, s0, before, node, streak, run.turn);
    }
  }

  lemma AttemptOps(c: Config, s0: State, before: Path, node: Node, streak: nat, run: TurnRun)
    returns (path: Path)
    requires EdgesHaveTargets(c.graph) && AllEnabled(c, s0, before) && FromDispatch(before)
    requires MayTurn(c, ApplyAll(c, s0, before), node, streak)
    ensures AllEnabled(c, s0, path)
    ensures ApplyAll(c, s0, path) == Attempt(c, ApplyAll(c, s0, before), node, streak, run)
    ensures path.After? && IsLast(path.op) && FromDispatch(path)
  {
    var s := ApplyAll(c, s0, before);
    if !node.agentBacked || Enter(c, s, node).None? {
      path := After(before, Escape);
    } else if node.onEnter.None? {
      path := TurnOps(c, s0, before, node, streak, run);
    } else {
      EnterOpens(c, s, node);
      var delta := c.world.enter(|s.rows|, node.onEnter.value, s.shared).value;
      path := TurnOps(c, s0, After(before, EnterCommit(node.id, delta)), node, streak, run);
    }
  }

  lemma OpenMayTurn(c: Config, s: State)
    requires Settled(s) && s.phase == Draining && s.queue != []
    requires c.graph.IsJoinAll(s.queue[0]) ==> s.queue[0] !in s.queue[1..]
    requires Exec.Streak(s.rows, s.queue[0]) <= c.guards.maxRetries && |s.rows| < c.guards.maxTotalSteps
    ensures Enabled(c, s, Op.Open(s.queue[0]))
    ensures Begin(s.(queue := s.queue[1..]), s.queue[0]).phase == Draining
    ensures forall node: Node | node.id == s.queue[0] ::
              MayTurn(c, Begin(s.(queue := s.queue[1..]), s.queue[0]), node, Exec.Streak(s.rows, s.queue[0]))
  {
    BeginOpens(s, s.queue[0]);
  }

  /** A dispatch is a sequence of enabled operations. */
  lemma DispatchOps(c: Config, s: State) returns (path: Path)
    requires EdgesHaveTargets(c.graph) && (forall id | id in c.graph.nodesById :: c.graph.nodesById[id].id == id)
    requires Settled(s) && s.phase == Draining && s.queue != []
    requires c.graph.IsJoinAll(s.queue[0]) ==> s.queue[0] !in s.queue[1..]
    ensures AllEnabled(c, s, path) && ApplyAll(c, s, path) == Dispatch(c, s)
    ensures path.After? && IsLast(path.op) && FromDispatch(path)
  {
    var id := s.queue[0];
    assert ApplyAll(c, s, Here) == s;
    if Exec.Streak(s.rows, id) > c.guards.maxRetries || |s.rows| >= c.guards.maxTotalSteps {
      return After(Here, FailWith(id, None));
    }
    path := OpenedOps(c, s);
  }

  /** The same once the guards let it through. */
  lemma OpenedOps(c: Config, s: State) returns (path: Path)
    requires EdgesHaveTargets(c.graph) && (forall id | id in c.graph.nodesById :: c.graph.nodesById[id].id == id)
    requires Settled(s) && s.phase == Draining && s.queue != []
    requires c.graph.IsJoinAll(s.queue[0]) ==> s.queue[0] !in s.queue[1..]
    requires Exec.Streak(s.rows, s.queue[0]) <= c.guards.maxRetries && |s.rows| < c.guards.maxTotalSteps
    ensures AllEnabled(c, s, path) && ApplyAll(c, s, path) == Dispatch(c, s)
    ensures path.After? && IsLast(path.op) && FromDispatch(path)
  {
    var id := s.queue[0];
    assert ApplyAll(c, s, Here) == s;
    path := After(Here, Op.Open(id));
    OpenMayTurn(c, s);
    assert ApplyAll(c, s, path) == Begin(s.(queue := s.queue[1..]), id);
    if id !in c.graph.nodesById {
      return After(path, Escape);
    }
    path := AttemptOps(c, s, path, c.graph.nodesById[id], Exec.Streak(s.rows, id), c.world.turns(|s.rows|));
  }
}
