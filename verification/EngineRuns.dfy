/** Whole runs: status, progress, and the invariants at every reachable state. */
module EngineRuns {
  import opened Outcomes
  import opened Graph
  import opened Dod
  import opened EventLog
  import Exec = Executions
  import opened EngineState
  import opened EngineOps
  import opened EngineInvariants

  /** What compilation guarantees about the graph. */
  ghost predicate Wired(g: CompiledGraph) {
    && EdgesHaveTargets(g)
    && (forall id | id in g.nodesById :: g.nodesById[id].id == id)
    && Distinct(g.JoinAllNodes())
    && (forall id :: id in g.JoinAllNodes() <==> g.IsJoinAll(id))
  }

  lemma CompiledIsWired(g: CompiledGraph, doc: Workflow)
    requires Compilable(doc) && Represents(g, doc)
    requires forall e | e in doc.edges :: e.to != []
    ensures Wired(g)
  {
    forall f, e | e in g.Conditional(f)
      ensures e.to != []
    {
      SortKeepsMembers(DeclaredFrom(doc.edges, f), e);
      DeclaredAre(doc.edges, f, e);
    }
    forall f | g.Default(f).Some?
      ensures g.Default(f).value.to != []
    {
      assert IsDefaultOf(doc.edges, f, g.Default(f).value);
    }
    forall id | id in g.nodesById
      ensures g.nodesById[id].id == id
    {
      var n :| n in doc.nodes && n.id == id;
      assert g.nodesById[n.id] == n;
    }
    JoinAllMeans(g.nodes);
    forall id
      ensures id in g.JoinAllNodes() <==> g.IsJoinAll(id)
    {
      if g.IsJoinAll(id) {
        var n :| n in doc.nodes && n.id == id;
        assert g.nodesById[n.id] == n;
      }
      if n :| n in g.nodes && n.joinAll && n.id == id {
        assert g.nodesById[n.id] == n;
      }
    }
  }

  lemma {:induction false} JoinAllMeans(nodes: seq<Node>)
    ensures forall id :: id in JoinAllAmong(nodes) <==> exists n | n in nodes :: n.joinAll && n.id == id
    ensures DistinctIds(nodes) ==> Distinct(JoinAllAmong(nodes))
  {
    if nodes != [] {
      var rest := nodes[1..];
      assert nodes == [nodes[0]] + rest;
      JoinAllMeans(rest);
      if DistinctIds(nodes) {
        forall i, j | 0 <= i < j < |rest|
          ensures rest[i].id != rest[j].id
        {
          assert nodes[i + 1].id != nodes[j + 1].id;
        }
        assert DistinctIds(rest);
        forall n | n in rest
          ensures n.id != nodes[0].id
        {
          var k :| 0 <= k < |rest| && rest[k] == n;
          assert nodes[k + 1] == n;
        }
        assert nodes[0].id !in JoinAllAmong(rest);
      }
    }
  }

  // ---- the invariants together ----

  ghost predicate Inv(c: Config, s: State) {
    && LogSound(c, s) && RowsSound(c, s) && CapsHeld(c, s) && TokensHeld(c, s) && JoinsOnce(c, s)
    && BalanceHeld(c, s) && ChainsHeld(s) && SleepsHeld(c, s) && DelaysHeld(c, s)
    && RequestsHeld(s)
  }

  lemma InvKept(c: Config, s: State, op: Op)
    requires Wired(c.graph) && Inv(c, s) && Enabled(c, s, op)
    ensures Inv(c, Apply(c, s, op))
  {
    LogSoundKept(c, s, op);
    RowsSoundKept(c, s, op);
    CapsHeldKept(c, s, op);
    TokensHeldKept(c, s, op);
    JoinsOnceKept(c, s, op);
    BalanceKept(c, s, op);
    ChainsHeldKept(c, s, op);
    SleepsHeldKept(c, s, op);
    DelaysHeldKept(c, s, op);
    RequestsHeldKept(c, s, op);
  }

  // ---- status ----

  /** The gate was passed on the state the run still has. */
  ghost predicate GatePassed(c: Config, s: State) {
    c.dod.Some? ==>
      exists k | 0 <= k < |s.log| ::
        && s.log[k].event.DodEvaluated? && s.log[k].event.decision.completed
        && DefinitionMet(c.world.gates(k).box, c.dod.value, s.shared, c.guards.maxTokens,
                         Exec.TotalTokens(s.rows), c.world.gates(k).judgement)
  }

  ghost predicate StatusHeld(c: Config, s: State) {
    && (s.failed ==> IsTerminal(s.status) && HasFailed(s.log))
    && (s.status == Pending ==> !s.past.entered)
    && (s.phase == Held ==> s.status == Pending || s.status == Cancelled)
    && (s.past.reopened ==> IsTerminal(s.status))
    && (s.status == Completed ==> CompletedHeld(c, s))
    && (s.phase == Idle ==>
          IsTerminal(s.status) || (s.status == WaitingHuman && PendingHitl(s)) || s.past.lost != [])
  }

  /** A COMPLETED run passed its gate, and until it is resumed again is at rest in the state that passed. */
  ghost predicate CompletedHeld(c: Config, s: State) {
    && (c.dod.Some? ==> HasPassedGate(s.log))
    && (!s.past.reopened ==> s.phase == Idle && !PendingHitl(s) && GatePassed(c, s))
  }

  lemma StatusHeldKept(c: Config, s: State, op: Op)
    requires Wired(c.graph) && StatusHeld(c, s) && Enabled(c, s, op)
    ensures StatusHeld(c, Apply(c, s, op))
  {
    if op.Finish? {
      FinishStatus(c, s);
    } else if op.Lose? {
      LoseStatus(c, s, op.request);
    } else if op == CancelRun || op == SelectRun {
      CancelStatus(c, s, op);
    } else {
      DrainStatus(c, s, op);
    }
  }

  lemma CancelStatus(c: Config, s: State, op: Op)
    requires StatusHeld(c, s) && Enabled(c, s, op) && (op == CancelRun || op == SelectRun)
    ensures StatusHeld(c, Apply(c, s, op))
  {
  }

  lemma DrainStatus(c: Config, s: State, op: Op)
    requires StatusHeld(c, s) && Enabled(c, s, op)
    requires !op.Finish? && !op.Lose? && op != CancelRun && op != SelectRun
    ensures StatusHeld(c, Apply(c, s, op))
  {
    LogMoves(c, s, op);
    PastMoves(c, s, op);
    if EventOf(c, s, op).Some? {
      AppendFlags(s.log, EventOf(c, s, op).value);
    }
    StatusMoves(c, s, op);
  }

  lemma LoseStatus(c: Config, s: State, i: nat)
    requires StatusHeld(c, s) && IsPendingAt(s, i)
    ensures StatusHeld(c, LoseRequest(s, i))
  {
    assert s.hitl[i] in s.hitl;
  }

  /** Apart from finishing and cancels, the status changes only to FAILED, in a drain. */
  lemma StatusMoves(c: Config, s: State, op: Op)
    requires Enabled(c, s, op) && !op.Finish? && op != CancelRun && op != SelectRun && !op.Lose?
    ensures var t := Apply(c, s, op);
            && t.status == (if op.FailWith? then Failed else s.status)
            && (t.failed ==> s.failed || op.FailWith?)
            && t.phase == (if op.AnswerRequest? || op.Take? then Draining
                           else if op == Escape || op.Overflow? then Raised
                           else if op == Quiesce then Ending else s.phase)
            && (op.AnswerRequest? ==> PendingHitl(s))
            && (!op.AnswerRequest? && !op.Take? ==> s.phase == Draining)
  {
    StatusStays(c, s, op);
    PhaseStays(c, s, op);
    if op.AnswerRequest? {
      assert s.hitl[op.request] in s.hitl;
    }
  }

  lemma StatusStays(c: Config, s: State, op: Op)
    requires Enabled(c, s, op) && !op.Finish? && op != CancelRun && op != SelectRun && !op.Lose?
    ensures Apply(c, s, op).status == if op.FailWith? then Failed else s.status
    ensures Apply(c, s, op).failed ==> s.failed || op.FailWith?
  {
    match op {
      case FireTo(f, t) => FireOneFrame(c, s, f, t);
      case Persist(id, turn) => CommitFrame(c, s, id, turn);
      case EnterCommit(_, _) =>
      case Requeue(_, _) =>
      case Overflow(_) =>
      case Ask(_) =>
      case FailWith(_, _) =>
      case Open(_) =>
      case AnswerRequest(_) =>
      case Take(_) =>
      case EndBranch(_) =>
      case Escape =>
      case Promote =>
      case Quiesce =>
    }
  }

  lemma PhaseStays(c: Config, s: State, op: Op)
    requires Enabled(c, s, op) && !op.Finish? && op != CancelRun && op != SelectRun && !op.Lose?
    ensures Apply(c, s, op).phase ==
            if op.AnswerRequest? || op.Take? then Draining
            else if op == Escape || op.Overflow? then Raised
            else if op == Quiesce then Ending else s.phase
  {
    match op {
      case FireTo(f, t) => FireOneFrame(c, s, f, t);
      case Persist(id, turn) => CommitFrame(c, s, id, turn);
      case EnterCommit(_, _) =>
      case Requeue(_, _) =>
      case Overflow(_) =>
      case Ask(_) =>
      case FailWith(_, _) =>
      case Open(_) =>
      case AnswerRequest(_) =>
      case Take(_) =>
      case EndBranch(_) =>
      case Escape =>
      case Promote =>
      case Quiesce =>
    }
  }

  /** A drain that ends unfailed has something to act on. */
  lemma DrainedEnds(c: Config, s: State)
    requires Wired(c.graph) && Drained(c, s) && Live(c, s)
    ensures Ends(s)
  {
    PendingAmongMeans(s, c.graph.JoinAllNodes());
    if !s.failed && !PendingHitl(s) {
      if id :| id in c.graph.JoinAllNodes() && Arrivals(s.log, id) != {} {
        assert id in PendingJoins(c, s);
      }
    }
  }

  /** With nobody to ask and no request lost to another run, that is a terminal. */
  lemma DrainedIsLive(c: Config, s: State)
    requires Wired(c.graph) && Drained(c, s) && Live(c, s) && !s.failed && !PendingHitl(s) && s.past.lost == []
    ensures s.terminalReached
  {
    DrainedEnds(c, s);
  }

  lemma FinishStatus(c: Config, s: State)
    requires StatusHeld(c, s) && Enabled(c, s, Finish)
    ensures StatusHeld(c, Finalize(c, s))
  {
    FinishFrame(c, s);
    if !s.failed && !IsTerminal(s.status) {
      FinishActive(c, s);
    }
  }

  lemma FinishActive(c: Config, s: State)
    requires StatusHeld(c, s) && s.phase == Ending && Ends(s) && !s.failed && !IsTerminal(s.status)
    ensures StatusHeld(c, Finalize(c, s))
  {
    FinishFrame(c, s);
    FinishWrites(c, s);
    if GateDecision(c, s).Some? {
      FinishJudged(c, s);
    }
  }

  /** The status an active run is left with. */
  lemma FinishWrites(c: Config, s: State)
    requires !s.failed && !IsTerminal(s.status)
    ensures var t, gate := Finalize(c, s), c.world.gates(|s.log|);
            && t.phase == (if gate.writeFails && gate.fallbackFails then Raised else Idle)
            && t.status == (if gate.cancelled then Cancelled
                            else if gate.writeFails then if gate.fallbackFails then s.status else Failed
                            else if PendingHitl(s) then WaitingHuman
                            else if !s.terminalReached then s.status
                            else if c.dod.None? || Judged(c, s, c.dod.value, gate).completed then Completed
                            else Failed)
  {
    var gate, idle := c.world.gates(|s.log|), s.(phase := Idle);
    var out := if gate.cancelled then LandCancel(idle) else idle;
    if PendingHitl(s) {
      WriteFinalStatus(out, WaitingHuman, None, gate);
    } else if !s.terminalReached {
      WriteFinalStatus(out, s.status, None, gate);
    } else if c.dod.None? {
      WriteFinalStatus(out, Completed, None, gate);
    } else {
      var d := Judged(c, s, c.dod.value, gate);
      WriteFinalStatus(out, if d.completed then Completed else Failed, Some(d), gate);
    }
  }

  lemma WriteFinalStatus(s: State, status: Status, event: Option<Decision>, gate: GateRun)
    ensures var t := WriteFinal(s, status, event, gate);
            && t.phase == (if gate.writeFails && gate.fallbackFails then Raised else s.phase)
            && t.status == if IsTerminal(s.status) then s.status
                           else if !gate.writeFails then status
                           else if gate.fallbackFails then s.status
                           else Failed
  {
  }

  lemma FinishJudged(c: Config, s: State)
    requires GateDecision(c, s).Some?
    ensures Finalize(c, s).status == Completed ==>
              HasPassedGate(Finalize(c, s).log) && GatePassed(c, Finalize(c, s))
  {
    var t, gate, d := Finalize(c, s), c.world.gates(|s.log|), GateDecision(c, s).value;
    FinishFrame(c, s);
    FinishWrites(c, s);
    DecideExact(gate.box, c.dod.value, s.shared, c.guards.maxTokens, Exec.TotalTokens(s.rows), gate.judgement);
    AppendFlags(s.log, DodEvaluated(d));
    if t.status == Completed {
      assert t.log[|s.log|].event == DodEvaluated(d);
    }
  }

  // ---- progress ----

  /** What a finished operation leaves for the next turn of the loop. */
  lemma LastSettles(c: Config, s: State, op: Op)
    requires Wired(c.graph) && Gapless(s.log) && Enabled(c, s, op) && IsLast(op)
    ensures Settled(Apply(c, s, op))
    ensures Apply(c, s, op).phase == Raised || (Apply(c, s, op).phase == Draining && Live(c, Apply(c, s, op)))
  {
    match op {
      case FireTo(f, t) => FireSettles(c, s, f, t);
      case Requeue(id, streak) => RequeueSettles(c, s, id, streak);
      case Overflow(_) =>
      case Ask(id) => AskSettles(c, s, id);
      case FailWith(id, usage) => AppendFlags(s.log, Fail(id));
      case EndBranch(id) => AppendFlags(s.log, Terminate(id));
      case Escape =>
      case Promote => PromoteSettles(c, s);
    }
  }

  lemma FireSettles(c: Config, s: State, f: string, t: string)
    requires Wired(c.graph) && Gapless(s.log) && Enabled(c, s, FireTo(f, t))
    ensures var u := FireOne(c, s, f, t); Settled(u) && u.phase == Draining && Live(c, u)
  {
    FireOneFrame(c, s, f, t);
    AppendArrivals(s.log, Route(f, t), t);
    var u := FireOne(c, s, f, t);
    assert u.log == Append(s.log, Route(f, t));
    assert f in Arrivals(u.log, t);
    if t != TERMINAL && c.graph.IsJoinAll(t) {
      assert t in c.graph.JoinAllNodes();
    }
  }

  lemma RequeueSettles(c: Config, s: State, id: string, streak: nat)
    requires Enabled(c, s, Requeue(id, streak))
    ensures var u := Requeued(c, s, id, streak); Settled(u) && u.phase == Draining && Live(c, u)
  {
    if Clean(s) {
      MarkedSettles(s, Exec.Failed, None);
    }
  }

  lemma MarkedSettles(s: State, status: Exec.RowStatus, usage: Option<Usage>)
    requires s.rows != [] && status != Exec.Running && Exec.NoneRunning(s.rows[..|s.rows| - 1])
    ensures Exec.NoneRunning(Exec.Mark(s.rows, |s.rows| - 1, status, usage))
  {
    var marked := Exec.Mark(s.rows, |s.rows| - 1, status, usage);
    forall r | r in marked
      ensures r.status != Exec.Running
    {
      var k :| 0 <= k < |marked| && marked[k] == r;
      if k < |s.rows| - 1 {
        assert s.rows[..|s.rows| - 1][k] == r;
      }
    }
  }

  lemma AskSettles(c: Config, s: State, id: string)
    requires Enabled(c, s, Ask(id))
    ensures var u := RaiseHitl(s, id); Settled(u) && u.phase == Draining && Live(c, u)
  {
    var u := RaiseHitl(s, id);
    AppendFlags(s.log, HitlRaised(id));
    assert u.hitl[|s.hitl|] in u.hitl && u.hitl[|s.hitl|].pending;
    if Clean(u) {
      assert forall r | r in s.rows[..|s.rows| - 1] :: r in s.rows;
      MarkedSettles(s, Exec.WaitingHuman, None);
    }
  }

  lemma PromoteSettles(c: Config, s: State)
    requires Enabled(c, s, Promote)
    ensures var u := s.(queue := PendingJoins(c, s)); Settled(u) && u.phase == Draining && Live(c, u)
  {
  }

  // ---- every action of a run ----

  /** What holds each time the drain loop, a human or another process may act. */
  ghost predicate Good(c: Config, s: State) {
    && Inv(c, s) && StatusHeld(c, s) && Settled(s)
    && (s.phase == Draining ==> Live(c, s))
    && (s.phase == Ending ==> Ends(s))
  }

  lemma {:induction false} KeptAlong(c: Config, s: State, path: Path)
    requires Wired(c.graph) && Inv(c, s) && StatusHeld(c, s) && AllEnabled(c, s, path)
    ensures Inv(c, ApplyAll(c, s, path)) && StatusHeld(c, ApplyAll(c, s, path))
  {
    match path {
      case Here =>
      case After(earlier, op) =>
        KeptAlong(c, s, earlier);
        InvKept(c, ApplyAll(c, s, earlier), op);
        StatusHeldKept(c, ApplyAll(c, s, earlier), op);
    }
  }

  /** One turn of the drain loop is a sequence of enabled operations. */
  lemma IteratePath(c: Config, s: State) returns (path: Path)
    requires Wired(c.graph) && Good(c, s) && s.phase == Draining && !Drained(c, s)
    ensures path.After? && IsLast(path.op) && AllEnabled(c, s, path) && ApplyAll(c, s, path) == Iterate(c, s)
    ensures if s.queue == [] then path == After(Here, Promote) else FromDispatch(path)
  {
    if s.queue != [] {
      HeadIsOnce(c, s);
      path := DispatchOps(c, s);
    } else {
      path := After(Here, Promote);
      assert ApplyAll(c, s, Here) == s;
    }
  }

  lemma IterateKeeps(c: Config, s: State)
    requires Wired(c.graph) && Good(c, s) && s.phase == Draining && !Drained(c, s)
    ensures Good(c, Iterate(c, s))
    ensures Iterate(c, s).phase == Raised || Iterate(c, s).phase == Draining
  {
    var path := IteratePath(c, s);
    KeptAlong(c, s, path);
    KeptAlong(c, s, path.earlier);
    LastSettles(c, ApplyAll(c, s, path.earlier), path.op);
  }

  lemma QuiesceKeeps(c: Config, s: State)
    requires Wired(c.graph) && Good(c, s) && s.phase == Draining && Drained(c, s)
    ensures Good(c, s.(phase := Ending))
  {
    InvKept(c, s, Quiesce);
    StatusHeldKept(c, s, Quiesce);
    DrainedEnds(c, s);
  }

  lemma FinalizeKeeps(c: Config, s: State)
    requires Wired(c.graph) && Good(c, s) && s.phase == Ending
    ensures Good(c, Finalize(c, s))
    ensures Finalize(c, s).phase == Idle || Finalize(c, s).phase == Raised
  {
    InvKept(c, s, Finish);
    StatusHeldKept(c, s, Finish);
    FinishSettles(c, s);
  }

  lemma FinishSettles(c: Config, s: State)
    requires Enabled(c, s, Finish)
    ensures Settled(Finalize(c, s))
    ensures Finalize(c, s).phase == Idle || Finalize(c, s).phase == Raised
  {
    FinishFrame(c, s);
    if GateDecision(c, s).Some? {
      AppendFlags(s.log, DodEvaluated(GateDecision(c, s).value));
    }
    if !s.failed && !IsTerminal(s.status) {
      FinishWrites(c, s);
      FinishRaises(c, s);
    }
  }

  /** Raising leaves its mark. */
  lemma FinishRaises(c: Config, s: State)
    ensures s.everRaised || Finalize(c, s).phase == Raised ==> Finalize(c, s).everRaised || s.phase == Raised
  {
    var gate, idle := c.world.gates(|s.log|), s.(phase := Idle);
    var out := if gate.cancelled then LandCancel(idle) else idle;
    assert out.everRaised == s.everRaised && out.phase == Idle;
  }

  lemma CancelKeeps(c: Config, s: State)
    requires Wired(c.graph) && Good(c, s)
    ensures Good(c, LandCancel(s))
  {
    InvKept(c, s, CancelRun);
    StatusHeldKept(c, s, CancelRun);
    assert Apply(c, s, CancelRun) == LandCancel(s);
    PastSettles(c, s, LandCancel(s));
  }

  lemma SelectKeeps(c: Config, s: State)
    requires Wired(c.graph) && Good(c, s)
    ensures Good(c, SelectToCancel(s))
  {
    InvKept(c, s, SelectRun);
    StatusHeldKept(c, s, SelectRun);
    assert Apply(c, s, SelectRun) == SelectToCancel(s);
    PastSettles(c, s, SelectToCancel(s));
  }

  /** Another process's doings on the status and the request table leave the bookkeeping alone. */
  lemma PastSettles(c: Config, s: State, t: State)
    requires t == s.(status := t.status, hitl := t.hitl, past := t.past)
    requires PendingHitl(s) ==> PendingHitl(t) || t.past.lost != []
    requires s.past.lost != [] ==> t.past.lost != []
    ensures Settled(s) ==> Settled(t)
    ensures Live(c, s) ==> Live(c, t)
    ensures Ends(s) ==> Ends(t)
  {
    assert Clean(t) <==> Clean(s);
  }

  lemma LoseKeeps(c: Config, s: State, i: nat)
    requires Wired(c.graph) && Good(c, s) && IsPendingAt(s, i)
    ensures Good(c, LoseRequest(s, i))
  {
    InvKept(c, s, Lose(i));
    StatusHeldKept(c, s, Lose(i));
    assert Apply(c, s, Lose(i)) == LoseRequest(s, i);
    PastSettles(c, s, LoseRequest(s, i));
  }

  lemma TakeKeeps(c: Config, s: State, node: string)
    requires Wired(c.graph) && Good(c, s) && Resumable(s)
    ensures Good(c, TakeAnswer(s, node))
  {
    InvKept(c, s, Take(node));
    StatusHeldKept(c, s, Take(node));
    AppendFlags(s.log, HitlResolved(node));
  }

  lemma AnswerKeeps(c: Config, s: State, i: nat)
    requires Wired(c.graph) && Good(c, s) && Answerable(s, i)
    ensures Good(c, AnswerHitl(s, i))
  {
    InvKept(c, s, AnswerRequest(i));
    StatusHeldKept(c, s, AnswerRequest(i));
    AppendFlags(s.log, HitlResolved(s.hitl[i].node));
  }

  lemma AdvanceKeeps(c: Config, s: State)
    requires Wired(c.graph) && Good(c, s)
    ensures Good(c, Advance(c, s))
  {
    if s.phase == Ending {
      FinalizeKeeps(c, s);
    } else if s.phase == Draining {
      if Drained(c, s) {
        QuiesceKeeps(c, s);
      } else {
        IterateKeeps(c, s);
      }
    }
  }

  lemma NextKeeps(c: Config, s: State, action: Action)
    requires Wired(c.graph) && Good(c, s)
    ensures Good(c, Next(c, s, action))
  {
    match action {
      case Tick => AdvanceKeeps(c, s);
      case Answer(i) =>
        if Answerable(s, i) {
          AnswerKeeps(c, s, i);
        }
      case AnswerForeign(node) =>
        if Resumable(s) {
          TakeKeeps(c, s, node);
        }
      case AnswerElsewhere(i) =>
        if IsPendingAt(s, i) {
          LoseKeeps(c, s, i);
        }
      case Select => SelectKeeps(c, s);
      case Cancel => CancelKeeps(c, s);
    }
  }

  /** The operation that an action other than a dispatch is. */
  ghost predicate IsActionOp(s: State, action: Action, op: Op) {
    match op
    case Promote => action == Tick && s.phase == Draining && s.queue == []
    case Quiesce => action == Tick && s.phase == Draining
    case Finish => action == Tick && s.phase == Ending
    case AnswerRequest(i) => action == Answer(i)
    case Take(node) => action == AnswerForeign(node) && Resumable(s)
    case Lose(i) => action == AnswerElsewhere(i)
    case SelectRun => action == Select
    case CancelRun => action == Cancel
    case _ => false
  }

  /** Each action of a run is nothing, one operation, or the operations of one dispatch. */
  lemma NextPath(c: Config, s: State, action: Action) returns (path: Path)
    requires Wired(c.graph) && Good(c, s)
    ensures AllEnabled(c, s, path) && ApplyAll(c, s, path) == Next(c, s, action)
    ensures path.After? ==>
              || (path.earlier == Here && IsActionOp(s, action, path.op))
              || (FromDispatch(path) && action == Tick && s.phase == Draining && s.queue != [])
    ensures path == Here ==> !(action.AnswerForeign? && Resumable(s))
  {
    if action == Tick {
      path := AdvancePath(c, s);
    } else {
      path := OutsidePath(c, s, action);
    }
  }

  lemma AdvancePath(c: Config, s: State) returns (path: Path)
    requires Wired(c.graph) && Good(c, s)
    ensures AllEnabled(c, s, path) && ApplyAll(c, s, path) == Advance(c, s)
    ensures path.After? ==>
              || (path.earlier == Here && IsActionOp(s, Tick, path.op))
              || (FromDispatch(path) && s.phase == Draining && s.queue != [])
  {
    assert ApplyAll(c, s, Here) == s;
    path := Here;
    if s.phase == Ending {
      path := After(Here, Finish);
    } else if s.phase == Draining {
      if Drained(c, s) {
        path := After(Here, Quiesce);
      } else {
        path := IteratePath(c, s);
      }
    }
  }

  lemma OutsidePath(c: Config, s: State, action: Action) returns (path: Path)
    requires Good(c, s) && action != Tick
    ensures AllEnabled(c, s, path) && ApplyAll(c, s, path) == Next(c, s, action)
    ensures path.After? ==> path.earlier == Here && IsActionOp(s, action, path.op)
    ensures path == Here ==> !(action.AnswerForeign? && Resumable(s))
  {
    assert ApplyAll(c, s, Here) == s;
    path := Here;
    match action {
      case Answer(i) =>
        if Answerable(s, i) {
          path := After(Here, AnswerRequest(i));
        }
      case AnswerForeign(node) =>
        if Resumable(s) {
          path := After(Here, Take(node));
        }
      case AnswerElsewhere(i) =>
        if IsPendingAt(s, i) {
          path := After(Here, Lose(i));
        }
      case Select => path := After(Here, SelectRun);
      case Cancel => path := After(Here, CancelRun);
    }
  }

  /** A dispatch leaves alone what others did, save that a cancel may land. */
  lemma {:induction false} PastAlong(c: Config, s: State, path: Path)
    requires AllEnabled(c, s, path) && FromDispatch(path)
    ensures var p := ApplyAll(c, s, path).past; p == s.past.(selected := p.selected)
  {
    match path {
      case Here =>
      case After(earlier, op) =>
        PastAlong(c, s, earlier);
        PastMoves(c, ApplyAll(c, s, earlier), op);
    }
  }

  lemma StartIsGood(c: Config, held: bool)
    ensures Good(c, Start(c, held))
  {
    var s := Start(c, held);
    assert Exec.SleptStreaks(s.rows, c.guards.maxRetries) == [];
    forall id
      ensures RequestsAgree(s, id)
      ensures Balanced(c, s, id)
    {
      assert s.queue == if held then [] else [c.graph.entry];
    }
  }

  /** A run: what it looks like after any sequence of actions. */
  function Run(c: Config, held: bool, actions: seq<Action>): State {
    if actions == [] then Start(c, held)
    else Next(c, Run(c, held, actions[..|actions| - 1]), actions[|actions| - 1])
  }

  lemma RunAppends(c: Config, held: bool, actions: seq<Action>, action: Action)
    ensures Run(c, held, actions + [action]) == Next(c, Run(c, held, actions), action)
  {
    assert (actions + [action])[..|actions|] == actions;
  }

  /** A continuation is its beginning and its last action. */
  lemma RunContinues(c: Config, held: bool, actions: seq<Action>, more: seq<Action>)
    requires more != []
    ensures Run(c, held, actions + more) ==
            Next(c, Run(c, held, actions + more[..|more| - 1]), more[|more| - 1])
  {
    assert actions + more == (actions + more[..|more| - 1]) + [more[|more| - 1]];
    RunAppends(c, held, actions + more[..|more| - 1], more[|more| - 1]);
  }

  /** The invariants hold at every reachable state of every run. */
  lemma {:induction false} RunIsGood(c: Config, held: bool, actions: seq<Action>)
    requires Wired(c.graph)
    ensures Good(c, Run(c, held, actions))
  {
    if actions == [] {
      StartIsGood(c, held);
    } else {
      RunIsGood(c, held, actions[..|actions| - 1]);
      NextKeeps(c, Run(c, held, actions[..|actions| - 1]), actions[|actions| - 1]);
    }
  }

  // ---- a drain ends ----

  lemma RouteKeepsLength(c: Config, s: State, node: Node)
    ensures |RouteFrom(c, s, node).rows| == |s.rows|
  {
    match ChooseRoute(c, node, s) {
      case Fire(e) => FireAllFrame(c, s, node.id, e.to);
      case _ =>
    }
  }

  lemma SettleKeepsLength(c: Config, s: State, node: Node, streak: nat, turn: Turn)
    ensures |SettleTurn(c, s, node, streak, turn).rows| == |s.rows|
  {
    if turn.Finished? && RuleOn(c, s, turn) == Accepted && CommitTurn(c, s, node.id, turn).Some? {
      CommitKeepsLength(c, s, node, turn);
      RouteKeepsLength(c, CommitTurn(c, s, node.id, turn).value, node);
    } else {
      UnroutedKeepsLength(c, s, node, streak, turn);
    }
  }

  lemma CommitKeepsLength(c: Config, s: State, node: Node, turn: Turn)
    requires turn.Finished? && CommitTurn(c, s, node.id, turn).Some?
    ensures |CommitTurn(c, s, node.id, turn).value.rows| == |s.rows|
  {
    CommitFrame(c, s, node.id, turn);
  }

  lemma UnroutedKeepsLength(c: Config, s: State, node: Node, streak: nat, turn: Turn)
    requires turn.Finished? && RuleOn(c, s, turn) == Accepted ==> CommitTurn(c, s, node.id, turn).None?
    ensures |SettleTurn(c, s, node, streak, turn).rows| == |s.rows|
  {
    match turn {
      case Transient(_) =>
      case Broken(recordable) => FailKeepsLength(s, node.id, None, recordable);
      case Finished(_, usage, _, _, writable, _, explains) =>
        FailKeepsLength(s, node.id, Some(usage), writable);
        FailKeepsLength(s, node.id, None, explains);
    }
  }

  lemma FailKeepsLength(s: State, node: string, usage: Option<Usage>, writable: bool)
    ensures |FailRun(s, node, usage, writable).rows| == |s.rows|
  {
  }

  lemma AttemptKeepsLength(c: Config, s: State, node: Node, streak: nat, run: TurnRun)
    ensures |Attempt(c, s, node, streak, run).rows| == |s.rows|
  {
    if node.agentBacked && Enter(c, s, node).Some? {
      SettleKeepsLength(c, if run.cancelled then LandCancel(Enter(c, s, node).value)
                           else Enter(c, s, node).value, node, streak, run.turn);
    }
  }

  /** A dispatch opens one more attempt or fails the run. */
  lemma DispatchAdvances(c: Config, s: State)
    requires s.queue != []
    ensures Dispatch(c, s).failed || (|s.rows| < c.guards.maxTotalSteps && |Dispatch(c, s).rows| == |s.rows| + 1)
  {
    var id, begun := s.queue[0], Begin(s.(queue := s.queue[1..]), s.queue[0]);
    if id in c.graph.nodesById {
      AttemptKeepsLength(c, begun, c.graph.nodesById[id], Exec.Streak(s.rows, id), c.world.turns(|s.rows|));
    }
  }

  function StepsLeft(c: Config, s: State): nat {
    if |s.rows| >= c.guards.maxTotalSteps then 0 else c.guards.maxTotalSteps - |s.rows|
  }

  /** `_drain_queue`, to its end, with nothing between its turns. */
  function Drain(c: Config, s: State): State
    decreases if s.failed then 0 else 1, StepsLeft(c, s), if s.queue == [] then 1 else 0
  {
    if s.phase == Ending then Finalize(c, s)
    else if s.phase != Draining then s
    else if Drained(c, s) then Finalize(c, s.(phase := Ending))
    else
      assert s.queue != [] ==> Dispatch(c, s).failed || StepsLeft(c, Dispatch(c, s)) < StepsLeft(c, s) by {
        if s.queue != [] {
          DispatchAdvances(c, s);
        }
      }
      Drain(c, Iterate(c, s))
  }

  predicate InDrain(s: State) {
    s.phase == Draining || s.phase == Ending
  }

  /** Every drain ends, in a good state, either idle or with an escaped exception. */
  lemma {:induction false} DrainEnds(c: Config, s: State)
    requires Wired(c.graph) && Good(c, s) && InDrain(s)
    ensures Good(c, Drain(c, s))
    ensures Drain(c, s).phase == Idle || Drain(c, s).phase == Raised
    decreases if s.failed then 0 else 1, StepsLeft(c, s), if s.queue == [] then 1 else 0
  {
    if s.phase == Ending {
      FinalizeKeeps(c, s);
    } else if Drained(c, s) {
      QuiesceKeeps(c, s);
      FinalizeKeeps(c, s.(phase := Ending));
    } else {
      IterateKeeps(c, s);
      if s.queue != [] {
        DispatchAdvances(c, s);
      }
      if Iterate(c, s).phase == Draining {
        DrainEnds(c, Iterate(c, s));
      }
    }
  }

  /** Draining is ticking: a drain is some number of Tick actions of the run. */
  lemma {:induction false} DrainIsTicks(c: Config, held: bool, actions: seq<Action>) returns (more: seq<Action>)
    requires Run(c, held, actions).phase != Ending
    ensures Run(c, held, more) == Drain(c, Run(c, held, actions))
    ensures actions <= more && forall i | |actions| <= i < |more| :: more[i] == Tick
    decreases var s := Run(c, held, actions); if s.failed then 0 else 1,
              StepsLeft(c, Run(c, held, actions)), if Run(c, held, actions).queue == [] then 1 else 0
  {
    var s := Run(c, held, actions);
    RunAppends(c, held, actions, Tick);
    if s.phase != Draining {
      more := actions;
    } else if Drained(c, s) {
      more := actions + [Tick] + [Tick];
      RunAppends(c, held, actions + [Tick], Tick);
    } else {
      if s.queue != [] {
        DispatchAdvances(c, s);
      }
      IterateStays(c, s);
      more := DrainIsTicks(c, held, actions + [Tick]);
    }
  }

  lemma IterateStays(c: Config, s: State)
    requires s.phase == Draining
    ensures Iterate(c, s).phase == Draining || Iterate(c, s).phase == Raised
  {
    if s.queue != [] {
      DispatchStays(c, s);
    }
  }

  lemma RouteStays(c: Config, s: State, node: Node)
    requires s.phase == Draining
    ensures RouteFrom(c, s, node).phase == Draining || RouteFrom(c, s, node).phase == Raised
  {
    match ChooseRoute(c, node, s) {
      case Fire(e) => FireAllFrame(c, s, node.id, e.to);
      case _ =>
    }
  }

  lemma SettleStays(c: Config, s: State, node: Node, streak: nat, turn: Turn)
    requires s.phase == Draining
    ensures var phase := SettleTurn(c, s, node, streak, turn).phase; phase == Draining || phase == Raised
  {
    if turn.Finished? && RuleOn(c, s, turn) == Accepted && CommitTurn(c, s, node.id, turn).Some? {
      RouteStays(c, CommitTurn(c, s, node.id, turn).value, node);
    }
  }

  lemma DispatchStays(c: Config, s: State)
    requires s.queue != [] && s.phase == Draining
    ensures Dispatch(c, s).phase == Draining || Dispatch(c, s).phase == Raised
  {
    var id, begun := s.queue[0], Begin(s.(queue := s.queue[1..]), s.queue[0]);
    if id in c.graph.nodesById && c.graph.nodesById[id].agentBacked {
      var node, run := c.graph.nodesById[id], c.world.turns(|s.rows|);
      if Enter(c, begun, node).Some? {
        var entered := Enter(c, begun, node).value;
        SettleStays(c, if run.cancelled then LandCancel(entered) else entered, node, Exec.Streak(s.rows, id), run.turn);
      }
    }
  }

  /** Some turn of the loop in this run started in a state where `cond` held. */
  ghost predicate Sometime(c: Config, held: bool, actions: seq<Action>, cond: State -> bool) {
    actions != [] &&
    var init, last := actions[..|actions| - 1], actions[|actions| - 1];
    Sometime(c, held, init, cond) || (last == Tick && cond(Run(c, held, init)))
  }
}
