/**
 * What one dispatch does, said of the tables before and after it, the declared
 * edges, the guards and the world: a second account of the engine's step, with
 * none of its functions in it.
 */
module EngineOutcomes {
  import opened Outcomes
  import opened StateMerge
  import opened Graph
  import opened Dod
  import opened Backoff
  import opened EventLog
  import Exec = Executions
  import opened EngineState
  import opened EngineOps

  // ---- the ways a table can change ----

  ghost predicate IsLogged(s: State, t: State, event: Event) {
    t.log == s.log + [Entry(|s.log| + 1, event)]
  }

  ghost predicate IsRaised(s: State, t: State) {
    t == s.(phase := Raised, everRaised := true)
  }

  /** The last row is relabelled, with the tokens of a result if there is one. */
  ghost predicate IsMarked(rows: Exec.Rows, more: Exec.Rows, status: Exec.RowStatus, usage: Option<Usage>) {
    && |more| == |rows| > 0 && more[..|rows| - 1] == rows[..|rows| - 1]
    && IsRelabelled(rows[|rows| - 1], more[|rows| - 1], status, usage)
  }

  ghost predicate IsRelabelled(row: Exec.Row, marked: Exec.Row, status: Exec.RowStatus, usage: Option<Usage>) {
    && marked.node == row.node && marked.attempt == row.attempt && marked.visit == row.visit
    && marked.status == status
    && (marked.input, marked.output) ==
       if usage.Some? then (usage.value.input, usage.value.output) else (row.input, row.output)
  }

  /** The node's latest row, if it has one, is relabelled FAILED, and no other. */
  ghost predicate IsLatestFailed(rows: Exec.Rows, more: Exec.Rows, id: string, usage: Option<Usage>) {
    && |more| == |rows|
    && forall i | 0 <= i < |rows| ::
         if rows[i].node == id && forall k | i < k < |rows| :: rows[k].node != id
         then IsRelabelled(rows[i], more[i], Exec.Failed, usage)
         else more[i] == rows[i]
  }

  /** The run is failed: its status, its node's latest row, the event, and nothing left to do. */
  ghost predicate IsRunFailed(s: State, t: State, id: string, usage: Option<Usage>) {
    && t == s.(rows := t.rows, log := t.log, status := Failed, failed := true, queue := [])
    && IsLatestFailed(s.rows, t.rows, id, usage) && IsLogged(s, t, Fail(id))
  }

  /** The attempt waits and one request of its node is pending; nothing is queued. */
  ghost predicate IsAsked(s: State, t: State, id: string) {
    && t == s.(rows := t.rows, log := t.log, hitl := s.hitl + [HitlRequest(id, true)])
    && IsMarked(s.rows, t.rows, Exec.WaitingHuman, None) && IsLogged(s, t, HitlRaised(id))
  }

  ghost predicate IsEnded(s: State, t: State, id: string) {
    t == s.(log := t.log, terminalReached := true) && IsLogged(s, t, Terminate(id))
  }

  // ---- firing an edge ----

  /** Target `i` enters the queue: no terminal, and if a join then complete, not queued and not listed before. */
  predicate Enters(c: Config, s: State, f: string, targets: seq<string>, i: nat)
    requires i < |targets|
  {
    var t := targets[i];
    && t != TERMINAL
    && (c.graph.IsJoinAll(t) ==>
          && c.graph.InboundSources(t) <= Arrivals(s.log, t) + {f}
          && t !in s.queue && t !in targets[..i])
  }

  /** The targets that enter, in order. */
  function Entering(c: Config, s: State, f: string, targets: seq<string>): seq<string> {
    if targets == [] then []
    else
      var n := |targets| - 1;
      Entering(c, s, f, targets[..n]) + if Enters(c, s, f, targets, n) then [targets[n]] else []
  }

  /** Each target is routed to, in order; those that may enter join the back of the queue. */
  ghost predicate IsFired(c: Config, s: State, t: State, f: string, targets: seq<string>) {
    && t == s.(queue := t.queue, log := t.log, terminalReached := t.terminalReached)
    && |t.log| == |s.log| + |targets| && t.log[..|s.log|] == s.log
    && (forall i | 0 <= i < |targets| :: t.log[|s.log| + i] == Entry(|s.log| + i + 1, Route(f, targets[i])))
    && (t.terminalReached <==> s.terminalReached || TERMINAL in targets)
    && t.queue == s.queue + Entering(c, s, f, targets)
  }

  /** The queue aside. */
  lemma {:induction false} FiringLogs(c: Config, s: State, f: string, targets: seq<string>)
    requires Gapless(s.log)
    ensures var t := FireAll(c, s, f, targets);
            && t == s.(queue := t.queue, log := t.log, terminalReached := t.terminalReached)
            && |t.log| == |s.log| + |targets| && t.log[..|s.log|] == s.log && Gapless(t.log)
            && (forall i | 0 <= i < |targets| :: t.log[|s.log| + i].event == Route(f, targets[i]))
            && (t.terminalReached <==> s.terminalReached || TERMINAL in targets)
  {
    if targets != [] {
      var n := |targets| - 1;
      var earlier := FireAll(c, s, f, targets[..n]);
      assert targets == targets[..n] + [targets[n]];
      FiringLogs(c, s, f, targets[..n]);
      FireOneFrame(c, earlier, f, targets[n]);
      AppendGapless(earlier.log, Route(f, targets[n]));
    }
  }

  lemma {:induction false} FiringArrives(c: Config, s: State, f: string, targets: seq<string>, id: string)
    requires Gapless(s.log)
    ensures Gapless(FireAll(c, s, f, targets).log)
    ensures Arrivals(FireAll(c, s, f, targets).log, id) == Arrivals(s.log, id) + if id in targets then {f} else {}
  {
    if targets != [] {
      var n := |targets| - 1;
      var earlier := FireAll(c, s, f, targets[..n]);
      assert targets == targets[..n] + [targets[n]];
      FiringArrives(c, s, f, targets[..n], id);
      FireOneFrame(c, earlier, f, targets[n]);
      AppendGapless(earlier.log, Route(f, targets[n]));
      AppendArrivals(earlier.log, Route(f, targets[n]), id);
    }
  }

  lemma {:induction false} FiringQueues(c: Config, s: State, f: string, targets: seq<string>)
    requires Gapless(s.log)
    ensures FireAll(c, s, f, targets).queue == s.queue + Entering(c, s, f, targets)
  {
    if targets != [] {
      var n := |targets| - 1;
      FiringQueues(c, s, f, targets[..n]);
      LastEnters(c, s, f, targets);
    }
  }

  lemma LastEnters(c: Config, s: State, f: string, targets: seq<string>)
    requires Gapless(s.log) && targets != []
    requires FireAll(c, s, f, targets[..|targets| - 1]).queue == s.queue + Entering(c, s, f, targets[..|targets| - 1])
    ensures var n := |targets| - 1; var earlier := FireAll(c, s, f, targets[..n]);
            FireOne(c, earlier, f, targets[n]).queue ==
            earlier.queue + if Enters(c, s, f, targets, n) then [targets[n]] else []
  {
    var n := |targets| - 1;
    if targets[n] != TERMINAL && c.graph.IsJoinAll(targets[n]) {
      EnteredBefore(c, s, f, targets[..n], targets[n]);
      FiringArrives(c, s, f, targets[..n], targets[n]);
      JoinEnters(c, FireAll(c, s, f, targets[..n]), f, targets[n]);
    }
  }

  /** A join is queued once complete, unless it is queued already. */
  lemma JoinEnters(c: Config, s: State, f: string, t: string)
    requires Gapless(s.log) && c.graph.IsJoinAll(t) && t != TERMINAL
    ensures FireOne(c, s, f, t).queue ==
            s.queue + if c.graph.InboundSources(t) <= Arrivals(s.log, t) + {f} && t !in s.queue then [t] else []
  {
    AppendArrivals(s.log, Route(f, t), t);
  }

  /** What entered was listed, and a complete join that was listed and not queued has entered. */
  lemma {:induction false} EnteredBefore(c: Config, s: State, f: string, targets: seq<string>, id: string)
    ensures id in Entering(c, s, f, targets) ==> id in targets
    ensures c.graph.IsJoinAll(id) && id != TERMINAL && id !in s.queue ==>
              (id in Entering(c, s, f, targets) <==>
               id in targets && c.graph.InboundSources(id) <= Arrivals(s.log, id) + {f})
  {
    if targets != [] {
      var n := |targets| - 1;
      assert targets == targets[..n] + [targets[n]];
      EnteredBefore(c, s, f, targets[..n], id);
    }
  }

  lemma FiringMeans(c: Config, s: State, f: string, targets: seq<string>)
    requires Gapless(s.log)
    ensures IsFired(c, s, FireAll(c, s, f, targets), f, targets)
  {
    FiringLogs(c, s, f, targets);
    FiringQueues(c, s, f, targets);
  }

  // ---- routing ----

  /** Some target has been routed to as often as its loop cap allows. */
  predicate IsSpent(c: Config, log: Log, f: string, e: Edge) {
    exists i | 0 <= i < |e.to| ::
      && f + "_to_" + e.to[i] in c.guards.loopCaps
      && c.guards.loopCaps[f + "_to_" + e.to[i]] <= RouteCount(log, f, e.to[i])
  }

  /** What the edge's condition says, and what the node's human trigger does. */
  function Says(c: Config, s: State, e: Edge): Truth {
    if e.condition.None? then Holds else c.world.condition(|s.rows|, e, s.shared)
  }

  function Asks(c: Config, s: State, node: Node): Truth {
    if node.hitl.None? || !node.hitl.value.enabled then Fails
    else c.world.trigger(|s.rows|, node.hitl.value.trigger, s.shared)
  }

  /** A conditional edge of the node that may be taken as far as its caps and its condition go. */
  function IsOpenEdge(c: Config, s: State, f: string): Edge -> bool {
    (e: Edge) => e.from == f && !e.isDefault && !IsSpent(c, s.log, f, e) && Says(c, s, e) != Fails
  }

  /** Each of the node's conditional edges is spent or false. */
  ghost predicate NoneOpen(c: Config, doc: Workflow, node: Node, s: State) {
    forall e | e in doc.edges :: !IsOpenEdge(c, s, node.id)(e)
  }

  /**
   * The best open edge fires; failing one, a human is asked if the trigger
   * holds; then the default edge fires; then the run fails if the node has any
   * edge, and else its branch ends. A condition or trigger consulted may raise.
   */
  ghost predicate IsRouted(c: Config, doc: Workflow, node: Node, s: State, t: State) {
    if !NoneOpen(c, doc, node, s) then
      exists best | IsBest(doc.edges, IsOpenEdge(c, s, node.id), best) ::
        if Says(c, s, best) == Raises then IsRaised(s, t) else IsFired(c, s, t, node.id, best.to)
    else if Asks(c, s, node) == Holds then IsAsked(s, t, node.id)
    else if Asks(c, s, node) == Raises then IsRaised(s, t)
    else if exists e :: IsDefaultOf(doc.edges, node.id, e) then
      exists e | IsDefaultOf(doc.edges, node.id, e) :: IsFired(c, s, t, node.id, e.to)
    else if exists e | e in doc.edges :: e.from == node.id then IsRunFailed(s, t, node.id, None)
    else IsEnded(s, t, node.id)
  }

  lemma OpenIsNotSkipped(c: Config, s: State, f: string, e: Edge)
    ensures IsOpenEdge(c, s, f)(e) <==> IsDeclared(f, NotSkipped(c, s, f))(e)
    ensures Says(c, s, e) == ConditionOf(c, s, e)
  {
    if IsSpent(c, s.log, f, e) {
      var i :| 0 <= i < |e.to| && f + "_to_" + e.to[i] in c.guards.loopCaps
        && c.guards.loopCaps[f + "_to_" + e.to[i]] <= RouteCount(s.log, f, e.to[i]);
      assert e.to[i] in e.to && LoopKey(f, e.to[i]) == f + "_to_" + e.to[i];
    }
    if IsCapped(c, s.log, f, e) {
      var t :| t in e.to && LoopKey(f, t) in c.guards.loopCaps
        && RouteCount(s.log, f, t) >= c.guards.loopCaps[LoopKey(f, t)];
      var i :| 0 <= i < |e.to| && e.to[i] == t;
      assert LoopKey(f, e.to[i]) == f + "_to_" + e.to[i];
    }
  }

  lemma OpenAreNotSkipped(c: Config, s: State, f: string)
    ensures forall e :: IsOpenEdge(c, s, f)(e) <==> IsDeclared(f, NotSkipped(c, s, f))(e)
  {
    forall e
      ensures IsOpenEdge(c, s, f)(e) <==> IsDeclared(f, NotSkipped(c, s, f))(e)
    {
      OpenIsNotSkipped(c, s, f, e);
    }
  }

  lemma SameBest(edges: seq<Edge>, live: Edge -> bool, other: Edge -> bool, e: Edge, i: nat)
    requires (forall e :: live(e) <==> other(e)) && IsBestAt(edges, live, e, i)
    ensures IsBest(edges, other, e)
  {
    assert IsBestAt(edges, other, e, i);
  }

  lemma LatestIsFailed(s: State, id: string, usage: Option<Usage>)
    requires Gapless(s.log)
    ensures IsRunFailed(s, MarkRunFailed(s, id, usage), id, usage)
  {
    GaplessLast(s.log);
  }

  lemma DefaultIsDeclared(c: Config, doc: Workflow, f: string)
    requires Represents(c.graph, doc)
    ensures c.graph.Default(f).Some? ==> IsDefaultOf(doc.edges, f, c.graph.Default(f).value)
    ensures c.graph.Default(f).None? ==> forall e :: !IsDefaultOf(doc.edges, f, e)
  {
  }

  lemma EdgesAreDeclared(c: Config, doc: Workflow, f: string)
    requires Represents(c.graph, doc)
    ensures c.graph.HasOutgoingEdges(f) <==> exists e | e in doc.edges :: e.from == f
  {
    DefaultIsDeclared(c, doc, f);
    var declared := DeclaredFrom(doc.edges, f);
    if e :| e in doc.edges && e.from == f {
      if !e.isDefault {
        DeclaredAre(doc.edges, f, e);
        SortKeepsMembers(declared, e);
      }
    }
    if c.graph.Conditional(f) != [] {
      var e := c.graph.Conditional(f)[0];
      SortKeepsMembers(declared, e);
      DeclaredAre(doc.edges, f, e);
    }
  }

  /** Routing is as the document declares it. */
  lemma RouteMeans(c: Config, doc: Workflow, node: Node, s: State)
    requires Represents(c.graph, doc) && Gapless(s.log) && s.rows != []
    ensures IsRouted(c, doc, node, s, RouteFrom(c, s, node))
  {
    var declared, live := DeclaredFrom(doc.edges, node.id), NotSkipped(c, s, node.id);
    OpenAreNotSkipped(c, s, node.id);
    SortedFirstIsBest(declared, live);
    var first := FirstLive(SortByPriority(declared), live);
    if first.None? {
      forall e | e in doc.edges
        ensures !IsOpenEdge(c, s, node.id)(e)
      {
        DeclaredAre(doc.edges, node.id, e);
      }
      FallsThrough(c, doc, node, s);
    } else {
      var i :| IsBestAt(declared, live, first.value, i);
      var k := DeclaredBest(doc.edges, node.id, live, first.value, i);
      SameBest(doc.edges, IsDeclared(node.id, live), IsOpenEdge(c, s, node.id), first.value, k);
      BestFires(c, doc, node, s, first.value);
    }
  }

  lemma BestFires(c: Config, doc: Workflow, node: Node, s: State, best: Edge)
    requires Represents(c.graph, doc) && Gapless(s.log)
    requires IsBest(doc.edges, IsOpenEdge(c, s, node.id), best)
    requires FirstLive(c.graph.Conditional(node.id), NotSkipped(c, s, node.id)) == Some(best)
    ensures IsRouted(c, doc, node, s, RouteFrom(c, s, node))
  {
    assert best in doc.edges && IsOpenEdge(c, s, node.id)(best);
    OpenIsNotSkipped(c, s, node.id, best);
    FiringMeans(c, s, node.id, best.to);
  }

  lemma FallsThrough(c: Config, doc: Workflow, node: Node, s: State)
    requires Represents(c.graph, doc) && Gapless(s.log) && s.rows != [] && NoneOpen(c, doc, node, s)
    requires ChooseRoute(c, node, s) == Fallthrough(c, node, s)
    ensures IsRouted(c, doc, node, s, RouteFrom(c, s, node))
  {
    AskMeans(s, node.id);
    DefaultIsDeclared(c, doc, node.id);
    EdgesAreDeclared(c, doc, node.id);
    if c.graph.Default(node.id).Some? {
      FiringMeans(c, s, node.id, c.graph.Default(node.id).value.to);
    } else if c.graph.HasOutgoingEdges(node.id) {
      LatestIsFailed(s, node.id, None);
    } else {
      GaplessLast(s.log);
    }
  }

  lemma AskMeans(s: State, id: string)
    requires Gapless(s.log) && s.rows != []
    ensures IsAsked(s, RaiseHitl(s, id), id)
  {
    GaplessLast(s.log);
  }

  /**
   * With no conditional edge to take, a human is asked - one more pending
   * request, and nothing queued - exactly if the trigger holds, whatever the
   * default edge; and the default edge is taken exactly if the trigger is false.
   */
  lemma HumanComesFirst(c: Config, doc: Workflow, node: Node, s: State, e: Edge)
    requires Represents(c.graph, doc) && Gapless(s.log) && s.rows != [] && NoneOpen(c, doc, node, s)
    requires IsDefaultOf(doc.edges, node.id, e) && e.to != []
    ensures var t := RouteFrom(c, s, node);
            && (t.hitl == s.hitl + [HitlRequest(node.id, true)] && t.queue == s.queue <==> Asks(c, s, node) == Holds)
            && (|t.log| > |s.log| && t.log[|s.log|].event == Route(node.id, e.to[0]) <==> Asks(c, s, node) == Fails)
  {
    RouteMeans(c, doc, node, s);
    DefaultIsDeclared(c, doc, node.id);
    assert c.graph.Default(node.id) == Some(e);
  }

  // ---- a turn ----

  /** The turn's tool calls, its repairs and the run's tokens with its own are within the three limits. */
  predicate IsWithin(c: Config, s: State, turn: Turn)
    requires turn.Finished?
  {
    && turn.toolCalls.Some? && turn.toolCalls.value <= c.guards.maxToolCalls
    && turn.repairs.Some? && turn.repairs.value <= c.guards.maxRepairs
    && IsWithinTokens(c, s, turn)
  }

  predicate IsWithinTokens(c: Config, s: State, turn: Turn)
    requires turn.Finished?
  {
    c.guards.maxTokens.Some? ==>
      Exec.TotalTokens(s.rows) + turn.usage.input + turn.usage.output <= c.guards.maxTokens.value
  }

  /** A count that a guard comes to does not compare; the calls are looked at first. */
  predicate IsUnreadable(c: Config, turn: Turn)
    requires turn.Finished?
  {
    turn.toolCalls.None? || (turn.toolCalls.value <= c.guards.maxToolCalls && turn.repairs.None?)
  }

  /** The delta is merged, the version moves on, the event is logged and the attempt succeeded, all at once. */
  ghost predicate IsPersisted(c: Config, s: State, t: State, id: string, turn: Turn)
    requires turn.Finished?
  {
    && t == s.(shared := t.shared, version := s.version + 1, rows := t.rows, log := t.log)
    && Merge(c.fields, s.shared, turn.delta) == Ok(t.shared)
    && IsMarked(s.rows, t.rows, Exec.Succeeded, Some(turn.usage))
    && IsLogged(s, t, Commit(id, turn.delta, s.version, s.version + 1))
  }

  /** The attempt failed and its node is at the front again, after a sleep if that is within the budget. */
  ghost predicate IsRequeued(c: Config, s: State, t: State, id: string, streak: nat)
    requires streak >= 1
  {
    && t == s.(rows := t.rows, queue := [id] + s.queue, sleeps := t.sleeps)
    && IsMarked(s.rows, t.rows, Exec.Failed, None)
    && t.sleeps == s.sleeps +
                   if streak > c.guards.maxRetries then []
                   else [Sleep(streak, Delay(streak, 1.0, 30.0, c.world.rng(|s.sleeps|)))]
  }

  /** What a turn comes to, from the limits, the merge and what can be written. */
  ghost predicate IsSettled(c: Config, doc: Workflow, node: Node, s: State, t: State, streak: nat, turn: Turn) {
    match turn
    case Transient(recordable) =>
      if !recordable then IsRaised(s, t)
      else if streak < c.guards.maxRetries && streak >= 1024 then
        && t == s.(rows := t.rows, phase := Raised, everRaised := true)
        && IsMarked(s.rows, t.rows, Exec.Failed, None)
      else IsRequeued(c, s, t, node.id, streak + 1)
    case Broken(recordable) => if recordable then IsRunFailed(s, t, node.id, None) else IsRaised(s, t)
    case Finished(delta, usage, _, _, writable, persists, explains) =>
      if IsUnreadable(c, turn) then IsRaised(s, t)
      else if !IsWithin(c, s, turn) then
        if writable then IsRunFailed(s, t, node.id, Some(usage)) else IsRaised(s, t)
      else if writable && persists && Merge(c.fields, s.shared, delta).Ok? then
        exists committed | IsPersisted(c, s, committed, node.id, turn) :: IsRouted(c, doc, node, committed, t)
      else if explains then IsRunFailed(s, t, node.id, None)
      else IsRaised(s, t)
  }

  /** The guards decide on the limits alone: a turn is rejected, accepted or unreadable exactly as they say. */
  lemma RulesExactly(c: Config, s: State, turn: Turn)
    requires turn.Finished?
    ensures RuleOn(c, s, turn) == Incomparable <==> IsUnreadable(c, turn)
    ensures RuleOn(c, s, turn) == Accepted <==> IsWithin(c, s, turn)
  {
  }

  lemma MarkedLast(s: State, id: string, status: Exec.RowStatus, usage: Option<Usage>)
    requires IsOpen(s, id)
    ensures IsMarked(s.rows, MarkLast(s, status, usage).rows, status, usage)
  {
  }

  lemma SettleMeans(c: Config, doc: Workflow, node: Node, s: State, streak: nat, turn: Turn)
    requires Represents(c.graph, doc) && Gapless(s.log) && IsOpen(s, node.id)
    ensures IsSettled(c, doc, node, s, SettleTurn(c, s, node, streak, turn), streak, turn)
  {
    if turn.Finished? {
      RulesExactly(c, s, turn);
      LatestIsFailed(s, node.id, Some(turn.usage));
      LatestIsFailed(s, node.id, None);
      if RuleOn(c, s, turn) == Accepted && CommitTurn(c, s, node.id, turn).Some? {
        CommitMeans(c, doc, node, s, turn);
      }
    } else if turn.Broken? {
      LatestIsFailed(s, node.id, None);
    } else {
      MarkedLast(s, node.id, Exec.Failed, None);
    }
  }

  lemma CommitMeans(c: Config, doc: Workflow, node: Node, s: State, turn: Turn)
    requires Represents(c.graph, doc) && Gapless(s.log) && IsOpen(s, node.id) && turn.Finished?
    requires CommitTurn(c, s, node.id, turn).Some?
    ensures var committed := CommitTurn(c, s, node.id, turn).value;
            && IsPersisted(c, s, committed, node.id, turn)
            && IsRouted(c, doc, node, committed, RouteFrom(c, committed, node))
  {
    GaplessLast(s.log);
    AppendGapless(s.log, Commit(node.id, turn.delta, s.version, s.version + 1));
    MarkedLast(s, node.id, Exec.Succeeded, Some(turn.usage));
    RouteMeans(c, doc, node, CommitTurn(c, s, node.id, turn).value);
  }

  // ---- a dispatch ----

  /** The attempt is numbered after the node's others, and goes on with the last one's visit if that is unfinished. */
  ghost predicate IsAttempted(s: State, t: State, id: string) {
    var own := Exec.Of(s.rows, id);
    && t == s.(rows := t.rows, nextId := s.nextId + 1)
    && var unfinished := own != [] && own[|own| - 1].status in {Exec.Failed, Exec.WaitingHuman};
       t.rows == s.rows + [Exec.Row(id, |own| + 1, if unfinished then own[|own| - 1].visit else s.nextId,
                                    Exec.Running, 0, 0)]
  }

  /** The mutation's delta is merged and logged; without one, nothing happens. */
  ghost predicate IsEntered(c: Config, s: State, t: State, node: Node) {
    if node.onEnter.None? then t == s
    else
      var delta := c.world.enter(|s.rows|, node.onEnter.value, s.shared);
      && delta.Some? && Merge(c.fields, s.shared, delta.value) == Ok(t.shared)
      && t == s.(shared := t.shared, version := s.version + 1, log := t.log)
      && IsLogged(s, t, Commit(node.id, delta.value, s.version, s.version + 1))
  }

  /** A cancel lands on a run it selected while active, or one that still is. */
  ghost predicate IsCancelled(s: State, t: State) {
    t == if s.past.selected || s.status !in {Completed, Failed, Cancelled}
         then s.(status := Cancelled, past := s.past.(selected := true)) else s
  }

  ghost predicate IsRun(c: Config, doc: Workflow, node: Node, s: State, t: State, streak: nat, run: TurnRun) {
    if node.agentBacked && exists entered :: IsEntered(c, s, entered, node) then
      exists entered | IsEntered(c, s, entered, node) :: IsTurned(c, doc, node, entered, t, streak, run)
    else IsRaised(s, t)
  }

  /** The turn is settled, after the cancel that landed during it. */
  ghost predicate IsTurned(c: Config, doc: Workflow, node: Node, s: State, t: State, streak: nat, run: TurnRun) {
    if run.cancelled then exists ready | IsCancelled(s, ready) :: IsSettled(c, doc, node, ready, t, streak, run.turn)
    else IsSettled(c, doc, node, s, t, streak, run.turn)
  }

  /** The head of the queue is run, unless its retries or the run's steps are spent. */
  ghost predicate IsDispatched(c: Config, doc: Workflow, s: State, t: State)
    requires s.queue != []
  {
    var id, popped, streak := s.queue[0], s.(queue := s.queue[1..]), Exec.Streak(s.rows, s.queue[0]);
    if streak > c.guards.maxRetries || |s.rows| >= c.guards.maxTotalSteps then IsRunFailed(popped, t, id, None)
    else
      exists begun | IsAttempted(popped, begun, id) ::
        if id in c.graph.nodesById then IsRun(c, doc, c.graph.nodesById[id], begun, t, streak, c.world.turns(|s.rows|))
        else IsRaised(begun, t)
  }

  lemma {:induction false} OfEndsLatest(rows: Exec.Rows, id: string)
    ensures var own, i := Exec.Of(rows, id), Exec.Latest(rows, id);
            (own != [] <==> i >= 0) && (own != [] ==> own[|own| - 1] == rows[i])
  {
    if rows != [] {
      OfEndsLatest(rows[..|rows| - 1], id);
    }
  }

  lemma BeginMeans(s: State, id: string)
    requires Exec.AttemptsAscend(s.rows)
    ensures IsAttempted(s, Begin(s, id), id)
  {
    OfEndsLatest(s.rows, id);
    Exec.MaxAttemptCounts(s.rows, id);
  }

  lemma EnterMeans(c: Config, s: State, node: Node)
    requires Gapless(s.log)
    ensures Enter(c, s, node).Some? <==> exists entered :: IsEntered(c, s, entered, node)
    ensures Enter(c, s, node).Some? ==> IsEntered(c, s, Enter(c, s, node).value, node)
  {
    GaplessLast(s.log);
    if Enter(c, s, node).Some? {
      assert IsEntered(c, s, Enter(c, s, node).value, node);
    }
  }

  lemma RunMeans(c: Config, doc: Workflow, node: Node, s: State, streak: nat, run: TurnRun)
    requires Represents(c.graph, doc) && Gapless(s.log) && IsOpen(s, node.id)
    ensures IsRun(c, doc, node, s, Attempt(c, s, node, streak, run), streak, run)
  {
    EnterMeans(c, s, node);
    if node.agentBacked && Enter(c, s, node).Some? {
      EnterOpens(c, s, node);
      EnterKeepsGapless(c, s, node);
      TurnMeans(c, doc, node, Enter(c, s, node).value, streak, run);
    }
  }

  lemma TurnMeans(c: Config, doc: Workflow, node: Node, s: State, streak: nat, run: TurnRun)
    requires Represents(c.graph, doc) && Gapless(s.log) && IsOpen(s, node.id)
    ensures IsTurned(c, doc, node, s, RunTurn(c, s, node, streak, run), streak, run)
  {
    var ready := if run.cancelled then LandCancel(s) else s;
    assert run.cancelled ==> IsCancelled(s, ready);
    SettleMeans(c, doc, node, ready, streak, run.turn);
  }

  lemma EnterKeepsGapless(c: Config, s: State, node: Node)
    requires Gapless(s.log) && Enter(c, s, node).Some?
    ensures Gapless(Enter(c, s, node).value.log)
  {
    if node.onEnter.Some? {
      AppendGapless(s.log, Commit(node.id, c.world.enter(|s.rows|, node.onEnter.value, s.shared).value, s.version,
                                  s.version + 1));
    }
  }

  /** A dispatch does to the tables exactly that. */
  lemma DispatchMeans(c: Config, doc: Workflow, s: State)
    requires Represents(c.graph, doc) && (forall id | id in c.graph.nodesById :: c.graph.nodesById[id].id == id)
    requires s.queue != [] && Gapless(s.log) && Exec.AttemptsAscend(s.rows) && Settled(s)
    ensures IsDispatched(c, doc, s, Dispatch(c, s))
  {
    var id, popped := s.queue[0], s.(queue := s.queue[1..]);
    if Exec.Streak(s.rows, id) > c.guards.maxRetries || |s.rows| >= c.guards.maxTotalSteps {
      LatestIsFailed(popped, id, None);
    } else {
      BeginMeans(popped, id);
      BeginOpens(s, id);
      if id in c.graph.nodesById {
        RunMeans(c, doc, c.graph.nodesById[id], Begin(popped, id), Exec.Streak(s.rows, id), c.world.turns(|s.rows|));
      }
    }
  }
}
