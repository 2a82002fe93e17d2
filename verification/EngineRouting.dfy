/** Where runs go: static reachability, join waves, the routing order and the safety net. */
module EngineRouting {
  import opened Graph
  import opened Validate
  import opened Dod
  import opened EventLog
  import Exec = Executions
  import opened EngineState
  import opened EngineOps
  import opened EngineInvariants
  import opened EngineRuns

  // ---- recorded routes are compiled edges ----

  ghost predicate RoutesLead(c: Config, log: Log) {
    forall e | e in log && e.event.Route? :: c.graph.Leads(e.event.from, e.event.to)
  }

  lemma RoutesLeadKept(c: Config, s: State, op: Op)
    requires RoutesLead(c, s.log) && Enabled(c, s, op)
    ensures RoutesLead(c, Apply(c, s, op).log)
  {
    LogMoves(c, s, op);
    var t, event := Apply(c, s, op), EventOf(c, s, op);
    if event.Some? {
      forall e | e in t.log && e.event.Route?
        ensures c.graph.Leads(e.event.from, e.event.to)
      {
        assert e in s.log || e.event == event.value;
      }
    }
  }

  // ---- every place a run visits is inside a closed set ----

  /** `places` holds the entry and every target of an edge from it, save the terminal. */
  ghost predicate ClosedPlaces(g: CompiledGraph, places: set<string>) {
    && g.entry in places
    && forall f, t | f in places && g.Leads(f, t) && t != TERMINAL :: t in places
  }

  /**
   * A drain about to promote a join named like the terminal sentinel: the
   * routes to the terminal are its arrivals, and nothing else is left to do.
   */
  ghost predicate TickPromotesSentinel(c: Config, s: State) {
    && s.phase == Draining && !s.failed && s.queue == [] && !PendingHitl(s)
    && c.graph.IsJoinAll(TERMINAL) && Arrivals(s.log, TERMINAL) != {}
  }

  ghost function PromotingSentinel(c: Config): State -> bool {
    (s: State) => TickPromotesSentinel(c, s)
  }

  /** The sentinel is not the entry, nor a join that a reachable node routes to. */
  ghost predicate SentinelIsSafe(g: CompiledGraph) {
    && g.entry != TERMINAL
    && (g.IsJoinAll(TERMINAL) ==> forall f | g.Leads(f, TERMINAL) :: !IsReachable(g, f))
  }

  /** Queue, attempts, human requests and route sources are all in `places`. */
  ghost predicate Within(places: set<string>, s: State) {
    && (forall id | id in s.queue :: id in places)
    && (forall r | r in s.rows :: r.node in places)
    && (forall h | h in s.hitl :: h.node in places)
    && (forall e | e in s.log && e.event.Route? :: e.event.from in places)
  }

  lemma WithinKept(c: Config, places: set<string>, s: State, op: Op)
    requires Wired(c.graph) && ClosedPlaces(c.graph, places)
    requires Within(places, s) && RoutesLead(c, s.log) && Enabled(c, s, op)
    requires op.Promote? ==> TERMINAL in places || !TickPromotesSentinel(c, s)
    requires op.Take? ==> op.node in places
    ensures Within(places, Apply(c, s, op))
  {
    RowsWithin(c, places, s, op);
    LogWithin(c, places, s, op);
    QueueWithin(c, places, s, op);
    HitlMoves(c, s, op);
    if op.Ask? {
      assert s.rows[|s.rows| - 1] in s.rows;
    }
    if op.AnswerRequest? || op.Lose? {
      assert s.hitl[op.request] in s.hitl;
    }
  }

  lemma RowsWithin(c: Config, places: set<string>, s: State, op: Op)
    requires Within(places, s) && Enabled(c, s, op)
    ensures forall r | r in Apply(c, s, op).rows :: r.node in places
  {
    RowsMove(c, s, op);
    if op.Open? {
      assert s.queue[0] in s.queue;
    }
    ChangedWithin(s.rows, s.nextId, RowChangeOf(s, op), places);
  }

  lemma ChangedWithin(before: Exec.Rows, newId: nat, change: RowChange, places: set<string>)
    requires forall r | r in before :: r.node in places
    requires change.Opens? ==> change.id in places
    ensures forall r | r in Changed(before, newId, change) :: r.node in places
  {
    var rows := Changed(before, newId, change);
    forall r | r in rows
      ensures r.node in places
    {
      var k :| 0 <= k < |rows| && rows[k] == r;
      if k < |before| {
        assert before[k] in before && before[k].node == r.node;
      }
    }
  }

  lemma LogWithin(c: Config, places: set<string>, s: State, op: Op)
    requires Within(places, s) && Enabled(c, s, op)
    ensures forall e | e in Apply(c, s, op).log && e.event.Route? :: e.event.from in places
  {
    LogMoves(c, s, op);
    var t, event := Apply(c, s, op), EventOf(c, s, op);
    forall e | e in t.log && e.event.Route?
      ensures e.event.from in places
    {
      if e !in s.log {
        assert e.event == event.value && op == FireTo(e.event.from, e.event.to);
        assert s.rows[|s.rows| - 1] in s.rows;
      }
    }
  }

  lemma QueueWithin(c: Config, places: set<string>, s: State, op: Op)
    requires Wired(c.graph) && ClosedPlaces(c.graph, places)
    requires Within(places, s) && RoutesLead(c, s.log) && Enabled(c, s, op)
    requires op.Promote? ==> TERMINAL in places || !TickPromotesSentinel(c, s)
    requires op.Take? ==> op.node in places
    ensures forall id | id in Apply(c, s, op).queue :: id in places
  {
    QueueMoves(c, s, op);
    var t := Apply(c, s, op);
    match op {
      case Open(id) =>
        assert forall n | n in t.queue :: n in s.queue;
      case Requeue(id, _) =>
        assert s.rows[|s.rows| - 1] in s.rows;
      case FireTo(f, to) =>
        assert s.rows[|s.rows| - 1] in s.rows;
      case Promote =>
        JoinsWithin(c, places, s);
      case AnswerRequest(i) =>
        assert s.hitl[i] in s.hitl;
      case _ =>
    }
  }

  lemma JoinsWithin(c: Config, places: set<string>, s: State)
    requires Wired(c.graph) && ClosedPlaces(c.graph, places)
    requires Within(places, s) && RoutesLead(c, s.log)
    requires TERMINAL in places || !c.graph.IsJoinAll(TERMINAL) || Arrivals(s.log, TERMINAL) == {}
    ensures forall id | id in PendingJoins(c, s) :: id in places
  {
    PendingAmongMeans(s, c.graph.JoinAllNodes());
    forall id | id in PendingJoins(c, s)
      ensures id in places
    {
      var f :| f in Arrivals(s.log, id);
      var e :| e in s.log && e.event.Route? && e.event.to == id && e.event.from == f;
      assert c.graph.Leads(f, id) && c.graph.IsJoinAll(id);
    }
  }

  lemma {:induction false} PlacesAlong(c: Config, places: set<string>, s: State, path: Path)
    requires Wired(c.graph) && ClosedPlaces(c.graph, places)
    requires Within(places, s) && RoutesLead(c, s.log) && AllEnabled(c, s, path)
    requires FromDispatch(path)
    ensures Within(places, ApplyAll(c, s, path)) && RoutesLead(c, ApplyAll(c, s, path).log)
  {
    match path {
      case Here =>
      case After(earlier, op) =>
        PlacesAlong(c, places, s, earlier);
        WithinKept(c, places, ApplyAll(c, s, earlier), op);
        RoutesLeadKept(c, ApplyAll(c, s, earlier), op);
    }
  }

  lemma {:induction false} RoutesAlong(c: Config, s: State, path: Path)
    requires RoutesLead(c, s.log) && AllEnabled(c, s, path)
    ensures RoutesLead(c, ApplyAll(c, s, path).log)
  {
    match path {
      case Here =>
      case After(earlier, op) =>
        RoutesAlong(c, s, earlier);
        RoutesLeadKept(c, ApplyAll(c, s, earlier), op);
    }
  }

  lemma {:induction false} RunRoutesLead(c: Config, held: bool, actions: seq<Action>)
    requires Wired(c.graph)
    ensures RoutesLead(c, Run(c, held, actions).log)
  {
    if actions != [] {
      var init, last := actions[..|actions| - 1], actions[|actions| - 1];
      RunRoutesLead(c, held, init);
      RunIsGood(c, held, init);
      var path := NextPath(c, Run(c, held, init), last);
      RoutesAlong(c, Run(c, held, init), path);
    }
  }

  /** Being resumed with another run's request is remembered. */
  lemma NextTakes(c: Config, s: State, action: Action)
    requires Wired(c.graph) && Good(c, s)
    ensures Next(c, s, action).past.taken ==
            s.past.taken + if action.AnswerForeign? && Resumable(s) then [action.node] else []
  {
    var path := NextPath(c, s, action);
    if FromDispatch(path) {
      PastAlong(c, s, path);
    } else {
      assert ApplyAll(c, s, Here) == s;
      PastMoves(c, s, path.op);
    }
  }

  /** Every foreign request the run was resumed with names one of the places. */
  ghost predicate TakesFrom(places: set<string>, s: State) {
    forall n | n in s.past.taken :: n in places
  }

  /** As long as the sentinel is not promoted and no foreign request names another node, nothing leaves the places. */
  lemma {:induction false} RunStaysWithin(c: Config, held: bool, actions: seq<Action>, places: set<string>)
    requires Wired(c.graph) && ClosedPlaces(c.graph, places)
    requires c.graph.IsJoinAll(TERMINAL) ==> TERMINAL in places || !Sometime(c, held, actions, PromotingSentinel(c))
    requires TakesFrom(places, Run(c, held, actions))
    ensures Within(places, Run(c, held, actions))
  {
    if actions == [] {
      assert Run(c, held, actions).queue == if held then [] else [c.graph.entry];
    } else {
      var init, last := actions[..|actions| - 1], actions[|actions| - 1];
      RunIsGood(c, held, init);
      TakesBefore(c, places, Run(c, held, init), last);
      RunStaysWithin(c, held, init, places);
      RunRoutesLead(c, held, init);
      NextStaysWithin(c, places, Run(c, held, init), last);
    }
  }

  lemma TakesBefore(c: Config, places: set<string>, s: State, action: Action)
    requires Wired(c.graph) && Good(c, s) && TakesFrom(places, Next(c, s, action))
    ensures TakesFrom(places, s)
    ensures action.AnswerForeign? && Resumable(s) ==> action.node in places
  {
    NextTakes(c, s, action);
    var more := Next(c, s, action).past.taken;
    assert forall n | n in s.past.taken :: n in more;
    if action.AnswerForeign? && Resumable(s) {
      assert more[|s.past.taken|] == action.node;
    }
  }

  lemma NextStaysWithin(c: Config, places: set<string>, s: State, action: Action)
    requires Wired(c.graph) && ClosedPlaces(c.graph, places) && Good(c, s)
    requires Within(places, s) && RoutesLead(c, s.log)
    requires TERMINAL in places || !(action == Tick && TickPromotesSentinel(c, s))
    requires action.AnswerForeign? && Resumable(s) ==> action.node in places
    ensures Within(places, Next(c, s, action))
  {
    var path := NextPath(c, s, action);
    assert ApplyAll(c, s, Here) == s;
    if FromDispatch(path) {
      PlacesAlong(c, places, s, path);
    } else {
      WithinKept(c, places, s, path.op);
    }
  }

  /** `seen` is what the validator computes. */
  ghost predicate IsSeen(g: CompiledGraph, seen: set<string>) {
    forall id :: id in seen <==> g.entry != TERMINAL && IsReachable(g, id)
  }

  lemma SeenIsClosed(g: CompiledGraph, seen: set<string>)
    requires IsSeen(g, seen) && g.entry != TERMINAL
    ensures ClosedPlaces(g, seen) && TERMINAL !in seen
  {
    EntryIsReachable(g);
    forall f, t | f in seen && g.Leads(f, t) && t != TERMINAL
      ensures t in seen
    {
      StepIsReachable(g, f, t);
    }
    assert forall p | IsPath(g, p) :: p[|p| - 1] != TERMINAL;
  }

  /** Arrivals come from places. */
  lemma ArrivalsWithin(c: Config, places: set<string>, s: State, id: string)
    requires Within(places, s) && RoutesLead(c, s.log)
    ensures forall f | f in Arrivals(s.log, id) :: f in places && c.graph.Leads(f, id)
  {
    forall f | f in Arrivals(s.log, id)
      ensures f in places && c.graph.Leads(f, id)
    {
      var e :| e in s.log && e.event.Route? && e.event.to == id && e.event.from == f;
      assert c.graph.Leads(e.event.from, e.event.to);
    }
  }

  lemma {:induction false} SafeSentinelIsNotPromoted(c: Config, held: bool, actions: seq<Action>, seen: set<string>)
    requires Wired(c.graph) && SentinelIsSafe(c.graph) && IsSeen(c.graph, seen)
    requires TakesFrom(seen, Run(c, held, actions))
    ensures !Sometime(c, held, actions, PromotingSentinel(c))
  {
    if actions != [] {
      var init := actions[..|actions| - 1];
      RunIsGood(c, held, init);
      TakesBefore(c, seen, Run(c, held, init), actions[|actions| - 1]);
      SafeSentinelIsNotPromoted(c, held, init, seen);
      SeenIsClosed(c.graph, seen);
      RunStaysWithin(c, held, init, seen);
      RunRoutesLead(c, held, init);
      ArrivalsWithin(c, seen, Run(c, held, init), TERMINAL);
    }
  }

  /**
   * Static reachability over-approximates every run: whatever is ever queued,
   * attempted, routed from, held as a join or waited on is in the set the
   * validator computes, as long as it is only resumed with requests for nodes
   * in that set - its own always are.
   */
  lemma RunStaysReachable(c: Config, held: bool, actions: seq<Action>, seen: set<string>)
    requires Wired(c.graph) && SentinelIsSafe(c.graph) && IsSeen(c.graph, seen)
    requires TakesFrom(seen, Run(c, held, actions))
    ensures Within(seen, Run(c, held, actions))
    ensures forall id, f | c.graph.IsJoinAll(id) && f in Arrivals(Run(c, held, actions).log, id) :: id in seen
  {
    SeenIsClosed(c.graph, seen);
    SafeSentinelIsNotPromoted(c, held, actions, seen);
    RunStaysWithin(c, held, actions, seen);
    RunRoutesLead(c, held, actions);
    forall id, f | c.graph.IsJoinAll(id) && f in Arrivals(Run(c, held, actions).log, id)
      ensures id in seen
    {
      ArrivalsWithin(c, seen, Run(c, held, actions), id);
      assert IsReachable(c.graph, f);
      if id != TERMINAL {
        StepIsReachable(c.graph, f, id);
      }
    }
  }

  // ---- exactly when a run leaves the reachable set ----

  ghost predicate QueueLeaves(seen: set<string>, s: State) {
    exists id :: id in s.queue && id !in seen
  }

  /** At some point of the run the queue held a node outside `seen`. */
  ghost predicate EverLeft(c: Config, held: bool, actions: seq<Action>, seen: set<string>) {
    || QueueLeaves(seen, Run(c, held, actions))
    || (actions != [] && EverLeft(c, held, actions[..|actions| - 1], seen))
  }

  /** An entry named like the sentinel is queued at once but not seen. */
  lemma SentinelEntryIsMissed(c: Config, seen: set<string>)
    requires IsSeen(c.graph, seen) && c.graph.entry == TERMINAL
    ensures !Within(seen, Run(c, false, []))
  {
    assert Run(c, false, []).queue == [c.graph.entry];
    assert c.graph.entry in Run(c, false, []).queue;
  }

  lemma SentinelJoinIsPromoted(c: Config, s: State)
    requires Wired(c.graph) && TickPromotesSentinel(c, s)
    ensures TERMINAL in Next(c, s, Tick).queue
  {
    PendingAmongMeans(s, c.graph.JoinAllNodes());
    assert TERMINAL in PendingJoins(c, s);
  }

  lemma {:induction false} HeldStays(c: Config, actions: seq<Action>)
    requires Wired(c.graph) && Run(c, true, actions).past.taken == []
    ensures Run(c, true, actions).queue == [] && Run(c, true, actions).phase == Held
    ensures Run(c, true, actions).hitl == []
  {
    if actions != [] {
      var init, last := actions[..|actions| - 1], actions[|actions| - 1];
      RunIsGood(c, true, init);
      NextTakes(c, Run(c, true, init), last);
      HeldStays(c, init);
      HeldStep(c, Run(c, true, init), last);
    }
  }

  lemma HeldStep(c: Config, s: State, action: Action)
    requires s.phase == Held && s.queue == [] && s.hitl == [] && !action.AnswerForeign?
    ensures var t := Next(c, s, action); t.phase == Held && t.queue == [] && t.hitl == []
  {
  }

  lemma {:induction false} HeldNeverLeaves(c: Config, actions: seq<Action>, seen: set<string>)
    requires Wired(c.graph) && Run(c, true, actions).past.taken == []
    ensures !EverLeft(c, true, actions, seen) && !Sometime(c, true, actions, PromotingSentinel(c))
  {
    HeldStays(c, actions);
    if actions != [] {
      var init, last := actions[..|actions| - 1], actions[|actions| - 1];
      RunIsGood(c, true, init);
      NextTakes(c, Run(c, true, init), last);
      HeldStays(c, init);
      HeldNeverLeaves(c, init, seen);
    }
  }

  lemma {:induction false} SentinelEntryLeaves(c: Config, actions: seq<Action>, seen: set<string>)
    requires IsSeen(c.graph, seen) && c.graph.entry == TERMINAL
    ensures EverLeft(c, false, actions, seen)
  {
    if actions == [] {
      assert Run(c, false, []).queue == [c.graph.entry];
      assert c.graph.entry in Run(c, false, []).queue;
    } else {
      SentinelEntryLeaves(c, actions[..|actions| - 1], seen);
    }
  }

  lemma {:induction false} PromotionLeaves(c: Config, held: bool, actions: seq<Action>, seen: set<string>)
    requires Wired(c.graph) && TERMINAL !in seen && Sometime(c, held, actions, PromotingSentinel(c))
    ensures EverLeft(c, held, actions, seen)
  {
    var init := actions[..|actions| - 1];
    if Sometime(c, held, init, PromotingSentinel(c)) {
      PromotionLeaves(c, held, init, seen);
    } else {
      SentinelJoinIsPromoted(c, Run(c, held, init));
      assert TERMINAL in Run(c, held, actions).queue;
    }
  }

  /** A foreign request for a node outside the set queues it. */
  lemma {:induction false} TakingLeaves(c: Config, held: bool, actions: seq<Action>, seen: set<string>)
    requires Wired(c.graph) && !TakesFrom(seen, Run(c, held, actions))
    ensures EverLeft(c, held, actions, seen)
  {
    if actions != [] {
      var init, last := actions[..|actions| - 1], actions[|actions| - 1];
      RunIsGood(c, held, init);
      NextTakes(c, Run(c, held, init), last);
      if TakesFrom(seen, Run(c, held, init)) {
        assert last.node in Run(c, held, actions).queue;
      } else {
        TakingLeaves(c, held, init, seen);
      }
    }
  }

  lemma {:induction false} OtherwiseStays(c: Config, held: bool, actions: seq<Action>, seen: set<string>)
    requires Wired(c.graph) && ClosedPlaces(c.graph, seen) && !Sometime(c, held, actions, PromotingSentinel(c))
    requires TakesFrom(seen, Run(c, held, actions))
    ensures !EverLeft(c, held, actions, seen)
  {
    RunStaysWithin(c, held, actions, seen);
    if actions != [] {
      var init := actions[..|actions| - 1];
      RunIsGood(c, held, init);
      TakesBefore(c, seen, Run(c, held, init), actions[|actions| - 1]);
      OtherwiseStays(c, held, init, seen);
    }
  }

  /**
   * Run by run: the queue leaves the computed set exactly if the run is let in
   * with an entry named like the sentinel, or its drain promotes a join of that
   * name, or the run is resumed with another run's request for a node outside
   * the set.
   */
  lemma RunLeavesReachableExactly(c: Config, held: bool, actions: seq<Action>, seen: set<string>)
    requires Wired(c.graph) && IsSeen(c.graph, seen)
    ensures EverLeft(c, held, actions, seen) <==>
            || (c.graph.entry == TERMINAL && !held)
            || Sometime(c, held, actions, PromotingSentinel(c))
            || !TakesFrom(seen, Run(c, held, actions))
  {
    if !TakesFrom(seen, Run(c, held, actions)) {
      TakingLeaves(c, held, actions, seen);
    } else if c.graph.entry != TERMINAL {
      SeenIsClosed(c.graph, seen);
      if Sometime(c, held, actions, PromotingSentinel(c)) {
        PromotionLeaves(c, held, actions, seen);
      } else {
        OtherwiseStays(c, held, actions, seen);
      }
    } else if held {
      NothingTaken(c, actions, seen);
      HeldNeverLeaves(c, actions, seen);
    } else {
      SentinelEntryLeaves(c, actions, seen);
    }
  }

  lemma NothingTaken(c: Config, actions: seq<Action>, seen: set<string>)
    requires IsSeen(c.graph, seen) && c.graph.entry == TERMINAL && TakesFrom(seen, Run(c, true, actions))
    ensures Run(c, true, actions).past.taken == []
  {
    SomeTaken(seen, Run(c, true, actions));
  }

  lemma SomeTaken(places: set<string>, s: State)
    requires TakesFrom(places, s)
    ensures s.past.taken != [] ==> exists n :: n in places
  {
    if s.past.taken != [] {
      assert s.past.taken[0] in s.past.taken;
    }
  }

  // ---- join waves ----

  /** Arrivals of a node are among its compiled inbound sources, and a join is queued at most once. */
  lemma ArrivalsAreInbound(c: Config, held: bool, actions: seq<Action>, id: string)
    requires Wired(c.graph) && Closed(c.graph) && id != TERMINAL
    ensures var s := Run(c, held, actions);
            && Arrivals(s.log, id) <= c.graph.InboundSources(id)
            && (c.graph.IsJoinAll(id) ==> multiset(s.queue)[id] <= 1)
  {
    RunRoutesLead(c, held, actions);
    RunIsGood(c, held, actions);
    LeadsAreInbound(c, Run(c, held, actions).log, id);
  }

  lemma LeadsAreInbound(c: Config, log: Log, id: string)
    requires Closed(c.graph) && RoutesLead(c, log) && id != TERMINAL
    ensures Arrivals(log, id) <= c.graph.InboundSources(id)
  {
    forall f | f in Arrivals(log, id)
      ensures f in c.graph.InboundSources(id)
    {
      var e :| e in log && e.event.Route? && e.event.to == id && e.event.from == f;
      assert c.graph.Leads(f, id);
    }
  }

  /** Operation by operation, a join-all node enters the queue only in one of these ways. */
  lemma JoinEnters(c: Config, s: State, op: Op, id: string)
    requires Wired(c.graph) && Closed(c.graph) && RoutesLead(c, s.log) && Enabled(c, s, op)
    requires c.graph.IsJoinAll(id) && id != TERMINAL
    requires id in Apply(c, s, op).queue && id !in s.queue
    ensures || (op.Requeue? && op.id == id)
            || (op.AnswerRequest? && s.hitl[op.request].node == id)
            || (op.Take? && op.node == id)
            || (op.FireTo? && op.t == id && Arrivals(Apply(c, s, op).log, id) == c.graph.InboundSources(id))
            || (op.Promote? && s.queue == [] && !PendingHitl(s) && Arrivals(s.log, id) != {})
  {
    QueueMoves(c, s, op);
    if op.FireTo? {
      RoutesLeadKept(c, s, op);
      LeadsAreInbound(c, Apply(c, s, op).log, id);
    }
    if op.Promote? {
      PendingAmongMeans(s, c.graph.JoinAllNodes());
    }
  }

  /** Once a join is queued by firing, its arrivals cover its sources and stay so. */
  lemma {:induction false} FireAllQueues(c: Config, s: State, f: string, targets: seq<string>, id: string)
    requires Gapless(s.log) && c.graph.IsJoinAll(id) && id != TERMINAL
    ensures var u := FireAll(c, s, f, targets);
            && Gapless(u.log) && Arrivals(s.log, id) <= Arrivals(u.log, id)
            && (id in u.queue ==> id in s.queue || c.graph.InboundSources(id) <= Arrivals(u.log, id))
  {
    if targets != [] {
      var init, last := targets[..|targets| - 1], targets[|targets| - 1];
      var t := FireAll(c, s, f, init);
      FireAllQueues(c, s, f, init, id);
      FireQueues(c, t, f, last);
      FireOneFrame(c, t, f, last);
      AppendGapless(t.log, Route(f, last));
      AppendArrivals(t.log, Route(f, last), id);
    }
  }

  lemma RouteQueues(c: Config, s: State, node: Node, id: string)
    requires Gapless(s.log) && c.graph.IsJoinAll(id) && id != TERMINAL
    ensures var u := RouteFrom(c, s, node);
            id in u.queue ==> id in s.queue || c.graph.InboundSources(id) <= Arrivals(u.log, id)
  {
    match ChooseRoute(c, node, s) {
      case Fire(e) => FireAllQueues(c, s, node.id, e.to, id);
      case _ =>
    }
  }

  lemma SettleQueues(c: Config, s: State, node: Node, streak: nat, turn: Turn, id: string)
    requires Gapless(s.log) && c.graph.IsJoinAll(id) && id != TERMINAL
    ensures var u := SettleTurn(c, s, node, streak, turn);
            id in u.queue ==>
              || id in s.queue
              || (id == node.id && turn.Transient?)
              || c.graph.InboundSources(id) <= Arrivals(u.log, id)
  {
    if turn.Finished? && RuleOn(c, s, turn) == Accepted && CommitTurn(c, s, node.id, turn).Some? {
      CommitQueues(c, s, node, turn);
      RouteQueues(c, CommitTurn(c, s, node.id, turn).value, node, id);
    }
  }

  lemma CommitQueues(c: Config, s: State, node: Node, turn: Turn)
    requires Gapless(s.log) && turn.Finished? && CommitTurn(c, s, node.id, turn).Some?
    ensures var u := CommitTurn(c, s, node.id, turn).value; u.queue == s.queue && Gapless(u.log)
  {
    CommitFrame(c, s, node.id, turn);
    AppendGapless(s.log, Commit(node.id, turn.delta, s.version, s.version + 1));
  }

  lemma EnterQueues(c: Config, s: State, node: Node)
    requires Gapless(s.log) && Enter(c, s, node).Some?
    ensures var u := Enter(c, s, node).value; u.queue == s.queue && Gapless(u.log)
  {
    if node.onEnter.Some? {
      var delta := c.world.enter(|s.rows|, node.onEnter.value, s.shared).value;
      AppendGapless(s.log, Commit(node.id, delta, s.version, s.version + 1));
    }
  }

  lemma DispatchQueues(c: Config, s: State, id: string)
    requires Wired(c.graph) && Gapless(s.log) && s.queue != [] && c.graph.IsJoinAll(id) && id != TERMINAL
    ensures var u := Dispatch(c, s);
            id in u.queue ==>
              || id in s.queue[1..]
              || (id == s.queue[0] && c.world.turns(|s.rows|).turn.Transient?)
              || c.graph.InboundSources(id) <= Arrivals(u.log, id)
  {
    var head, begun := s.queue[0], Begin(s.(queue := s.queue[1..]), s.queue[0]);
    if head in c.graph.nodesById && c.graph.nodesById[head].agentBacked {
      var node, run := c.graph.nodesById[head], c.world.turns(|s.rows|);
      if Enter(c, begun, node).Some? {
        EnterQueues(c, begun, node);
        var entered := Enter(c, begun, node).value;
        SettleQueues(c, if run.cancelled then LandCancel(entered) else entered, node, Exec.Streak(s.rows, head),
                     run.turn, id);
      }
    }
  }

  /**
   * Whatever happens next to a run, a join-all node is then in the queue only if
   * it was and is still waiting there; or its transient attempt is retried; or
   * the run is resumed with a request for it; or exactly all its sources have
   * arrived; or it is held with arrivals at quiescence, with the queue empty and
   * no human request pending.
   */
  lemma JoinsWaitForTheirWave(c: Config, held: bool, actions: seq<Action>, action: Action, id: string)
    requires Wired(c.graph) && Closed(c.graph) && c.graph.IsJoinAll(id) && id != TERMINAL
    ensures var s := Run(c, held, actions); var t := Next(c, s, action);
            var dispatches := action == Tick && s.phase == Draining && !Drained(c, s) && s.queue != [];
            id in t.queue ==>
              || id in (if dispatches then s.queue[1..] else s.queue)
              || (dispatches && id == s.queue[0] && c.world.turns(|s.rows|).turn.Transient?)
              || (action.Answer? && IsPendingAt(s, action.request) && s.hitl[action.request].node == id)
              || action == AnswerForeign(id)
              || (dispatches && Arrivals(t.log, id) == c.graph.InboundSources(id))
              || (action == Tick && s.phase == Draining && s.queue == [] && !PendingHitl(s)
                  && Arrivals(s.log, id) != {})
  {
    var s := Run(c, held, actions);
    RunIsGood(c, held, actions);
    if action == Tick {
      AdvanceQueues(c, s, id);
      ArrivalsAreInbound(c, held, actions + [Tick], id);
      RunAppends(c, held, actions, Tick);
    } else {
      OutsideQueues(c, s, action, id);
    }
  }

  lemma AdvanceQueues(c: Config, s: State, id: string)
    requires Wired(c.graph) && Gapless(s.log) && c.graph.IsJoinAll(id) && id != TERMINAL
    ensures var t := Advance(c, s);
            if s.phase == Draining && !Drained(c, s) && s.queue != [] then
              id in t.queue ==>
                || id in s.queue[1..]
                || (id == s.queue[0] && c.world.turns(|s.rows|).turn.Transient?)
                || c.graph.InboundSources(id) <= Arrivals(t.log, id)
            else
              id in t.queue ==>
                || id in s.queue
                || (s.phase == Draining && s.queue == [] && !PendingHitl(s) && Arrivals(s.log, id) != {})
  {
    if s.phase == Ending {
      FinishFrame(c, s);
    } else if s.phase == Draining && !Drained(c, s) {
      if s.queue != [] {
        DispatchQueues(c, s, id);
      } else {
        PendingAmongMeans(s, c.graph.JoinAllNodes());
      }
    }
  }

  lemma OutsideQueues(c: Config, s: State, action: Action, id: string)
    requires action != Tick
    ensures id in Next(c, s, action).queue ==>
              || id in s.queue
              || (action.Answer? && IsPendingAt(s, action.request) && s.hitl[action.request].node == id)
              || action == AnswerForeign(id)
  {
  }

  /** An uninterrupted drain that ends unfailed with no human request pending leaves no arrival unconsumed. */
  lemma CleanDrainConsumesArrivals(c: Config, held: bool, actions: seq<Action>, id: string)
    requires Wired(c.graph) && c.graph.IsJoinAll(id) && Run(c, held, actions).phase == Draining
    ensures var t := Drain(c, Run(c, held, actions));
            t.phase == Idle && !t.failed && !PendingHitl(t) ==> Arrivals(t.log, id) == {}
  {
    RunIsGood(c, held, actions);
    DrainConsumes(c, Run(c, held, actions), id);
  }

  lemma {:induction false} DrainConsumes(c: Config, s: State, id: string)
    requires Wired(c.graph) && Good(c, s) && s.phase == Draining && c.graph.IsJoinAll(id)
    ensures var t := Drain(c, s); t.phase == Idle && !t.failed && !PendingHitl(t) ==> Arrivals(t.log, id) == {}
    decreases if s.failed then 0 else 1, StepsLeft(c, s), if s.queue == [] then 1 else 0
  {
    if Drained(c, s) {
      DrainedConsumes(c, s, id);
      FinalizeConsumes(c, s.(phase := Ending), id);
    } else {
      IterateKeeps(c, s);
      if s.queue != [] {
        DispatchAdvances(c, s);
      }
      if Iterate(c, s).phase == Draining {
        DrainConsumes(c, Iterate(c, s), id);
      }
    }
  }

  lemma DrainedConsumes(c: Config, s: State, id: string)
    requires Wired(c.graph) && Drained(c, s) && c.graph.IsJoinAll(id)
    ensures !s.failed && !PendingHitl(s) ==> Arrivals(s.log, id) == {}
  {
    PendingAmongMeans(s, c.graph.JoinAllNodes());
    if !s.failed && !PendingHitl(s) {
      assert id !in PendingJoins(c, s);
    }
  }

  lemma FinalizeConsumes(c: Config, s: State, id: string)
    requires Gapless(s.log)
    ensures Arrivals(Finalize(c, s).log, id) == Arrivals(s.log, id)
    ensures Finalize(c, s).failed == s.failed && (PendingHitl(Finalize(c, s)) <==> PendingHitl(s))
  {
    FinishFrame(c, s);
    if GateDecision(c, s).Some? {
      AppendArrivals(s.log, DodEvaluated(GateDecision(c, s).value), id);
    }
  }

  /** Whatever comes between its turns: such a drain leaves an arrival only if a request was lost to another run. */
  ghost predicate ArrivalsConsumed(c: Config, s: State) {
    (s.phase == Ending || s.phase == Idle) && !s.failed && !PendingHitl(s) && s.past.lost == [] ==>
      forall id | c.graph.IsJoinAll(id) :: Arrivals(s.log, id) == {}
  }

  lemma {:induction false} RunConsumesArrivals(c: Config, held: bool, actions: seq<Action>)
    requires Wired(c.graph)
    ensures ArrivalsConsumed(c, Run(c, held, actions))
  {
    if actions != [] {
      var init, last := actions[..|actions| - 1], actions[|actions| - 1];
      RunConsumesArrivals(c, held, init);
      RunIsGood(c, held, init);
      NextConsumes(c, Run(c, held, init), last);
    }
  }

  lemma NextConsumes(c: Config, s: State, action: Action)
    requires Wired(c.graph) && Good(c, s) && ArrivalsConsumed(c, s)
    ensures ArrivalsConsumed(c, Next(c, s, action))
  {
    if action == Tick {
      AdvanceConsumes(c, s);
    } else {
      OutsideConsumes(c, s, action);
    }
  }

  /** What others do either starts a drain, loses a request, or is beside the point. */
  lemma OutsideConsumes(c: Config, s: State, action: Action)
    requires action != Tick
    ensures var t := Next(c, s, action);
            || t.phase == Draining
            || t.past.lost != []
            || t == s.(status := t.status, past := t.past)
  {
  }

  lemma AdvanceConsumes(c: Config, s: State)
    requires Wired(c.graph) && Good(c, s) && ArrivalsConsumed(c, s)
    ensures ArrivalsConsumed(c, Advance(c, s))
  {
    if s.phase == Ending {
      FinishFrame(c, s);
      forall id | c.graph.IsJoinAll(id)
        ensures Arrivals(Finalize(c, s).log, id) == Arrivals(s.log, id)
      {
        FinalizeConsumes(c, s, id);
      }
    } else if s.phase == Draining && Drained(c, s) {
      forall id | c.graph.IsJoinAll(id)
        ensures !s.failed && !PendingHitl(s) ==> Arrivals(s.log, id) == {}
      {
        DrainedConsumes(c, s, id);
      }
    } else if s.phase == Draining {
      IterateStays(c, s);
    }
  }

  // ---- routing ----

  /**
   * Routing refines the declaration: among the edges declared out of a node,
   * the one fired is uncapped, its condition holds, and it beats every other
   * such edge on priority and then on position; a later stage is reached only
   * when every declared conditional edge is capped or false.
   */
  lemma RouteIsBestDeclared(c: Config, doc: Workflow, node: Node, s: State)
    requires Represents(c.graph, doc)
    ensures var declared, live := DeclaredFrom(doc.edges, node.id), NotSkipped(c, s, node.id);
            if exists e | e in declared :: live(e) then
              exists best | IsBest(declared, live, best) ::
                ChooseRoute(c, node, s) ==
                if ConditionOf(c, s, best) == Raises then RouteRaises else Fire(best)
            else ChooseRoute(c, node, s) == Fallthrough(c, node, s)
  {
    SortedFirstIsBest(DeclaredFrom(doc.edges, node.id), NotSkipped(c, s, node.id));
  }

  /** Edges, but all capped or false, no default, and no human to ask. */
  ghost predicate HasNoRoute(c: Config, node: Node, s: State) {
    && c.graph.Conditional(node.id) != []
    && (forall e | e in c.graph.Conditional(node.id) ::
          IsCapped(c, s.log, node.id, e) || ConditionOf(c, s, e) == Fails)
    && c.graph.Default(node.id).None?
    && TriggerOf(c, s, node) == Fails
  }

  /** When routing finds nothing, exactly. */
  lemma NoRouteExactly(c: Config, node: Node, s: State)
    ensures ChooseRoute(c, node, s) == NoRoute <==> HasNoRoute(c, node, s)
  {
    FirstLiveMeans(c.graph.Conditional(node.id), NotSkipped(c, s, node.id));
  }

  /**
   * The safety net holds in every state for a node with a default edge, or
   * with an unconditional edge none of whose targets has a loop cap.
   */
  lemma SafetyNetHolds(c: Config, node: Node, s: State)
    requires || c.graph.Default(node.id).Some?
             || exists e | e in c.graph.Conditional(node.id) ::
                  e.condition.None? && forall t | t in e.to :: LoopKey(node.id, t) !in c.guards.loopCaps
    ensures ChooseRoute(c, node, s) != NoRoute
  {
    NoRouteExactly(c, node, s);
  }

  /**
   * The validator's silence promises less than that: a node it does not warn
   * about fails to route exactly when it has no default edge, its unconditional
   * edges are capped, its other edges capped or false, and no human is asked;
   * and then it has an enabled human request or a capped unconditional edge.
   */
  lemma SilenceIsNotCoverage(c: Config, node: Node, s: State)
    requires !LacksSafetyNet(c.graph, node) && c.graph.HasOutgoingEdges(node.id) && node.agentBacked
    ensures ChooseRoute(c, node, s) == NoRoute <==>
              && c.graph.Default(node.id).None?
              && (forall e | e in c.graph.Conditional(node.id) ::
                    || IsCapped(c, s.log, node.id, e)
                    || (e.condition.Some? && ConditionOf(c, s, e) == Fails))
              && TriggerOf(c, s, node) == Fails
    ensures ChooseRoute(c, node, s) == NoRoute ==>
              || (node.hitl.Some? && node.hitl.value.enabled)
              || exists e | e in c.graph.Conditional(node.id) ::
                   e.condition.None? && IsCapped(c, s.log, node.id, e)
  {
    NoRouteExactly(c, node, s);
    if e :| e in c.graph.Conditional(node.id) && e.condition.None? {
      assert ConditionOf(c, s, e) == Holds;
    }
  }

  /**
   * A default edge is not capped: with nothing else to take it fires whatever
   * its targets' loop caps say, and takes their counts past them.
   */
  lemma DefaultEdgePassesItsCap(c: Config, node: Node, s: State, t: string)
    requires c.graph.Default(node.id).Some? && t in c.graph.Default(node.id).value.to
    requires forall e | e in c.graph.Conditional(node.id) :: !NotSkipped(c, s, node.id)(e)
    requires node.hitl.None? && LoopKey(node.id, t) in c.guards.loopCaps
    requires RouteCount(s.log, node.id, t) >= c.guards.loopCaps[LoopKey(node.id, t)]
    ensures RouteCount(RouteFrom(c, s, node).log, node.id, t) > c.guards.loopCaps[LoopKey(node.id, t)]
  {
    FirstLiveMeans(c.graph.Conditional(node.id), NotSkipped(c, s, node.id));
    FireAllFrame(c, s, node.id, c.graph.Default(node.id).value.to);
  }
}
