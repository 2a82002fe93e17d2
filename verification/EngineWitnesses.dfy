/**
 * Documents and runs on which promises fail: one input for each property the
 * code does not have, beside its exact condition elsewhere.
 */
module EngineWitnesses {
  import opened Outcomes
  import Json
  import opened StateMerge
  import opened Graph
  import opened Validate
  import opened Dod
  import opened Backoff
  import opened EventLog
  import Exec = Executions
  import opened EngineState
  import opened EngineInvariants
  import opened EngineRuns
  import opened EngineTheorems
  import opened EngineRouting
  import opened EngineRequests
  import opened EngineEscapes
  import opened EngineCaps

  // ---- compiled documents ----

  function DefaultsFrom(edges: seq<Edge>, id: string): seq<Edge> {
    if edges == [] then []
    else
      var earlier, last := DefaultsFrom(edges[..|edges| - 1], id), edges[|edges| - 1];
      if last.isDefault && last.from == id then earlier + [last] else earlier
  }

  lemma {:induction false} DefaultsAre(edges: seq<Edge>, id: string, e: Edge)
    ensures e in DefaultsFrom(edges, id) <==> e in edges && e.isDefault && e.from == id
  {
    if edges != [] {
      assert edges == edges[..|edges| - 1] + [edges[|edges| - 1]];
      DefaultsAre(edges[..|edges| - 1], id, e);
    }
  }

  /** What compiling a document gives. */
  function GraphOf(doc: Workflow): CompiledGraph {
    CompiledGraph(
      doc.entry, doc.nodes, IndexById(doc.nodes),
      map id | id in NodeIds(doc.nodes) :: SortByPriority(DeclaredFrom(doc.edges, id)),
      map id | id in NodeIds(doc.nodes) && DefaultsFrom(doc.edges, id) != [] :: DefaultsFrom(doc.edges, id)[0],
      map id | id in NodeIds(doc.nodes) && id != TERMINAL :: set e | e in doc.edges && id in e.to :: e.from)
  }

  lemma GraphOfRepresents(doc: Workflow)
    requires Compilable(doc)
    ensures Represents(GraphOf(doc), doc)
  {
    var g := GraphOf(doc);
    IndexDetectsDuplicates(doc.nodes);
    forall id
      ensures g.Conditional(id) == SortByPriority(DeclaredFrom(doc.edges, id))
    {
      if id !in NodeIds(doc.nodes) {
        assert forall e | e in doc.edges :: EdgeKnown(NodeIds(doc.nodes), e);
        NoneDeclared(doc.edges, id);
      }
    }
    GraphOfDefaults(doc);
    GraphOfInbound(doc);
  }

  lemma GraphOfDefaults(doc: Workflow)
    requires Compilable(doc)
    ensures var g := GraphOf(doc);
            && (forall id | id in g.defaults :: IsDefaultOf(doc.edges, id, g.defaults[id]))
            && (forall e | e in doc.edges && e.isDefault :: e.from in g.defaults && g.defaults[e.from] == e)
  {
    var g := GraphOf(doc);
    forall id | id in g.defaults
      ensures IsDefaultOf(doc.edges, id, g.defaults[id])
    {
      DefaultsAre(doc.edges, id, g.defaults[id]);
    }
    forall e | e in doc.edges && e.isDefault
      ensures e.from in g.defaults && g.defaults[e.from] == e
    {
      DefaultsAre(doc.edges, e.from, e);
      assert EdgeKnown(NodeIds(doc.nodes), e);
      var held := DefaultsFrom(doc.edges, e.from)[0];
      DefaultsAre(doc.edges, e.from, held);
      var i :| 0 <= i < |doc.edges| && doc.edges[i] == e;
      var j :| 0 <= j < |doc.edges| && doc.edges[j] == held;
    }
  }

  lemma GraphOfInbound(doc: Workflow)
    requires Compilable(doc)
    ensures forall t | t in GraphOf(doc).inbound :: t != TERMINAL
    ensures forall f, t :: f in GraphOf(doc).InboundSources(t) <==> t != TERMINAL && Lists(doc.edges, f, t)
  {
    var g := GraphOf(doc);
    forall f, t
      ensures f in g.InboundSources(t) <==> t != TERMINAL && Lists(doc.edges, f, t)
    {
      if e :| e in doc.edges && e.from == f && t in e.to {
        assert EdgeKnown(NodeIds(doc.nodes), e);
      }
    }
  }

  lemma {:induction false} NoneDeclared(edges: seq<Edge>, id: string)
    requires forall e | e in edges :: e.from != id
    ensures DeclaredFrom(edges, id) == []
  {
    if edges != [] {
      NoneDeclared(edges[..|edges| - 1], id);
    }
  }

  /** A document of one node with at most one edge, to itself or the terminal. */
  function OneNode(node: Node, edges: seq<Edge>): Workflow {
    Workflow(node.id, [node], edges)
  }

  lemma OneNodeCompiles(node: Node, edges: seq<Edge>)
    requires |edges| <= 1 && forall e | e in edges :: EdgeKnown({node.id}, e) && e.to != []
    ensures var doc := OneNode(node, edges);
            && Compilable(doc) && Represents(GraphOf(doc), doc) && Wired(GraphOf(doc))
            && GraphOf(doc).nodesById == map[node.id := node]
  {
    var doc := OneNode(node, edges);
    assert NodeIds(doc.nodes) == {node.id};
    assert doc.nodes[..0] == [];
    assert IndexById(doc.nodes) == map[node.id := node];
    GraphOfRepresents(doc);
    CompiledIsWired(GraphOf(doc), doc);
  }

  lemma OneNodeEdges(node: Node, edges: seq<Edge>)
    requires |edges| <= 1 && forall e | e in edges :: EdgeKnown({node.id}, e)
    ensures var g := GraphOf(OneNode(node, edges));
            if edges == [] then g.Conditional(node.id) == [] && g.Default(node.id).None?
            else if edges[0].isDefault then g.Conditional(node.id) == [] && g.Default(node.id) == Some(edges[0])
            else g.Conditional(node.id) == [edges[0]] && g.Default(node.id).None?
  {
    OneEdge(edges, node.id);
    assert node in OneNode(node, edges).nodes;
    assert node.id in NodeIds(OneNode(node, edges).nodes);
    assert SortByPriority([]) == [];
  }

  lemma OneEdge(edges: seq<Edge>, id: string)
    requires |edges| <= 1 && forall e | e in edges :: e.from == id
    ensures edges == [] ==> DeclaredFrom(edges, id) == [] && DefaultsFrom(edges, id) == []
    ensures edges != [] && edges[0].isDefault ==>
              DeclaredFrom(edges, id) == [] && DefaultsFrom(edges, id) == [edges[0]]
    ensures edges != [] && !edges[0].isDefault ==>
              SortByPriority(DeclaredFrom(edges, id)) == [edges[0]] && DefaultsFrom(edges, id) == []
  {
    if edges != [] {
      assert edges[..0] == [];
      assert edges[0] in edges;
      if !edges[0].isDefault {
        assert DeclaredFrom(edges, id) == [edges[0]];
        assert [edges[0]][..0] == [];
        assert SortByPriority([edges[0]]) == Insert([], edges[0]);
      }
    }
  }

  // ---- runs ----

  /** A world in which the n-th turn comes to `turns(n)`, every trigger asks, and nothing else happens. */
  function ScriptedBy(turns: nat -> TurnRun): World {
    World((n: nat, e: string, x) => None, (n: nat, e: Edge, x) => Holds, (n: nat, e: string, x) => Holds, turns,
          (n: nat) => GateRun(Sandbox((e: string) => true, (e: string, x) => Holds), NotWired, false, false, false),
          (n: nat) => ((b: real) => 0.0))
  }

  function Scripted(turn: Turn): World {
    ScriptedBy((n: nat) => TurnRun(turn, false))
  }

  function ConfigOf(doc: Workflow, caps: map<string, nat>, turn: Turn): Config {
    Config(GraphOf(doc), Guards(9, caps, 9, 9, 9, None), map[], map[], None, Scripted(turn))
  }

  /** A turn that commits nothing new. */
  function Quiet(): Turn {
    Finished([], Usage(1, 1), Some(0), Some(0), true, true, true)
  }

  const PLAIN := Node("n", true, None, None, false)

  /** The state a quiet turn of the last row's node commits. */
  function Committed(s: State, id: string): State
    requires s.rows != []
  {
    Logged(s.(version := s.version + 1, rows := Exec.Mark(s.rows, |s.rows| - 1, Exec.Succeeded, Some(Usage(1, 1)))),
           Commit(id, [], s.version, s.version + 1))
  }

  lemma QuietCommits(c: Config, s: State, id: string)
    requires s.rows != [] && c.guards.maxTokens.None?
    ensures RuleOn(c, s, Quiet()) == Accepted && CommitTurn(c, s, id, Quiet()) == Some(Committed(s, id))
  {
    assert Merge(c.fields, s.shared, []) == Ok(s.shared);
  }

  /** A quiet turn of a plain node at the head is committed and routed. */
  lemma QuietRoutes(c: Config, s: State, node: Node)
    requires s.queue != [] && s.queue[0] == node.id
    requires node.id in c.graph.nodesById && c.graph.nodesById[node.id] == node
    requires node.agentBacked && node.onEnter.None? && c.guards.maxTokens.None?
    requires c.world.turns(|s.rows|) == TurnRun(Quiet(), false)
    requires Exec.Streak(s.rows, node.id) == 0 && |s.rows| < c.guards.maxTotalSteps
    ensures RoutedFrom(c, s) == Some(Committed(Begin(s.(queue := s.queue[1..]), node.id), node.id))
    ensures Dispatch(c, s) == RouteFrom(c, RoutedFrom(c, s).value, node)
  {
    var begun := Begin(s.(queue := s.queue[1..]), node.id);
    QuietCommits(c, begun, node.id);
    assert Dispatch(c, s) == SettleTurn(c, begun, node, 0, Quiet());
  }

  /** The only edge of a node that asks no human fires unless it is capped. */
  lemma UncappedFires(c: Config, node: Node, s: State, edge: Edge)
    requires node.hitl.None? && c.graph.Conditional(node.id) == [edge] && c.graph.Default(node.id).None?
    requires edge.condition.None?
    ensures !IsCapped(c, s.log, node.id, edge) ==> ChooseRoute(c, node, s) == Fire(edge)
    ensures IsCapped(c, s.log, node.id, edge) ==> HasNoRoute(c, node, s)
  {
    var live := NotSkipped(c, s, node.id);
    FirstLiveMeans([edge], live);
    assert live(edge) <==> !IsCapped(c, s.log, node.id, edge);
    assert edge in [edge];
    assert forall e | e in c.graph.Conditional(node.id) :: e == edge;
  }

  /**
   * A default edge passes its loop cap: a self-loop that may never be taken is
   * taken by the first turn of the run.
   */
  lemma DefaultEdgePassesItsCap() returns (doc: Workflow, c: Config)
    ensures Compilable(doc) && Represents(c.graph, doc) && c.guards.loopCaps == map[LoopKey("n", "n") := 0]
    ensures c.graph.Default("n").Some? && c.graph.Default("n").value.to == ["n"]
    ensures RouteCount(Run(c, false, [Tick]).log, "n", "n") == 1
  {
    var edge := Edge("n", ["n"], None, true, 0);
    doc := OneNode(PLAIN, [edge]);
    OneNodeCompiles(PLAIN, [edge]);
    OneNodeEdges(PLAIN, [edge]);
    c := ConfigOf(doc, map[LoopKey("n", "n") := 0], Quiet());
    DefaultFires(c, edge);
    assert multiset(["n"])["n"] == 1;
  }

  /** So does an edge that lists its target twice: one fire takes the count from 0 to 2, past a cap of 1. */
  lemma DoubledTargetPassesItsCap() returns (doc: Workflow, c: Config)
    ensures Compilable(doc) && Represents(c.graph, doc) && c.guards.loopCaps == map[LoopKey("n", "n") := 1]
    ensures c.graph.Default("n").None?
    ensures RouteCount(Run(c, false, [Tick]).log, "n", "n") == 2
  {
    var edge := Edge("n", ["n", "n"], None, false, 0);
    doc := OneNode(PLAIN, [edge]);
    OneNodeCompiles(PLAIN, [edge]);
    OneNodeEdges(PLAIN, [edge]);
    c := ConfigOf(doc, map[LoopKey("n", "n") := 1], Quiet());
    UnspentFires(c, edge);
    assert multiset(["n", "n"])["n"] == 2;
  }

  ghost predicate IsQuietRun(c: Config) {
    && c.graph.entry == "n" && c.graph.nodesById == map["n" := PLAIN] && Wired(c.graph)
    && c.world == Scripted(Quiet()) && c.guards.maxTokens.None? && c.guards.maxTotalSteps > 1
  }

  lemma DefaultFires(c: Config, edge: Edge)
    requires IsQuietRun(c) && c.graph.Conditional("n") == [] && c.graph.Default("n") == Some(edge)
    ensures RouteCount(Run(c, false, [Tick]).log, "n", "n") == multiset(edge.to)["n"]
  {
    FirstTick(c);
    var u := RoutedFrom(c, Start(c, false)).value;
    assert ChooseRoute(c, PLAIN, u) == Fire(edge);
  }

  lemma UnspentFires(c: Config, edge: Edge)
    requires IsQuietRun(c) && c.graph.Conditional("n") == [edge] && c.graph.Default("n").None?
    requires edge.condition.None? && forall t | t in edge.to && LoopKey("n", t) in c.guards.loopCaps ::
               c.guards.loopCaps[LoopKey("n", t)] > 0
    ensures RouteCount(Run(c, false, [Tick]).log, "n", "n") == multiset(edge.to)["n"]
  {
    FirstTick(c);
    UnspentIsChosen(c, RoutedFrom(c, Start(c, false)).value, edge);
  }

  lemma UnspentIsChosen(c: Config, u: State, edge: Edge)
    requires IsFirstCommit(u) && c.graph.Conditional("n") == [edge] && c.graph.Default("n").None?
    requires edge.condition.None? && forall t | t in edge.to && LoopKey("n", t) in c.guards.loopCaps ::
               c.guards.loopCaps[LoopKey("n", t)] > 0
    ensures ChooseRoute(c, PLAIN, u) == Fire(edge)
  {
    AppendCounts([], Commit("n", [], 0, 1));
    UncappedFires(c, PLAIN, u, edge);
  }

  /** The first turn of a quiet one-node run is a dispatch. */
  lemma FirstDispatch(c: Config, s: State)
    requires s == Start(c, false) && c.graph.entry == "n" && c.graph.nodesById == map["n" := PLAIN]
    requires c.world == Scripted(Quiet()) && c.guards.maxTokens.None? && c.guards.maxTotalSteps > 0
    ensures RoutedFrom(c, s) == Some(Committed(Begin(s.(queue := s.queue[1..]), "n"), "n"))
    ensures Run(c, false, [Tick]) == RouteFrom(c, RoutedFrom(c, s).value, PLAIN)
  {
    RunAppends(c, false, [], Tick);
    assert [] + [Tick] == [Tick];
    QuietRoutes(c, s, PLAIN);
  }

  /** The first turn of a quiet one-node run adds what its routing fires. */
  lemma FirstTick(c: Config)
    requires IsQuietRun(c)
    ensures RoutedFrom(c, Start(c, false)).Some? && IsFirstCommit(RoutedFrom(c, Start(c, false)).value)
    ensures Run(c, false, [Tick]) == RouteFrom(c, RoutedFrom(c, Start(c, false)).value, PLAIN)
    ensures forall t :: RouteCount(Run(c, false, [Tick]).log, "n", t) ==
                        Added(c, PLAIN, RoutedFrom(c, Start(c, false)).value, t)
  {
    FirstDispatch(c, Start(c, false));
    StartCommits(c);
    forall t
      ensures RouteCount(Run(c, false, [Tick]).log, "n", t) ==
              Added(c, PLAIN, RoutedFrom(c, Start(c, false)).value, t)
    {
      FirstCounts(c, RoutedFrom(c, Start(c, false)).value, t);
    }
  }

  /** One committed attempt of "n", and nothing queued or asked. */
  ghost predicate IsFirstCommit(u: State) {
    && u.log == Append([], Commit("n", [], 0, 1)) && u.queue == [] && u.status == Running
    && u.phase == Draining && !u.failed && u.hitl == []
    && |u.rows| == 1 && u.rows[0].node == "n" && u.rows[0].status == Exec.Succeeded
  }

  lemma StartCommits(c: Config)
    requires c.graph.entry == "n"
    ensures var s := Start(c, false); IsFirstCommit(Committed(Begin(s.(queue := s.queue[1..]), "n"), "n"))
  {
  }

  lemma FirstCounts(c: Config, u: State, t: string)
    requires IsFirstCommit(u)
    ensures RouteCount(RouteFrom(c, u, PLAIN).log, "n", t) == Added(c, PLAIN, u, t)
  {
    AppendCounts([], Commit("n", [], 0, 1));
    RouteCounts(c, PLAIN, u, "n", t);
  }

  /**
   * A silent validator and a run that fails for want of a route: an
   * unconditional self-loop, spent by its first turn.
   */
  lemma CappedLoopHasNoRoute() returns (doc: Workflow, c: Config)
    ensures Compilable(doc) && Represents(c.graph, doc) && doc.nodes == [PLAIN]
    ensures !LacksSafetyNet(c.graph, PLAIN) && c.graph.HasOutgoingEdges("n")
    ensures var s := Run(c, false, [Tick]);
            && s.status == Running && s.queue == ["n"]
            && RoutedFrom(c, s).Some? && HasNoRoute(c, PLAIN, RoutedFrom(c, s).value)
    ensures Run(c, false, [Tick, Tick]).status == Failed
  {
    var edge := Edge("n", ["n"], None, false, 0);
    doc := OneNode(PLAIN, [edge]);
    OneNodeCompiles(PLAIN, [edge]);
    OneNodeEdges(PLAIN, [edge]);
    c := ConfigOf(doc, map[LoopKey("n", "n") := 1], Quiet());
    assert edge in c.graph.Conditional("n");
    SpentLoopFails(c, edge);
  }

  /** A self-loop with a cap of 1 fails the run at its second turn. */
  lemma SpentLoopFails(c: Config, edge: Edge)
    requires IsQuietRun(c)
    requires edge == Edge("n", ["n"], None, false, 0) && c.guards.loopCaps == map[LoopKey("n", "n") := 1]
    requires c.graph.Conditional("n") == [edge] && c.graph.Default("n").None?
    ensures var s := Run(c, false, [Tick]);
            && s.status == Running && s.queue == ["n"]
            && RoutedFrom(c, s).Some? && HasNoRoute(c, PLAIN, RoutedFrom(c, s).value)
    ensures Run(c, false, [Tick, Tick]).status == Failed
  {
    FirstLoop(c, edge);
    var s := Run(c, false, [Tick]);
    assert "n" in edge.to;
    SecondTick(c, s, edge);
    RunAppends(c, false, [Tick], Tick);
    assert [Tick] + [Tick] == [Tick, Tick];
  }

  /** The first turn of a run whose self-loop has a cap of 1 takes it. */
  lemma FirstLoop(c: Config, edge: Edge)
    requires IsQuietRun(c)
    requires edge == Edge("n", ["n"], None, false, 0) && c.guards.loopCaps == map[LoopKey("n", "n") := 1]
    requires c.graph.Conditional("n") == [edge] && c.graph.Default("n").None?
    ensures var s := Run(c, false, [Tick]);
            && s.phase == Draining && !s.failed && s.status == Running && s.queue == ["n"]
            && |s.rows| == 1 && Exec.Streak(s.rows, "n") == 0 && RouteCount(s.log, "n", "n") == 1
  {
    FirstTick(c);
    UnspentFires(c, edge);
    var u := RoutedFrom(c, Start(c, false)).value;
    UnspentIsChosen(c, u, edge);
    FiresOnce(c, u, "n");
    assert multiset(["n"])["n"] == 1;
  }

  lemma FiresOnce(c: Config, s: State, t: string)
    requires ChooseRoute(c, PLAIN, s).Fire? && ChooseRoute(c, PLAIN, s).edge.to == [t]
    ensures RouteFrom(c, s, PLAIN) == FireOne(c, s, "n", t)
  {
    assert [t][..0] == [];
    assert FireAll(c, s, "n", []) == s;
  }

  /** A spent self-loop fails at its next turn. */
  lemma SecondTick(c: Config, s: State, edge: Edge)
    requires s.phase == Draining && !s.failed && s.queue == ["n"] && c.graph.nodesById == map["n" := PLAIN]
    requires c.world == Scripted(Quiet()) && c.guards.maxTokens.None? && |s.rows| < c.guards.maxTotalSteps
    requires Exec.Streak(s.rows, "n") == 0
    requires c.graph.Conditional("n") == [edge] && c.graph.Default("n").None? && edge.condition.None?
    requires IsCapped(c, s.log, "n", edge)
    ensures RoutedFrom(c, s).Some? && HasNoRoute(c, PLAIN, RoutedFrom(c, s).value)
    ensures Next(c, s, Tick).status == Failed
  {
    var u := Committed(Begin(s.(queue := s.queue[1..]), "n"), "n");
    NextDispatches(c, s);
    SpentHasNoRoute(c, s.log, u, edge);
    QuietRoutes(c, s, PLAIN);
  }

  lemma NextDispatches(c: Config, s: State)
    requires s.phase == Draining && !s.failed && s.queue != []
    ensures Next(c, s, Tick) == Dispatch(c, s)
  {
  }

  lemma SpentHasNoRoute(c: Config, log: Log, u: State, edge: Edge)
    requires c.graph.Conditional("n") == [edge] && c.graph.Default("n").None? && edge.condition.None?
    requires u.version > 0 && IsCapped(c, log, "n", edge)
    requires u.log == Append(log, Commit("n", [], u.version - 1, u.version))
    ensures HasNoRoute(c, PLAIN, u) && RouteFrom(c, u, PLAIN).status == Failed
  {
    StaysCapped(c, log, Commit("n", [], u.version - 1, u.version), "n", edge);
    UncappedFires(c, PLAIN, u, edge);
    NoRouteExactly(c, PLAIN, u);
  }

  lemma StaysCapped(c: Config, log: Log, event: Event, f: string, e: Edge)
    requires IsCapped(c, log, f, e)
    ensures IsCapped(c, Append(log, event), f, e)
  {
    AppendCounts(log, event);
  }

  // ---- the terminal sentinel as a join ----

  const START_NODE := Node("a", true, None, None, false)
  const SENTINEL_JOIN := Node(TERMINAL, true, None, None, true)

  /**
   * A join named like the sentinel: a document whose only edge leads to the
   * terminal, and a run that queues that join although the validator's search
   * does not see it.
   */
  lemma SentinelJoinIsQueued() returns (doc: Workflow, c: Config)
    ensures Compilable(doc) && Represents(c.graph, doc) && doc.entry == "a" && Wired(c.graph)
    ensures !IsReachable(c.graph, TERMINAL)
    ensures TERMINAL in Run(c, false, [Tick, Tick]).queue
  {
    var edge := Edge("a", [TERMINAL], None, false, 0);
    doc := Workflow("a", [START_NODE, SENTINEL_JOIN], [edge]);
    SentinelCompiles(doc, edge);
    c := ConfigOf(doc, map[], Quiet());
    TerminalIsNotReachable(c.graph);
    SecondTickPromotes(c, edge);
  }

  lemma TerminalIsNotReachable(g: CompiledGraph)
    requires g.entry != TERMINAL
    ensures !IsReachable(g, TERMINAL)
  {
    assert forall p | IsPath(g, p) :: p[|p| - 1] != TERMINAL;
  }

  lemma SecondTickPromotes(c: Config, edge: Edge)
    requires c.graph.entry == "a" && "a" in c.graph.nodesById && c.graph.nodesById["a"] == START_NODE
    requires Wired(c.graph) && c.graph.IsJoinAll(TERMINAL)
    requires c.world == Scripted(Quiet()) && c.guards == Guards(9, map[], 9, 9, 9, None)
    requires edge == Edge("a", [TERMINAL], None, false, 0)
    requires c.graph.Conditional("a") == [edge] && c.graph.Default("a").None?
    ensures TERMINAL in Run(c, false, [Tick, Tick]).queue
  {
    FirstToTerminal(c, edge);
    SentinelJoinIsPromoted(c, Run(c, false, [Tick]));
    RunAppends(c, false, [Tick], Tick);
    assert [Tick] + [Tick] == [Tick, Tick];
  }

  lemma SentinelCompiles(doc: Workflow, edge: Edge)
    requires edge == Edge("a", [TERMINAL], None, false, 0)
    requires doc == Workflow("a", [START_NODE, SENTINEL_JOIN], [edge])
    ensures var g := GraphOf(doc);
            && Compilable(doc) && Represents(g, doc) && Wired(g)
            && "a" in g.nodesById && g.nodesById["a"] == START_NODE
            && TERMINAL in g.nodesById && g.nodesById[TERMINAL] == SENTINEL_JOIN
            && g.Conditional("a") == [edge] && g.Default("a").None?
  {
    SentinelIsCompilable(doc, edge);
    GraphOfRepresents(doc);
    CompiledIsWired(GraphOf(doc), doc);
    assert START_NODE in doc.nodes && SENTINEL_JOIN in doc.nodes;
    OneEdge([edge], "a");
  }

  lemma SentinelIsCompilable(doc: Workflow, edge: Edge)
    requires edge == Edge("a", [TERMINAL], None, false, 0)
    requires doc == Workflow("a", [START_NODE, SENTINEL_JOIN], [edge])
    ensures Compilable(doc)
  {
    assert START_NODE.id == "a" && SENTINEL_JOIN.id == TERMINAL;
    assert TERMINAL[0] == '_';
    assert START_NODE in doc.nodes && SENTINEL_JOIN in doc.nodes;
    assert DistinctIds(doc.nodes);
  }

  lemma FirstToTerminal(c: Config, edge: Edge)
    requires c.graph.entry == "a" && "a" in c.graph.nodesById && c.graph.nodesById["a"] == START_NODE
    requires Wired(c.graph) && c.graph.IsJoinAll(TERMINAL)
    requires c.world == Scripted(Quiet()) && c.guards == Guards(9, map[], 9, 9, 9, None)
    requires edge == Edge("a", [TERMINAL], None, false, 0)
    requires c.graph.Conditional("a") == [edge] && c.graph.Default("a").None?
    ensures TickPromotesSentinel(c, Run(c, false, [Tick]))
  {
    var s := Start(c, false);
    RunAppends(c, false, [], Tick);
    assert [] + [Tick] == [Tick];
    NextDispatches(c, s);
    QuietRoutes(c, s, START_NODE);
    FiresToTerminal(c, RoutedFrom(c, s).value, edge);
  }

  lemma FiresToTerminal(c: Config, u: State, edge: Edge)
    requires c.graph.IsJoinAll(TERMINAL) && c.guards.loopCaps == map[]
    requires edge == Edge("a", [TERMINAL], None, false, 0)
    requires c.graph.Conditional("a") == [edge] && c.graph.Default("a").None?
    requires Gapless(u.log) && u.phase == Draining && !u.failed && u.queue == [] && u.hitl == []
    ensures TickPromotesSentinel(c, RouteFrom(c, u, START_NODE))
  {
    UncappedFires(c, START_NODE, u, edge);
    assert edge.to[..0] == [];
    assert RouteFrom(c, u, START_NODE) == FireOne(c, FireAll(c, u, "a", []), "a", TERMINAL);
    AppendArrivals(u.log, Route("a", TERMINAL), TERMINAL);
    assert "a" in Arrivals(RouteFrom(c, u, START_NODE).log, TERMINAL);
  }

  // ---- stranded and refailed runs ----

  /**
   * A turn over its tool-call budget whose record cannot be written leaves the
   * run RUNNING, with its attempt still open and nobody to ask - although its
   * nodes are tame, every count compares and every status write succeeds.
   */
  lemma UnwritableRejectionStrandsTheRun() returns (doc: Workflow, c: Config)
    ensures Compilable(doc) && Represents(c.graph, doc)
    ensures forall id | id in c.graph.nodesById :: NodeIsTame(c, c.graph.nodesById[id])
    ensures forall n, s :: c.world.turns(n).turn.Finished? && RuleOn(c, s, c.world.turns(n).turn) == Rejected
    ensures var s := Run(c, false, [Tick]);
            s.status == Running && s.phase == Raised && s.hitl == [] && !Exec.NoneRunning(s.rows)
  {
    doc := OneNode(PLAIN, []);
    OneNodeCompiles(PLAIN, []);
    OneNodeEdges(PLAIN, []);
    var turn := Finished([], Usage(1, 1), Some(10), Some(0), false, true, true);
    c := ConfigOf(doc, map[], turn);
    UnwritableRaises(c, turn);
  }

  lemma UnwritableRaises(c: Config, turn: Turn)
    requires c.graph.entry == "n" && c.graph.nodesById == map["n" := PLAIN] && c.world == Scripted(turn)
    requires c.guards.maxTotalSteps > 0 && turn.Finished? && !turn.writable
    requires turn.toolCalls.Some? && turn.toolCalls.value > c.guards.maxToolCalls
    ensures var s := Run(c, false, [Tick]);
            s.status == Running && s.phase == Raised && s.hitl == [] && !Exec.NoneRunning(s.rows)
  {
    var s := Start(c, false);
    RunAppends(c, false, [], Tick);
    assert [] + [Tick] == [Tick];
    var begun := Begin(s.(queue := []), "n");
    assert s.queue[1..] == [];
    assert begun.rows[0].node == "n" && begun.rows[0].status == Exec.Running;
    assert begun.rows[0] in begun.rows;
    assert Dispatch(c, s) == Raise(begun);
  }

  /** An on_enter delta whose merge is refused does the same. */
  lemma RefusedMergeStrandsTheRun() returns (doc: Workflow, c: Config)
    ensures Compilable(doc) && Represents(c.graph, doc)
    ensures var s := Run(c, false, [Tick]);
            s.status == Running && s.phase == Raised && s.hitl == []
  {
    var node := Node("n", true, None, Some("state.x += 1"), false);
    doc := OneNode(node, []);
    OneNodeCompiles(node, []);
    var delta := [Json.Member("x", Json.JInt(2))];
    var initial := map["x" := Json.JInt(1)];
    c := ConfigOf(doc, map[], Quiet()).(fields := map["x" := AppendList], initial := initial,
                                        world := Scripted(Quiet()).(enter := (n: nat, e: string, x) => Some(delta)));
    var s := Start(c, false);
    RunAppends(c, false, [], Tick);
    assert [] + [Tick] == [Tick];
    assert Merge(c.fields, initial, delta[..0]) == Ok(initial);
    assert Merge(c.fields, initial, delta).Err?;
    assert s.queue[1..] == [];
    assert Enter(c, Begin(s.(queue := []), "n"), node).None?;
    assert Dispatch(c, s) == Raise(Begin(s.(queue := []), "n"));
  }

  /** CANCELLED becomes FAILED: cancelled while queued, its next turn breaks. */
  lemma CancelledMayFail() returns (doc: Workflow, c: Config)
    ensures Compilable(doc) && Represents(c.graph, doc)
    ensures Run(c, false, [Cancel]).status == Cancelled
    ensures Run(c, false, [Cancel, Tick]).status == Failed
  {
    doc := OneNode(PLAIN, []);
    OneNodeCompiles(PLAIN, []);
    c := ConfigOf(doc, map[], Broken(true));
    BreaksOnceCancelled(c);
  }

  lemma BreaksOnceCancelled(c: Config)
    requires c.graph.entry == "n" && c.graph.nodesById == map["n" := PLAIN] && c.world == Scripted(Broken(true))
    requires c.guards.maxTotalSteps > 0
    ensures Run(c, false, [Cancel]).status == Cancelled
    ensures Run(c, false, [Cancel, Tick]).status == Failed
  {
    CancelledAtOnce(c);
    RunAppends(c, false, [Cancel], Tick);
    assert [Cancel] + [Tick] == [Cancel, Tick];
    var s := LandCancel(Start(c, false));
    NextDispatches(c, s);
    BrokenFails(c, s);
  }

  lemma CancelledAtOnce(c: Config)
    ensures Run(c, false, [Cancel]) == LandCancel(Start(c, false))
  {
    RunAppends(c, false, [], Cancel);
    assert [] + [Cancel] == [Cancel];
  }

  /** A broken turn of a plain node's first attempt fails the run. */
  lemma BrokenFails(c: Config, s: State)
    requires s.queue == ["n"] && s.rows == [] && "n" in c.graph.nodesById && c.graph.nodesById["n"] == PLAIN
    requires c.world.turns(0) == TurnRun(Broken(true), false) && c.guards.maxTotalSteps > 0
    ensures Dispatch(c, s).status == Failed
  {
    var begun := Begin(s.(queue := s.queue[1..]), "n");
    assert Dispatch(c, s) == SettleTurn(c, begun, PLAIN, 0, Broken(true));
  }

  // ---- a retry budget beyond the largest float ----

  function Ticks(n: nat): seq<Action> {
    if n == 0 then [] else Ticks(n - 1) + [Tick]
  }

  /** A node that only ever fails transiently, with a budget of one retry more than a float can delay. */
  ghost predicate IsHopeless(c: Config) {
    && c.graph.entry == "n" && c.graph.nodesById == map["n" := PLAIN]
    && c.world == Scripted(Transient(true))
    && c.guards.maxRetries == LARGEST_EXPONENT + 2 && c.guards.maxTotalSteps > LARGEST_EXPONENT + 2
  }

  /** Where its run is after n failures. */
  ghost predicate HasFailedTimes(s: State, n: nat) {
    && s.phase == Draining && s.status == Running && !s.failed && s.hitl == [] && s.queue == ["n"]
    && |s.rows| == n && Exec.Streak(s.rows, "n") == n
  }

  lemma HopelessTick(c: Config, s: State, n: nat)
    requires IsHopeless(c) && HasFailedTimes(s, n) && n <= LARGEST_EXPONENT + 1
    ensures n <= LARGEST_EXPONENT ==> HasFailedTimes(Next(c, s, Tick), n + 1)
    ensures n == LARGEST_EXPONENT + 1 ==>
              Next(c, s, Tick).phase == Raised && Next(c, s, Tick).status == Running && Next(c, s, Tick).hitl == []
  {
    var begun := Begin(s.(queue := []), "n");
    assert s.queue[1..] == [];
    assert Next(c, s, Tick) == Retry(c, begun, "n", n + 1, true);
    var rows := MarkLast(begun, Exec.Failed, None).rows;
    assert rows[..n] == s.rows;
  }

  lemma {:induction false} HopelessTicks(c: Config, n: nat)
    requires IsHopeless(c) && n <= LARGEST_EXPONENT + 1
    ensures HasFailedTimes(Run(c, false, Ticks(n)), n)
  {
    if n > 0 {
      HopelessTicks(c, n - 1);
      HopelessTick(c, Run(c, false, Ticks(n - 1)), n - 1);
      RunAppends(c, false, Ticks(n - 1), Tick);
    }
  }

  /** The 1025th transient failure in a row raises while its delay is computed, and strands the run. */
  lemma BackoffOverflowStrandsTheRun() returns (doc: Workflow, c: Config)
    ensures Compilable(doc) && Represents(c.graph, doc)
    ensures var s := Run(c, false, Ticks(LARGEST_EXPONENT + 2));
            s.status == Running && s.phase == Raised && s.hitl == []
  {
    doc := OneNode(PLAIN, []);
    OneNodeCompiles(PLAIN, []);
    c := ConfigOf(doc, map[], Transient(true));
    c := c.(guards := c.guards.(maxRetries := LARGEST_EXPONENT + 2, maxTotalSteps := LARGEST_EXPONENT + 3));
    HopelessTicks(c, LARGEST_EXPONENT + 1);
    HopelessTick(c, Run(c, false, Ticks(LARGEST_EXPONENT + 1)), LARGEST_EXPONENT + 1);
    RunAppends(c, false, Ticks(LARGEST_EXPONENT + 1), Tick);
  }

  // ---- text that cannot be written ----

  /**
   * A failing turn whose error text cannot be written, transient or not, leaves
   * the run RUNNING, with its attempt still open and nobody to ask.
   */
  lemma UnrecordableErrorStrandsTheRun(turn: Turn) returns (doc: Workflow, c: Config)
    requires turn == Broken(false) || turn == Transient(false)
    ensures Compilable(doc) && Represents(c.graph, doc) && c.world.turns(0).turn == turn
    ensures forall id | id in c.graph.nodesById :: NodeIsTame(c, c.graph.nodesById[id])
    ensures var s := Run(c, false, [Tick]);
            s.status == Running && s.phase == Raised && s.hitl == [] && !Exec.NoneRunning(s.rows)
  {
    doc := OneNode(PLAIN, []);
    OneNodeCompiles(PLAIN, []);
    OneNodeEdges(PLAIN, []);
    c := ConfigOf(doc, map[], turn);
    UnrecordableRaises(c, turn);
  }

  lemma UnrecordableRaises(c: Config, turn: Turn)
    requires turn == Broken(false) || turn == Transient(false)
    requires c.graph.entry == "n" && c.graph.nodesById == map["n" := PLAIN] && c.world == Scripted(turn)
    requires c.guards.maxTotalSteps > 0
    ensures var s := Run(c, false, [Tick]);
            s.status == Running && s.phase == Raised && s.hitl == [] && !Exec.NoneRunning(s.rows)
  {
    var s := Start(c, false);
    RunAppends(c, false, [], Tick);
    assert [] + [Tick] == [Tick];
    NextDispatches(c, s);
    var begun := Begin(s.(queue := s.queue[1..]), "n");
    assert begun.rows[0].node == "n" && begun.rows[0].status == Exec.Running;
    assert begun.rows[0] in begun.rows;
    assert Dispatch(c, s) == SettleTurn(c, begun, PLAIN, 0, turn);
  }

  // ---- a run that ends, and what others then do to it ----

  /** A run of one plain node without edges, whose first turn is quiet. */
  ghost predicate IsBrief(c: Config) {
    && c.graph.entry == "n" && c.graph.nodesById == map["n" := PLAIN] && Wired(c.graph)
    && c.graph.Conditional("n") == [] && c.graph.Default("n").None? && c.graph.JoinAllNodes() == []
    && c.world.turns(0) == TurnRun(Quiet(), false) && c.guards.maxTokens.None? && c.guards.maxTotalSteps > 1
    && c.dod == Some([])
    && forall k :: c.world.gates(k) == Scripted(Quiet()).gates(k)
  }

  lemma BriefCompiles(turns: nat -> TurnRun) returns (doc: Workflow, c: Config)
    requires turns(0) == TurnRun(Quiet(), false)
    ensures Compilable(doc) && Represents(c.graph, doc) && IsBrief(c) && c.world == ScriptedBy(turns)
    ensures c.fields == map[] && c.initial == map[] && c.guards == Guards(9, map[], 9, 9, 9, None)
  {
    doc := OneNode(PLAIN, []);
    OneNodeCompiles(PLAIN, []);
    OneNodeEdges(PLAIN, []);
    c := ConfigOf(doc, map[], Quiet()).(dod := Some([]), world := ScriptedBy(turns));
    assert GraphOf(doc).JoinAllNodes() == JoinAllAmong([PLAIN]);
    assert [PLAIN][1..] == [];
  }

  /** What the three turns of its drain leave: a COMPLETED run with a passed gate. */
  ghost predicate IsOver(c: Config, s: State) {
    IsAtRest(c, s) && s.phase == Idle && s.status == Completed && HasPassedGate(s.log)
  }

  /** One attempt, committed; nothing queued, asked, or done by others. */
  ghost predicate IsAtRest(c: Config, s: State) {
    && !s.failed && s.queue == [] && s.hitl == [] && s.shared == c.initial
    && |s.rows| == 1 && s.rows[0].node == "n" && s.rows[0].status == Exec.Succeeded
    && s.past.taken == [] && s.past.lost == [] && !s.past.reopened
  }

  /** The state after its first turn: committed, and nothing further to route. */
  function Stopped(s: State): State
    requires s.queue != []
  {
    var u := Committed(Begin(s.(queue := s.queue[1..]), "n"), "n");
    Logged(u, Terminate("n")).(terminalReached := true)
  }

  lemma BriefStops(c: Config, s: State)
    requires IsBrief(c) && s == Start(c, false).(past := s.past)
    ensures Next(c, s, Tick) == Stopped(s)
  {
    NextDispatches(c, s);
    QuietRoutes(c, s, PLAIN);
    var u := RoutedFrom(c, s).value;
    assert ChooseRoute(c, PLAIN, u) == Stop;
  }

  lemma BriefQuiesces(c: Config, s: State)
    requires IsBrief(c) && s == Start(c, false).(past := s.past)
    ensures Next(c, Stopped(s), Tick) == Stopped(s).(phase := Ending)
  {
    NoJoinsPend(c, Stopped(s));
    StoppedIsEmpty(s);
    EmptyQuiesces(c, Stopped(s));
  }

  lemma EmptyQuiesces(c: Config, t: State)
    requires t.phase == Draining && t.queue == [] && PendingJoins(c, t) == []
    ensures Next(c, t, Tick) == t.(phase := Ending)
  {
  }

  lemma NoJoinsPend(c: Config, s: State)
    requires c.graph.JoinAllNodes() == []
    ensures PendingJoins(c, s) == []
  {
  }

  lemma StoppedIsEmpty(s: State)
    requires |s.queue| == 1
    ensures Stopped(s).queue == [] && Stopped(s).phase == s.phase && Stopped(s).failed == s.failed
  {
  }

  lemma BriefFinishes(c: Config, s: State)
    requires IsBrief(c) && s == Start(c, false).(past := s.past)
    requires s.past.taken == [] && s.past.lost == [] && !s.past.reopened
    ensures IsOver(c, Finalize(c, Stopped(s).(phase := Ending)))
    ensures Finalize(c, Stopped(s).(phase := Ending)).past.selected <==> s.past.selected
  {
    var t := Stopped(s).(phase := Ending);
    StoppedRests(c, s);
    MetCompletes(c, t);
    RestStays(c, t);
  }

  lemma StoppedRests(c: Config, s: State)
    requires IsBrief(c) && s == Start(c, false).(past := s.past)
    requires s.past.taken == [] && s.past.lost == [] && !s.past.reopened
    ensures IsAtRest(c, Stopped(s)) && Stopped(s).terminalReached && !IsTerminal(Stopped(s).status)
    ensures Stopped(s).past == s.past
  {
  }

  lemma RestStays(c: Config, t: State)
    requires IsAtRest(c, t)
    ensures IsAtRest(c, Finalize(c, t))
  {
    FinishFrame(c, t);
  }

  lemma MetCompletes(c: Config, t: State)
    requires c.dod == Some([]) && forall k :: c.world.gates(k) == Scripted(Quiet()).gates(k)
    requires !t.failed && !IsTerminal(t.status) && !PendingHitl(t) && t.terminalReached
    ensures var u := Finalize(c, t);
            u.phase == Idle && u.status == Completed && u.past == t.past && HasPassedGate(u.log)
  {
    EmptyDefinitionIsMet(c, t);
    FinishFrame(c, t);
    FinishWrites(c, t);
    AppendFlags(t.log, DodEvaluated(GateDecision(c, t).value));
    FinalizeKeepsPast(c, t);
  }

  lemma EmptyDefinitionIsMet(c: Config, t: State)
    requires c.dod == Some([]) && forall k :: c.world.gates(k) == Scripted(Quiet()).gates(k)
    requires !t.failed && !IsTerminal(t.status) && !PendingHitl(t) && t.terminalReached
    ensures GateDecision(c, t).Some? && GateDecision(c, t).value.completed
    ensures Judged(c, t, [], c.world.gates(|t.log|)).completed
    ensures var gate := c.world.gates(|t.log|); !gate.cancelled && !gate.writeFails
  {
    assert EvaluateAll(c.world.gates(|t.log|).box, [], t.shared) == [];
  }

  lemma FinalizeKeepsPast(c: Config, s: State)
    requires !c.world.gates(|s.log|).cancelled
    ensures Finalize(c, s).past == s.past
  {
  }

  /** From a state like the start, three turns complete a brief run. */
  lemma BriefCompletes(c: Config, before: seq<Action>, s: State)
    requires IsBrief(c) && s == Run(c, false, before) == Start(c, false).(past := s.past)
    requires s.past.taken == [] && s.past.lost == [] && !s.past.reopened
    ensures IsOver(c, Run(c, false, before + [Tick] + [Tick] + [Tick]))
    ensures Run(c, false, before + [Tick] + [Tick] + [Tick]).past.selected <==> s.past.selected
  {
    RunAppends(c, false, before, Tick);
    RunAppends(c, false, before + [Tick], Tick);
    RunAppends(c, false, before + [Tick] + [Tick], Tick);
    BriefStops(c, s);
    BriefQuiesces(c, s);
    BriefFinishes(c, s);
  }

  /**
   * A cancel overwrites a COMPLETED run: it selected the run while it was
   * active, the run completed with its gate passed, and then the write lands.
   */
  lemma LateCancelOverwritesCompleted() returns (doc: Workflow, c: Config)
    ensures Compilable(doc) && Represents(c.graph, doc)
    ensures Run(c, false, [Select, Tick, Tick, Tick]).status == Completed
    ensures var s := Run(c, false, [Select, Tick, Tick, Tick, Cancel]);
            s.status == Cancelled && HasPassedGate(s.log)
  {
    doc, c := BriefCompiles((n: nat) => TurnRun(Quiet(), false));
    SelectedCompletes(c);
    RunAppends(c, false, [Select, Tick, Tick, Tick], Cancel);
    assert [Select, Tick, Tick, Tick] + [Cancel] == [Select, Tick, Tick, Tick, Cancel];
  }

  lemma SelectedCompletes(c: Config)
    requires IsBrief(c)
    ensures IsOver(c, Run(c, false, [Select, Tick, Tick, Tick]))
    ensures Run(c, false, [Select, Tick, Tick, Tick]).past.selected
  {
    RunAppends(c, false, [], Select);
    assert [] + [Select] == [Select];
    BriefCompletes(c, [Select], SelectToCancel(Start(c, false)));
    assert [Select] + [Tick] + [Tick] + [Tick] == [Select, Tick, Tick, Tick];
  }

  lemma StartCompletes(c: Config)
    requires IsBrief(c)
    ensures IsOver(c, Run(c, false, [Tick, Tick, Tick]))
  {
    BriefCompletes(c, [], Start(c, false));
    assert [] + [Tick] + [Tick] + [Tick] == [Tick, Tick, Tick];
  }

  /** What it is after being resumed with another run's request, and one turn more. */
  lemma ReopenedRuns(c: Config, node: string)
    requires IsBrief(c)
    ensures var s := Run(c, false, [Tick, Tick, Tick]); var t := TakeAnswer(s, node);
            && IsOver(c, s)
            && Run(c, false, [Tick, Tick, Tick, AnswerForeign(node)]) == t
            && Run(c, false, [Tick, Tick, Tick, AnswerForeign(node), Tick]) == Dispatch(c, t)
  {
    StartCompletes(c);
    ReopenedDispatches(c, Run(c, false, [Tick, Tick, Tick]), node);
    RunAppends(c, false, [Tick, Tick, Tick], AnswerForeign(node));
    assert [Tick, Tick, Tick] + [AnswerForeign(node)] == [Tick, Tick, Tick, AnswerForeign(node)];
    RunAppends(c, false, [Tick, Tick, Tick, AnswerForeign(node)], Tick);
    assert [Tick, Tick, Tick, AnswerForeign(node)] + [Tick] == [Tick, Tick, Tick, AnswerForeign(node), Tick];
  }

  /** A first turn that is quiet, and then `turn`. */
  function QuietThen(turn: Turn): nat -> TurnRun {
    (n: nat) => if n == 0 then TurnRun(Quiet(), false) else TurnRun(turn, false)
  }

  /** A COMPLETED run resumed with another run's request: its next dispatch is that of the start. */
  lemma ReopenedDispatches(c: Config, s: State, node: string)
    requires IsOver(c, s)
    ensures var t := Next(c, s, AnswerForeign(node));
            && t == TakeAnswer(s, node) && t.queue == [node] && t.past.reopened && t.rows == s.rows
            && t.status == Completed && t.shared == s.shared && Next(c, t, Tick) == Dispatch(c, t)
  {
    NextDispatches(c, TakeAnswer(s, node));
  }

  /** A COMPLETED run becomes FAILED: resumed with another run's request, its next turn breaks. */
  lemma ForeignAnswerFailsCompleted() returns (doc: Workflow, c: Config)
    ensures Compilable(doc) && Represents(c.graph, doc)
    ensures IsOver(c, Run(c, false, [Tick, Tick, Tick]))
    ensures Run(c, false, [Tick, Tick, Tick, AnswerForeign("n"), Tick]).status == Failed
  {
    doc, c := BriefCompiles(QuietThen(Broken(true)));
    ReopenedFails(c);
  }

  lemma ReopenedFails(c: Config)
    requires IsBrief(c) && c.world.turns(1) == TurnRun(Broken(true), false)
    ensures IsOver(c, Run(c, false, [Tick, Tick, Tick]))
    ensures Run(c, false, [Tick, Tick, Tick, AnswerForeign("n"), Tick]).status == Failed
  {
    ReopenedRuns(c, "n");
    ReopenedBreaks(c, TakeAnswer(Run(c, false, [Tick, Tick, Tick]), "n"));
  }

  lemma TwoMore(c: Config, actions: seq<Action>, a: Action, b: Action)
    ensures Run(c, false, actions + [a, b]) == Next(c, Next(c, Run(c, false, actions), a), b)
  {
    RunAppends(c, false, actions, a);
    RunAppends(c, false, actions + [a], b);
    assert actions + [a] + [b] == actions + [a, b];
  }

  ghost predicate IsReopened(c: Config, s: State) {
    && IsBrief(c) && s.queue == ["n"] && |s.rows| == 1
    && s.rows[0].node == "n" && s.rows[0].status == Exec.Succeeded && c.guards.maxTotalSteps > 1
  }

  lemma ReopenedBreaks(c: Config, s: State)
    requires IsReopened(c, s) && c.world.turns(1) == TurnRun(Broken(true), false)
    ensures Dispatch(c, s).status == Failed
  {
    assert Exec.Streak(s.rows, "n") == 0;
    var begun := Begin(s.(queue := s.queue[1..]), "n");
    assert Dispatch(c, s) == SettleTurn(c, begun, PLAIN, 0, Broken(true));
  }

  /** A COMPLETED run stays COMPLETED while its state changes: its next turn commits. */
  lemma ForeignAnswerChangesCompleted() returns (doc: Workflow, c: Config)
    ensures Compilable(doc) && Represents(c.graph, doc)
    ensures IsOver(c, Run(c, false, [Tick, Tick, Tick])) && "x" !in c.initial
    ensures var s := Run(c, false, [Tick, Tick, Tick, AnswerForeign("n"), Tick]);
            s.status == Completed && "x" in s.shared
  {
    var delta := [Json.Member("x", Json.JInt(1))];
    var turn := Finished(delta, Usage(1, 1), Some(0), Some(0), true, true, true);
    doc, c := BriefCompiles(QuietThen(turn));
    ReopenedRuns(c, "n");
    ReopenedCommits(c, TakeAnswer(Run(c, false, [Tick, Tick, Tick]), "n"), turn);
  }

  lemma ReopenedCommits(c: Config, s: State, turn: Turn)
    requires IsReopened(c, s) && c.world.turns(1) == TurnRun(turn, false) && c.fields == map[] && s.shared == map[]
    requires turn == Finished([Json.Member("x", Json.JInt(1))], Usage(1, 1), Some(0), Some(0), true, true, true)
    requires c.guards.maxToolCalls >= 0
    ensures Dispatch(c, s).status == s.status && "x" in Dispatch(c, s).shared
  {
    assert Exec.Streak(s.rows, "n") == 0;
    var begun := Begin(s.(queue := s.queue[1..]), "n");
    assert turn.delta[..0] == [];
    assert Merge(map[], map[], []) == Ok(map[]);
    assert Merge(map[], map[], turn.delta) == Ok(map["x" := Json.JInt(1)]);
    var u := CommitTurn(c, begun, "n", turn).value;
    assert ChooseRoute(c, PLAIN, u) == Stop;
    assert Dispatch(c, s) == SettleTurn(c, begun, PLAIN, 0, turn);
  }

  /** A run is left by an exception: resumed with a request for a node its graph does not have. */
  lemma ForeignNodeEscapes() returns (doc: Workflow, c: Config)
    ensures Compilable(doc) && Represents(c.graph, doc) && "elsewhere" !in c.graph.nodesById
    ensures Run(c, false, [Tick, Tick, Tick, AnswerForeign("elsewhere")]).queue == ["elsewhere"]
    ensures Run(c, false, [Tick, Tick, Tick, AnswerForeign("elsewhere"), Tick]).phase == Raised
  {
    doc, c := BriefCompiles((n: nat) => TurnRun(Quiet(), false));
    ReopenedRuns(c, "elsewhere");
    assert "elsewhere"[0] == 'e';
    UnknownEscapes(c, TakeAnswer(Run(c, false, [Tick, Tick, Tick]), "elsewhere"));
  }

  lemma UnknownEscapes(c: Config, s: State)
    requires s.queue != [] && s.queue[0] !in c.graph.nodesById
    requires Exec.Streak(s.rows, s.queue[0]) <= c.guards.maxRetries && |s.rows| < c.guards.maxTotalSteps
    ensures Dispatch(c, s).phase == Raised
  {
  }

  // ---- a request answered by resuming another run ----

  const ASKER := Node("n", true, Some(HitlConfig(true, "true")), None, false)

  ghost predicate IsAsking(c: Config) {
    && c.graph.entry == "n" && c.graph.nodesById == map["n" := ASKER] && Wired(c.graph)
    && c.graph.Conditional("n") == [] && c.graph.Default("n").None?
    && c.world == Scripted(Quiet()) && c.guards.maxTokens.None? && c.guards.maxTotalSteps > 0
  }

  /** The state after the asking turn. */
  function AskedOf(c: Config): State {
    var s := Start(c, false);
    RaiseHitl(Committed(Begin(s.(queue := []), "n"), "n"), "n")
  }

  lemma AskingAsks(c: Config)
    requires IsAsking(c)
    ensures Run(c, false, [Tick]) == AskedOf(c)
  {
    var s := Start(c, false);
    RunAppends(c, false, [], Tick);
    assert [] + [Tick] == [Tick];
    assert s.queue[1..] == [];
    NextDispatches(c, s);
    QuietRoutes(c, s, ASKER);
    var u := RoutedFrom(c, s).value;
    assert TriggerOf(c, u, ASKER) == Holds;
    assert ChooseRoute(c, ASKER, u) == AskHuman;
  }

  lemma AskingCompiles() returns (doc: Workflow, c: Config)
    ensures Compilable(doc) && Represents(c.graph, doc) && IsAsking(c) && c.graph.JoinAllNodes() == []
  {
    doc := OneNode(ASKER, []);
    OneNodeCompiles(ASKER, []);
    OneNodeEdges(ASKER, []);
    c := ConfigOf(doc, map[], Quiet());
    assert GraphOf(doc).JoinAllNodes() == JoinAllAmong([ASKER]);
    assert [ASKER][1..] == [];
  }

  /** A waiting run gets stuck: another run is resumed with its only request. */
  lemma LostRequestStrandsTheWaiter() returns (doc: Workflow, c: Config)
    ensures Compilable(doc) && Represents(c.graph, doc)
    ensures Run(c, false, [Tick, Tick, Tick]).status == WaitingHuman
    ensures var s := Run(c, false, [Tick, Tick, Tick, AnswerElsewhere(0)]);
            IsStuck(s) && s.status == WaitingHuman && !s.everRaised
  {
    doc, c := AskingCompiles();
    AskingAsks(c);
    AskingWaits(c);
    var s := Run(c, false, [Tick, Tick, Tick]);
    RunAppends(c, false, [Tick, Tick, Tick], AnswerElsewhere(0));
    assert [Tick, Tick, Tick] + [AnswerElsewhere(0)] == [Tick, Tick, Tick, AnswerElsewhere(0)];
    LosingSticks(s, 0);
  }

  lemma AskingWaits(c: Config)
    requires IsAsking(c)
    ensures var s := Run(c, false, [Tick, Tick, Tick]);
            && s.phase == Idle && s.status == WaitingHuman && s.hitl == [HitlRequest("n", true)] && !s.everRaised
            && s.past == Start(c, false).past && |s.rows| == 1 && Exec.Streak(s.rows, "n") == 0
  {
    AskingAsks(c);
    TwoMore(c, [Tick], Tick, Tick);
    assert [Tick] + [Tick, Tick] == [Tick, Tick, Tick];
    AskedQuiesces(c);
    AskedWaits(c, AskedOf(c).(phase := Ending));
  }

  lemma AskedQuiesces(c: Config)
    requires IsAsking(c)
    ensures Next(c, AskedOf(c), Tick) == AskedOf(c).(phase := Ending)
    ensures var s := AskedOf(c);
            && s.hitl == [HitlRequest("n", true)] && PendingHitl(s) && !s.failed && s.status == Running && !s.everRaised
            && s.past == Start(c, false).past && |s.rows| == 1 && Exec.Streak(s.rows, "n") == 0
  {
    var s := AskedOf(c);
    assert s.hitl == [HitlRequest("n", true)] && s.hitl[0] in s.hitl && s.hitl[0].pending;
  }

  lemma AskedWaits(c: Config, t: State)
    requires c.world == Scripted(Quiet()) && !t.failed && t.status == Running && PendingHitl(t)
    ensures var u := Finalize(c, t);
            && u == t.(phase := Idle, status := WaitingHuman, log := u.log, everRaised := u.everRaised)
            && u.everRaised == t.everRaised
  {
    FinishFrame(c, t);
    FinishWrites(c, t);
    FinalizeKeepsPast(c, t);
  }

  /** A run is left RUNNING: its request goes that way before its own drain has looked for it. */
  lemma LostRequestStrandsTheAsker() returns (doc: Workflow, c: Config)
    ensures Compilable(doc) && Represents(c.graph, doc)
    ensures var s := Run(c, false, [Tick, AnswerElsewhere(0), Tick, Tick]);
            IsStuck(s) && s.status == Running && !s.everRaised
  {
    doc, c := AskingCompiles();
    AskingAsks(c);
    var s := AskedOf(c);
    var t := LoseRequest(s, 0);
    TwoMore(c, [Tick], AnswerElsewhere(0), Tick);
    RunAppends(c, false, [Tick, AnswerElsewhere(0), Tick], Tick);
    assert [Tick] + [AnswerElsewhere(0), Tick] == [Tick, AnswerElsewhere(0), Tick];
    assert [Tick, AnswerElsewhere(0), Tick] + [Tick] == [Tick, AnswerElsewhere(0), Tick, Tick];
    LostIsDrained(c, s, t);
    FinishFrame(c, t.(phase := Ending));
    FinishWrites(c, t.(phase := Ending));
  }

  lemma LostIsDrained(c: Config, s: State, t: State)
    requires c.graph.JoinAllNodes() == [] && s == AskedOf(c) && t == LoseRequest(s, 0)
    ensures Next(c, s, AnswerElsewhere(0)) == t && Next(c, t, Tick) == t.(phase := Ending)
    ensures !PendingHitl(t) && t.status == Running && !t.failed && !t.terminalReached && !t.everRaised
  {
    assert s.hitl == [HitlRequest("n", true)];
    assert t.hitl == [HitlRequest("n", false)];
    assert PendingJoins(c, t) == [];
  }

  // ---- two runs ----

  lemma ServeAppends(cs: seq<Config>, held: seq<bool>, calls: seq<Call>, call: Call, r: nat)
    requires |cs| == |held|
    ensures ServeAll(cs, held, calls + [call]) == Serve(cs, ServeAll(cs, held, calls), call)
    ensures ActionsFor(cs, held, calls + [call], r) ==
            ActionsFor(cs, held, calls, r) + ActionFor(ServeAll(cs, held, calls), call, r)
  {
    assert (calls + [call])[..|calls|] == calls;
  }

  /** The calls, and then n turns of one run's drain. */
  function ThenTicks(calls: seq<Call>, run: nat, n: nat): seq<Call> {
    if n == 0 then calls else ThenTicks(calls, run, n - 1) + [Own(run, Tick)]
  }

  lemma {:induction false} TicksAct(cs: seq<Config>, held: seq<bool>, calls: seq<Call>, run: nat, n: nat, r: nat)
    requires |cs| == |held|
    ensures ActionsFor(cs, held, ThenTicks(calls, run, n), r) ==
            ActionsFor(cs, held, calls, r) + if run == r then Ticks(n) else []
  {
    if n > 0 {
      TicksAct(cs, held, calls, run, n - 1, r);
      OwnAppends(cs, held, ThenTicks(calls, run, n - 1), run, r);
      Regroups(ActionsFor(cs, held, calls, r), Ticks(n - 1), [Tick]);
      assert run == r ==> Ticks(n) == Ticks(n - 1) + [Tick];
    }
  }

  lemma Regroups(a: seq<Action>, b: seq<Action>, c: seq<Action>)
    ensures a + b + c == a + (b + c)
  {
  }

  lemma OwnAppends(cs: seq<Config>, held: seq<bool>, calls: seq<Call>, run: nat, r: nat)
    requires |cs| == |held|
    ensures ActionsFor(cs, held, calls + [Own(run, Tick)], r) ==
            ActionsFor(cs, held, calls, r) + if run == r then [Tick] else []
  {
    ServeAppends(cs, held, calls, Own(run, Tick), r);
  }

  /** Both runs' drains, the first run's before the second's. */
  function BothDrain(): seq<Call> {
    ThenTicks(ThenTicks([], 0, 3), 1, 3)
  }

  lemma BothDrainActions(cs: seq<Config>, held: seq<bool>, r: nat)
    requires |cs| == |held| == 2 && r < 2
    ensures ActionsFor(cs, held, BothDrain(), r) == [Tick, Tick, Tick]
  {
    TicksAct(cs, held, [], 0, 3, r);
    TicksAct(cs, held, ThenTicks([], 0, 3), 1, 3, r);
    ThreeTicks();
  }

  lemma ThreeTicks()
    ensures Ticks(3) == [Tick, Tick, Tick]
  {
    assert Ticks(1) == [Tick] && Ticks(2) == [Tick, Tick];
  }

  /** Both drained, the first run is resumed with the second's request, and takes one turn. */
  ghost predicate CrossingBreaks(cs: seq<Config>)
    requires |cs| == 2
  {
    var before, after := ServeAll(cs, [false, false], BothDrain()),
        ServeAll(cs, [false, false], BothDrain() + [Respond(0, 1, 0)] + [Own(0, Tick)]);
    && before[0].status == Completed && before[1].status == WaitingHuman && PendingHitl(before[1])
    && after[0].status == Failed && IsStuck(after[1])
  }

  /**
   * One call does both: resuming the COMPLETED first run with the second's
   * request leaves the second stuck, and one turn later the first is FAILED.
   */
  lemma CrossedRespondBreaksBoth() returns (doc0: Workflow, doc1: Workflow, c0: Config, c1: Config)
    ensures Compilable(doc0) && Represents(c0.graph, doc0)
    ensures Compilable(doc1) && Represents(c1.graph, doc1)
    ensures CrossingBreaks([c0, c1])
  {
    doc0, c0 := BriefCompiles(QuietThen(Broken(true)));
    doc1, c1 := AskingCompiles();
    CrossedRuns([c0, c1]);
  }

  lemma CrossedRuns(cs: seq<Config>)
    requires |cs| == 2 && IsBrief(cs[0]) && cs[0].world.turns(1) == TurnRun(Broken(true), false) && IsAsking(cs[1])
    ensures CrossingBreaks(cs)
  {
    var held, calls := [false, false], BothDrain();
    var before := ServeAll(cs, held, calls);
    BothDrainActions(cs, held, 0);
    BothDrainActions(cs, held, 1);
    EachIsARun(cs, held, calls, 0);
    EachIsARun(cs, held, calls, 1);
    StartCompletes(cs[0]);
    AskingWaits(cs[1]);
    assert before[1].hitl[0] in before[1].hitl;
    CrossedServes(cs, before);
    ServeAppends(cs, held, calls, Respond(0, 1, 0), 0);
    ServeAppends(cs, held, calls + [Respond(0, 1, 0)], Own(0, Tick), 0);
  }

  lemma CrossedServes(cs: seq<Config>, before: seq<State>)
    requires |cs| == |before| == 2 && IsBrief(cs[0]) && cs[0].world.turns(1) == TurnRun(Broken(true), false)
    requires IsOver(cs[0], before[0])
    requires before[1].phase == Idle && before[1].status == WaitingHuman && before[1].hitl == [HitlRequest("n", true)]
    ensures var after := Serve(cs, Serve(cs, before, Respond(0, 1, 0)), Own(0, Tick));
            after[0].status == Failed && IsStuck(after[1])
  {
    var middle := Serve(cs, before, Respond(0, 1, 0));
    CrossedMiddle(cs, before);
    ReopenedDispatches(cs[0], before[0], "n");
    ReopenedBreaks(cs[0], middle[0]);
    LosingSticks(before[1], 0);
  }

  lemma CrossedMiddle(cs: seq<Config>, before: seq<State>)
    requires |cs| == |before| == 2 && before[1].hitl == [HitlRequest("n", true)]
    requires Resumable(before[0]) && IsPendingAt(before[1], 0)
    ensures Serve(cs, before, Respond(0, 1, 0)) == [TakeAnswer(before[0], "n"), LoseRequest(before[1], 0)]
  {
  }
}
