/**
 * The compiled form of a workflow graph (src/ravana/compiler/graph.py): the
 * partition of edges by source, their routing order and the inbound sources a
 * join is checked against.
 */
module Graph {
  import opened Outcomes

  const TERMINAL := "__terminal__"

  datatype HitlConfig = HitlConfig(enabled: bool, trigger: string)

  /** A node with its execution contract resolved; sub-workflow nodes are not agent-backed. */
  datatype Node = Node(id: string, agentBacked: bool, hitl: Option<HitlConfig>,
                       onEnter: Option<string>, joinAll: bool)

  datatype Edge = Edge(from: string, to: seq<string>, condition: Option<string>,
                       isDefault: bool, priority: int)

  datatype Workflow = Workflow(entry: string, nodes: seq<Node>, edges: seq<Edge>)

  datatype CompiledGraph = CompiledGraph(
    entry: string,
    nodes: seq<Node>,
    nodesById: map<string, Node>,
    conditional: map<string, seq<Edge>>,
    defaults: map<string, Edge>,
    inbound: map<string, set<string>>)
  {
    function Conditional(id: string): seq<Edge> {
      if id in conditional then conditional[id] else []
    }

    function Default(id: string): Option<Edge> {
      if id in defaults then Some(defaults[id]) else None
    }

    predicate HasOutgoingEdges(id: string) {
      Conditional(id) != [] || Default(id).Some?
    }

    function InboundSources(id: string): set<string> {
      if id in inbound then inbound[id] else {}
    }

    predicate IsJoinAll(id: string) {
      id in nodesById && nodesById[id].joinAll
    }

    /** The ids of the join-all nodes, in declaration order. */
    function JoinAllNodes(): seq<string> {
      JoinAllAmong(nodes)
    }

    /** `t` is listed by some edge out of `f`, conditional or default. */
    predicate Leads(f: string, t: string) {
      || (exists e | e in Conditional(f) :: t in e.to)
      || (Default(f).Some? && t in Default(f).value.to)
    }
  }

  function JoinAllAmong(nodes: seq<Node>): seq<string> {
    if nodes == [] then []
    else if nodes[0].joinAll then [nodes[0].id] + JoinAllAmong(nodes[1..])
    else JoinAllAmong(nodes[1..])
  }

  datatype CompileError =
    | DuplicateNode
    | UnknownEntry
    | UnknownSource(edge: Edge)
    | UnknownTarget(edge: Edge, target: string)
    | SecondDefault(edge: Edge)

  /** Python's stable descending sort by priority, one insertion at a time. */
  function Insert(sorted: seq<Edge>, e: Edge): seq<Edge> {
    if sorted == [] then [e]
    else
      var last := sorted[|sorted| - 1];
      if last.priority >= e.priority then sorted + [e]
      else Insert(sorted[..|sorted| - 1], e) + [last]
  }

  function SortByPriority(edges: seq<Edge>): seq<Edge> {
    if edges == [] then []
    else Insert(SortByPriority(edges[..|edges| - 1]), edges[|edges| - 1])
  }

  /** The non-default edges declared out of `id`, in declaration order. */
  function DeclaredFrom(edges: seq<Edge>, id: string): seq<Edge> {
    if edges == [] then []
    else
      var rest, last := DeclaredFrom(edges[..|edges| - 1], id), edges[|edges| - 1];
      if last.from == id && !last.isDefault then rest + [last] else rest
  }

  predicate DistinctIds(nodes: seq<Node>) {
    forall i, j | 0 <= i < j < |nodes| :: nodes[i].id != nodes[j].id
  }

  function NodeIds(nodes: seq<Node>): set<string> {
    set n | n in nodes :: n.id
  }

  predicate EdgeKnown(ids: set<string>, e: Edge) {
    e.from in ids && forall t | t in e.to :: t == TERMINAL || t in ids
  }

  predicate DefaultsUnique(edges: seq<Edge>) {
    forall i, j | 0 <= i < j < |edges| ::
      edges[i].isDefault && edges[j].isDefault ==> edges[i].from != edges[j].from
  }

  /** What the compiler demands of a document. */
  predicate Compilable(doc: Workflow) {
    && DistinctIds(doc.nodes)
    && doc.entry in NodeIds(doc.nodes)
    && (forall e | e in doc.edges :: EdgeKnown(NodeIds(doc.nodes), e))
    && DefaultsUnique(doc.edges)
  }

  /** How a compiled graph relates to the document it came from. */
  ghost predicate Represents(g: CompiledGraph, doc: Workflow) {
    && g.entry == doc.entry
    && g.nodes == doc.nodes
    && g.nodesById.Keys == NodeIds(doc.nodes)
    && Indexes(g.nodesById, doc.nodes)
    && Partitioned(g, doc.edges)
    && (forall id :: g.Conditional(id) == SortByPriority(DeclaredFrom(doc.edges, id)))
  }

  /** Defaults and inbound sources of the edges read so far. */
  ghost predicate Partitioned(g: CompiledGraph, edges: seq<Edge>) {
    && (forall id | id in g.defaults :: IsDefaultOf(edges, id, g.defaults[id]))
    && (forall e | e in edges && e.isDefault :: e.from in g.defaults && g.defaults[e.from] == e)
    && (forall t | t in g.inbound :: t != TERMINAL)
    && (forall f, t :: f in g.InboundSources(t) <==> t != TERMINAL && Lists(edges, f, t))
  }

  ghost predicate IsDefaultOf(edges: seq<Edge>, id: string, e: Edge) {
    e in edges && e.isDefault && e.from == id
  }

  ghost predicate Lists(edges: seq<Edge>, f: string, t: string) {
    exists e | e in edges :: e.from == f && t in e.to
  }

  /** Why an edge list is refused. */
  ghost predicate IsEdgeFault(ids: set<string>, edges: seq<Edge>, err: CompileError) {
    match err
    case UnknownSource(e) => e in edges && e.from !in ids
    case UnknownTarget(e, t) => e in edges && t in e.to && t != TERMINAL && t !in ids
    case SecondDefault(e) => e in edges && e.isDefault && !DefaultsUnique(edges)
    case _ => false
  }

  /** Why a document is refused. */
  ghost predicate IsFault(doc: Workflow, err: CompileError) {
    match err
    case DuplicateNode => !DistinctIds(doc.nodes)
    case UnknownEntry => doc.entry !in NodeIds(doc.nodes)
    case _ => IsEdgeFault(NodeIds(doc.nodes), doc.edges, err)
  }

  /** `{n.id: n for n in nodes}` */
  function IndexById(nodes: seq<Node>): map<string, Node> {
    if nodes == [] then map[]
    else IndexById(nodes[..|nodes| - 1])[nodes[|nodes| - 1].id := nodes[|nodes| - 1]]
  }

  /** The index is as large as the list exactly when no id repeats. */
  lemma {:induction false} IndexDetectsDuplicates(nodes: seq<Node>)
    ensures IndexById(nodes).Keys == NodeIds(nodes)
    ensures |IndexById(nodes)| <= |nodes|
    ensures |IndexById(nodes)| == |nodes| <==> DistinctIds(nodes)
    ensures DistinctIds(nodes) ==> Indexes(IndexById(nodes), nodes)
  {
    if nodes != [] {
      var init, n := nodes[..|nodes| - 1], nodes[|nodes| - 1];
      assert nodes == init + [n];
      IndexDetectsDuplicates(init);
      DistinctStep(init, n);
      IndexStep(IndexById(init), init, n);
      assert |IndexById(nodes).Keys| == |IndexById(nodes)|;
      assert |IndexById(init).Keys| == |IndexById(init)|;
    }
  }

  ghost predicate Indexes(byId: map<string, Node>, nodes: seq<Node>) {
    forall n | n in nodes :: n.id in byId && byId[n.id] == n
  }

  lemma IndexStep(byId: map<string, Node>, nodes: seq<Node>, n: Node)
    ensures Indexes(byId, nodes) && n.id !in NodeIds(nodes) ==>
              Indexes(byId[n.id := n], nodes + [n])
    ensures byId[n.id := n].Keys == byId.Keys + {n.id}
  {
  }

  lemma DistinctStep(nodes: seq<Node>, n: Node)
    ensures DistinctIds(nodes + [n]) <==> DistinctIds(nodes) && n.id !in NodeIds(nodes)
    ensures NodeIds(nodes + [n]) == NodeIds(nodes) + {n.id}
    ensures |NodeIds(nodes + [n])| == |NodeIds(nodes)| + if n.id in NodeIds(nodes) then 0 else 1
  {
    var more := nodes + [n];
    assert NodeIds(more) == NodeIds(nodes) + {n.id};
    if n.id in NodeIds(nodes) {
      assert NodeIds(more) == NodeIds(nodes);
    }
    if DistinctIds(more) {
      forall i, j | 0 <= i < j < |nodes|
        ensures nodes[i].id != nodes[j].id
      {
        assert more[i] == nodes[i] && more[j] == nodes[j];
      }
      forall m | m in nodes
        ensures m.id != n.id
      {
        var k :| 0 <= k < |nodes| && nodes[k] == m;
        assert more[k] == m && more[|nodes|] == n;
      }
    }
    if DistinctIds(nodes) && n.id !in NodeIds(nodes) {
      forall i, j | 0 <= i < j < |more|
        ensures more[i].id != more[j].id
      {
        assert nodes[i] in nodes;
      }
    }
  }

  /** The inbound sources one edge adds, or its first unknown target. */
  method AddInbound(ids: set<string>, inbound: map<string, set<string>>, e: Edge)
    returns (r: Result<map<string, set<string>>, CompileError>)
    requires forall t | t in inbound :: t != TERMINAL
    ensures r.Ok? ==>
              && (forall t | t in e.to :: t == TERMINAL || t in ids)
              && (forall t | t in r.value :: t != TERMINAL)
              && (forall t :: Sources(r.value, t) ==
                              Sources(inbound, t) + if t in e.to && t != TERMINAL then {e.from} else {})
    ensures r.Err? ==>
              && r.error.UnknownTarget? && r.error.edge == e
              && r.error.target in e.to && r.error.target != TERMINAL && r.error.target !in ids
  {
    var sources := inbound;
    for i := 0 to |e.to|
      invariant forall t | t in e.to[..i] :: t == TERMINAL || t in ids
      invariant forall t | t in sources :: t != TERMINAL
      invariant forall t :: Sources(sources, t) ==
                            Sources(inbound, t) + if t in e.to[..i] && t != TERMINAL then {e.from} else {}
    {
      var target := e.to[i];
      assert e.to[..i + 1] == e.to[..i] + [target];
      if target != TERMINAL && target !in ids {
        return Err(UnknownTarget(e, target));
      }
      if target != TERMINAL {
        sources := sources[target := Sources(sources, target) + {e.from}];
      }
    }
    assert e.to[..|e.to|] == e.to;
    r := Ok(sources);
  }

  function Sources(inbound: map<string, set<string>>, t: string): set<string> {
    if t in inbound then inbound[t] else {}
  }

  /** The edge loop of `compile_workflow`: one pass filling the three dicts. */
  method PartitionEdges(g0: CompiledGraph, edges: seq<Edge>) returns (r: Result<CompiledGraph, CompileError>)
    requires g0.conditional == map[] && g0.defaults == map[] && g0.inbound == map[]
    ensures r.Ok? <==> (forall e | e in edges :: EdgeKnown(g0.nodesById.Keys, e)) && DefaultsUnique(edges)
    ensures r.Ok? ==>
              && r.value == g0.(conditional := r.value.conditional, defaults := r.value.defaults,
                                inbound := r.value.inbound)
              && Partitioned(r.value, edges)
              && (forall id :: r.value.Conditional(id) == DeclaredFrom(edges, id))
    ensures r.Err? ==> IsEdgeFault(g0.nodesById.Keys, edges, r.error)
  {
    var ids := g0.nodesById.Keys;
    var g := g0;
    for i := 0 to |edges|
      invariant g == g0.(conditional := g.conditional, defaults := g.defaults, inbound := g.inbound)
      invariant forall e | e in edges[..i] :: EdgeKnown(ids, e)
      invariant DefaultsUnique(edges[..i])
      invariant Partitioned(g, edges[..i])
      invariant forall id :: g.Conditional(id) == DeclaredFrom(edges[..i], id)
    {
      var e := edges[i];
      assert edges[..i + 1] == edges[..i] + [e];
      if e.from !in ids {
        assert !EdgeKnown(ids, e);
        return Err(UnknownSource(e));
      }
      var sources := AddInbound(ids, g.inbound, e);
      if sources.Err? {
        assert !EdgeKnown(ids, e);
        return Err(sources.error);
      }
      if e.isDefault && e.from in g.defaults {
        SecondDefaultFaults(edges, i, g.defaults[e.from]);
        return Err(SecondDefault(e));
      }
      PartitionStep(g, edges[..i], e, sources.value);
      DeclaredStep(edges[..i], e);
      DefaultsStep(g, edges[..i], e);
      if e.isDefault {
        g := g.(inbound := sources.value, defaults := g.defaults[e.from := e]);
      } else {
        g := g.(inbound := sources.value, conditional := g.conditional[e.from := g.Conditional(e.from) + [e]]);
      }
    }
    assert edges[..|edges|] == edges;
    r := Ok(g);
  }

  /** `compile_workflow`, without the agent, toolkit and skill registries. */
  method Compile(doc: Workflow) returns (r: Result<CompiledGraph, CompileError>)
    ensures r.Ok? <==> Compilable(doc)
    ensures r.Ok? ==> Represents(r.value, doc)
    ensures r.Err? ==> IsFault(doc, r.error)
  {
    var byId := IndexById(doc.nodes);
    IndexDetectsDuplicates(doc.nodes);
    if |byId| != |doc.nodes| {
      return Err(DuplicateNode);
    }
    if doc.entry !in byId {
      return Err(UnknownEntry);
    }
    r := PartitionEdges(CompiledGraph(doc.entry, doc.nodes, byId, map[], map[], map[]), doc.edges);
    if r.Ok? {
      var g := r.value;
      r := Ok(g.(conditional := map id | id in g.conditional :: SortByPriority(g.conditional[id])));
    }
  }

  lemma SecondDefaultFaults(edges: seq<Edge>, i: nat, held: Edge)
    requires i < |edges| && edges[i].isDefault
    requires IsDefaultOf(edges[..i], edges[i].from, held)
    ensures !DefaultsUnique(edges)
  {
    var k :| 0 <= k < i && edges[k] == held;
  }

  lemma PartitionStep(g: CompiledGraph, edges: seq<Edge>, e: Edge, inbound: map<string, set<string>>)
    requires Partitioned(g, edges)
    requires e.isDefault ==> e.from !in g.defaults
    requires forall t | t in inbound :: t != TERMINAL
    requires forall t :: Sources(inbound, t) ==
                         Sources(g.inbound, t) + if t in e.to && t != TERMINAL then {e.from} else {}
    ensures e.isDefault ==>
              Partitioned(g.(inbound := inbound, defaults := g.defaults[e.from := e]), edges + [e])
    ensures !e.isDefault ==>
              forall c :: Partitioned(g.(inbound := inbound, conditional := c), edges + [e])
  {
    forall f, t
      ensures Lists(edges + [e], f, t) <==> Lists(edges, f, t) || (e.from == f && t in e.to)
    {
      if Lists(edges, f, t) {
        var held :| held in edges && held.from == f && t in held.to;
        assert held in edges + [e];
      }
      if e.from == f && t in e.to {
        assert e in edges + [e];
      }
    }
    assert forall f, t :: f in Sources(inbound, t) <==> t != TERMINAL && Lists(edges + [e], f, t);
    assert forall id | id in g.defaults :: IsDefaultOf(edges + [e], id, g.defaults[id]);
  }

  lemma DeclaredStep(edges: seq<Edge>, e: Edge)
    ensures forall id :: DeclaredFrom(edges + [e], id) ==
                         DeclaredFrom(edges, id) + if e.from == id && !e.isDefault then [e] else []
  {
    assert (edges + [e])[..|edges|] == edges;
  }

  lemma DefaultsStep(g: CompiledGraph, edges: seq<Edge>, e: Edge)
    requires Partitioned(g, edges) && DefaultsUnique(edges)
    requires e.isDefault ==> e.from !in g.defaults
    ensures DefaultsUnique(edges + [e])
  {
    forall i, j | 0 <= i < j < |edges| + 1
      ensures (edges + [e])[i].isDefault && (edges + [e])[j].isDefault ==>
                (edges + [e])[i].from != (edges + [e])[j].from
    {
      if j == |edges| {
        assert edges[i] in edges;
      }
    }
  }

  /** The first edge of a list that passes, as the routing loop scans it. */
  function FirstLive(edges: seq<Edge>, live: Edge -> bool): Option<Edge> {
    if edges == [] then None
    else
      var earlier := FirstLive(edges[..|edges| - 1], live);
      if earlier.Some? then earlier
      else if live(edges[|edges| - 1]) then Some(edges[|edges| - 1])
      else None
  }

  /** `e` is declared, passes, and beats every other passing edge on priority, then on position. */
  ghost predicate IsBest(edges: seq<Edge>, live: Edge -> bool, e: Edge) {
    exists i :: IsBestAt(edges, live, e, i)
  }

  ghost predicate IsBestAt(edges: seq<Edge>, live: Edge -> bool, e: Edge, i: int) {
    && 0 <= i < |edges| && edges[i] == e && live(e)
    && forall j | 0 <= j < |edges| && live(edges[j]) ::
         edges[j].priority < e.priority || (edges[j].priority == e.priority && i <= j)
  }

  /** A passing conditional edge of node `id`. */
  function IsDeclared(id: string, live: Edge -> bool): Edge -> bool {
    (e: Edge) => e.from == id && !e.isDefault && live(e)
  }

  /** The best of the edges declared out of a node is the best such edge of the whole declaration. */
  lemma {:induction false} DeclaredBest(edges: seq<Edge>, id: string, live: Edge -> bool, e: Edge, i: nat)
    returns (k: nat)
    requires IsBestAt(DeclaredFrom(edges, id), live, e, i)
    ensures IsBestAt(edges, IsDeclared(id, live), e, k)
  {
    var init, before := edges[..|edges| - 1], DeclaredFrom(edges[..|edges| - 1], id);
    if i < |before| {
      assert IsBestAt(before, live, e, i) by {
        assert forall j | 0 <= j < |before| :: before[j] == DeclaredFrom(edges, id)[j];
      }
      k := DeclaredBest(init, id, live, e, i);
      EarlierBest(edges, id, live, e, i, k);
    } else {
      k := |init|;
      LastBest(edges, id, live, e);
    }
  }

  lemma EarlierBest(edges: seq<Edge>, id: string, live: Edge -> bool, e: Edge, i: nat, k: nat)
    requires edges != [] && IsBestAt(DeclaredFrom(edges, id), live, e, i)
    requires i < |DeclaredFrom(edges[..|edges| - 1], id)|
    requires IsBestAt(edges[..|edges| - 1], IsDeclared(id, live), e, k)
    ensures IsBestAt(edges, IsDeclared(id, live), e, k)
  {
    var declared, last := DeclaredFrom(edges, id), edges[|edges| - 1];
    if IsDeclared(id, live)(last) {
      assert declared[|declared| - 1] == last;
    }
    assert forall j | 0 <= j < |edges| - 1 :: edges[j] == edges[..|edges| - 1][j];
  }

  lemma LastBest(edges: seq<Edge>, id: string, live: Edge -> bool, e: Edge)
    requires edges != []
    requires IsBestAt(DeclaredFrom(edges, id), live, e, |DeclaredFrom(edges[..|edges| - 1], id)|)
    ensures IsBestAt(edges, IsDeclared(id, live), e, |edges| - 1)
  {
    var declared, init := DeclaredFrom(edges, id), edges[..|edges| - 1];
    var before := DeclaredFrom(init, id);
    forall j | 0 <= j < |init| && IsDeclared(id, live)(edges[j])
      ensures edges[j].priority < e.priority
    {
      assert init[j] == edges[j] && init[j] in init;
      DeclaredAre(init, id, init[j]);
      var k :| 0 <= k < |before| && before[k] == init[j];
      assert declared[k] == before[k];
    }
  }

  ghost predicate Descending(edges: seq<Edge>) {
    edges == [] ||
    var init, last := edges[..|edges| - 1], edges[|edges| - 1];
    Descending(init) && forall e | e in init :: e.priority >= last.priority
  }

  /**
   * Routing refines the declaration: the first passing edge of the sorted list
   * is the best declared one, and there is none only if no declared edge passes.
   */
  lemma SortedFirstIsBest(edges: seq<Edge>, live: Edge -> bool)
    ensures FirstLive(SortByPriority(edges), live) == None <==> forall e | e in edges :: !live(e)
    ensures FirstLive(SortByPriority(edges), live).Some? ==>
              IsBest(edges, live, FirstLive(SortByPriority(edges), live).value)
  {
    SortedFirst(edges, live);
    BestSoFarIsBest(edges, live);
  }

  /** The best declared edge, found in one pass over the declaration. */
  function BestSoFar(edges: seq<Edge>, live: Edge -> bool): Option<Edge> {
    if edges == [] then None
    else
      var best, last := BestSoFar(edges[..|edges| - 1], live), edges[|edges| - 1];
      if live(last) && (best.None? || last.priority > best.value.priority) then Some(last) else best
  }

  lemma {:induction false} SortedFirst(edges: seq<Edge>, live: Edge -> bool)
    ensures FirstLive(SortByPriority(edges), live) == BestSoFar(edges, live)
  {
    if edges != [] {
      SortedFirst(edges[..|edges| - 1], live);
      SortDescends(edges[..|edges| - 1]);
      InsertFirst(SortByPriority(edges[..|edges| - 1]), edges[|edges| - 1], live);
    }
  }

  lemma {:induction false} BestSoFarIsBest(edges: seq<Edge>, live: Edge -> bool)
    ensures BestSoFar(edges, live) == None <==> forall e | e in edges :: !live(e)
    ensures BestSoFar(edges, live).Some? ==> IsBest(edges, live, BestSoFar(edges, live).value)
  {
    if edges != [] {
      var init, last := edges[..|edges| - 1], edges[|edges| - 1];
      BestSoFarIsBest(init, live);
      assert edges == init + [last];
      var best := BestSoFar(edges, live);
      if best.Some? {
        if best == BestSoFar(init, live) {
          var i :| IsBestAt(init, live, best.value, i);
          forall j | 0 <= j < |edges| && live(edges[j])
            ensures edges[j].priority < best.value.priority || (edges[j].priority == best.value.priority && i <= j)
          {
            assert j < |init| ==> edges[j] == init[j];
          }
          assert IsBestAt(edges, live, best.value, i);
        } else {
          forall j | 0 <= j < |edges| && live(edges[j])
            ensures edges[j].priority < best.value.priority || j == |edges| - 1
          {
            assert j < |init| ==> edges[j] == init[j] && init[j] in init;
          }
          assert IsBestAt(edges, live, best.value, |init|);
        }
      }
    }
  }

  lemma {:induction false} FirstLiveMeans(edges: seq<Edge>, live: Edge -> bool)
    ensures FirstLive(edges, live) == None <==> forall e | e in edges :: !live(e)
    ensures FirstLive(edges, live).Some? ==>
              FirstLive(edges, live).value in edges && live(FirstLive(edges, live).value)
  {
    if edges != [] {
      FirstLiveMeans(edges[..|edges| - 1], live);
      assert edges == edges[..|edges| - 1] + [edges[|edges| - 1]];
    }
  }

  lemma {:induction false} InsertFirst(sorted: seq<Edge>, e: Edge, live: Edge -> bool)
    requires Descending(sorted)
    ensures FirstLive(Insert(sorted, e), live) ==
            var first := FirstLive(sorted, live);
            if live(e) && (first.None? || e.priority > first.value.priority) then Some(e) else first
  {
    FirstLiveMeans(sorted, live);
    if sorted != [] {
      var init, last := sorted[..|sorted| - 1], sorted[|sorted| - 1];
      if last.priority >= e.priority {
        assert (sorted + [e])[..|sorted|] == sorted;
      } else {
        InsertFirst(init, e, live);
        FirstLiveMeans(init, live);
        assert (Insert(init, e) + [last])[..|Insert(init, e)|] == Insert(init, e);
      }
    }
  }

  /** Sorting permutes and orders the edges. */
  lemma {:induction false} SortDescends(edges: seq<Edge>)
    ensures Descending(SortByPriority(edges))
    ensures multiset(SortByPriority(edges)) == multiset(edges)
  {
    SortPermutes(edges);
    if edges != [] {
      SortDescends(edges[..|edges| - 1]);
      InsertDescends(SortByPriority(edges[..|edges| - 1]), edges[|edges| - 1]);
    }
  }

  lemma {:induction false} SortPermutes(edges: seq<Edge>)
    ensures multiset(SortByPriority(edges)) == multiset(edges)
  {
    if edges != [] {
      var init, last := edges[..|edges| - 1], edges[|edges| - 1];
      SortPermutes(init);
      InsertPermutes(SortByPriority(init), last);
      SplitLast(edges);
    }
  }

  lemma SplitLast(edges: seq<Edge>)
    requires edges != []
    ensures multiset(edges) == multiset(edges[..|edges| - 1]) + multiset{edges[|edges| - 1]}
  {
    assert edges == edges[..|edges| - 1] + [edges[|edges| - 1]];
  }

  lemma {:induction false} InsertPermutes(sorted: seq<Edge>, e: Edge)
    ensures multiset(Insert(sorted, e)) == multiset(sorted) + multiset{e}
  {
    if sorted != [] {
      assert sorted == sorted[..|sorted| - 1] + [sorted[|sorted| - 1]];
      InsertPermutes(sorted[..|sorted| - 1], e);
    }
  }

  lemma {:induction false} InsertDescends(sorted: seq<Edge>, e: Edge)
    requires Descending(sorted)
    ensures Descending(Insert(sorted, e))
    ensures forall x :: x in Insert(sorted, e) <==> x in sorted || x == e
  {
    if sorted != [] {
      var init, last := sorted[..|sorted| - 1], sorted[|sorted| - 1];
      assert sorted == init + [last];
      if last.priority >= e.priority {
        assert (sorted + [e])[..|sorted|] == sorted;
      } else {
        InsertDescends(init, e);
        var inserted := Insert(init, e);
        assert (inserted + [last])[..|inserted|] == inserted;
      }
    } else {
      assert [e][..0] == [];
    }
  }

  lemma SortKeepsMembers(edges: seq<Edge>, e: Edge)
    ensures e in SortByPriority(edges) <==> e in edges
  {
    SortDescends(edges);
    assert e in SortByPriority(edges) <==> e in multiset(SortByPriority(edges));
    assert e in edges <==> e in multiset(edges);
  }

  /** The entry is a node, and an edge's targets are nodes that know it as a source. */
  ghost predicate Closed(g: CompiledGraph) {
    && g.entry in g.nodesById
    && (forall f, t | g.Leads(f, t) ::
          f in g.nodesById && (t != TERMINAL ==> t in g.nodesById && f in g.InboundSources(t)))
    && (forall f, t | f in g.InboundSources(t) :: g.Leads(f, t))
  }

  lemma CompiledIsClosed(g: CompiledGraph, doc: Workflow)
    requires Compilable(doc) && Represents(g, doc)
    ensures Closed(g)
  {
    forall f, t
      ensures g.Leads(f, t) <==> Lists(doc.edges, f, t)
    {
      LeadsIsDeclared(g, doc, f, t);
    }
    forall f, t | g.Leads(f, t)
      ensures f in g.nodesById && (t != TERMINAL ==> t in g.nodesById && f in g.InboundSources(t))
    {
      var e :| e in doc.edges && e.from == f && t in e.to;
      assert EdgeKnown(NodeIds(doc.nodes), e);
    }
  }

  /** The partition loses no edge and invents none. */
  lemma LeadsIsDeclared(g: CompiledGraph, doc: Workflow, f: string, t: string)
    requires Compilable(doc) && Represents(g, doc)
    ensures g.Leads(f, t) <==> Lists(doc.edges, f, t)
  {
    var declared := DeclaredFrom(doc.edges, f);
    if e :| e in g.Conditional(f) && t in e.to {
      SortKeepsMembers(declared, e);
      DeclaredAre(doc.edges, f, e);
    } else if g.Default(f).Some? && t in g.Default(f).value.to {
      assert IsDefaultOf(doc.edges, f, g.Default(f).value);
    }
    if e :| e in doc.edges && e.from == f && t in e.to {
      if !e.isDefault {
        DeclaredAre(doc.edges, f, e);
        SortKeepsMembers(declared, e);
      }
    }
  }

  lemma {:induction false} DeclaredAre(edges: seq<Edge>, id: string, e: Edge)
    ensures e in DeclaredFrom(edges, id) <==> e in edges && e.from == id && !e.isDefault
  {
    if edges != [] {
      DeclaredAre(edges[..|edges| - 1], id, e);
      assert edges == edges[..|edges| - 1] + [edges[|edges| - 1]];
    }
  }
}
