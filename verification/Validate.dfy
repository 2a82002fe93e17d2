/**
 * The advisory checks of `workflow validate` (src/ravana/compiler/validate.py)
 * that say something about runs: reachability and the routing safety net.
 */
module Validate {
  import opened Graph

  /** A walk from the entry along edges, never on to the terminal. */
  ghost predicate IsPath(g: CompiledGraph, p: seq<string>) {
    p != [] &&
    if |p| == 1 then p[0] == g.entry
    else
      && IsPath(g, p[..|p| - 1])
      && g.Leads(p[|p| - 2], p[|p| - 1]) && p[|p| - 1] != TERMINAL
  }

  ghost predicate IsReachable(g: CompiledGraph, id: string) {
    exists p :: IsPath(g, p) && p[|p| - 1] == id
  }

  lemma EntryIsReachable(g: CompiledGraph)
    ensures IsReachable(g, g.entry)
  {
    assert IsPath(g, [g.entry]) && [g.entry][|[g.entry]| - 1] == g.entry;
  }

  lemma StepIsReachable(g: CompiledGraph, f: string, t: string)
    requires IsReachable(g, f) && g.Leads(f, t) && t != TERMINAL
    ensures IsReachable(g, t)
  {
    var p :| IsPath(g, p) && p[|p| - 1] == f;
    assert (p + [t])[..|p|] == p;
    assert IsPath(g, p + [t]) && (p + [t])[|p + [t]| - 1] == t;
  }

  /** Reachable ids stay inside a set that holds the entry and is closed under edges. */
  lemma {:induction false} ClosedSetHoldsPaths(g: CompiledGraph, closed: set<string>, p: seq<string>)
    requires g.entry in closed
    requires forall f, t | f in closed && g.Leads(f, t) && t != TERMINAL :: t in closed
    requires IsPath(g, p)
    ensures p[|p| - 1] in closed
  {
    if |p| > 1 {
      ClosedSetHoldsPaths(g, closed, p[..|p| - 1]);
    }
  }

  function WithoutTerminal(targets: seq<string>): seq<string> {
    if targets == [] then []
    else if targets[0] == TERMINAL then WithoutTerminal(targets[1..])
    else [targets[0]] + WithoutTerminal(targets[1..])
  }

  lemma {:induction false} WithoutTerminalKeeps(targets: seq<string>, t: string)
    ensures t in WithoutTerminal(targets) <==> t in targets && t != TERMINAL
  {
    if targets != [] {
      WithoutTerminalKeeps(targets[1..], t);
      assert targets == [targets[0]] + targets[1..];
    }
  }

  /** The two `stack.extend` statements of the search. */
  method PushSuccessors(g: CompiledGraph, id: string, stack: seq<string>) returns (pushed: seq<string>)
    ensures forall t :: t in pushed <==> t in stack || (t != TERMINAL && g.Leads(id, t))
  {
    pushed := stack;
    var conditional, defaults := g.Conditional(id), g.Default(id);
    for i := 0 to |conditional|
      invariant forall t :: t in pushed <==> t in stack || (t != TERMINAL && AnyLists(conditional[..i], t))
    {
      AnyListsStep(conditional[..i], conditional[i]);
      assert conditional[..i + 1] == conditional[..i] + [conditional[i]];
      forall t {
        WithoutTerminalKeeps(conditional[i].to, t);
      }
      pushed := pushed + WithoutTerminal(conditional[i].to);
    }
    assert conditional[..|conditional|] == conditional;
    if defaults.Some? {
      forall t {
        WithoutTerminalKeeps(defaults.value.to, t);
      }
      pushed := pushed + WithoutTerminal(defaults.value.to);
    }
  }

  /** Only reachable nodes are seen or stacked, and the seen ones are closed up to the stack. */
  ghost predicate Searching(g: CompiledGraph, seen: set<string>, stack: seq<string>) {
    && TERMINAL !in seen
    && (forall id | id in seen || id in stack :: id in g.nodesById && IsReachable(g, id))
    && (g.entry in seen || g.entry in stack || g.entry == TERMINAL)
    && (g.entry == TERMINAL ==> seen == {} && forall id | id in stack :: id == TERMINAL)
    && (forall f, t | f in seen && g.Leads(f, t) && t != TERMINAL :: t in seen || t in stack)
  }

  lemma SkipKeeps(g: CompiledGraph, seen: set<string>, stack: seq<string>, id: string)
    requires Searching(g, seen, stack + [id]) && (id in seen || id == TERMINAL)
    ensures Searching(g, seen, stack)
  {
  }

  lemma VisitKeeps(g: CompiledGraph, seen: set<string>, stack: seq<string>, id: string,
                   pushed: seq<string>)
    requires Closed(g)
    requires Searching(g, seen, stack + [id]) && id !in seen && id != TERMINAL
    requires forall t :: t in pushed <==> t in stack || (t != TERMINAL && g.Leads(id, t))
    ensures Searching(g, seen + {id}, pushed)
  {
    assert id in stack + [id];
    forall t | t in pushed
      ensures IsReachable(g, t) && t in g.nodesById
    {
      if t in stack {
        assert t in stack + [id];
      } else {
        StepIsReachable(g, id, t);
        assert g.Leads(id, t);
      }
    }
  }

  lemma DoneIsExact(g: CompiledGraph, seen: set<string>, id: string)
    requires Searching(g, seen, [])
    ensures id in seen <==> g.entry != TERMINAL && IsReachable(g, id)
  {
    if g.entry != TERMINAL && IsReachable(g, id) {
      var p :| IsPath(g, p) && p[|p| - 1] == id;
      ClosedSetHoldsPaths(g, seen, p);
    }
  }

  /** One turn of the search loop: pop, skip or visit. */
  method PopAndVisit(g: CompiledGraph, seen: set<string>, stack: seq<string>)
    returns (seen': set<string>, stack': seq<string>)
    requires Closed(g) && Searching(g, seen, stack) && stack != []
    ensures Searching(g, seen', stack')
    ensures (seen' == seen && |stack'| < |stack|) || |g.nodesById.Keys - seen'| < |g.nodesById.Keys - seen|
  {
    var id := stack[|stack| - 1];
    stack' := stack[..|stack| - 1];
    assert stack == stack' + [id];
    seen' := seen;
    if id in seen || id == TERMINAL {
      SkipKeeps(g, seen, stack', id);
    } else {
      assert id in stack;
      assert g.nodesById.Keys - (seen + {id}) == g.nodesById.Keys - seen - {id};
      var pushed := PushSuccessors(g, id, stack');
      VisitKeeps(g, seen, stack', id, pushed);
      seen' := seen + {id};
      stack' := pushed;
    }
  }

  /**
   * The depth-first search of `_reachable`. It is exact, save that an entry
   * named like the terminal sentinel is skipped with everything behind it.
   */
  method Reachable(g: CompiledGraph) returns (seen: set<string>)
    requires Closed(g)
    ensures forall id :: id in seen <==> g.entry != TERMINAL && IsReachable(g, id)
  {
    seen := {};
    var stack := [g.entry];
    StartsSearching(g);
    while stack != []
      invariant Searching(g, seen, stack)
      decreases |g.nodesById.Keys - seen|, |stack|
    {
      seen, stack := PopAndVisit(g, seen, stack);
    }
    forall id
      ensures id in seen <==> g.entry != TERMINAL && IsReachable(g, id)
    {
      DoneIsExact(g, seen, id);
    }
  }

  lemma StartsSearching(g: CompiledGraph)
    requires Closed(g)
    ensures Searching(g, {}, [g.entry])
  {
    EntryIsReachable(g);
  }

  ghost predicate AnyLists(edges: seq<Edge>, t: string) {
    exists e | e in edges :: t in e.to
  }

  lemma AnyListsStep(edges: seq<Edge>, e: Edge)
    ensures forall t :: AnyLists(edges + [e], t) <==> AnyLists(edges, t) || t in e.to
  {
    assert e in edges + [e];
    forall t | AnyLists(edges, t)
      ensures AnyLists(edges + [e], t)
    {
      var held :| held in edges && t in held.to;
      assert held in edges + [e];
    }
  }

  /** Edges but no catch-all, no unconditional edge and no enabled human request. */
  predicate LacksSafetyNet(g: CompiledGraph, node: Node) {
    && g.Conditional(node.id) != [] && g.Default(node.id).None?
    && (forall e | e in g.Conditional(node.id) :: e.condition.Some?)
    && !(node.agentBacked && node.hitl.Some? && node.hitl.value.enabled)
  }

  /** `_missing_safety_net`: the warned node ids, in node order. */
  method MissingSafetyNet(g: CompiledGraph) returns (warned: seq<string>)
    ensures forall id :: id in warned <==> exists n | n in g.nodes :: n.id == id && LacksSafetyNet(g, n)
  {
    warned := [];
    for i := 0 to |g.nodes|
      invariant forall id :: id in warned <==>
                             exists k | 0 <= k < i :: g.nodes[k].id == id && LacksSafetyNet(g, g.nodes[k])
    {
      var node := g.nodes[i];
      var conditional, defaults := g.Conditional(node.id), g.Default(node.id);
      if conditional == [] && defaults.None? {
        continue;
      }
      if defaults.Some? {
        continue;
      }
      if exists e | e in conditional :: e.condition.None? {
        continue;
      }
      if node.agentBacked && node.hitl.Some? && node.hitl.value.enabled {
        continue;
      }
      warned := warned + [node.id];
    }
    forall id
      ensures id in warned <==> exists n | n in g.nodes :: n.id == id && LacksSafetyNet(g, n)
    {
      if n :| n in g.nodes && n.id == id && LacksSafetyNet(g, n) {
        var k :| 0 <= k < |g.nodes| && g.nodes[k] == n;
        assert g.nodes[k].id == id && LacksSafetyNet(g, g.nodes[k]);
      }
    }
  }
}
