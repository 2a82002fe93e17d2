/** From a judge's raw payload to position-aligned rulings (`_map_verdicts`, src/ravana/runtime/gateway.py). */
module Verdicts {
  import opened Outcomes
  import opened Json

  /** The list under "verdicts", or nothing when it is not a list. */
  function Entries(payload: seq<Member>): seq<Json> {
    match Get(payload, "verdicts")
    case Some(JArr(items)) => items
    case _ => []
  }

  /** The criterion an entry rules on: an exact int in range, never a bool or a float. */
  function RuledIndex(item: Json, n: nat): Option<nat> {
    if !item.JObj? then None
    else
      match Get(item.members, "index")
      case Some(JInt(i)) => if 0 <= i < n then Some(i) else None
      case _ => None
  }

  /** The entry's `met` is exactly True. */
  predicate SaysMet(item: Json) {
    item.JObj? && Get(item.members, "met") == Some(JBool(true))
  }

  /** Entry `k` rules on criterion `i`, and no other entry does. */
  ghost predicate SoleRuling(items: seq<Json>, n: nat, i: nat, k: int) {
    && 0 <= k < |items|
    && forall j | 0 <= j < |items| :: RuledIndex(items[j], n) == Some(i) <==> j == k
  }

  /** A criterion is met only by a single entry that says so. */
  ghost predicate Met(items: seq<Json>, n: nat, i: nat) {
    exists k :: SoleRuling(items, n, i, k) && SaysMet(items[k])
  }

  /** What the loop knows about criterion `i` after reading `items`. */
  ghost predicate Tallied(items: seq<Json>, n: nat, met: map<nat, bool>, duplicates: set<nat>, i: nat) {
    && (i in met <==> exists k | 0 <= k < |items| :: RuledIndex(items[k], n) == Some(i))
    && (i in duplicates ==> i in met && !exists k :: SoleRuling(items, n, i, k))
    && (i in met && i !in duplicates ==>
          exists k :: SoleRuling(items, n, i, k) && (met[i] <==> SaysMet(items[k])))
  }

  lemma TallyStep(items: seq<Json>, item: Json, n: nat, met: map<nat, bool>, duplicates: set<nat>, i: nat)
    requires Tallied(items, n, met, duplicates, i)
    ensures RuledIndex(item, n) != Some(i) ==> Tallied(items + [item], n, met, duplicates, i)
    ensures RuledIndex(item, n) == Some(i) && i in met ==>
              Tallied(items + [item], n, met, duplicates + {i}, i)
    ensures RuledIndex(item, n) == Some(i) && i !in met ==>
              Tallied(items + [item], n, met[i := SaysMet(item)], duplicates, i)
  {
    var more := items + [item];
    assert forall k | 0 <= k < |items| :: more[k] == items[k];
    assert more[|items|] == item;
    if RuledIndex(item, n) != Some(i) {
      forall k
        ensures SoleRuling(more, n, i, k) <==> SoleRuling(items, n, i, k)
      {
      }
    } else if i in met {
      var k :| 0 <= k < |items| && RuledIndex(items[k], n) == Some(i);
      forall j
        ensures !SoleRuling(more, n, i, j)
      {
        assert RuledIndex(more[k], n) == Some(i) && RuledIndex(more[|items|], n) == Some(i);
      }
    } else {
      assert SoleRuling(more, n, i, |items|);
    }
  }

  /** Position-aligned rulings, failing closed on anything irregular. */
  method MapVerdicts(payload: seq<Member>, n: nat) returns (rulings: seq<bool>)
    ensures |rulings| == n
    ensures forall i | 0 <= i < n :: rulings[i] <==> Met(Entries(payload), n, i)
  {
    var items := Entries(payload);
    var met: map<nat, bool> := map[];
    var duplicates: set<nat> := {};
    for k := 0 to |items|
      invariant forall i: nat :: Tallied(items[..k], n, met, duplicates, i)
    {
      ghost var read := items[..k] + [items[k]];
      assert items[..k + 1] == read;
      ghost var metBefore, duplicatesBefore := met, duplicates;
      var index := RuledIndex(items[k], n);
      if index.Some? {
        if index.value in met {
          duplicates := duplicates + {index.value};
        } else {
          met := met[index.value := SaysMet(items[k])];
        }
      }
      forall i: nat
        ensures Tallied(read, n, met, duplicates, i)
      {
        TallyStep(items[..k], items[k], n, metBefore, duplicatesBefore, i);
      }
    }
    assert items[..|items|] == items;
    rulings := seq(n, i requires 0 <= i < n => i in met && i !in duplicates && met[i]);
    forall i | 0 <= i < n
      ensures rulings[i] <==> Met(items, n, i)
    {
      TalliedIsMet(items, n, met, duplicates, i);
    }
  }

  lemma TalliedIsMet(items: seq<Json>, n: nat, met: map<nat, bool>, duplicates: set<nat>, i: nat)
    requires Tallied(items, n, met, duplicates, i)
    ensures i in met && i !in duplicates && met[i] <==> Met(items, n, i)
  {
    if k :| SoleRuling(items, n, i, k) {
      assert RuledIndex(items[k], n) == Some(i);
      forall j | SoleRuling(items, n, i, j)
        ensures j == k
      {
        assert RuledIndex(items[j], n) == Some(i);
      }
    }
  }

  // ---- how an entry is read ----

  /** The object's first member of that name has this value. */
  ghost predicate Maps(members: seq<Member>, name: string, v: Json) {
    exists k | 0 <= k < |members| ::
      members[k] == Member(name, v) && forall j | 0 <= j < k :: members[j].name != name
  }

  lemma {:induction false} GetMeans(members: seq<Member>, name: string, v: Json)
    ensures Get(members, name) == Some(v) <==> Maps(members, name, v)
  {
    if members != [] {
      var rest := members[1..];
      GetMeans(rest, name, v);
      if members[0].name == name {
        if Maps(members, name, v) {
          var k :| 0 <= k < |members| && members[k] == Member(name, v)
            && forall j | 0 <= j < k :: members[j].name != name;
          assert k == 0;
        }
      } else {
        if Maps(members, name, v) {
          var k :| 0 <= k < |members| && members[k] == Member(name, v)
            && forall j | 0 <= j < k :: members[j].name != name;
          assert rest[k - 1] == members[k] && forall j | 0 <= j < k - 1 :: rest[j] == members[j + 1];
        }
        if Maps(rest, name, v) {
          var k :| 0 <= k < |rest| && rest[k] == Member(name, v) && forall j | 0 <= j < k :: rest[j].name != name;
          assert members[k + 1] == rest[k] && forall j | 0 < j < k + 1 :: members[j] == rest[j - 1];
        }
      }
    }
  }

  /** The entries are the list under "verdicts", and there are none if that is missing or no list. */
  lemma EntriesAreListed(payload: seq<Member>, items: seq<Json>)
    ensures Maps(payload, "verdicts", JArr(items)) ==> Entries(payload) == items
    ensures Entries(payload) == [] || Maps(payload, "verdicts", JArr(Entries(payload)))
  {
    GetMeans(payload, "verdicts", JArr(items));
    GetMeans(payload, "verdicts", JArr(Entries(payload)));
  }

  /**
   * An entry rules on criterion `i` exactly if it is an object whose index is
   * the int `i` - no bool, float or text - and there is such a criterion; and
   * it says met exactly if its `met` is True.
   */
  lemma EntryRulesExactly(item: Json, n: nat, i: nat)
    ensures RuledIndex(item, n) == Some(i) <==> i < n && item.JObj? && Maps(item.members, "index", JInt(i))
    ensures SaysMet(item) <==> item.JObj? && Maps(item.members, "met", JBool(true))
  {
    if item.JObj? {
      GetMeans(item.members, "index", JInt(i));
      GetMeans(item.members, "met", JBool(true));
    }
  }
}
