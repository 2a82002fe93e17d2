/**
 * The merge policies under which a node's delta reaches shared state
 * (src/ravana/engine/state_merge.py).
 */
module StateMerge {
  import opened Outcomes
  import opened Json

  datatype Policy = Overwrite | MergeObject | AppendList

  type Shared = map<string, Json>

  /** A dict of new values, in insertion order. */
  type Delta = seq<Member>

  datatype MergeError = NeedsObjects(key: string) | NeedsList(key: string)

  /** Python truth of a JSON value; `x or {}` replaces the falsy ones. */
  predicate Falsy(v: Json) {
    match v
    case JNull => true
    case JBool(b) => !b
    case JInt(i) => i == 0
    case JFloat(f) => f == 0.0
    case JStr(s) => s == ""
    case JArr(items) => items == []
    case JObj(members) => members == []
  }

  /** `{**a, name: value}`: an existing name keeps its position. */
  function Put(a: seq<Member>, m: Member): seq<Member> {
    if a == [] then [m]
    else if a[0].name == m.name then [m] + a[1..]
    else [a[0]] + Put(a[1..], m)
  }

  /** `{**a, **b}` */
  function Union(a: seq<Member>, b: seq<Member>): seq<Member> {
    if b == [] then a else Put(Union(a, b[..|b| - 1]), b[|b| - 1])
  }

  function PolicyOf(fields: map<string, Policy>, key: string): Policy {
    if key in fields then fields[key] else Overwrite
  }

  /** The value one key takes, given what it held (None: absent). */
  function Combine(policy: Policy, held: Option<Json>, m: Member): Result<Json, MergeError> {
    if policy == Overwrite || held == None then Ok(m.value)
    else if policy == MergeObject then
      var existing := if Falsy(held.value) then JObj([]) else held.value;
      if existing.JObj? && m.value.JObj? then Ok(JObj(Union(existing.members, m.value.members)))
      else Err(NeedsObjects(m.name))
    else
      var existing := if Falsy(held.value) then JArr([]) else held.value;
      if existing.JArr? then
        Ok(JArr(existing.items + if m.value.JArr? then m.value.items else [m.value]))
      else Err(NeedsList(m.name))
  }

  function Held(s: Shared, key: string): Option<Json> {
    if key in s then Some(s[key]) else None
  }

  function MergeMember(fields: map<string, Policy>, s: Shared, m: Member): Result<Shared, MergeError> {
    match Combine(PolicyOf(fields, m.name), Held(s, m.name), m)
    case Ok(v) => Ok(s[m.name := v])
    case Err(e) => Err(e)
  }

  /** Members one after the other, up to the first that cannot be combined. */
  function Merge(fields: map<string, Policy>, s: Shared, delta: Delta): Result<Shared, MergeError> {
    if delta == [] then Ok(s)
    else
      match Merge(fields, s, delta[..|delta| - 1])
      case Ok(merged) => MergeMember(fields, merged, delta[|delta| - 1])
      case Err(e) => Err(e)
  }

  /** An error of a prefix is the error of the whole. */
  lemma {:induction false} MergeStopsAtError(fields: map<string, Policy>, s: Shared, delta: Delta, n: nat)
    requires n <= |delta| && Merge(fields, s, delta[..n]).Err?
    ensures Merge(fields, s, delta) == Merge(fields, s, delta[..n])
  {
    if n == |delta| {
      assert delta[..n] == delta;
    } else {
      assert delta[..|delta| - 1][..n] == delta[..n];
      MergeStopsAtError(fields, s, delta[..|delta| - 1], n);
    }
  }

  /** The loop of `merge_delta`, over a copy. */
  method MergeDelta(fields: map<string, Policy>, s: Shared, delta: Delta)
    returns (r: Result<Shared, MergeError>)
    ensures r == Merge(fields, s, delta)
  {
    var merged := s;
    for i := 0 to |delta|
      invariant Merge(fields, s, delta[..i]) == Ok(merged)
    {
      var m := delta[i];
      var policy := if m.name in fields then fields[m.name] else Overwrite;
      assert delta[..i + 1][..i] == delta[..i];
      if policy == Overwrite || m.name !in merged {
        merged := merged[m.name := m.value];
      } else if policy == MergeObject {
        var existing := if Falsy(merged[m.name]) then JObj([]) else merged[m.name];
        if !existing.JObj? || !m.value.JObj? {
          MergeStopsAtError(fields, s, delta, i + 1);
          return Err(NeedsObjects(m.name));
        }
        merged := merged[m.name := JObj(Union(existing.members, m.value.members))];
      } else {
        var existing := if Falsy(merged[m.name]) then JArr([]) else merged[m.name];
        if !existing.JArr? {
          MergeStopsAtError(fields, s, delta, i + 1);
          return Err(NeedsList(m.name));
        }
        merged := merged[m.name := JArr(existing.items + if m.value.JArr? then m.value.items else [m.value])];
      }
    }
    assert delta[..|delta|] == delta;
    r := Ok(merged);
  }

  /** The names of a Python dict are distinct. */
  predicate DistinctNames(delta: Delta) {
    forall i, j | 0 <= i < j < |delta| :: delta[i].name != delta[j].name
  }

  /**
   * What a merge means, key by key, with no order in it: it succeeds exactly
   * when every member combines with the value its key held before, each of
   * those keys takes that combination, and every other key is untouched.
   */
  lemma {:induction false} MergeIsPointwise(fields: map<string, Policy>, s: Shared, delta: Delta)
    requires DistinctNames(delta)
    ensures Merge(fields, s, delta).Ok? <==>
            forall i | 0 <= i < |delta| ::
              Combine(PolicyOf(fields, delta[i].name), Held(s, delta[i].name), delta[i]).Ok?
    ensures Merge(fields, s, delta).Ok? ==>
              var merged := Merge(fields, s, delta).value;
              && (forall i | 0 <= i < |delta| ::
                    && delta[i].name in merged
                    && Combine(PolicyOf(fields, delta[i].name), Held(s, delta[i].name), delta[i])
                       == Ok(merged[delta[i].name]))
              && (forall key | forall i | 0 <= i < |delta| :: delta[i].name != key ::
                    Held(merged, key) == Held(s, key))
  {
    if delta != [] {
      var init, last := delta[..|delta| - 1], delta[|delta| - 1];
      MergeIsPointwise(fields, s, init);
      assert forall i | 0 <= i < |init| :: delta[i] == init[i];
      if Merge(fields, s, init).Ok? {
        assert Held(Merge(fields, s, init).value, last.name) == Held(s, last.name);
      }
    }
  }

  // ---- what a merge does to a value ----

  /** What `x or {}` and `x or []` replace. */
  predicate IsEmpty(v: Json) {
    v in {JNull, JBool(false), JInt(0), JFloat(0.0), JStr(""), JArr([]), JObj([])}
  }

  function ItemsOf(v: Json): seq<Json> {
    if v.JArr? then v.items else []
  }

  function MembersOf(v: Json): seq<Member> {
    if v.JObj? then v.members else []
  }

  /** No policy but overwrite applies to the member: there is none, or nothing to combine with. */
  predicate Replaces(fields: map<string, Policy>, s: Shared, name: string) {
    name !in s || name !in fields || fields[name] == Overwrite
  }

  /** The member's policy has nothing against what its key holds and what it brings. */
  predicate Accepts(fields: map<string, Policy>, s: Shared, m: Member) {
    || Replaces(fields, s, m.name)
    || (fields[m.name] == AppendList && (s[m.name].JArr? || IsEmpty(s[m.name])))
    || (fields[m.name] == MergeObject && (s[m.name].JObj? || IsEmpty(s[m.name])) && m.value.JObj?)
  }

  /** A held list stays in front, followed by the delta's items or its one value. */
  predicate IsAppended(held: Json, value: Json, v: Json) {
    && v.JArr? && ItemsOf(held) <= v.items
    && v.items[|ItemsOf(held)|..] == if value.JArr? then value.items else [value]
  }

  predicate IsLastOf(members: seq<Member>, j: int) {
    0 <= j < |members| && forall k | j < k < |members| :: members[k].name != members[j].name
  }

  /**
   * Every name of the new object has its last value there, every other name
   * what it held; the names held keep their positions, and no name is doubled.
   */
  ghost predicate IsUnited(held: seq<Member>, more: seq<Member>, united: seq<Member>) {
    && (forall j | IsLastOf(more, j) :: Get(united, more[j].name) == Some(more[j].value))
    && (forall name | forall j | 0 <= j < |more| :: more[j].name != name :: Get(united, name) == Get(held, name))
    && |held| <= |united| && (forall i | 0 <= i < |held| :: united[i].name == held[i].name)
    && (DistinctNames(held) ==> DistinctNames(united))
  }

  /** The value a key takes from a delta's member under its policy. */
  ghost predicate Takes(fields: map<string, Policy>, s: Shared, m: Member, v: Json) {
    if Replaces(fields, s, m.name) then v == m.value
    else if fields[m.name] == AppendList then IsAppended(s[m.name], m.value, v)
    else v.JObj? && m.value.JObj? && IsUnited(MembersOf(s[m.name]), m.value.members, v.members)
  }

  lemma {:induction false} PutMeans(a: seq<Member>, m: Member)
    ensures forall name :: Get(Put(a, m), name) == if name == m.name then Some(m.value) else Get(a, name)
    ensures |a| <= |Put(a, m)| <= |a| + 1
    ensures forall i | 0 <= i < |a| :: Put(a, m)[i].name == a[i].name
    ensures |Put(a, m)| == |a| + 1 ==> Put(a, m)[|a|] == m && forall i | 0 <= i < |a| :: a[i].name != m.name
  {
    if a != [] && a[0].name != m.name {
      PutMeans(a[1..], m);
    }
  }

  lemma {:induction false} UnionGets(a: seq<Member>, b: seq<Member>, name: string)
    ensures (forall j | 0 <= j < |b| :: b[j].name != name) ==> Get(Union(a, b), name) == Get(a, name)
    ensures forall j | IsLastOf(b, j) && b[j].name == name :: Get(Union(a, b), name) == Some(b[j].value)
  {
    if b != [] {
      var init := b[..|b| - 1];
      UnionGets(a, init, name);
      PutMeans(Union(a, init), b[|b| - 1]);
      forall j | IsLastOf(b, j) && b[j].name == name
        ensures Get(Union(a, b), name) == Some(b[j].value)
      {
        if j < |init| {
          assert IsLastOf(init, j) && b[|b| - 1].name != name;
        }
      }
    }
  }

  lemma {:induction false} UnionKeepsPlaces(a: seq<Member>, b: seq<Member>)
    ensures |a| <= |Union(a, b)|
    ensures forall i | 0 <= i < |a| :: Union(a, b)[i].name == a[i].name
    ensures DistinctNames(a) ==> DistinctNames(Union(a, b))
  {
    if b != [] {
      UnionKeepsPlaces(a, b[..|b| - 1]);
      PutMeans(Union(a, b[..|b| - 1]), b[|b| - 1]);
    }
  }

  lemma UnionMeans(a: seq<Member>, b: seq<Member>)
    ensures IsUnited(a, b, Union(a, b))
  {
    UnionKeepsPlaces(a, b);
    forall name
      ensures (forall j | 0 <= j < |b| :: b[j].name != name) ==> Get(Union(a, b), name) == Get(a, name)
      ensures forall j | IsLastOf(b, j) && b[j].name == name :: Get(Union(a, b), name) == Some(b[j].value)
    {
      UnionGets(a, b, name);
    }
  }

  /** One member: refused exactly if its policy does not accept it, and otherwise its key takes its value. */
  lemma CombineMeans(fields: map<string, Policy>, s: Shared, m: Member)
    ensures var combined := Combine(PolicyOf(fields, m.name), Held(s, m.name), m);
            && (combined.Ok? <==> Accepts(fields, s, m))
            && (combined.Ok? ==> Takes(fields, s, m, combined.value))
            && (combined.Err? ==> m.name in fields && combined.error == RefusalOf(fields[m.name], m.name))
  {
    if !Replaces(fields, s, m.name) {
      UnionMeans(MembersOf(s[m.name]), MembersOf(m.value));
    }
  }

  function RefusalOf(policy: Policy, key: string): MergeError {
    if policy == AppendList then NeedsList(key) else NeedsObjects(key)
  }

  /**
   * What a merge does, in terms of the values: it succeeds exactly if every
   * member is accepted; each key of the delta then takes its value under its
   * policy and every other key keeps what it held.
   */
  lemma MergeMeans(fields: map<string, Policy>, s: Shared, delta: Delta)
    requires DistinctNames(delta)
    ensures Merge(fields, s, delta).Ok? <==> forall m | m in delta :: Accepts(fields, s, m)
    ensures Merge(fields, s, delta).Ok? ==>
              var merged := Merge(fields, s, delta).value;
              && (forall m | m in delta :: m.name in merged && Takes(fields, s, m, merged[m.name]))
              && (forall key | forall m | m in delta :: m.name != key :: Held(merged, key) == Held(s, key))
  {
    MergeIsPointwise(fields, s, delta);
    forall i | 0 <= i < |delta|
      ensures var combined := Combine(PolicyOf(fields, delta[i].name), Held(s, delta[i].name), delta[i]);
              && (combined.Ok? <==> Accepts(fields, s, delta[i]))
              && (combined.Ok? ==> Takes(fields, s, delta[i], combined.value))
    {
      CombineMeans(fields, s, delta[i]);
    }
    if Merge(fields, s, delta).Ok? {
      var merged := Merge(fields, s, delta).value;
      forall key | forall m | m in delta :: m.name != key
        ensures Held(merged, key) == Held(s, key)
      {
        assert forall i | 0 <= i < |delta| :: delta[i] in delta;
      }
    } else {
      var i :| 0 <= i < |delta| && !Accepts(fields, s, delta[i]);
      assert delta[i] in delta;
    }
  }

  /** A merge that raises complains of the first member its policy refuses. */
  lemma {:induction false} MergeRefusesFirst(fields: map<string, Policy>, s: Shared, delta: Delta) returns (i: nat)
    requires DistinctNames(delta) && Merge(fields, s, delta).Err?
    ensures i < |delta| && !Accepts(fields, s, delta[i]) && forall j | 0 <= j < i :: Accepts(fields, s, delta[j])
    ensures Merge(fields, s, delta) == Err(RefusalOf(fields[delta[i].name], delta[i].name))
  {
    var init, last := delta[..|delta| - 1], delta[|delta| - 1];
    if Merge(fields, s, init).Err? {
      i := MergeRefusesFirst(fields, s, init);
      assert forall j | 0 <= j <= i :: delta[j] == init[j];
    } else {
      i := |init|;
      MergeMeans(fields, s, init);
      MergeIsPointwise(fields, s, init);
      assert Held(Merge(fields, s, init).value, last.name) == Held(s, last.name);
      CombineMeans(fields, s, last);
      assert forall j | 0 <= j < i :: delta[j] == init[j] && init[j] in init;
    }
  }

  /** One delta after the other; None once either raises. */
  function MergeBoth(fields: map<string, Policy>, s: Shared, a: Delta, b: Delta): Option<Shared> {
    match Merge(fields, s, a)
    case Err(_) => None
    case Ok(after) =>
      match Merge(fields, after, b)
      case Err(_) => None
      case Ok(merged) => Some(merged)
  }

  /**
   * Two branches of a broadcast that write different keys commute: whichever
   * commits first, both succeed or not alike and the state is the same.
   */
  lemma DisjointDeltasCommute(fields: map<string, Policy>, s: Shared, a: Delta, b: Delta)
    requires DistinctNames(a) && DistinctNames(b)
    requires forall i, j | 0 <= i < |a| && 0 <= j < |b| :: a[i].name != b[j].name
    ensures MergeBoth(fields, s, a, b) == MergeBoth(fields, s, b, a)
    ensures MergeBoth(fields, s, a, b).Some? <==> Merge(fields, s, a).Ok? && Merge(fields, s, b).Ok?
  {
    if Merge(fields, s, a).Ok? {
      DisjointSucceed(fields, s, a, b);
    }
    if Merge(fields, s, b).Ok? {
      DisjointSucceed(fields, s, b, a);
    }
    if Merge(fields, s, a).Ok? && Merge(fields, s, b).Ok? {
      DisjointAgree(fields, s, a, b);
    }
  }

  /** A delta on other keys does not decide whether this one raises. */
  lemma DisjointSucceed(fields: map<string, Policy>, s: Shared, a: Delta, b: Delta)
    requires DistinctNames(a) && DistinctNames(b) && Merge(fields, s, a).Ok?
    requires forall i, j | 0 <= i < |a| && 0 <= j < |b| :: a[i].name != b[j].name
    ensures Merge(fields, Merge(fields, s, a).value, b).Ok? <==> Merge(fields, s, b).Ok?
  {
    var sa := Merge(fields, s, a).value;
    MergeIsPointwise(fields, s, a);
    MergeIsPointwise(fields, s, b);
    MergeIsPointwise(fields, sa, b);
    forall j | 0 <= j < |b|
      ensures Held(sa, b[j].name) == Held(s, b[j].name)
    {
    }
  }

  lemma DisjointAgree(fields: map<string, Policy>, s: Shared, a: Delta, b: Delta)
    requires DistinctNames(a) && DistinctNames(b)
    requires forall i, j | 0 <= i < |a| && 0 <= j < |b| :: a[i].name != b[j].name
    requires Merge(fields, s, a).Ok? && Merge(fields, s, b).Ok?
    ensures Merge(fields, Merge(fields, s, a).value, b).Ok?
    ensures Merge(fields, Merge(fields, s, a).value, b) == Merge(fields, Merge(fields, s, b).value, a)
  {
    MergeIsPointwise(fields, s, a);
    MergeIsPointwise(fields, s, b);
    var sa, sb := Merge(fields, s, a).value, Merge(fields, s, b).value;
    MergeIsPointwise(fields, sa, b);
    MergeIsPointwise(fields, sb, a);
    forall i | 0 <= i < |b|
      ensures Held(sa, b[i].name) == Held(s, b[i].name)
    {
    }
    forall i | 0 <= i < |a|
      ensures Held(sb, a[i].name) == Held(s, a[i].name)
    {
    }
    var sab, sba := Merge(fields, sa, b).value, Merge(fields, sb, a).value;
    forall key
      ensures Held(sab, key) == Held(sba, key)
    {
      if i :| 0 <= i < |a| && a[i].name == key {
        assert Held(sab, key) == Held(sa, key);
      } else if j :| 0 <= j < |b| && b[j].name == key {
        assert Held(sba, key) == Held(sb, key);
      } else {
        assert Held(sab, key) == Held(sa, key) == Held(s, key);
        assert Held(sba, key) == Held(sb, key) == Held(s, key);
      }
    }
    SameHeld(sab, sba);
  }

  lemma SameHeld(a: Shared, b: Shared)
    requires forall key :: Held(a, key) == Held(b, key)
    ensures a == b
  {
    forall key
      ensures key in a <==> key in b
      ensures key in a && key in b ==> a[key] == b[key]
    {
      assert Held(a, key) == Held(b, key);
    }
  }
}
