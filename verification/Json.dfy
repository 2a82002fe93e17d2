/**
 * JSON values as Python sees them after json.loads, and the hashable key that
 * the uniqueItems validator builds from them. Integers and finite floats are
 * different Python values but equal JSON numbers; an object is its list of
 * members in insertion order.
 */
module Json {
  import opened Outcomes

  datatype Json =
    | JNull
    | JBool(flag: bool)
    | JInt(whole: int)
    | JFloat(fraction: real)
    | JStr(text: string)
    | JArr(items: seq<Json>)
    | JObj(members: seq<Member>)

  datatype Member = Member(name: string, value: Json)

  /** `dict.get` */
  function Get(members: seq<Member>, name: string): Option<Json> {
    if members == [] then None
    else if members[0].name == name then Some(members[0].value)
    else Get(members[1..], name)
  }

  /** The nested tuples and frozensets that `_freeze_json` returns. */
  datatype Key =
    | KNull
    | KBoolean(flag: bool)
    | KNumber(number: real)
    | KString(text: string)
    | KArray(items: seq<Key>)
    | KObject(members: set<(Key, Key)>)

  function Freeze(v: Json): Key {
    match v
    case JNull => KNull
    case JBool(b) => KBoolean(b)
    case JInt(i) => KNumber(i as real)
    case JFloat(f) => KNumber(f)
    case JStr(s) => KString(s)
    case JArr(items) => KArray(FreezeItems(items))
    case JObj(members) => KObject(FreezeMembers(members))
  }

  function FreezeItems(items: seq<Json>): (keys: seq<Key>)
    ensures |keys| == |items|
    ensures forall i | 0 <= i < |items| :: keys[i] == Freeze(items[i])
  {
    if items == [] then []
    else FreezeItems(items[..|items| - 1]) + [Freeze(items[|items| - 1])]
  }

  function FreezeMember(m: Member): (Key, Key) {
    (KString(m.name), Freeze(m.value))
  }

  function FreezeMembers(members: seq<Member>): set<(Key, Key)> {
    if members == [] then {}
    else FreezeMembers(members[..|members| - 1]) + {FreezeMember(members[|members| - 1])}
  }

  ghost predicate IsNumber(v: Json) {
    v.JInt? || v.JFloat?
  }

  ghost function Magnitude(v: Json): real
    requires IsNumber(v)
  {
    match v
    case JInt(i) => i as real
    case JFloat(f) => f
  }

  /** Equality of instances, section 4.2.2 of JSON Schema Core 2020-12. */
  ghost predicate JsonEqual(a: Json, b: Json)
    decreases a, 0
  {
    if IsNumber(a) || IsNumber(b) then
      IsNumber(a) && IsNumber(b) && Magnitude(a) == Magnitude(b)
    else
      match a
      case JNull => b.JNull?
      case JBool(x) => b.JBool? && x == b.flag
      case JStr(x) => b.JStr? && x == b.text
      case JArr(x) =>
        && b.JArr? && |x| == |b.items|
        && forall i | 0 <= i < |x| :: JsonEqual(x[i], b.items[i])
      case JObj(x) => b.JObj? && Within(x, b.members) && Onto(x, b.members)
  }

  ghost predicate SameMember(m: Member, n: Member)
    decreases m, 0
  {
    m.name == n.name && JsonEqual(m.value, n.value)
  }

  /** Some member of `ys` equals `m`. */
  ghost predicate HasPartner(m: Member, ys: seq<Member>)
    decreases m, |ys| + 1
  {
    ys != [] && (SameMember(m, ys[|ys| - 1]) || HasPartner(m, ys[..|ys| - 1]))
  }

  /** Some member of `xs` equals `n`. */
  ghost predicate IsPartner(xs: seq<Member>, n: Member)
    decreases xs, 0
  {
    xs != [] && (SameMember(xs[|xs| - 1], n) || IsPartner(xs[..|xs| - 1], n))
  }

  /** Every member of `xs` has a partner in `ys`. */
  ghost predicate Within(xs: seq<Member>, ys: seq<Member>)
    decreases xs, |ys| + 1
  {
    xs == [] || (HasPartner(xs[|xs| - 1], ys) && Within(xs[..|xs| - 1], ys))
  }

  /** Every member of `ys` has a partner in `xs`. */
  ghost predicate Onto(xs: seq<Member>, ys: seq<Member>)
    decreases xs, |ys| + 1
  {
    ys == [] || (IsPartner(xs, ys[|ys| - 1]) && Onto(xs, ys[..|ys| - 1]))
  }

  /** The key decides JSON equality: 1 and 1.0 collapse, true and 1 do not. */
  lemma {:induction false} FreezeDecidesEquality(a: Json, b: Json)
    ensures Freeze(a) == Freeze(b) <==> JsonEqual(a, b)
    decreases a, 0
  {
    if a.JArr? && b.JArr? {
      var x, y := a.items, b.items;
      forall i | 0 <= i < |x| && i < |y|
        ensures FreezeItems(x)[i] == FreezeItems(y)[i] <==> JsonEqual(x[i], y[i])
      {
        FreezeDecidesEquality(x[i], y[i]);
      }
    } else if a.JObj? && b.JObj? {
      WithinIsSubset(a.members, b.members);
      OntoIsSuperset(a.members, b.members);
    }
  }

  lemma {:induction false} HasPartnerIsIn(m: Member, ys: seq<Member>)
    ensures HasPartner(m, ys) <==> FreezeMember(m) in FreezeMembers(ys)
    decreases m, |ys| + 1
  {
    if ys != [] {
      FreezeDecidesEquality(m.value, ys[|ys| - 1].value);
      HasPartnerIsIn(m, ys[..|ys| - 1]);
    }
  }

  lemma {:induction false} IsPartnerIsIn(xs: seq<Member>, n: Member)
    ensures IsPartner(xs, n) <==> FreezeMember(n) in FreezeMembers(xs)
    decreases xs, 0
  {
    if xs != [] {
      FreezeDecidesEquality(xs[|xs| - 1].value, n.value);
      IsPartnerIsIn(xs[..|xs| - 1], n);
    }
  }

  lemma {:induction false} WithinIsSubset(xs: seq<Member>, ys: seq<Member>)
    ensures Within(xs, ys) <==> FreezeMembers(xs) <= FreezeMembers(ys)
    decreases xs, |ys| + 1
  {
    if xs != [] {
      HasPartnerIsIn(xs[|xs| - 1], ys);
      WithinIsSubset(xs[..|xs| - 1], ys);
    }
  }

  lemma {:induction false} OntoIsSuperset(xs: seq<Member>, ys: seq<Member>)
    ensures Onto(xs, ys) <==> FreezeMembers(ys) <= FreezeMembers(xs)
    decreases xs, |ys| + 1
  {
    if ys != [] {
      IsPartnerIsIn(xs, ys[|ys| - 1]);
      OntoIsSuperset(xs, ys[..|ys| - 1]);
    }
  }

  function Width(v: Json): nat {
    match v
    case JArr(items) => |items|
    case JObj(members) => |members|
    case _ => 0
  }

  /** Steps that freezing spends: one per value, object keys included. */
  function Steps(v: Json): nat
    decreases v, Width(v) + 1
  {
    1 + StepsOfPrefix(v, Width(v))
  }

  /** Steps spent on the first `n` children of `v`. */
  function StepsOfPrefix(v: Json, n: nat): nat
    requires n <= Width(v)
    decreases v, n
  {
    if n == 0 then 0
    else
      StepsOfPrefix(v, n - 1) +
      if v.JArr? then Steps(v.items[n - 1]) else 1 + Steps(v.members[n - 1].value)
  }
}
