/**
 * The uniqueItems keyword under the shared validation budget
 * (src/ravana/runtime/schema_validate.py). The wall-clock deadline is left out;
 * the step counter is kept.
 */
module SchemaValidate {
  import opened Outcomes
  import opened Json

  datatype Uniqueness = Unique | Repeated | Exhausted

  /** No two of the first `n` items are equal. */
  ghost predicate DistinctUpTo(items: seq<Json>, n: nat)
    requires n <= |items|
  {
    forall i, j | 0 <= i < j < n :: !JsonEqual(items[i], items[j])
  }

  lemma {:induction false} StepsGrow(v: Json, m: nat, n: nat)
    requires m <= n <= Width(v)
    ensures StepsOfPrefix(v, m) <= StepsOfPrefix(v, n)
    decreases n
  {
    if m < n {
      StepsGrow(v, m, n - 1);
    }
  }

  /** The per-validation budget and the two functions that draw on it. */
  class Budget {
    var stepsRemaining: int

    constructor (steps: int)
      ensures stepsRemaining == steps
    {
      stepsRemaining := steps;
    }

    method ConsumeStep() returns (within: bool)
      modifies this
      ensures stepsRemaining == old(stepsRemaining) - 1
      ensures within <==> stepsRemaining >= 0
    {
      stepsRemaining := stepsRemaining - 1;
      within := stepsRemaining >= 0;
    }

    /** None stands for the budget-exceeded exception. */
    method FreezeJson(v: Json) returns (key: Option<Key>)
      modifies this
      ensures Frozen(v, Steps(v), old(stepsRemaining), key)
      decreases v, 1
    {
      StepsGrow(v, 0, Width(v));
      var within := ConsumeStep();
      if !within {
        return None;
      }
      match v {
        case JNull => return Some(KNull);
        case JBool(b) => return Some(KBoolean(b));
        case JInt(i) => return Some(KNumber(i as real));
        case JFloat(f) => return Some(KNumber(f));
        case JStr(s) => return Some(KString(s));
        case JArr(_) => key := FreezeList(v);
        case JObj(_) => key := FreezeDict(v);
      }
    }

    /** What freezing `v` for `cost` steps leaves behind. */
    ghost predicate Frozen(v: Json, cost: nat, steps: int, key: Option<Key>)
      reads this
    {
      if cost <= steps then key == Some(Freeze(v)) && stepsRemaining == steps - cost
      else key == None && stepsRemaining < 0
    }

    method FreezeList(v: Json) returns (key: Option<Key>)
      requires v.JArr? && stepsRemaining >= 0
      modifies this
      ensures Frozen(v, StepsOfPrefix(v, Width(v)), old(stepsRemaining), key)
      decreases v, 0
    {
      var keys: seq<Key> := [];
      for i := 0 to |v.items|
        invariant keys == FreezeItems(v.items[..i])
        invariant stepsRemaining == old(stepsRemaining) - StepsOfPrefix(v, i) >= 0
      {
        StepsGrow(v, i + 1, |v.items|);
        var item := FreezeJson(v.items[i]);
        if item.None? {
          return None;
        }
        assert v.items[..i + 1][..i] == v.items[..i];
        keys := keys + [item.value];
      }
      assert v.items[..|v.items|] == v.items;
      key := Some(KArray(keys));
    }

    method FreezeDict(v: Json) returns (key: Option<Key>)
      requires v.JObj? && stepsRemaining >= 0
      modifies this
      ensures Frozen(v, StepsOfPrefix(v, Width(v)), old(stepsRemaining), key)
      decreases v, 0
    {
      var keys: set<(Key, Key)> := {};
      for i := 0 to |v.members|
        invariant keys == FreezeMembers(v.members[..i])
        invariant stepsRemaining == old(stepsRemaining) - StepsOfPrefix(v, i) >= 0
      {
        StepsGrow(v, i + 1, |v.members|);
        var within := ConsumeStep();
        if !within {
          return None;
        }
        var item := FreezeJson(v.members[i].value);
        if item.None? {
          return None;
        }
        assert v.members[..i + 1][..i] == v.members[..i];
        keys := keys + {(KString(v.members[i].name), item.value)};
      }
      assert v.members[..|v.members|] == v.members;
      key := Some(KObject(keys));
    }

    /** Repeated stands for the yielded validation error. */
    method UniqueItems(uniqueItems: bool, instance: Json) returns (r: Uniqueness)
      modifies this
      ensures !uniqueItems || !instance.JArr? ==> r == Unique && stepsRemaining == old(stepsRemaining)
      ensures uniqueItems && instance.JArr? ==> r == Scan(instance.items, 0, old(stepsRemaining))
    {
      if !uniqueItems || !instance.JArr? {
        return Unique;
      }
      var items := instance.items;
      var seen: set<Key> := {};
      for i := 0 to |items|
        invariant seen == KeysOf(items[..i])
        invariant Scan(items, 0, old(stepsRemaining)) == Scan(items, i, stepsRemaining)
      {
        var frozen := FreezeJson(items[i]);
        if frozen.None? {
          return Exhausted;
        }
        if frozen.value in seen {
          return Repeated;
        }
        assert items[..i + 1] == items[..i] + [items[i]];
        seen := seen + {frozen.value};
      }
      return Unique;
    }
  }

  function KeysOf(items: seq<Json>): set<Key> {
    set item | item in items :: Freeze(item)
  }

  /** The scan from item `n` on, with the items before it already seen. */
  function Scan(items: seq<Json>, n: nat, steps: int): Uniqueness
    requires n <= |items|
    decreases |items| - n
  {
    if n == |items| then Unique
    else if steps < Steps(items[n]) then Exhausted
    else if Freeze(items[n]) in KeysOf(items[..n]) then Repeated
    else Scan(items, n + 1, steps - Steps(items[n]))
  }

  /**
   * Section 6.4.3 of JSON Schema Validation 2020-12: unless the steps run out,
   * the error is reported exactly when two positions hold equal items.
   */
  lemma UniqueItemsExact(items: seq<Json>, steps: int)
    ensures Scan(items, 0, steps) != Exhausted ==>
              (Scan(items, 0, steps) == Repeated <==> !DistinctUpTo(items, |items|))
    ensures StepsOfPrefix(JArr(items), |items|) <= steps ==> Scan(items, 0, steps) != Exhausted
  {
    ScanFrom(items, 0, steps);
  }

  lemma {:induction false} ScanFrom(items: seq<Json>, n: nat, steps: int)
    requires n <= |items| && DistinctUpTo(items, n)
    ensures Scan(items, n, steps) != Exhausted ==>
              (Scan(items, n, steps) == Repeated <==> !DistinctUpTo(items, |items|))
    ensures StepsOfPrefix(JArr(items), |items|) - StepsOfPrefix(JArr(items), n) <= steps ==>
              Scan(items, n, steps) != Exhausted
    decreases |items| - n
  {
    if n < |items| {
      StepsGrow(JArr(items), n + 1, |items|);
      SeenDecides(items, n);
      if Freeze(items[n]) !in KeysOf(items[..n]) {
        ScanFrom(items, n + 1, steps - Steps(items[n]));
      }
    }
  }

  lemma SeenDecides(items: seq<Json>, n: nat)
    requires n < |items| && DistinctUpTo(items, n)
    ensures Freeze(items[n]) in KeysOf(items[..n]) ==> !DistinctUpTo(items, |items|)
    ensures Freeze(items[n]) !in KeysOf(items[..n]) ==> DistinctUpTo(items, n + 1)
  {
    forall k | 0 <= k < n
      ensures Freeze(items[k]) == Freeze(items[n]) <==> JsonEqual(items[k], items[n])
      ensures items[k] in items[..n]
    {
      FreezeDecidesEquality(items[k], items[n]);
      assert items[..n][k] == items[k];
    }
  }

  /** The steps run out exactly if they do so on an item before which nothing was repeated. */
  lemma ExhaustsExactly(items: seq<Json>, steps: int)
    ensures Scan(items, 0, steps) == Exhausted <==>
            exists k :: RunsOutAt(items, k, steps)
  {
    ScanRunsOut(items, 0, steps);
  }

  ghost predicate RunsOutAt(items: seq<Json>, k: int, steps: int) {
    0 <= k < |items| && DistinctUpTo(items, k) && StepsOfPrefix(JArr(items), k + 1) > steps
  }

  lemma {:induction false} ScanRunsOut(items: seq<Json>, n: nat, steps: int)
    requires n <= |items| && DistinctUpTo(items, n)
    requires forall k | 0 <= k < n :: !RunsOutAt(items, k, steps)
    ensures Scan(items, n, steps - StepsOfPrefix(JArr(items), n)) == Exhausted <==>
            exists k :: RunsOutAt(items, k, steps)
    decreases |items| - n
  {
    if n < |items| && !RunsOutAt(items, n, steps) {
      if Freeze(items[n]) in KeysOf(items[..n]) {
        RepeatStops(items, n);
      } else {
        SeenDecides(items, n);
        ScanRunsOut(items, n + 1, steps);
      }
    }
  }

  lemma RepeatStops(items: seq<Json>, n: nat)
    requires n < |items| && Freeze(items[n]) in KeysOf(items[..n])
    ensures forall k | n < k <= |items| :: !DistinctUpTo(items, k)
  {
    var i :| 0 <= i < n && Freeze(items[i]) == Freeze(items[n]);
    FreezeDecidesEquality(items[i], items[n]);
  }
}
