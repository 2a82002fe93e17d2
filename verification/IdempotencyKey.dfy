/**
 * The text hashed into an idempotency key (src/ravana/runtime/idempotency.py).
 * The hash is taken to be injective, so a key is its text; `canonical` is the
 * sorted JSON of the arguments.
 */
module IdempotencyKey {
  import opened Ledger

  datatype Invocation = Invocation(scope: Scope, visit: string, ordinal: nat, canonical: string)

  function Digit(n: nat): char
    requires n < 10
  {
    "0123456789"[n]
  }

  function Decimal(n: nat): string {
    if n < 10 then [Digit(n)] else Decimal(n / 10) + [Digit(n % 10)]
  }

  function Payload(i: Invocation): Key {
    i.scope.run + ":" + i.scope.node + ":" + i.visit + ":" + Decimal(i.ordinal) + ":" + i.scope.tool + ":" +
    i.canonical
  }

  predicate ColonFree(s: string) {
    ':' !in s
  }

  lemma DigitsDiffer(m: nat, n: nat)
    requires m < 10 && n < 10 && Digit(m) == Digit(n)
    ensures m == n
  {
  }

  lemma {:induction false} DecimalIsInjective(m: nat, n: nat)
    requires Decimal(m) == Decimal(n)
    ensures m == n
  {
    var a, b := Decimal(m), Decimal(n);
    assert a[|a| - 1] == Digit(m % 10) && b[|b| - 1] == Digit(n % 10);
    DigitsDiffer(m % 10, n % 10);
    DecimalLength(m);
    DecimalLength(n);
    if m >= 10 && n >= 10 {
      assert a[..|a| - 1] == Decimal(m / 10) && b[..|b| - 1] == Decimal(n / 10);
      DecimalIsInjective(m / 10, n / 10);
    }
  }

  lemma {:induction false} DecimalLength(n: nat)
    ensures |Decimal(n)| == 1 <==> n < 10
    ensures |Decimal(n)| >= 1
  {
    if n >= 10 {
      DecimalLength(n / 10);
    }
  }

  lemma {:induction false} DecimalIsColonFree(n: nat)
    ensures ColonFree(Decimal(n))
  {
    if n >= 10 {
      DecimalIsColonFree(n / 10);
    }
  }

  function FirstColon(s: string): nat {
    if s == "" || s[0] == ':' then 0 else 1 + FirstColon(s[1..])
  }

  lemma {:induction false} FirstColonEnds(a: string, x: string)
    requires ColonFree(a)
    ensures FirstColon(a + ":" + x) == |a|
  {
    if a != "" {
      FirstColonEnds(a[1..], x);
      assert (a + ":" + x)[1..] == a[1..] + ":" + x;
    } else {
      assert (a + ":" + x)[0] == ':';
    }
  }

  /** The first colon splits a text in one way only. */
  lemma SplitsOnce(a: string, x: string, b: string, y: string)
    requires ColonFree(a) && ColonFree(b) && a + ":" + x == b + ":" + y
    ensures a == b && x == y
  {
    var s := a + ":" + x;
    FirstColonEnds(a, x);
    FirstColonEnds(b, y);
    assert a == s[..|a|] && b == s[..|b|];
    assert x == s[|a| + 1..] && y == s[|b| + 1..];
  }

  lemma SamePrefix(p: string, x: string, y: string)
    requires p + x == p + y
    ensures x == y
  {
    assert x == (p + x)[|p|..];
  }

  /** The part of the payload after the run and the node. */
  function Rest(i: Invocation): string {
    i.visit + ":" + (Decimal(i.ordinal) + ":" + (i.scope.tool + ":" + i.canonical))
  }

  lemma PayloadIs(i: Invocation)
    ensures Payload(i) == (i.scope.run + ":" + i.scope.node + ":") + Rest(i)
  {
  }

  /**
   * Within one scope a key names one invocation: visits are uuids, so have no
   * colon, and then equal keys mean the same visit, ordinal and arguments. The
   * ledger refuses a claim from any other scope, so a result is only ever
   * replayed to the invocation that produced it.
   */
  lemma KeyNamesOneInvocation(i: Invocation, j: Invocation)
    requires i.scope == j.scope && ColonFree(i.visit) && ColonFree(j.visit)
    ensures Payload(i) == Payload(j) <==> i == j
  {
    if Payload(i) == Payload(j) {
      PayloadIs(i);
      PayloadIs(j);
      SamePrefix(i.scope.run + ":" + i.scope.node + ":", Rest(i), Rest(j));
      SplitsOnce(i.visit, Decimal(i.ordinal) + ":" + (i.scope.tool + ":" + i.canonical),
                 j.visit, Decimal(j.ordinal) + ":" + (j.scope.tool + ":" + j.canonical));
      DecimalIsColonFree(i.ordinal);
      DecimalIsColonFree(j.ordinal);
      SplitsOnce(Decimal(i.ordinal), i.scope.tool + ":" + i.canonical,
                 Decimal(j.ordinal), j.scope.tool + ":" + j.canonical);
      DecimalIsInjective(i.ordinal, j.ordinal);
      SamePrefix(i.scope.tool + ":", i.canonical, j.canonical);
    }
  }

  // ---- across scopes ----

  /** The parts of a text between its colons. */
  function Segments(s: string): (parts: seq<string>)
    ensures parts != []
  {
    if s == "" then [""]
    else
      var rest := Segments(s[1..]);
      if s[0] == ':' then [""] + rest else [[s[0]] + rest[0]] + rest[1..]
  }

  lemma {:induction false} SegmentsJoin(a: string, b: string)
    ensures Segments(a + ":" + b) == Segments(a) + Segments(b)
  {
    var s := a + ":" + b;
    if a == "" {
      assert s[0] == ':' && s[1..] == b;
    } else {
      SegmentsJoin(a[1..], b);
      assert s[0] == a[0] && s[1..] == a[1..] + ":" + b;
      GrowsFirst(a[0], Segments(a[1..]), Segments(b));
    }
  }

  lemma GrowsFirst(c: char, x: seq<string>, y: seq<string>)
    requires x != []
    ensures [""] + (x + y) == ([""] + x) + y
    ensures [[c] + (x + y)[0]] + (x + y)[1..] == ([[c] + x[0]] + x[1..]) + y
  {
  }

  lemma {:induction false} OneSegment(s: string)
    requires ColonFree(s)
    ensures Segments(s) == [s]
  {
    if s != "" {
      OneSegment(s[1..]);
      assert [s[0]] + s[1..] == s;
      assert [[s[0]] + [s[1..]][0]] + [s[1..]][1..] == [s];
    }
  }

  /** The segments of the run and node names, which come before the visit. */
  function Names(i: Invocation): seq<string> {
    Segments(i.scope.run) + Segments(i.scope.node)
  }

  lemma PayloadSegments(i: Invocation)
    requires ColonFree(i.visit)
    ensures Segments(Payload(i)) ==
            Names(i) + [i.visit] + [Decimal(i.ordinal)] + (Segments(i.scope.tool) + Segments(i.canonical))
  {
    var run, node, ordinal := i.scope.run, i.scope.node, Decimal(i.ordinal);
    SegmentsJoin(run, node);
    SegmentsJoin(run + ":" + node, i.visit);
    SegmentsJoin(run + ":" + node + ":" + i.visit, ordinal);
    SegmentsJoin(run + ":" + node + ":" + i.visit + ":" + ordinal, i.scope.tool);
    SegmentsJoin(run + ":" + node + ":" + i.visit + ":" + ordinal + ":" + i.scope.tool, i.canonical);
    OneSegment(i.visit);
    DecimalIsColonFree(i.ordinal);
    OneSegment(ordinal);
  }

  /**
   * Across scopes too a key tells visits apart: as long as neither visit id is
   * a segment of the other's run and node names, equal texts have equal visits
   * and ordinals, and equal names before them.
   */
  lemma KeysTellVisitsApart(i: Invocation, j: Invocation)
    requires ColonFree(i.visit) && ColonFree(j.visit) && Payload(i) == Payload(j)
    requires i.visit !in Names(j) && j.visit !in Names(i)
    ensures i.visit == j.visit && i.ordinal == j.ordinal && Names(i) == Names(j)
  {
    VisitIsNamed(i, j);
    VisitIsNamed(j, i);
    PayloadSegments(i);
    PayloadSegments(j);
    var parts, n := Segments(Payload(i)), |Names(i)|;
    assert parts[..n] == Names(i) && parts[..n] == Names(j);
    assert parts[n] == i.visit && parts[n] == j.visit;
    assert parts[n + 1] == Decimal(i.ordinal) && parts[n + 1] == Decimal(j.ordinal);
    DecimalIsInjective(i.ordinal, j.ordinal);
  }

  /** With equal texts, a visit that comes earlier is a segment of the other's names. */
  lemma VisitIsNamed(i: Invocation, j: Invocation)
    requires ColonFree(i.visit) && ColonFree(j.visit) && Payload(i) == Payload(j)
    ensures |Names(i)| < |Names(j)| ==> i.visit in Names(j)
  {
    PayloadSegments(i);
    PayloadSegments(j);
    var parts, n := Segments(Payload(i)), |Names(i)|;
    assert parts[n] == i.visit;
    if n < |Names(j)| {
      assert parts[n] == Names(j)[n];
    }
  }

  /** Where names have no colons at all, a text is one invocation's, whatever its scope. */
  lemma ColonFreeKeysNameOneInvocation(i: Invocation, j: Invocation)
    requires IsColonFree(i) && IsColonFree(j)
    ensures Payload(i) == Payload(j) <==> i == j
  {
    if Payload(i) == Payload(j) {
      PayloadIsNested(i);
      PayloadIsNested(j);
      SplitsOnce(i.scope.run, i.scope.node + ":" + Rest(i), j.scope.run, j.scope.node + ":" + Rest(j));
      SplitsOnce(i.scope.node, Rest(i), j.scope.node, Rest(j));
      RestNamesOne(i, j);
    }
  }

  predicate IsColonFree(i: Invocation) {
    ColonFree(i.scope.run) && ColonFree(i.scope.node) && ColonFree(i.visit) && ColonFree(i.scope.tool)
  }

  lemma PayloadIsNested(i: Invocation)
    ensures Payload(i) == i.scope.run + ":" + (i.scope.node + ":" + Rest(i))
  {
    PayloadIs(i);
  }

  lemma RestNamesOne(i: Invocation, j: Invocation)
    requires IsColonFree(i) && IsColonFree(j) && Rest(i) == Rest(j)
    ensures i.visit == j.visit && i.ordinal == j.ordinal && i.scope.tool == j.scope.tool && i.canonical == j.canonical
  {
    SplitsOnce(i.visit, Decimal(i.ordinal) + ":" + (i.scope.tool + ":" + i.canonical),
               j.visit, Decimal(j.ordinal) + ":" + (j.scope.tool + ":" + j.canonical));
    DecimalIsColonFree(i.ordinal);
    DecimalIsColonFree(j.ordinal);
    SplitsOnce(Decimal(i.ordinal), i.scope.tool + ":" + i.canonical,
               Decimal(j.ordinal), j.scope.tool + ":" + j.canonical);
    DecimalIsInjective(i.ordinal, j.ordinal);
    SplitsOnce(i.scope.tool, i.canonical, j.scope.tool, j.canonical);
  }

  /** The form of the visit ids the engine mints: a uuid's 36 characters, dashes in their places. */
  predicate IsUuid(s: string) {
    |s| == 36 && forall k | 0 <= k < 36 ::
      if k == 8 || k == 13 || k == 18 || k == 23 then s[k] == '-' else '0' <= s[k] <= '9' || 'a' <= s[k] <= 'f'
  }

  function UuidOf(c: char): string {
    seq(36, k => if k == 8 || k == 13 || k == 18 || k == 23 then '-' else c)
  }

  /** That condition is needed: a node named after the other's visit makes two invocations with uuid visits collide. */
  lemma KeysCollideAcrossScopes() returns (i: Invocation, j: Invocation)
    ensures i.scope != j.scope && IsUuid(i.visit) && IsUuid(j.visit) && i.visit != j.visit
    ensures Payload(i) == Payload(j)
  {
    var v, w := UuidOf('1'), UuidOf('2');
    i := Invocation(Scope("r", "a:" + v + ":6:t", "u"), w, 7, "{}");
    j := Invocation(Scope("r", "a", "t:" + w + ":7:u"), v, 6, "{}");
    assert v[0] != w[0];
    assert |i.scope.node| != |j.scope.node|;
    SameText(v, w);
  }

  lemma SameText(v: string, w: string)
    ensures Payload(Invocation(Scope("r", "a:" + v + ":6:t", "u"), w, 7, "{}")) ==
            Payload(Invocation(Scope("r", "a", "t:" + w + ":7:u"), v, 6, "{}"))
  {
    assert Decimal(7) == "7" && Decimal(6) == "6";
    var left := "r" + ":" + ("a:" + v + ":6:t") + ":" + w + ":" + "7" + ":" + "u" + ":" + "{}";
    var right := "r" + ":" + "a" + ":" + v + ":" + "6" + ":" + ("t:" + w + ":7:u") + ":" + "{}";
    var shared := ("r:a:" + v) + (":6:t:" + w) + ":7:u:{}";
    assert left == shared;
    assert right == shared;
  }

  /** What the ledger makes of both: a grant or a replay is for this very invocation or a first one. */
  lemma ClaimIsForThisInvocation(rows: Table, claimed: Invocation, mine: Invocation)
    requires Payload(claimed) == Payload(mine) && Payload(claimed) in rows
    requires rows[Payload(claimed)].scope == claimed.scope
    requires ColonFree(claimed.visit) && ColonFree(mine.visit)
    ensures Claim(rows, Payload(mine), mine.scope).1 != KeyCollides <==> claimed == mine
  {
    if claimed.scope == mine.scope {
      KeyNamesOneInvocation(claimed, mine);
    }
  }
}
