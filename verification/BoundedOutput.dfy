/**
 * `_BoundedOutput` (src/ravana/runtime/toolkits/sandbox.py): drain a byte
 * stream chunk by chunk, keep a bounded prefix, and notice a sentinel that
 * chunk boundaries may cut anywhere.
 */
module BoundedOutput {
  import opened Outcomes

  type Bytes = seq<bv8>

  /** `x in s` on Python bytes. */
  predicate Contains(s: Bytes, x: Bytes) {
    exists i | 0 <= i <= |s| - |x| :: OccursAt(s, x, i)
  }

  predicate OccursAt(s: Bytes, x: Bytes, i: int) {
    0 <= i <= |s| - |x| && s[i..i + |x|] == x
  }

  /** The last `n` bytes, or all of a shorter text. */
  function Last(s: Bytes, n: nat): Bytes {
    if |s| <= n then s else s[|s| - n..]
  }

  function Max(a: int, b: int): int {
    if a < b then b else a
  }

  /** The chunks up to the empty read that ends the stream. */
  function Stream(chunks: seq<Bytes>): Bytes {
    if chunks == [] || chunks[0] == [] then [] else chunks[0] + Stream(chunks[1..])
  }

  /** The first `limit` bytes are kept and the rest counted. */
  ghost predicate IsCapture(stream: Bytes, limit: nat, data: Bytes, omitted: nat) {
    && |data| == (if |stream| < limit then |stream| else limit)
    && data == stream[..|data|]
    && omitted == |stream| - |data|
  }

  /** The sentinel is seen if it occurs; until then the tail is all a later chunk could complete. */
  ghost predicate HasSearched(stream: Bytes, x: Bytes, tail: Bytes, seen: bool) {
    && (seen <==> stream != [] && Contains(stream, x))
    && (!seen ==> tail == Last(stream, Max(0, |x| - 1)))
  }

  class BoundedOutput {
    const limit: nat
    const sentinel: Option<Bytes>
    var data: Bytes
    var omitted: nat
    var tail: Bytes
    var sentinelSeen: bool
    /** Every byte drained so far. */
    ghost var stream: Bytes

    /** The object's fields are what a single pass over the whole stream would give. */
    ghost predicate Valid()
      reads this
    {
      && IsCapture(stream, limit, data, omitted)
      && (sentinel.None? ==> !sentinelSeen)
      && (sentinel.Some? ==> HasSearched(stream, sentinel.value, tail, sentinelSeen))
    }

    constructor (cap: int, marker: Option<Bytes>)
      ensures Valid() && stream == [] && limit == Max(0, cap) && sentinel == marker
    {
      limit := Max(0, cap);
      sentinel := marker;
      data, omitted, tail, sentinelSeen := [], 0, [], false;
      stream := [];
    }

    /** One turn of the drain loop. */
    method Feed(chunk: Bytes)
      requires Valid() && chunk != []
      modifies this
      ensures Valid() && stream == old(stream) + chunk
    {
      if sentinel.Some? && !sentinelSeen {
        var combined := tail + chunk;
        sentinelSeen := Contains(combined, sentinel.value);
        var tailLength := Max(0, |sentinel.value| - 1);
        SeamSearch(stream, chunk, sentinel.value);
        TailOfTail(stream, chunk, tailLength);
        tail := if tailLength == 0 then [] else Last(combined, tailLength);
      } else if sentinel.Some? {
        StillContains(stream, chunk, sentinel.value);
      }
      var remaining := Max(0, limit - |data|);
      var kept := if remaining < |chunk| then chunk[..remaining] else chunk;
      CaptureGrows(stream, chunk, limit, data, omitted);
      data := data + kept;
      omitted := omitted + Max(0, |chunk| - remaining);
      stream := stream + chunk;
    }

    /** `drain`, over the chunks the reader happens to deliver. */
    method Drain(chunks: seq<Bytes>)
      requires Valid()
      modifies this
      ensures Valid() && stream == old(stream) + Stream(chunks)
    {
      var i := 0;
      assert chunks[0..] == chunks;
      while i < |chunks| && chunks[i] != []
        invariant 0 <= i <= |chunks|
        invariant Valid() && stream + Stream(chunks[i..]) == old(stream) + Stream(chunks)
      {
        StreamStep(stream, chunks, i);
        Feed(chunks[i]);
        i := i + 1;
      }
    }

    /**
     * Chunking is invisible: a fresh object drained by any chunks of a stream
     * has seen the sentinel exactly when the stream contains it, keeps exactly
     * its first `limit` bytes and counts exactly the rest.
     */
    method DrainFresh(chunks: seq<Bytes>)
      requires Valid() && stream == []
      modifies this
      ensures var whole := Stream(chunks);
              && data == whole[..if |whole| < limit then |whole| else limit]
              && omitted == |whole| - |data|
              && (sentinel.Some? && sentinel.value != [] ==>
                    (sentinelSeen <==> Contains(whole, sentinel.value)))
    {
      Drain(chunks);
      assert stream == Stream(chunks);
    }
  }

  lemma StreamStep(s: Bytes, chunks: seq<Bytes>, i: nat)
    requires i < |chunks| && chunks[i] != []
    ensures s + Stream(chunks[i..]) == s + chunks[i] + Stream(chunks[i + 1..])
  {
    assert chunks[i..][1..] == chunks[i + 1..];
  }

  lemma CaptureGrows(stream: Bytes, chunk: Bytes, limit: nat, data: Bytes, omitted: nat)
    requires IsCapture(stream, limit, data, omitted)
    ensures var remaining := Max(0, limit - |data|);
            IsCapture(stream + chunk, limit, data + if remaining < |chunk| then chunk[..remaining] else chunk,
                      omitted + Max(0, |chunk| - remaining))
  {
  }

  /** The chunks drained are the stream they cut up, however it is cut. */
  lemma {:induction false} StreamIsConcatenation(a: seq<Bytes>, b: seq<Bytes>)
    requires forall i | 0 <= i < |a| :: a[i] != []
    ensures Stream(a + b) == Stream(a) + Stream(b)
  {
    if a == [] {
      assert a + b == b;
    } else {
      assert (a + b)[1..] == a[1..] + b;
      StreamIsConcatenation(a[1..], b);
    }
  }

  /**
   * If a text does not contain x, then with a chunk appended it does exactly
   * when its last |x| - 1 bytes with the chunk appended do.
   */
  lemma SeamSearch(s: Bytes, chunk: Bytes, x: Bytes)
    requires chunk != [] && !(s != [] && Contains(s, x))
    ensures Contains(s + chunk, x) <==> Contains(Last(s, Max(0, |x| - 1)) + chunk, x)
  {
    var tail := Last(s, Max(0, |x| - 1));
    if i :| 0 <= i <= |s + chunk| - |x| && OccursAt(s + chunk, x, i) {
      SeamHolds(s, chunk, x, i);
    }
    if i :| 0 <= i <= |tail + chunk| - |x| && OccursAt(tail + chunk, x, i) {
      SeamIsGenuine(s, chunk, x, i);
    }
  }

  lemma PrefixOccurs(s: Bytes, chunk: Bytes, x: Bytes, i: nat)
    ensures i + |x| <= |s| && OccursAt(s + chunk, x, i) ==> Contains(s, x)
  {
    if i + |x| <= |s| {
      assert (s + chunk)[i..i + |x|] == s[i..i + |x|];
      assert OccursAt(s, x, i) <==> OccursAt(s + chunk, x, i);
    }
  }

  /** An occurrence that needs the chunk starts within the tail. */
  lemma SeamHolds(s: Bytes, chunk: Bytes, x: Bytes, i: nat)
    requires chunk != [] && !(s != [] && Contains(s, x))
    requires i <= |s + chunk| - |x| && OccursAt(s + chunk, x, i)
    ensures Contains(Last(s, Max(0, |x| - 1)) + chunk, x)
  {
    var tail := Last(s, Max(0, |x| - 1));
    var cut := |s| - |tail|;
    var whole, combined := s + chunk, tail + chunk;
    if x == [] {
      assert OccursAt(combined, x, 0);
    } else {
      PrefixOccurs(s, chunk, x, i);
      assert combined[i - cut..i - cut + |x|] == whole[i..i + |x|];
      assert OccursAt(combined, x, i - cut);
    }
  }

  lemma SeamIsGenuine(s: Bytes, chunk: Bytes, x: Bytes, i: nat)
    requires var combined := Last(s, Max(0, |x| - 1)) + chunk; i <= |combined| - |x| && OccursAt(combined, x, i)
    ensures Contains(s + chunk, x)
  {
    var tail := Last(s, Max(0, |x| - 1));
    var cut := |s| - |tail|;
    var whole, combined := s + chunk, tail + chunk;
    assert whole[i + cut..i + cut + |x|] == combined[i..i + |x|];
    assert OccursAt(whole, x, i + cut);
  }

  lemma TailOfTail(s: Bytes, chunk: Bytes, n: nat)
    ensures Last(Last(s, n) + chunk, n) == Last(s + chunk, n)
  {
  }

  lemma StillContains(s: Bytes, chunk: Bytes, x: Bytes)
    requires Contains(s, x)
    ensures Contains(s + chunk, x)
  {
    var i :| 0 <= i <= |s| - |x| && OccursAt(s, x, i);
    assert (s + chunk)[i..i + |x|] == s[i..i + |x|];
    assert OccursAt(s + chunk, x, i);
  }
}
