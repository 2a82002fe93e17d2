/**
 * The provider fallback chain shared by node turns and judgements
 * (`_run_with_fallback`, src/ravana/runtime/gateway.py). What one try does is
 * a parameter: it may read and change any state the caller shares across tries.
 */
module Fallback {

  const PER_ENTRY_RETRIES := 1

  /** One try of one entry: a result, a provider failure, or any other exception. */
  datatype Try<+R> = Done(result: R) | Failed(retryable: bool) | Hard

  /** How the chain ends. */
  datatype End<+R> = Returned(result: R) | AllFailedTransient | AllFailedPermanent | Escaped

  /** One entry from its `k`-th try on: a retryable failure is tried once more. */
  function RunEntry<S, R>(run: (S, nat, nat) -> (S, Try<R>), s: S, entry: nat, k: nat): (S, Try<R>)
    decreases if k > PER_ENTRY_RETRIES then 0 else PER_ENTRY_RETRIES + 1 - k
  {
    var (after, t) := run(s, entry, k);
    if t.Failed? && t.retryable && k < PER_ENTRY_RETRIES then RunEntry(run, after, entry, k + 1) else (after, t)
  }

  /** The chain from entry `entry` of `n` on. */
  function RunChain<S, R>(run: (S, nat, nat) -> (S, Try<R>), s: S, n: nat, entry: nat, anyRetryable: bool)
    : (S, End<R>)
    decreases n - entry
  {
    if entry >= n then (s, if anyRetryable then AllFailedTransient else AllFailedPermanent)
    else
      var (after, t) := RunEntry(run, s, entry, 0);
      match t
      case Done(result) => (after, Returned(result))
      case Hard => (after, Escaped)
      case Failed(retryable) => RunChain(run, after, n, entry + 1, anyRetryable || retryable)
  }

  method RunWithFallback<S, R>(run: (S, nat, nat) -> (S, Try<R>), s0: S, n: nat) returns (s: S, end: End<R>)
    ensures (s, end) == RunChain(run, s0, n, 0, false)
  {
    s := s0;
    var anyEntryEndedRetryable := false;
    for entry := 0 to n
      invariant RunChain(run, s, n, entry, anyEntryEndedRetryable) == RunChain(run, s0, n, 0, false)
    {
      var entryRetryable := false;
      var done := false;
      ghost var atEntry := s;
      var k := 0;
      while k <= PER_ENTRY_RETRIES && !done
        invariant k <= PER_ENTRY_RETRIES + 1
        invariant !done && k <= PER_ENTRY_RETRIES ==> RunEntry(run, s, entry, k) == RunEntry(run, atEntry, entry, 0)
        invariant done || k > PER_ENTRY_RETRIES ==> RunEntry(run, atEntry, entry, 0) == (s, Failed(entryRetryable))
        decreases PER_ENTRY_RETRIES + 1 - k, !done
      {
        var (after, t) := run(s, entry, k);
        s := after;
        if t.Done? {
          return s, Returned(t.result);
        }
        if t.Hard? {
          return s, Escaped;
        }
        entryRetryable := t.retryable;
        if !t.retryable {
          done := true;
        } else {
          k := k + 1;
        }
      }
      if entryRetryable {
        anyEntryEndedRetryable := true;
      }
    }
    end := if anyEntryEndedRetryable then AllFailedTransient else AllFailedPermanent;
  }

  // ---- what the ending says about the entries ----

  /** The shared state as entry `entry` starts, when every earlier entry failed. */
  function StateAt<S, R>(run: (S, nat, nat) -> (S, Try<R>), s: S, entry: nat): S {
    if entry == 0 then s else RunEntry(run, StateAt(run, s, entry - 1), entry - 1, 0).0
  }

  /** How entry `entry` itself ended. */
  function EntryEnd<S, R>(run: (S, nat, nat) -> (S, Try<R>), s: S, entry: nat): Try<R> {
    RunEntry(run, StateAt(run, s, entry), entry, 0).1
  }

  ghost predicate FailedBefore<S, R>(run: (S, nat, nat) -> (S, Try<R>), s: S, entry: nat) {
    forall e | 0 <= e < entry :: EntryEnd(run, s, e).Failed?
  }

  ghost predicate RetryableBefore<S, R>(run: (S, nat, nat) -> (S, Try<R>), s: S, entry: nat) {
    exists e | 0 <= e < entry :: EntryEnd(run, s, e) == Failed(true)
  }

  /**
   * The first entry that does not fail decides. If all do, the failure is
   * transient exactly when some entry ended on a retryable error, whatever its
   * earlier try died of.
   */
  lemma {:induction false} ChainEndIsExact<S, R>(run: (S, nat, nat) -> (S, Try<R>), s: S, n: nat, entry: nat)
    returns (last: nat)
    requires entry <= n && FailedBefore(run, s, entry)
    ensures entry <= last <= n && FailedBefore(run, s, last)
    ensures var (after, end) :=
              RunChain(run, StateAt(run, s, entry), n, entry, RetryableBefore(run, s, entry));
            match end
            case Returned(r) => last < n && EntryEnd(run, s, last) == Done(r) && after == StateAt(run, s, last + 1)
            case Escaped => last < n && EntryEnd(run, s, last) == Hard && after == StateAt(run, s, last + 1)
            case AllFailedTransient => last == n && RetryableBefore(run, s, n) && after == StateAt(run, s, n)
            case AllFailedPermanent => last == n && !RetryableBefore(run, s, n) && after == StateAt(run, s, n)
    decreases n - entry
  {
    last := entry;
    if entry < n {
      var t := EntryEnd(run, s, entry);
      if t.Failed? {
        assert FailedBefore(run, s, entry + 1);
        assert RetryableBefore(run, s, entry + 1) <==> RetryableBefore(run, s, entry) || t.retryable by {
          if t == Failed(true) {
            assert EntryEnd(run, s, entry) == Failed(true);
          }
        }
        last := ChainEndIsExact(run, s, n, entry + 1);
      }
    }
  }

  /** An entry gets a second try exactly if its first fails retryably, and then ends as that one does. */
  lemma EntryIsTriedTwiceAtMost<S, R>(run: (S, nat, nat) -> (S, Try<R>), s: S, entry: nat)
    ensures var first := run(StateAt(run, s, entry), entry, 0);
            (StateAt(run, s, entry + 1), EntryEnd(run, s, entry)) ==
            if first.1 == Failed(true) then run(first.0, entry, 1) else first
  {
    var first := run(StateAt(run, s, entry), entry, 0);
    assert RunEntry(run, first.0, entry, 1) == run(first.0, entry, 1);
  }
}
