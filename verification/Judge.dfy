/**
 * The prose judgement (`judge_prose`, `_judge_completion`,
 * src/ravana/runtime/gateway.py): one usage sink and one repair budget shared
 * by every entry and retry of the fallback chain.
 */
module Judge {
  import opened Outcomes
  import opened Json
  import opened Dod
  import opened Fallback

  /** The provider's n-th answer to this judgement, or its failure. */
  datatype Completion =
    | Down(retryable: bool)
    | Answer(usage: Usage, leaks: bool, payload: Option<seq<Member>>)

  /** `_JudgeState`, with a count of the provider calls made. */
  datatype State = State(usage: Usage, repairsUsed: nat, calls: nat)

  /**
   * The repair budget, the chain length, whether an entry's adapter and key
   * resolve on a given try, and the provider's answers by call number. An
   * answer's payload is None when it is malformed or off the verdict schema.
   */
  datatype Setting = Setting(maxRepairs: nat, entries: nat, ready: (nat, nat) -> bool, answers: nat -> Completion)

  const START := State(Usage(0, 0), 0, 0)

  function Add(a: Usage, b: Usage): Usage {
    Usage(a.input + b.input, a.output + b.output)
  }

  /** `_judge_completion` from state `s` on. */
  function Complete(c: Setting, s: State): (State, Try<seq<Member>>)
    decreases if s.repairsUsed > c.maxRepairs then 0 else c.maxRepairs - s.repairsUsed
  {
    match c.answers(s.calls)
    case Down(retryable) => (s.(calls := s.calls + 1), Failed(retryable))
    case Answer(usage, leaks, payload) =>
      var billed := State(Add(s.usage, usage), s.repairsUsed, s.calls + 1);
      if leaks then (billed, Hard)
      else if payload.Some? then (billed, Done(payload.value))
      else if s.repairsUsed >= c.maxRepairs then (billed, Hard)
      else Complete(c, billed.(repairsUsed := s.repairsUsed + 1))
  }

  /** One try of one entry: an unresolved adapter or key fails it permanently before any call. */
  function RunOne(c: Setting): (State, nat, nat) -> (State, Try<seq<Member>>) {
    (s: State, entry: nat, k: nat) => if c.ready(entry, k) then Complete(c, s) else (s, Failed(false))
  }

  /** The judgement as a whole. */
  function JudgeProse(c: Setting): (State, End<seq<Member>>) {
    RunChain(RunOne(c), START, c.entries, 0, false)
  }

  /** The gateway's judge: its accumulator is updated call by call. */
  class Judge {
    const c: Setting
    var s: State

    constructor (setting: Setting)
      ensures c == setting && s == START
    {
      c := setting;
      s := START;
    }

    /** `_judge_completion` */
    method JudgeCompletion() returns (t: Try<seq<Member>>)
      modifies this
      ensures (s, t) == Complete(c, old(s))
    {
      while true
        invariant Complete(c, s) == Complete(c, old(s))
        decreases if s.repairsUsed > c.maxRepairs then 0 else c.maxRepairs - s.repairsUsed + 1
      {
        var response := c.answers(s.calls);
        s := s.(calls := s.calls + 1);
        if response.Down? {
          return Failed(response.retryable);
        }
        s := s.(usage := Add(s.usage, response.usage));
        if response.leaks {
          return Hard;
        }
        if response.payload.Some? {
          return Done(response.payload.value);
        }
        if s.repairsUsed >= c.maxRepairs {
          return Hard;
        }
        s := s.(repairsUsed := s.repairsUsed + 1);
      }
    }
  }

  // ---- budget and conservation ----

  function TokensOf(a: Completion): Usage {
    if a.Answer? then a.usage else Usage(0, 0)
  }

  /** Tokens of every response among the first `n` calls. */
  function Billed(c: Setting, n: nat): Usage {
    if n == 0 then Usage(0, 0)
    else
      var earlier, more := Billed(c, n - 1), TokensOf(c.answers(n - 1));
      Usage(earlier.input + more.input, earlier.output + more.output)
  }

  /** Responses received among the first `n` calls. */
  function Responses(c: Setting, n: nat): nat {
    if n == 0 then 0 else Responses(c, n - 1) + if c.answers(n - 1).Answer? then 1 else 0
  }

  /** Every response is billed, and every call is a response or one of at most `downs` failures. */
  ghost predicate Accounted(c: Setting, s: State, downs: nat) {
    && s.usage == Billed(c, s.calls)
    && s.repairsUsed <= c.maxRepairs
    && s.calls <= Responses(c, s.calls) + downs
  }

  /** A state from which the judgement goes on: each response so far cost a repair. */
  ghost predicate Open(c: Setting, s: State, downs: nat) {
    Accounted(c, s, downs) && Responses(c, s.calls) == s.repairsUsed
  }

  ghost predicate Closed(c: Setting, s: State, downs: nat) {
    Accounted(c, s, downs) && Responses(c, s.calls) == s.repairsUsed + 1
  }

  lemma {:induction false} CompleteAccounts(c: Setting, s: State, downs: nat)
    requires Open(c, s, downs)
    ensures var (t, r) := Complete(c, s);
            if r.Failed? then Open(c, t, downs + 1) else Closed(c, t, downs)
    decreases c.maxRepairs - s.repairsUsed
  {
    var a := c.answers(s.calls);
    if a.Answer? && !a.leaks && a.payload.None? && s.repairsUsed < c.maxRepairs {
      CompleteAccounts(c, State(Add(s.usage, a.usage), s.repairsUsed + 1, s.calls + 1), downs);
    }
  }

  lemma {:induction false} EntryAccounts(c: Setting, s: State, entry: nat, k: nat, downs: nat)
    requires Open(c, s, downs) && k <= PER_ENTRY_RETRIES
    ensures var (t, r) := RunEntry(RunOne(c), s, entry, k);
            if r.Failed? then Open(c, t, downs + 2 - k) else Closed(c, t, downs + 1 - k)
    decreases PER_ENTRY_RETRIES - k
  {
    if c.ready(entry, k) {
      CompleteAccounts(c, s, downs);
      var (t, r) := Complete(c, s);
      if r.Failed? && r.retryable && k < PER_ENTRY_RETRIES {
        EntryAccounts(c, t, entry, k + 1, downs + 1);
      }
    }
  }

  lemma {:induction false} ChainAccounts(c: Setting, s: State, entry: nat, any: bool)
    requires entry <= c.entries && Open(c, s, 2 * entry)
    ensures var (t, end) := RunChain(RunOne(c), s, c.entries, entry, any);
            if end.Returned? || end.Escaped? then Closed(c, t, 2 * c.entries) else Open(c, t, 2 * c.entries)
    decreases c.entries - entry
  {
    if entry < c.entries {
      EntryAccounts(c, s, entry, 0, 2 * entry);
      var (t, r) := RunEntry(RunOne(c), s, entry, 0);
      if r.Failed? {
        ChainAccounts(c, t, entry + 1, any || r.retryable);
      }
    }
  }

  /**
   * Over all entries and retries, one judgement receives at most
   * maxRepairs + 1 responses in at most maxRepairs + 1 + 2 * entries calls,
   * and the usage it reports - on return and on every failure alike - is the
   * sum over every response received, rejected ones included.
   */
  lemma JudgementIsBudgetedAndBilled(c: Setting)
    ensures var (s, end) := JudgeProse(c);
            && s.usage == Billed(c, s.calls)
            && Responses(c, s.calls) <= c.maxRepairs + 1
            && s.calls <= c.maxRepairs + 1 + 2 * c.entries
            && s.repairsUsed <= c.maxRepairs
  {
    ChainAccounts(c, START, 0, false);
  }

  // ---- what is returned ----

  /** A clean answer that is malformed or off the schema. */
  predicate IsInvalid(a: Completion) {
    a.Answer? && !a.leaks && a.payload.None?
  }

  /** A clean answer with this payload. */
  predicate IsValid(a: Completion, payload: seq<Member>) {
    a.Answer? && !a.leaks && a.payload == Some(payload)
  }

  /**
   * One completion: every answer but the last was invalid and cost a repair;
   * the last decides, and only a clean, valid one is returned.
   */
  ghost predicate IsCompleted(c: Setting, s: State, t: State, r: Try<seq<Member>>) {
    && t.calls > s.calls && t.repairsUsed == s.repairsUsed + (t.calls - 1 - s.calls) <= c.maxRepairs
    && (forall k | s.calls <= k < t.calls - 1 :: IsInvalid(c.answers(k)))
    && IsDecided(c, c.answers(t.calls - 1), t.repairsUsed, r)
  }

  ghost predicate IsDecided(c: Setting, last: Completion, repairsUsed: nat, r: Try<seq<Member>>) {
    match r
    case Done(payload) => IsValid(last, payload)
    case Failed(retryable) => last == Down(retryable)
    case Hard => last.Answer? && (last.leaks || (last.payload.None? && repairsUsed == c.maxRepairs))
  }

  lemma {:induction false} CompletesExactly(c: Setting, s: State)
    requires s.repairsUsed <= c.maxRepairs
    ensures IsCompleted(c, s, Complete(c, s).0, Complete(c, s).1)
    decreases c.maxRepairs - s.repairsUsed
  {
    var a := c.answers(s.calls);
    if IsInvalid(a) && s.repairsUsed < c.maxRepairs {
      CompletesExactly(c, State(Add(s.usage, a.usage), s.repairsUsed + 1, s.calls + 1));
    } else {
      DecidesAtOnce(c, s);
    }
  }

  lemma DecidesAtOnce(c: Setting, s: State)
    requires s.repairsUsed <= c.maxRepairs
    requires IsInvalid(c.answers(s.calls)) ==> s.repairsUsed == c.maxRepairs
    ensures var (t, r) := Complete(c, s);
            && t.calls == s.calls + 1 && t.repairsUsed == s.repairsUsed
            && IsDecided(c, c.answers(s.calls), s.repairsUsed, r)
  {
  }

  lemma {:induction false} EntryReturns(c: Setting, s: State, entry: nat, k: nat)
    requires s.repairsUsed <= c.maxRepairs && k <= PER_ENTRY_RETRIES
    ensures var (t, r) := RunEntry(RunOne(c), s, entry, k);
            && t.repairsUsed <= c.maxRepairs
            && (r.Done? ==> t.calls > 0 && IsValid(c.answers(t.calls - 1), r.result))
    decreases PER_ENTRY_RETRIES - k
  {
    if c.ready(entry, k) {
      CompletesExactly(c, s);
      var (t, r) := Complete(c, s);
      if r == Failed(true) && k < PER_ENTRY_RETRIES {
        EntryReturns(c, t, entry, k + 1);
      }
    }
  }

  lemma {:induction false} ChainReturns(c: Setting, s: State, entry: nat, any: bool)
    requires s.repairsUsed <= c.maxRepairs && entry <= c.entries
    ensures var (t, end) := RunChain(RunOne(c), s, c.entries, entry, any);
            end.Returned? ==> t.calls > 0 && IsValid(c.answers(t.calls - 1), end.result)
    decreases c.entries - entry
  {
    if entry < c.entries {
      EntryReturns(c, s, entry, 0);
      var (t, r) := RunEntry(RunOne(c), s, entry, 0);
      if r.Failed? {
        ChainReturns(c, t, entry + 1, any || r.retryable);
      }
    }
  }

  /** A judgement returns nothing but the payload of its last answer, which is clean and on the schema. */
  lemma JudgementIsAnAnswer(c: Setting)
    ensures var (s, end) := JudgeProse(c);
            end.Returned? ==> s.calls > 0 && IsValid(c.answers(s.calls - 1), end.result)
  {
    ChainReturns(c, START, 0, false);
  }

  /** An entry whose adapter or key does not resolve makes no call, and the chain goes on past it. */
  lemma UnreadyEntryIsSkipped(c: Setting, entry: nat)
    requires !c.ready(entry, 0)
    ensures StateAt(RunOne(c), START, entry + 1) == StateAt(RunOne(c), START, entry)
    ensures EntryEnd(RunOne(c), START, entry) == Failed(false)
  {
    EntryIsTriedTwiceAtMost(RunOne(c), START, entry);
  }
}
