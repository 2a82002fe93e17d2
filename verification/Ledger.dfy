/**
 * The idempotency ledger around side-effecting tools
 * (src/ravana/runtime/tool_executor.py): a durable claim before the handler
 * runs, a recorded outcome after it. Executors interleave, and a process may
 * die between any two steps.
 */
module Ledger {
  import opened Outcomes

  type Key = string

  datatype Scope = Scope(run: string, node: string, tool: string)

  datatype Status = Started | Succeeded | Failed

  datatype Row = Row(scope: Scope, status: Status, result: Option<string>)

  type Table = map<Key, Row>

  /** How a claim ends: dispatch, a stored result, or one of the refusals. */
  datatype Claimed =
    | Granted
    | Replayed(result: string)
    | MayHaveRun
    | KeyCollides
    | NoStoredResult

  /** `_claim`, one transaction. */
  function Claim(rows: Table, key: Key, scope: Scope): (Table, Claimed) {
    if key !in rows then (rows[key := Row(scope, Started, None)], Granted)
    else if rows[key].scope != scope then (rows, KeyCollides)
    else
      match rows[key].status
      case Failed => (rows[key := Row(scope, Started, None)], Granted)
      case Succeeded => (rows, if rows[key].result.Some? then Replayed(rows[key].result.value) else NoStoredResult)
      case Started => (rows, MayHaveRun)
  }

  /** Nobody claimed the key, or the claim failed in the same scope. */
  predicate IsFree(rows: Table, key: Key, scope: Scope) {
    key !in rows || (rows[key].scope == scope && rows[key].status == Failed)
  }

  /** What a handler's call came to, as the executor's except clauses see it. */
  datatype Outcome =
    | Returned(result: string)
    | OutcomeUnknown
    | RetrySafeCancelled
    | Raised
    | Uncaught

  /** The row a finished call would write, and whether the row was still this executor's claim. */
  function Record(rows: Table, key: Key, scope: Scope, outcome: Outcome): (Table, bool) {
    if outcome.Uncaught? then (rows, true)
    else if key !in rows || rows[key].scope != scope || rows[key].status != Started then (rows, false)
    else
      match outcome
      case Returned(result) => (rows[key := Row(scope, Succeeded, Some(result))], true)
      case OutcomeUnknown => (rows, true)
      case _ => (rows[key := Row(scope, Failed, None)], true)
  }

  /** The executor object over its table. */
  class ToolExecutor {
    var rows: Table

    constructor ()
      ensures rows == map[]
    {
      rows := map[];
    }

    /** `_claim` */
    method ClaimKey(key: Key, scope: Scope) returns (r: Claimed)
      modifies this
      ensures (rows, r) == Claim(old(rows), key, scope)
      ensures r == Granted <==> IsFree(old(rows), key, scope)
      ensures rows == if r == Granted then old(rows)[key := Row(scope, Started, None)] else old(rows)
      ensures forall result :: r == Replayed(result) <==>
                                 key in rows && rows[key] == Row(scope, Succeeded, Some(result))
      ensures r == KeyCollides <==> key in rows && rows[key].scope != scope
      ensures r == MayHaveRun <==> key in old(rows) && old(rows)[key].scope == scope && old(rows)[key].status == Started
    {
      if key !in rows { // INSERT OR IGNORE took effect
        rows := rows[key := Row(scope, Started, None)];
        return Granted;
      }
      var prior := rows[key];
      if prior.scope != scope {
        return KeyCollides;
      }
      if prior.status == Failed {
        rows := rows[key := Row(scope, Started, None)];
        return Granted;
      }
      if prior.status == Succeeded {
        if prior.result.None? {
          return NoStoredResult;
        }
        return Replayed(prior.result.value);
      }
      r := MayHaveRun;
    }

    /** `_record` and `_record_indeterminate`; false is the lost-claim error. */
    method RecordOutcome(key: Key, scope: Scope, outcome: Outcome) returns (held: bool)
      modifies this
      ensures (rows, held) == Record(old(rows), key, scope, outcome)
    {
      if outcome.Uncaught? {
        return true;
      }
      held := key in rows && rows[key].scope == scope && rows[key].status == Started;
      if held {
        if outcome.Returned? {
          rows := rows[key := Row(scope, Succeeded, Some(outcome.result))];
        } else if !outcome.OutcomeUnknown? {
          rows := rows[key := Row(scope, Failed, None)];
        }
      }
    }

    /** `execute` with nobody interleaving: a read-only call never touches the ledger. */
    method Execute(key: Key, scope: Scope, sideEffecting: bool, handler: Outcome)
      returns (called: bool, result: Option<string>)
      modifies this
      ensures called <==> !sideEffecting || IsFree(old(rows), key, scope)
      ensures rows == if !sideEffecting || !called then old(rows)
                      else old(rows)[key := match handler
                                            case Returned(text) => Row(scope, Succeeded, Some(text))
                                            case Raised => Row(scope, Failed, None)
                                            case RetrySafeCancelled => Row(scope, Failed, None)
                                            case OutcomeUnknown => Row(scope, Started, None)
                                            case Uncaught => Row(scope, Started, None)]
      ensures result == if called then (if handler.Returned? then Some(handler.result) else None)
                        else if rows[key].scope == scope && rows[key].status == Succeeded then rows[key].result
                        else None
    {
      result := None;
      if sideEffecting {
        var claim := ClaimKey(key, scope);
        if claim.Replayed? {
          return false, Some(claim.result);
        }
        if claim != Granted {
          return false, None;
        }
      }
      called := true;
      if sideEffecting {
        var held := RecordOutcome(key, scope, handler);
        assert held;
      }
      if handler.Returned? {
        result := Some(handler.result);
      }
    }
  }

  // ---- interleavings ----

  /** A granted claim in progress; `dispatched` once its remote effect may have begun. */
  datatype Job = Job(key: Key, scope: Scope, invoked: bool, dispatched: bool)

  /** What an observer of the handlers and the callers sees, in order. */
  datatype Happening =
    | Invoked(key: Key)
    | Dispatched(key: Key)
    | RecordedFailed(key: Key)
    | RecordedSucceeded(key: Key, result: string)
    | Delivered(key: Key, result: string)
    | LostClaim(key: Key)

  datatype System = System(rows: Table, jobs: map<nat, Job>, history: seq<Happening>)

  datatype Action =
    | DoClaim(e: nat, key: Key, scope: Scope)
    | DoInvoke(e: nat)
    | DoDispatch(e: nat)
    | DoFinish(e: nat, outcome: Outcome)
    | DoCrash(e: nat)

  function Step(sys: System, a: Action): System {
    match a
    case DoClaim(e, key, scope) =>
      if e in sys.jobs then sys
      else
        var (rows, r) := Claim(sys.rows, key, scope);
        if r == Granted then sys.(rows := rows, jobs := sys.jobs[e := Job(key, scope, false, false)])
        else if r.Replayed? then sys.(history := sys.history + [Delivered(key, r.result)])
        else sys
    case DoInvoke(e) =>
      if e !in sys.jobs || sys.jobs[e].invoked then sys
      else sys.(jobs := sys.jobs[e := sys.jobs[e].(invoked := true)],
                history := sys.history + [Invoked(sys.jobs[e].key)])
    case DoDispatch(e) =>
      if e !in sys.jobs || !sys.jobs[e].invoked || sys.jobs[e].dispatched then sys
      else sys.(jobs := sys.jobs[e := sys.jobs[e].(dispatched := true)],
                history := sys.history + [Dispatched(sys.jobs[e].key)])
    case DoFinish(e, outcome) =>
      if e !in sys.jobs || !sys.jobs[e].invoked then sys
      else
        var job := sys.jobs[e];
        var (rows, held) := Record(sys.rows, job.key, job.scope, outcome);
        System(rows, sys.jobs - {e}, sys.history + Observed(job.key, outcome, held))
    case DoCrash(e) => sys.(jobs := sys.jobs - {e})
  }

  function Observed(key: Key, outcome: Outcome, held: bool): seq<Happening> {
    if !held then [LostClaim(key)]
    else
      match outcome
      case Returned(result) => [RecordedSucceeded(key, result), Delivered(key, result)]
      case RetrySafeCancelled => [RecordedFailed(key)]
      case Raised => [RecordedFailed(key)]
      case _ => []
  }

  function Run(actions: seq<Action>): System {
    if actions == [] then System(map[], map[], [])
    else Step(Run(actions[..|actions| - 1]), actions[|actions| - 1])
  }

  /** What the history says of one key. */
  datatype Story = Untouched | InFlight | FailedLast | Done(result: string)

  function Tell(history: seq<Happening>, key: Key): Story {
    if history == [] then Untouched
    else
      var earlier := Tell(history[..|history| - 1], key);
      match history[|history| - 1]
      case Invoked(k) => if k == key then InFlight else earlier
      case RecordedFailed(k) => if k == key then FailedLast else earlier
      case RecordedSucceeded(k, r) => if k == key then Done(r) else earlier
      case _ => earlier
  }

  /** No claim was ever lost, and each event of the key is one the story so far allows. */
  ghost predicate Proper(history: seq<Happening>, key: Key) {
    history == [] ||
    var init, last := history[..|history| - 1], history[|history| - 1];
    var story := Tell(init, key);
    Proper(init, key) &&
    match last
    case Invoked(k) => k == key ==> story == Untouched || story == FailedLast
    case RecordedFailed(k) => k == key ==> story == InFlight
    case RecordedSucceeded(k, _) => k == key ==> story == InFlight
    case Delivered(k, r) => k == key ==> story == Done(r)
    case LostClaim(k) => k != key
    case Dispatched(_) => true
  }

  /** How the row of a key, its live job and its story agree. */
  ghost predicate KeyAgrees(sys: System, key: Key) {
    var story := Tell(sys.history, key);
    && Proper(sys.history, key)
    && (key !in sys.rows ==> story == Untouched)
    && (key in sys.rows && sys.rows[key].status == Failed ==> story == FailedLast)
    && (key in sys.rows && sys.rows[key].status == Succeeded ==>
          sys.rows[key].result.Some? && story == Done(sys.rows[key].result.value))
    && (key in sys.rows && sys.rows[key].status == Started ==> !story.Done?)
  }

  ghost predicate JobAgrees(sys: System, e: nat)
    requires e in sys.jobs
  {
    var job := sys.jobs[e];
    && job.key in sys.rows && sys.rows[job.key].status == Started && sys.rows[job.key].scope == job.scope
    && (job.invoked <==> Tell(sys.history, job.key) == InFlight)
    && (job.dispatched ==> job.invoked)
  }

  ghost predicate Inv(sys: System) {
    && (forall key :: KeyAgrees(sys, key))
    && (forall e | e in sys.jobs :: JobAgrees(sys, e))
    && (forall e, f | e in sys.jobs && f in sys.jobs && e != f :: sys.jobs[e].key != sys.jobs[f].key)
  }

  lemma TellAppend(history: seq<Happening>, h: Happening, key: Key)
    ensures (history + [h])[..|history|] == history
    ensures h.key != key ==> Tell(history + [h], key) == Tell(history, key)
    ensures h.key != key ==> (Proper(history + [h], key) <==> Proper(history, key))
  {
    assert (history + [h])[..|history|] == history;
  }

  lemma FinishKeeps(sys: System, e: nat, outcome: Outcome)
    requires Inv(sys) && e in sys.jobs && sys.jobs[e].invoked
    ensures Inv(Step(sys, DoFinish(e, outcome)))
  {
    var job, t := sys.jobs[e], Step(sys, DoFinish(e, outcome));
    assert JobAgrees(sys, e) && KeyAgrees(sys, job.key);
    var (rows, held) := Record(sys.rows, job.key, job.scope, outcome);
    assert held;
    var seen := Observed(job.key, outcome, held);
    forall key
      ensures key != job.key ==> Tell(t.history, key) == Tell(sys.history, key)
      ensures key != job.key ==> Proper(t.history, key) == Proper(sys.history, key)
      ensures KeyAgrees(t, key)
    {
      assert KeyAgrees(sys, key);
      FinishTells(sys.history, job.key, outcome, key);
    }
    forall f | f in t.jobs
      ensures JobAgrees(t, f)
    {
      assert JobAgrees(sys, f) && sys.jobs[f].key != job.key;
    }
  }

  lemma FinishTells(history: seq<Happening>, own: Key, outcome: Outcome, key: Key)
    requires Proper(history, own) && Tell(history, own) == InFlight
    ensures var more := history + Observed(own, outcome, true);
            && (key != own ==> Tell(more, key) == Tell(history, key) && (Proper(more, key) <==> Proper(history, key)))
            && Proper(more, own)
            && Tell(more, own) == match outcome
                                  case Returned(r) => Done(r)
                                  case RetrySafeCancelled => FailedLast
                                  case Raised => FailedLast
                                  case _ => InFlight
  {
    var seen := Observed(own, outcome, true);
    if |seen| == 0 {
      assert history + seen == history;
    } else {
      TellAppend(history, seen[0], key);
      TellAppend(history, seen[0], own);
      if |seen| == 1 {
        assert history + seen == history + [seen[0]];
      } else {
        TellAppend(history + [seen[0]], seen[1], key);
        TellAppend(history + [seen[0]], seen[1], own);
        assert history + seen == history + [seen[0]] + [seen[1]];
      }
    }
  }

  lemma ClaimKeeps(sys: System, e: nat, key: Key, scope: Scope)
    requires Inv(sys) && e !in sys.jobs
    ensures Inv(Step(sys, DoClaim(e, key, scope)))
  {
    var t := Step(sys, DoClaim(e, key, scope));
    assert KeyAgrees(sys, key);
    var r := Claim(sys.rows, key, scope).1;
    forall k
      ensures KeyAgrees(t, k)
    {
      assert KeyAgrees(sys, k);
      if r.Replayed? {
        TellAppend(sys.history, Delivered(key, r.result), k);
      }
    }
    forall f | f in t.jobs
      ensures JobAgrees(t, f)
    {
      if f in sys.jobs {
        assert JobAgrees(sys, f);
        if r.Replayed? {
          TellAppend(sys.history, Delivered(key, r.result), sys.jobs[f].key);
        }
      }
    }
  }

  lemma MarkKeeps(sys: System, e: nat, a: Action, h: Happening)
    requires Inv(sys) && e in sys.jobs
    requires (a == DoInvoke(e) && !sys.jobs[e].invoked && h == Invoked(sys.jobs[e].key))
             || (a == DoDispatch(e) && sys.jobs[e].invoked && !sys.jobs[e].dispatched
                 && h == Dispatched(sys.jobs[e].key))
    ensures Inv(Step(sys, a))
  {
    var t := Step(sys, a);
    assert JobAgrees(sys, e);
    forall k
      ensures KeyAgrees(t, k)
    {
      assert KeyAgrees(sys, k);
      TellAppend(sys.history, h, k);
    }
    forall f | f in t.jobs
      ensures JobAgrees(t, f)
    {
      assert JobAgrees(sys, f);
      TellAppend(sys.history, h, sys.jobs[f].key);
    }
  }

  lemma StepKeeps(sys: System, a: Action)
    requires Inv(sys)
    ensures Inv(Step(sys, a))
  {
    match a {
      case DoClaim(e, key, scope) =>
        if e !in sys.jobs {
          ClaimKeeps(sys, e, key, scope);
        }
      case DoInvoke(e) =>
        if e in sys.jobs && !sys.jobs[e].invoked {
          MarkKeeps(sys, e, a, Invoked(sys.jobs[e].key));
        }
      case DoDispatch(e) =>
        if e in sys.jobs && sys.jobs[e].invoked && !sys.jobs[e].dispatched {
          MarkKeeps(sys, e, a, Dispatched(sys.jobs[e].key));
        }
      case DoFinish(e, outcome) =>
        if e in sys.jobs && sys.jobs[e].invoked {
          FinishKeeps(sys, e, outcome);
        }
      case DoCrash(e) =>
        CrashKeeps(sys, e);
    }
  }

  lemma CrashKeeps(sys: System, e: nat)
    requires Inv(sys)
    ensures Inv(sys.(jobs := sys.jobs - {e}))
  {
    var t := sys.(jobs := sys.jobs - {e});
    forall k
      ensures KeyAgrees(t, k)
    {
      assert KeyAgrees(sys, k);
    }
    forall f | f in t.jobs
      ensures JobAgrees(t, f)
    {
      assert JobAgrees(sys, f);
    }
  }

  lemma {:induction false} RunKeeps(actions: seq<Action>)
    ensures Inv(Run(actions))
  {
    if actions == [] {
      forall k
        ensures KeyAgrees(Run(actions), k)
      {
      }
    } else {
      RunKeeps(actions[..|actions| - 1]);
      StepKeeps(Run(actions[..|actions| - 1]), actions[|actions| - 1]);
    }
  }

  /**
   * Exclusion and replay, under every interleaving and every crash: at most
   * one live executor holds a key, and its row is STARTED in its own scope, so
   * its record updates exactly that row; and the history of every key is
   * proper - an invocation only first or after a recorded failure, no lost
   * claim, and every delivered result the one recorded.
   */
  lemma LedgerIsExclusive(actions: seq<Action>, key: Key)
    ensures var sys := Run(actions);
            && (forall e, f | e in sys.jobs && f in sys.jobs && sys.jobs[e].key == key == sys.jobs[f].key :: e == f)
            && (forall e, o | e in sys.jobs :: Record(sys.rows, sys.jobs[e].key, sys.jobs[e].scope, o).1)
            && Proper(sys.history, key)
  {
    RunKeeps(actions);
    assert KeyAgrees(Run(actions), key);
    var sys := Run(actions);
    forall e | e in sys.jobs
      ensures sys.jobs[e].key in sys.rows && sys.rows[sys.jobs[e].key].status == Started
              && sys.rows[sys.jobs[e].key].scope == sys.jobs[e].scope
    {
      assert JobAgrees(sys, e);
    }
  }

  /** Once a key has succeeded, every later claim in its scope replays that result and invokes nothing. */
  lemma SuccessIsReplayed(actions: seq<Action>, key: Key, result: string, a: Action)
    requires Tell(Run(actions).history, key) == Done(result)
    ensures var sys := Run(actions);
            && key in sys.rows && sys.rows[key].status == Succeeded && sys.rows[key].result == Some(result)
            && Claim(sys.rows, key, sys.rows[key].scope).1 == Replayed(result)
            && Tell(Step(sys, a).history, key) == Done(result)
            && key in Step(sys, a).rows && Step(sys, a).rows[key] == sys.rows[key]
  {
    RunKeeps(actions);
    var sys := Run(actions);
    assert KeyAgrees(sys, key);
    StepKeeps(sys, a);
    assert KeyAgrees(Step(sys, a), key);
    forall e | e in sys.jobs
      ensures sys.jobs[e].key != key
    {
      assert JobAgrees(sys, e);
    }
  }

  /** Success is final: no later step adds an invocation, and the recorded result never changes. */
  lemma {:induction false} SuccessIsFinal(actions: seq<Action>, more: seq<Action>, key: Key, result: string)
    requires Tell(Run(actions).history, key) == Done(result)
    ensures Tell(Run(actions + more).history, key) == Done(result)
    ensures InvocationsOf(Run(actions + more).history, key) == InvocationsOf(Run(actions).history, key)
  {
    if more == [] {
      assert actions + more == actions;
    } else {
      var init, last := more[..|more| - 1], more[|more| - 1];
      SuccessIsFinal(actions, init, key, result);
      assert (actions + more)[..|actions + more| - 1] == actions + init;
      SuccessIsReplayed(actions + init, key, result, last);
      SuccessInvokesNothing(actions + init, key, result, last);
    }
  }

  lemma SuccessInvokesNothing(actions: seq<Action>, key: Key, result: string, a: Action)
    requires Tell(Run(actions).history, key) == Done(result)
    ensures InvocationsOf(Step(Run(actions), a).history, key) == InvocationsOf(Run(actions).history, key)
  {
    var sys := Run(actions);
    RunKeeps(actions);
    assert KeyAgrees(sys, key);
    StepSees(sys, a);
    forall e | e in sys.jobs
      ensures sys.jobs[e].key != key
    {
      assert JobAgrees(sys, e);
    }
    NoInvocation(sys.history, Seen(sys, a), key);
  }

  lemma {:induction false} NoInvocation(history: seq<Happening>, more: seq<Happening>, key: Key)
    requires Invoked(key) !in more
    ensures InvocationsOf(history + more, key) == InvocationsOf(history, key)
  {
    if more == [] {
      assert history + more == history;
    } else {
      assert (history + more)[..|history + more| - 1] == history + more[..|more| - 1];
      NoInvocation(history, more[..|more| - 1], key);
    }
  }

  /** A STARTED row nobody holds any more. */
  ghost predicate Abandoned(sys: System, key: Key) {
    && key in sys.rows && sys.rows[key].status == Started
    && forall e | e in sys.jobs :: sys.jobs[e].key != key
  }

  /** An abandoned claim stays abandoned: its handler is never invoked again, by any later step. */
  lemma {:induction false} AbandonedIsNeverInvoked(actions: seq<Action>, more: seq<Action>, key: Key)
    requires Abandoned(Run(actions), key)
    ensures Abandoned(Run(actions + more), key)
    ensures Tell(Run(actions + more).history, key) == Tell(Run(actions).history, key)
    ensures InvocationsOf(Run(actions + more).history, key) == InvocationsOf(Run(actions).history, key)
  {
    if more == [] {
      assert actions + more == actions;
    } else {
      var init := more[..|more| - 1];
      AbandonedIsNeverInvoked(actions, init, key);
      assert (actions + more)[..|actions + more| - 1] == actions + init;
      AbandonedStep(Run(actions + init), more[|more| - 1], key);
    }
  }

  function InvocationsOf(history: seq<Happening>, key: Key): nat {
    if history == [] then 0
    else InvocationsOf(history[..|history| - 1], key) + if history[|history| - 1] == Invoked(key) then 1 else 0
  }

  /** What a step adds to the history. */
  function Seen(sys: System, a: Action): seq<Happening> {
    match a
    case DoClaim(e, key, scope) =>
      var r := Claim(sys.rows, key, scope).1;
      if e !in sys.jobs && r.Replayed? then [Delivered(key, r.result)] else []
    case DoInvoke(e) => if e in sys.jobs && !sys.jobs[e].invoked then [Invoked(sys.jobs[e].key)] else []
    case DoDispatch(e) =>
      if e in sys.jobs && sys.jobs[e].invoked && !sys.jobs[e].dispatched then [Dispatched(sys.jobs[e].key)] else []
    case DoFinish(e, outcome) =>
      if e !in sys.jobs || !sys.jobs[e].invoked then []
      else
        var job := sys.jobs[e];
        Observed(job.key, outcome, Record(sys.rows, job.key, job.scope, outcome).1)
    case DoCrash(e) => []
  }

  lemma StepSees(sys: System, a: Action)
    ensures Step(sys, a).history == sys.history + Seen(sys, a)
  {
  }

  lemma {:induction false} OthersTellNothing(history: seq<Happening>, more: seq<Happening>, key: Key)
    requires forall h | h in more :: h.key != key
    ensures Tell(history + more, key) == Tell(history, key)
    ensures InvocationsOf(history + more, key) == InvocationsOf(history, key)
  {
    if more == [] {
      assert history + more == history;
    } else {
      assert (history + more)[..|history + more| - 1] == history + more[..|more| - 1];
      OthersTellNothing(history, more[..|more| - 1], key);
    }
  }

  lemma AbandonedStep(sys: System, a: Action, key: Key)
    requires Abandoned(sys, key)
    ensures Abandoned(Step(sys, a), key)
    ensures Tell(Step(sys, a).history, key) == Tell(sys.history, key)
    ensures InvocationsOf(Step(sys, a).history, key) == InvocationsOf(sys.history, key)
  {
    StepSees(sys, a);
    OthersTellNothing(sys.history, Seen(sys, a), key);
  }

  // ---- what the ledger grants ----

  /**
   * In every reachable state a free executor's claim opens its job exactly if
   * the key has no row or its row failed in the same scope; it then holds the
   * key, and otherwise nothing but a replay is seen.
   */
  lemma GrantsExactly(actions: seq<Action>, e: nat, key: Key, scope: Scope)
    requires e !in Run(actions).jobs
    ensures var sys := Run(actions); var after := Step(sys, DoClaim(e, key, scope));
            && (e in after.jobs <==> IsFree(sys.rows, key, scope))
            && (if e in after.jobs then
                  && after.jobs == sys.jobs[e := Job(key, scope, false, false)]
                  && after.rows == sys.rows[key := Row(scope, Started, None)] && after.history == sys.history
                else after.jobs == sys.jobs && after.rows == sys.rows)
            && (after.history != sys.history <==>
                  key in sys.rows && sys.rows[key].scope == scope && Tell(sys.history, key).Done?)
            && (after.history != sys.history ==>
                  after.history == sys.history + [Delivered(key, Tell(sys.history, key).result)])
  {
    RunKeeps(actions);
    assert KeyAgrees(Run(actions), key);
  }

  /** The row of the key failed in the scope, and nobody has claimed it since. */
  ghost predicate AwaitsRetry(sys: System, key: Key, scope: Scope) {
    && key in sys.rows && sys.rows[key] == Row(scope, Failed, None)
    && forall e | e in sys.jobs :: sys.jobs[e].key != key
  }

  lemma {:induction false} RetryAwaits(sys: System, more: seq<Action>, key: Key, scope: Scope)
    requires AwaitsRetry(sys, key, scope) && forall a | a in more && a.DoClaim? :: a.key != key
    ensures AwaitsRetry(RunFrom(sys, more), key, scope)
  {
    if more != [] {
      var init, last := more[..|more| - 1], more[|more| - 1];
      assert more == init + [last];
      RetryAwaits(sys, init, key, scope);
      StepAwaits(RunFrom(sys, init), last, key, scope);
    }
  }

  lemma StepAwaits(sys: System, a: Action, key: Key, scope: Scope)
    requires AwaitsRetry(sys, key, scope) && (a.DoClaim? ==> a.key != key)
    ensures AwaitsRetry(Step(sys, a), key, scope)
  {
  }

  function RunFrom(sys: System, actions: seq<Action>): System {
    if actions == [] then sys else Step(RunFrom(sys, actions[..|actions| - 1]), actions[|actions| - 1])
  }

  /**
   * A recorded failure is retried: whatever other keys do meanwhile, the next
   * claim in its scope is granted, and its invocation runs the handler once more.
   */
  lemma FailureIsRetried(actions: seq<Action>, e: nat, outcome: Outcome, more: seq<Action>, f: nat)
    requires e in Run(actions).jobs && Run(actions).jobs[e].invoked
    requires outcome.Raised? || outcome.RetrySafeCancelled?
    requires forall a | a in more && a.DoClaim? :: a.key != Run(actions).jobs[e].key
    requires f !in RunFrom(Step(Run(actions), DoFinish(e, outcome)), more).jobs
    ensures var job, sys := Run(actions).jobs[e], RunFrom(Step(Run(actions), DoFinish(e, outcome)), more);
            var retried := Step(Step(sys, DoClaim(f, job.key, job.scope)), DoInvoke(f));
            && retried.jobs == sys.jobs[f := Job(job.key, job.scope, true, false)]
            && retried.history == sys.history + [Invoked(job.key)]
            && InvocationsOf(retried.history, job.key) == InvocationsOf(sys.history, job.key) + 1
  {
    RunKeeps(actions);
    var failed, job := Step(Run(actions), DoFinish(e, outcome)), Run(actions).jobs[e];
    assert JobAgrees(Run(actions), e);
    RetryAwaits(failed, more, job.key, job.scope);
    var sys := RunFrom(failed, more);
    assert (sys.history + [Invoked(job.key)])[..|sys.history|] == sys.history;
  }
}
