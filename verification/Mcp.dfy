/**
 * MCP calls (src/ravana/runtime/toolkits/mcp_server.py): the dispatch phase
 * that classifies every failure, and why it makes a remote call happen at most
 * once per idempotency key.
 */
module Mcp {
  import opened Outcomes
  import opened Ledger

  const SEPARATOR := "__"

  function QualifiedToolName(toolkit: string, sub: string): string {
    toolkit + SEPARATOR + sub
  }

  /** The prefix test of `_resolve_sub_tool` and `is_side_effecting_for_tool`. */
  function WithoutPrefix(toolkit: string, tool: string): string {
    if toolkit + SEPARATOR <= tool then tool[|toolkit + SEPARATOR|..] else tool
  }

  /**
   * The executor classifies the qualified name and the handler the resolved
   * one: they agree on every sub-tool, even one whose own name starts with the
   * toolkit's prefix, because each side strips exactly once.
   */
  lemma ClassifiesTheToolItCalls(toolkit: string, sub: string)
    ensures WithoutPrefix(toolkit, QualifiedToolName(toolkit, sub)) == sub
  {
    var prefix := toolkit + SEPARATOR;
    assert QualifiedToolName(toolkit, sub) == prefix + sub;
    assert (prefix + sub)[..|prefix|] == prefix;
  }

  /** What can break into a call. */
  datatype Interrupt = TimedOut | Cancelled | Threw

  /** One call as the outside world decides it, in the order the source meets it. */
  datatype Script = Script(credentialOk: bool, open: Option<Interrupt>, invoke: Option<Interrupt>,
                           leaks: bool, close: Option<Interrupt>, result: string)

  /** What broke into the call last: a failing cleanup replaces whatever came before. */
  function LastBreak(script: Script): Option<Interrupt> {
    if script.close.Some? then script.close else if script.open.Some? then script.open else script.invoke
  }

  /** Nothing breaks in, and the answer leaks nothing. */
  predicate IsSmooth(script: Script) {
    script.credentialOk && script.open.None? && script.invoke.None? && script.close.None? && !script.leaks
  }

  /** What the handler hands to the executor. */
  datatype Reply =
    | Result(text: string)
    | TransientError
    | FatalError
    | UnknownOutcome
    | RetrySafeCancellation

  function ToOutcome(r: Reply): Outcome {
    match r
    case Result(text) => Returned(text)
    case TransientError => Raised
    case FatalError => Raised
    case UnknownOutcome => OutcomeUnknown
    case RetrySafeCancellation => RetrySafeCancelled
  }

  /** Inside `_call_once`: still running, or on the way out with a reply or a bare interrupt. */
  datatype Unwinding = Running | Exits(reply: Reply) | Interrupted(cause: Interrupt)

  class Call {
    const sideEffecting: bool
    var dispatched: bool
    /** How often `session.call_tool` was reached. */
    var calls: nat

    constructor (mutates: bool)
      ensures sideEffecting == mutates && !dispatched && calls == 0
    {
      sideEffecting := mutates;
      dispatched := false;
      calls := 0;
    }

    /** `_failure_for_phase` */
    function FailureForPhase(retrySafe: bool): Reply
      reads this
    {
      if !dispatched then if retrySafe then RetrySafeCancellation else TransientError
      else if sideEffecting then UnknownOutcome
      else TransientError
    }

    /** An ordinary exception is classified where it is caught; timeouts and cancels unwind further. */
    function Classify(i: Interrupt): Unwinding
      reads this
    {
      if i == Threw then Exits(FailureForPhase(false)) else Interrupted(i)
    }

    /** `_call_once`: credential, session, dispatch, secret gate, session cleanup. */
    method CallOnce(script: Script) returns (u: Unwinding)
      requires !dispatched && calls == 0
      modifies this
      ensures dispatched <==> script.credentialOk && script.open.None?
      ensures calls == if dispatched then 1 else 0
      ensures !u.Running? && u != Interrupted(Threw) && u != Exits(RetrySafeCancellation)
      ensures u == Exits(FatalError) <==> !script.credentialOk
      ensures u == Exits(Result(script.result)) <==> IsSmooth(script)
      ensures u.Exits? && u.reply.Result? ==> u.reply.text == script.result
      ensures forall i :: u == Interrupted(i) <==>
                            script.credentialOk && LastBreak(script) == Some(i) && i in {TimedOut, Cancelled}
      ensures u == Exits(UnknownOutcome) <==>
                dispatched && if LastBreak(script).None? then script.leaks
                              else LastBreak(script) == Some(Threw) && sideEffecting
      ensures u == Exits(TransientError) <==>
                script.credentialOk && LastBreak(script) == Some(Threw) && !(dispatched && sideEffecting)
    {
      if !script.credentialOk {
        return Exits(FatalError);
      }
      u := Running;
      if script.open.Some? {
        u := Classify(script.open.value);
      } else {
        dispatched := true;
        calls := calls + 1;
        if script.invoke.Some? {
          u := Classify(script.invoke.value);
        } else if script.leaks {
          u := Exits(UnknownOutcome);
        } else {
          u := Exits(Result(script.result));
        }
      }
      // leaving the session runs its cleanup, whose own failure replaces the exit
      if script.close.Some? {
        u := Classify(script.close.value);
      }
    }

    /** `call`: the timeout and the cancellation are classified by the same phase. */
    method Invoke(script: Script) returns (reply: Reply)
      requires !dispatched && calls == 0
      modifies this
      ensures calls == (if dispatched then 1 else 0)
      ensures dispatched <==> script.credentialOk && script.open.None?
      ensures sideEffecting ==> McpAllows(dispatched, ToOutcome(reply))
      ensures reply.Result? <==> IsSmooth(script)
      ensures reply.Result? ==> reply.text == script.result
      ensures reply.FatalError? <==> !script.credentialOk
      ensures reply.UnknownOutcome? <==>
                dispatched && if LastBreak(script).None? then script.leaks else sideEffecting
      ensures reply.RetrySafeCancellation? <==>
                script.credentialOk && !dispatched && LastBreak(script) == Some(Cancelled)
      ensures reply.TransientError? <==>
                script.credentialOk && LastBreak(script).Some?
                && if dispatched then !sideEffecting else LastBreak(script) != Some(Cancelled)
    {
      var u := CallOnce(script);
      match u {
        case Exits(r) => reply := r;
        case Interrupted(i) => reply := FailureForPhase(i == Cancelled);
      }
    }
  }

  /**
   * What a side-effecting call may report: after dispatch a result or an
   * unknown outcome, before it only failures that are safe to retry. A call
   * that dies with the process reports nothing.
   */
  predicate McpAllows(dispatched: bool, outcome: Outcome) {
    if dispatched then outcome.Returned? || outcome.OutcomeUnknown? || outcome.Uncaught?
    else outcome.Raised? || outcome.RetrySafeCancelled? || outcome.Uncaught?
  }

  /** The executor runs with the MCP handler: every finish is one the handler may report. */
  ghost predicate McpRun(actions: seq<Action>) {
    actions == [] ||
    var init, last := actions[..|actions| - 1], actions[|actions| - 1];
    && McpRun(init)
    && (last.DoFinish? && last.e in Run(init).jobs ==> McpAllows(Run(init).jobs[last.e].dispatched, last.outcome))
  }

  function DispatchesOf(history: seq<Happening>, key: Key): nat {
    if history == [] then 0
    else DispatchesOf(history[..|history| - 1], key) + if history[|history| - 1] == Dispatched(key) then 1 else 0
  }

  /** A key that was ever dispatched is never FAILED again and its live job knows. */
  ghost predicate OnceAgrees(sys: System, key: Key) {
    var n := DispatchesOf(sys.history, key);
    && n <= 1
    && (n == 1 ==> key in sys.rows && sys.rows[key].status != Failed)
    && (forall e | e in sys.jobs && sys.jobs[e].key == key :: sys.jobs[e].dispatched <==> n == 1)
  }

  lemma DispatchesAppend(history: seq<Happening>, h: Happening, key: Key)
    ensures DispatchesOf(history + [h], key) == DispatchesOf(history, key) + if h == Dispatched(key) then 1 else 0
  {
    assert (history + [h])[..|history|] == history;
  }

  /** Only a dispatch step adds a dispatch. */
  lemma DispatchesMove(sys: System, a: Action, key: Key)
    ensures DispatchesOf(Step(sys, a).history, key) ==
            DispatchesOf(sys.history, key) +
            if a.DoDispatch? && Seen(sys, a) != [] && sys.jobs[a.e].key == key then 1 else 0
  {
    var seen := Seen(sys, a);
    StepSees(sys, a);
    if |seen| == 0 {
      assert sys.history + seen == sys.history;
    } else {
      DispatchesAppend(sys.history, seen[0], key);
      if |seen| == 1 {
        assert sys.history + seen == sys.history + [seen[0]];
      } else {
        DispatchesAppend(sys.history + [seen[0]], seen[1], key);
        assert sys.history + seen == sys.history + [seen[0]] + [seen[1]];
      }
    }
  }

  lemma OnceKept(sys: System, a: Action, key: Key)
    requires Inv(sys) && OnceAgrees(sys, key)
    requires a.DoFinish? && a.e in sys.jobs ==> McpAllows(sys.jobs[a.e].dispatched, a.outcome)
    ensures OnceAgrees(Step(sys, a), key)
  {
    DispatchesMove(sys, a, key);
    if a.e in sys.jobs {
      assert JobAgrees(sys, a.e);
    }
  }

  /**
   * At most once: under every interleaving, retry, timeout, cancellation,
   * cleanup failure and crash, the remote tool is reached at most once for an
   * idempotency key.
   */
  lemma {:induction false} CalledAtMostOnce(actions: seq<Action>, key: Key)
    requires McpRun(actions)
    ensures DispatchesOf(Run(actions).history, key) <= 1
    ensures OnceAgrees(Run(actions), key)
  {
    if actions != [] {
      var init := actions[..|actions| - 1];
      CalledAtMostOnce(init, key);
      RunKeeps(init);
      OnceKept(Run(init), actions[|actions| - 1], key);
    }
  }
}
