/** The within-turn loops of the gateway: `_run_tool_loop` and `_run_guided` (src/ravana/runtime/gateway.py). */
module ToolLoop {
  import opened Outcomes

  const SUBMIT := "submit_result"

  datatype ToolCall = ToolCall(id: string, tool: string, arguments: string)

  datatype Message =
    | User(text: string)
    | Assistant(calls: seq<ToolCall>)
    | ToolResult(id: string, tool: string)

  /** What the provider sends back, or raises; `leaks` trips the secret gate. */
  datatype Response =
    | Reply(calls: seq<ToolCall>, input: nat, output: nat, leaks: bool)
    | ProviderDown(retryable: bool)

  /** What a granted, in-budget tool call comes to. */
  datatype Execution = Succeeded | ModelError | TransientError | FatalError | Leaked

  datatype Recorded = Recorded(tool: string, ordinal: nat)

  datatype Ending =
    | Submitted(arguments: string)
    | OutputError       // AgentOutputError: repairs or the ceiling exhausted
    | Transient         // TransientAgentError
    | HardError         // RuntimeError or a leaked secret
    | ProviderError(retryable: bool)

  /**
   * The limits, the granted tools, and everything the turn cannot foresee: the
   * n-th model call is answered by `provider(n)`, the tool call with ordinal k
   * by `execute(k)`, and `valid` is the output schema.
   */
  datatype Setting = Setting(maxToolCalls: nat, maxRepairs: nat, granted: set<string>,
                             provider: nat -> Response, execute: nat -> Execution, valid: string -> bool)

  datatype Turn = Turn(messages: seq<Message>, toolCalls: nat, repairs: nat, input: nat, output: nat,
                       recorded: seq<Recorded>, modelCalls: nat)

  const START := Turn([User("begin")], 0, 0, 0, 0, [], 0)

  function Ceiling(c: Setting): nat {
    c.maxToolCalls + c.maxRepairs + 2
  }

  function ErrorResult(call: ToolCall): Message {
    ToolResult(call.id, call.tool)
  }

  function SubmitsOf(calls: seq<ToolCall>): seq<ToolCall> {
    if calls == [] then []
    else
      var rest, last := SubmitsOf(calls[..|calls| - 1]), calls[|calls| - 1];
      if last.tool == SUBMIT then rest + [last] else rest
  }

  function OthersOf(calls: seq<ToolCall>): seq<ToolCall> {
    if calls == [] then []
    else
      var rest, last := OthersOf(calls[..|calls| - 1]), calls[|calls| - 1];
      if last.tool != SUBMIT then rest + [last] else rest
  }

  /** One tool call of a batch: refused, over budget, or executed; an ending aborts the turn. */
  function RunCall(c: Setting, t: Turn, call: ToolCall): (Turn, Option<Ending>) {
    var n := t.toolCalls + 1;
    var counted := t.(toolCalls := n);
    var answered := counted.(messages := t.messages + [ErrorResult(call)]);
    if call.tool !in c.granted || n > c.maxToolCalls then (answered, None)
    else
      match c.execute(n)
      case Succeeded => (answered.(recorded := t.recorded + [Recorded(call.tool, n)]), None)
      case ModelError => (answered, None)
      case TransientError => (counted, Some(Transient))
      case FatalError => (counted, Some(HardError))
      case Leaked => (counted, Some(HardError))
  }

  function RunCalls(c: Setting, t: Turn, calls: seq<ToolCall>): (Turn, Option<Ending>) {
    if calls == [] then (t, None)
    else
      var (earlier, ending) := RunCalls(c, t, calls[..|calls| - 1]);
      if ending.Some? then (earlier, ending) else RunCall(c, earlier, calls[|calls| - 1])
  }

  /** Each premature submit gets an "ignored" result. */
  function Ignore(messages: seq<Message>, submits: seq<ToolCall>): seq<Message> {
    if submits == [] then messages
    else Ignore(messages, submits[..|submits| - 1]) + [ErrorResult(submits[|submits| - 1])]
  }

  /** What one answered model call does to the turn. */
  function Answered(c: Setting, t: Turn, calls: seq<ToolCall>): (Turn, Option<Ending>) {
    var submits, others := SubmitsOf(calls), OthersOf(calls);
    if others != [] then
      var (ran, ending) := RunCalls(c, t.(messages := t.messages + [Assistant(calls)]), others);
      if ending.Some? then (ran, ending)
      else (ran.(messages := Ignore(ran.messages, submits)), None)
    else if submits != [] then
      if c.valid(submits[0].arguments) then (t, Some(Submitted(submits[0].arguments)))
      else if t.repairs >= c.maxRepairs then (t, Some(OutputError))
      else (t.(repairs := t.repairs + 1, messages := t.messages + [User("invalid")]), None)
    else (t.(toolCalls := t.toolCalls + 1, messages := t.messages + [User("submit now")]), None)
  }

  /** One round of the loop. */
  function Round(c: Setting, t: Turn): (Turn, Option<Ending>) {
    if t.modelCalls >= Ceiling(c) then (t, Some(OutputError))
    else
      var asked := t.(modelCalls := t.modelCalls + 1);
      match c.provider(t.modelCalls)
      case ProviderDown(retryable) => (asked, Some(ProviderError(retryable)))
      case Reply(calls, input, output, leaks) =>
        if leaks then (asked, Some(HardError))
        else Answered(c, asked.(input := t.input + input, output := t.output + output), calls)
  }

  function RunLoop(c: Setting, t: Turn): (Turn, Ending)
    decreases if t.modelCalls >= Ceiling(c) then 0 else Ceiling(c) - t.modelCalls
  {
    var (next, ending) := Round(c, t);
    if ending.Some? then (next, ending.value)
    else
      RoundCounts(c, t);
      RunLoop(c, next)
  }

  // ---- the loop as the source writes it ----

  class Gateway {
    const c: Setting
    var t: Turn
    /** Every message list sent to the provider, in order. */
    ghost var requests: seq<seq<Message>>

    constructor (setting: Setting)
      ensures c == setting && t == START && requests == []
    {
      c := setting;
      t := START;
      requests := [];
    }

    /** The `for tc in other_calls` loop. */
    method RunBatch(others: seq<ToolCall>) returns (ending: Option<Ending>)
      modifies this`t
      ensures (t, ending) == RunCalls(c, old(t), others)
    {
      for i := 0 to |others|
        invariant (t, None) == RunCalls(c, old(t), others[..i])
      {
        var call := others[i];
        assert others[..i + 1][..i] == others[..i];
        t := t.(toolCalls := t.toolCalls + 1);
        if call.tool !in c.granted {
          t := t.(messages := t.messages + [ErrorResult(call)]);
          continue;
        }
        if t.toolCalls > c.maxToolCalls {
          t := t.(messages := t.messages + [ErrorResult(call)]);
          continue;
        }
        match c.execute(t.toolCalls) {
          case FatalError =>
            RunCallsStops(c, old(t), others, i + 1);
            return Some(HardError);
          case TransientError =>
            RunCallsStops(c, old(t), others, i + 1);
            return Some(Transient);
          case Leaked =>
            RunCallsStops(c, old(t), others, i + 1);
            return Some(HardError);
          case ModelError =>
            t := t.(messages := t.messages + [ErrorResult(call)]);
          case Succeeded =>
            t := t.(recorded := t.recorded + [Recorded(call.tool, t.toolCalls)],
                    messages := t.messages + [ToolResult(call.id, call.tool)]);
        }
      }
      assert others[..|others|] == others;
      ending := None;
    }

    /** The `for sc in submit_calls` loop. */
    method IgnoreSubmits(submits: seq<ToolCall>)
      modifies this`t
      ensures t == old(t).(messages := Ignore(old(t).messages, submits))
    {
      for i := 0 to |submits|
        invariant t == old(t).(messages := Ignore(old(t).messages, submits[..i]))
      {
        assert submits[..i + 1][..i] == submits[..i];
        t := t.(messages := t.messages + [ErrorResult(submits[i])]);
      }
      assert submits[..|submits|] == submits;
    }

    /** The body of the loop after the provider has answered. */
    method HandleReply(calls: seq<ToolCall>) returns (ending: Option<Ending>)
      modifies this`t
      ensures (t, ending) == Answered(c, old(t), calls)
    {
      var submits, others := SubmitsOf(calls), OthersOf(calls);
      if others != [] {
        t := t.(messages := t.messages + [Assistant(calls)]);
        ending := RunBatch(others);
        if ending.None? {
          IgnoreSubmits(submits);
        }
        return;
      }
      if submits != [] {
        if c.valid(submits[0].arguments) {
          return Some(Submitted(submits[0].arguments));
        }
        if t.repairs >= c.maxRepairs {
          return Some(OutputError);
        }
        t := t.(repairs := t.repairs + 1, messages := t.messages + [User("invalid")]);
        return None;
      }
      t := t.(messages := t.messages + [User("submit now")], toolCalls := t.toolCalls + 1);
      ending := None;
    }

    /** `_run_tool_loop` */
    method RunToolLoop() returns (ending: Ending)
      requires t == START && requests == []
      modifies this
      ensures (t, ending) == RunLoop(c, START)
      ensures |requests| <= Ceiling(c)
      ensures forall r | r in requests :: Balanced(r)
    {
      while true
        invariant RunLoop(c, t) == RunLoop(c, START)
        invariant |requests| == t.modelCalls <= Ceiling(c)
        invariant Balanced(t.messages)
        invariant forall r | r in requests :: Balanced(r)
        decreases Ceiling(c) - t.modelCalls
      {
        if t.modelCalls >= Ceiling(c) {
          return OutputError;
        }
        RoundCounts(c, t);
        RoundKeepsBalance(c, t);
        var ended := AskModel();
        if ended.Some? {
          return ended.value;
        }
      }
    }

    /** One model call of the loop and what follows from it. */
    method AskModel() returns (ending: Option<Ending>)
      requires t.modelCalls < Ceiling(c)
      modifies this
      ensures (t, ending) == Round(c, old(t))
      ensures requests == old(requests) + [old(t).messages]
    {
      requests := requests + [t.messages];
      var response := c.provider(t.modelCalls);
      t := t.(modelCalls := t.modelCalls + 1);
      if response.ProviderDown? {
        return Some(ProviderError(response.retryable));
      }
      if response.leaks {
        return Some(HardError);
      }
      t := t.(input := t.input + response.input, output := t.output + response.output);
      ending := HandleReply(response.calls);
    }
  }

  lemma {:induction false} RunCallsStops(c: Setting, t: Turn, calls: seq<ToolCall>, n: nat)
    requires n <= |calls| && RunCalls(c, t, calls[..n]).1.Some?
    ensures RunCalls(c, t, calls) == RunCalls(c, t, calls[..n])
  {
    if n == |calls| {
      assert calls[..n] == calls;
    } else {
      assert calls[..|calls| - 1][..n] == calls[..n];
      RunCallsStops(c, t, calls[..|calls| - 1], n);
    }
  }

  // ---- budgets ----

  /** Ordinals rise strictly, and stay within both the calls counted and the budget. */
  ghost predicate OrdinalsRise(c: Setting, t: Turn) {
    && |t.recorded| <= t.toolCalls
    && (forall i, j | 0 <= i < j < |t.recorded| :: t.recorded[i].ordinal < t.recorded[j].ordinal)
    && (forall i | 0 <= i < |t.recorded| ::
          i < t.recorded[i].ordinal <= t.toolCalls && t.recorded[i].ordinal <= c.maxToolCalls)
  }

  ghost predicate InBudget(c: Setting, t: Turn) {
    OrdinalsRise(c, t) && t.repairs <= c.maxRepairs && t.modelCalls <= Ceiling(c)
  }

  lemma {:induction false} RunCallsCount(c: Setting, t: Turn, calls: seq<ToolCall>)
    requires OrdinalsRise(c, t)
    ensures var (u, ending) := RunCalls(c, t, calls);
            && OrdinalsRise(c, u)
            && u.toolCalls >= t.toolCalls && (calls != [] ==> u.toolCalls > t.toolCalls)
            && u == t.(messages := u.messages, toolCalls := u.toolCalls, recorded := u.recorded)
  {
    if calls != [] {
      RunCallsCount(c, t, calls[..|calls| - 1]);
    }
  }

  lemma {:induction false} RunCallsFrame(c: Setting, t: Turn, calls: seq<ToolCall>)
    ensures var (u, ending) := RunCalls(c, t, calls);
            && u.toolCalls >= t.toolCalls && (calls != [] ==> u.toolCalls > t.toolCalls)
            && u == t.(messages := u.messages, toolCalls := u.toolCalls, recorded := u.recorded)
  {
    if calls != [] {
      RunCallsFrame(c, t, calls[..|calls| - 1]);
    }
  }

  /** A round that goes on has made one model call and spent a tool call or a repair. */
  lemma RoundCounts(c: Setting, t: Turn)
    ensures var (u, ending) := Round(c, t);
            ending.None? ==>
              && u.modelCalls == t.modelCalls + 1 <= Ceiling(c)
              && ((u.toolCalls > t.toolCalls && u.repairs == t.repairs)
                  || (u.toolCalls == t.toolCalls && u.repairs == t.repairs + 1 <= c.maxRepairs))
  {
    if t.modelCalls < Ceiling(c) && c.provider(t.modelCalls).Reply? {
      var r := c.provider(t.modelCalls);
      RunCallsFrame(c, t.(modelCalls := t.modelCalls + 1, input := t.input + r.input,
                          output := t.output + r.output, messages := t.messages + [Assistant(r.calls)]),
                    OthersOf(r.calls));
    }
  }

  lemma RoundKeepsBudget(c: Setting, t: Turn)
    requires InBudget(c, t)
    ensures InBudget(c, Round(c, t).0)
  {
    if t.modelCalls < Ceiling(c) && c.provider(t.modelCalls).Reply? {
      var r := c.provider(t.modelCalls);
      AnsweredKeepsBudget(c, t.(modelCalls := t.modelCalls + 1, input := t.input + r.input,
                                output := t.output + r.output), r.calls);
    }
  }

  lemma AnsweredKeepsBudget(c: Setting, t: Turn, calls: seq<ToolCall>)
    requires InBudget(c, t)
    ensures InBudget(c, Answered(c, t, calls).0)
  {
    RunCallsCount(c, t.(messages := t.messages + [Assistant(calls)]), OthersOf(calls));
  }

  lemma {:induction false} LoopStaysInBudget(c: Setting, t: Turn)
    requires InBudget(c, t)
    ensures InBudget(c, RunLoop(c, t).0)
    decreases if t.modelCalls >= Ceiling(c) then 0 else Ceiling(c) - t.modelCalls
  {
    RoundCounts(c, t);
    RoundKeepsBudget(c, t);
    if Round(c, t).1.None? {
      LoopStaysInBudget(c, Round(c, t).0);
    }
  }

  lemma {:induction false} RisingIsShort(c: Setting, t: Turn, n: nat)
    requires OrdinalsRise(c, t) && n == |t.recorded|
    ensures n <= c.maxToolCalls
  {
    if n > 0 {
      assert n - 1 < t.recorded[n - 1].ordinal;
    }
  }

  /**
   * Every turn makes at most maxToolCalls + maxRepairs + 2 model calls, and
   * whatever it returns has executed calls and repairs within the guards the
   * engine applies afterwards; executed calls carry strictly rising ordinals.
   */
  lemma TurnIsWithinGuards(c: Setting)
    ensures var (t, ending) := RunLoop(c, START);
            && t.modelCalls <= c.maxToolCalls + c.maxRepairs + 2
            && |t.recorded| <= c.maxToolCalls && t.repairs <= c.maxRepairs
            && forall i, j | 0 <= i < j < |t.recorded| :: t.recorded[i].ordinal < t.recorded[j].ordinal
  {
    LoopStaysInBudget(c, START);
    RisingIsShort(c, RunLoop(c, START).0, |RunLoop(c, START).0.recorded|);
  }

  /** Once the tool budget is spent, the provider answers the forced tool with submits only. */
  ghost predicate ObeysForce(c: Setting, calls: seq<ToolCall>) {
    OthersOf(calls) == [] && SubmitsOf(calls) != []
  }

  /** A provider that never lets the forced tool down, for the turn as it unfolds. */
  ghost predicate Cooperative(c: Setting, t: Turn)
    decreases if t.modelCalls >= Ceiling(c) then 0 else Ceiling(c) - t.modelCalls
  {
    var response := c.provider(t.modelCalls);
    && (t.toolCalls >= c.maxToolCalls && response.Reply? ==> ObeysForce(c, response.calls))
    && (Round(c, t).1.None? ==> (RoundCounts(c, t); Cooperative(c, Round(c, t).0)))
  }

  /** Model calls never outrun what the counters explain. */
  ghost predicate Explained(c: Setting, t: Turn) {
    t.modelCalls <= (if t.toolCalls < c.maxToolCalls then t.toolCalls else c.maxToolCalls) + t.repairs
    && t.repairs <= c.maxRepairs
  }

  lemma {:induction false} CooperativeStaysExplained(c: Setting, t: Turn)
    requires Explained(c, t) && Cooperative(c, t)
    ensures RunLoop(c, t).1 == OutputError ==> RunLoop(c, t).0.repairs == c.maxRepairs
    ensures RunLoop(c, t).0.modelCalls < Ceiling(c)
    decreases if t.modelCalls >= Ceiling(c) then 0 else Ceiling(c) - t.modelCalls
  {
    RoundCounts(c, t);
    if Round(c, t).1.None? {
      CooperativeStaysExplained(c, Round(c, t).0);
    } else {
      RoundEndsEarly(c, t);
    }
  }

  lemma RoundEndsEarly(c: Setting, t: Turn)
    requires Explained(c, t) && Round(c, t).1.Some?
    ensures Round(c, t).1 == Some(OutputError) ==> Round(c, t).0.repairs == c.maxRepairs
    ensures Round(c, t).0.modelCalls < Ceiling(c)
  {
    if c.provider(t.modelCalls).Reply? {
      var r := c.provider(t.modelCalls);
      RunCallsFrame(c, t.(modelCalls := t.modelCalls + 1, input := t.input + r.input,
                          output := t.output + r.output, messages := t.messages + [Assistant(r.calls)]),
                    OthersOf(r.calls));
      RunCallsNeverOutput(c, t.(modelCalls := t.modelCalls + 1, input := t.input + r.input,
                                output := t.output + r.output, messages := t.messages + [Assistant(r.calls)]),
                          OthersOf(r.calls));
    }
  }

  lemma {:induction false} RunCallsNeverOutput(c: Setting, t: Turn, calls: seq<ToolCall>)
    ensures RunCalls(c, t, calls).1 != Some(OutputError)
  {
    if calls != [] {
      RunCallsNeverOutput(c, t, calls[..|calls| - 1]);
    }
  }

  /**
   * With a provider that obeys the forced submit the ceiling never fires: an
   * output error then always means the repair budget is spent.
   */
  lemma CeilingIsSlack(c: Setting)
    requires Cooperative(c, START)
    ensures RunLoop(c, START).1 == OutputError ==> RunLoop(c, START).0.repairs == c.maxRepairs
    ensures RunLoop(c, START).0.modelCalls < Ceiling(c)
  {
    CooperativeStaysExplained(c, START);
  }

  // ---- the transcript ----

  function Named(calls: seq<ToolCall>): multiset<(string, string)> {
    if calls == [] then multiset{}
    else Named(calls[..|calls| - 1]) + multiset{(calls[|calls| - 1].id, calls[|calls| - 1].tool)}
  }

  /**
   * The calls still unanswered at the end of a transcript, or None once an
   * answer names no open call or a turn starts while some are open.
   */
  function Unanswered(messages: seq<Message>): Option<multiset<(string, string)>> {
    if messages == [] then Some(multiset{})
    else
      var open := Unanswered(messages[..|messages| - 1]);
      if open.None? then None
      else
        match messages[|messages| - 1]
        case User(_) => if open.value == multiset{} then open else None
        case Assistant(calls) => if open.value == multiset{} then Some(Named(calls)) else None
        case ToolResult(id, tool) =>
          if (id, tool) in open.value then Some(open.value - multiset{(id, tool)}) else None
  }

  /** Each assistant turn is answered call for call before the next user or assistant message. */
  ghost predicate Balanced(messages: seq<Message>) {
    Unanswered(messages) == Some(multiset{})
  }

  lemma {:induction false} NamedSplits(calls: seq<ToolCall>)
    ensures Named(calls) == Named(OthersOf(calls)) + Named(SubmitsOf(calls))
  {
    if calls != [] {
      var init, last := calls[..|calls| - 1], calls[|calls| - 1];
      NamedSplits(init);
      if last.tool == SUBMIT {
        NamedAppend(SubmitsOf(init), last);
      } else {
        NamedAppend(OthersOf(init), last);
      }
    }
  }

  lemma NamedAppend(calls: seq<ToolCall>, call: ToolCall)
    ensures Named(calls + [call]) == Named(calls) + multiset{(call.id, call.tool)}
  {
    assert (calls + [call])[..|calls|] == calls;
  }

  lemma Answers(messages: seq<Message>, call: ToolCall, open: multiset<(string, string)>)
    requires Unanswered(messages) == Some(multiset{(call.id, call.tool)} + open)
    ensures Unanswered(messages + [ErrorResult(call)]) == Some(open)
  {
    assert (messages + [ErrorResult(call)])[..|messages|] == messages;
    assert multiset{(call.id, call.tool)} + open - multiset{(call.id, call.tool)} == open;
  }

  /** A batch that runs to its end answers each of its calls. */
  lemma {:induction false} BatchAnswers(c: Setting, t: Turn, calls: seq<ToolCall>, open: multiset<(string, string)>)
    requires Unanswered(t.messages) == Some(Named(calls) + open)
    requires RunCalls(c, t, calls).1.None?
    ensures Unanswered(RunCalls(c, t, calls).0.messages) == Some(open)
  {
    if calls != [] {
      var init, last := calls[..|calls| - 1], calls[|calls| - 1];
      var one := multiset{(last.id, last.tool)};
      assert Named(calls) + open == Named(init) + (one + open);
      BatchAnswers(c, t, init, one + open);
      Answers(RunCalls(c, t, init).0.messages, last, open);
    } else {
      assert Named(calls) + open == open;
    }
  }

  lemma {:induction false} IgnoreAnswers(messages: seq<Message>, submits: seq<ToolCall>,
                                         open: multiset<(string, string)>)
    requires Unanswered(messages) == Some(Named(submits) + open)
    ensures Unanswered(Ignore(messages, submits)) == Some(open)
  {
    if submits != [] {
      var init, last := submits[..|submits| - 1], submits[|submits| - 1];
      var one := multiset{(last.id, last.tool)};
      assert Named(submits) + open == Named(init) + (one + open);
      IgnoreAnswers(messages, init, one + open);
      Answers(Ignore(messages, init), last, open);
    } else {
      assert Named(submits) + open == open;
    }
  }

  lemma UserKeepsBalance(messages: seq<Message>, text: string)
    requires Balanced(messages)
    ensures Balanced(messages + [User(text)])
  {
    assert (messages + [User(text)])[..|messages|] == messages;
  }

  /** Whenever the loop goes round again, the transcript it sends is balanced. */
  lemma RoundKeepsBalance(c: Setting, t: Turn)
    requires Balanced(t.messages)
    ensures Round(c, t).1.None? ==> Balanced(Round(c, t).0.messages)
  {
    if Round(c, t).1.None? {
      var calls, asked := RoundAnswers(c, t);
      AnsweredKeepsBalance(c, asked, calls);
    }
  }

  /** A round that goes on has answered some calls. */
  lemma RoundAnswers(c: Setting, t: Turn) returns (calls: seq<ToolCall>, asked: Turn)
    requires Round(c, t).1.None?
    ensures asked.messages == t.messages && Round(c, t) == Answered(c, asked, calls)
  {
    var r := c.provider(t.modelCalls);
    calls := r.calls;
    asked := t.(modelCalls := t.modelCalls + 1, input := t.input + r.input, output := t.output + r.output);
  }

  lemma AnsweredKeepsBalance(c: Setting, t: Turn, calls: seq<ToolCall>)
    requires Balanced(t.messages)
    ensures Answered(c, t, calls).1.None? ==> Balanced(Answered(c, t, calls).0.messages)
  {
    if OthersOf(calls) != [] {
      BatchKeepsBalance(c, t, calls);
    } else if SubmitsOf(calls) != [] {
      UserKeepsBalance(t.messages, "invalid");
    } else {
      UserKeepsBalance(t.messages, "submit now");
    }
  }

  lemma BatchKeepsBalance(c: Setting, t: Turn, calls: seq<ToolCall>)
    requires Balanced(t.messages)
    ensures var (ran, ending) := RunCalls(c, t.(messages := t.messages + [Assistant(calls)]), OthersOf(calls));
            ending.None? ==> Balanced(Ignore(ran.messages, SubmitsOf(calls)))
  {
    var submits, others := SubmitsOf(calls), OthersOf(calls);
    var asked := t.(messages := t.messages + [Assistant(calls)]);
    if RunCalls(c, asked, others).1.None? {
      assert asked.messages[..|t.messages|] == t.messages;
      NamedSplits(calls);
      BatchAnswers(c, asked, others, Named(submits));
      var ran := RunCalls(c, asked, others).0;
      assert Named(submits) + multiset{} == Named(submits);
      IgnoreAnswers(ran.messages, submits, multiset{});
    }
  }

  // ---- guided decoding ----

  /** A guided answer: malformed or off-schema text is invalid. */
  datatype GuidedReply = Guided(valid: bool, payload: string, input: nat, output: nat, leaks: bool)
                       | GuidedDown(retryable: bool)

  datatype GuidedTurn = GuidedTurn(repairs: nat, input: nat, output: nat, modelCalls: nat)

  /** `_run_guided` from `t` on, the n-th model call answered by `provider(n)`. */
  function RunGuided(maxRepairs: nat, provider: nat -> GuidedReply, t: GuidedTurn): (GuidedTurn, Ending)
    requires t.repairs <= maxRepairs
    decreases maxRepairs - t.repairs
  {
    match provider(t.modelCalls)
    case GuidedDown(retryable) => (t.(modelCalls := t.modelCalls + 1), ProviderError(retryable))
    case Guided(valid, payload, input, output, leaks) =>
      var asked := t.(modelCalls := t.modelCalls + 1);
      var billed := asked.(input := t.input + input, output := t.output + output);
      if leaks then (asked, HardError)
      else if valid then (billed, Submitted(payload))
      else if t.repairs >= maxRepairs then (billed, OutputError)
      else RunGuided(maxRepairs, provider, billed.(repairs := t.repairs + 1))
  }

  /** A clean answer that is off the schema. */
  predicate IsInvalid(r: GuidedReply) {
    r.Guided? && !r.valid && !r.leaks
  }

  /** Tokens of the first `n` answers. */
  function GuidedInput(provider: nat -> GuidedReply, n: nat): nat {
    if n == 0 then 0 else GuidedInput(provider, n - 1) + if provider(n - 1).Guided? then provider(n - 1).input else 0
  }

  function GuidedOutput(provider: nat -> GuidedReply, n: nat): nat {
    if n == 0 then 0 else GuidedOutput(provider, n - 1) + if provider(n - 1).Guided? then provider(n - 1).output else 0
  }

  method GuidedLoop(maxRepairs: nat, provider: nat -> GuidedReply) returns (t: GuidedTurn, ending: Ending)
    ensures (t, ending) == RunGuided(maxRepairs, provider, GuidedTurn(0, 0, 0, 0))
    ensures t.repairs <= maxRepairs && t.modelCalls == t.repairs + 1
    ensures forall n | 0 <= n < t.repairs :: IsInvalid(provider(n))
    ensures var last := provider(t.repairs);
            match ending
            case Submitted(payload) =>
              && last.Guided? && last.valid && !last.leaks && last.payload == payload
              && t.input == GuidedInput(provider, t.modelCalls) && t.output == GuidedOutput(provider, t.modelCalls)
            case ProviderError(retryable) => last == GuidedDown(retryable)
            case HardError => last.Guided? && last.leaks
            case OutputError => IsInvalid(last) && t.repairs == maxRepairs
            case Transient => false
  {
    t := GuidedTurn(0, 0, 0, 0);
    while true
      invariant t.repairs == t.modelCalls <= maxRepairs
      invariant RunGuided(maxRepairs, provider, t) == RunGuided(maxRepairs, provider, GuidedTurn(0, 0, 0, 0))
      invariant forall n | 0 <= n < t.repairs :: IsInvalid(provider(n))
      invariant t.input == GuidedInput(provider, t.modelCalls) && t.output == GuidedOutput(provider, t.modelCalls)
      decreases maxRepairs - t.repairs
    {
      var response := provider(t.modelCalls);
      t := t.(modelCalls := t.modelCalls + 1);
      if response.GuidedDown? {
        return t, ProviderError(response.retryable);
      }
      if response.leaks {
        return t, HardError;
      }
      t := t.(input := t.input + response.input, output := t.output + response.output);
      if response.valid {
        return t, Submitted(response.payload);
      }
      if t.repairs >= maxRepairs {
        return t, OutputError;
      }
      t := t.(repairs := t.repairs + 1);
    }
  }
}
