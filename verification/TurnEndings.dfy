/**
 * How a turn of the tool loop ends, said of the provider's replies alone: by
 * their numbers, with no state carried from one round to the next.
 */
module TurnEndings {
  import opened Outcomes
  import opened ToolLoop

  function CallsOf(c: Setting, n: nat): seq<ToolCall> {
    if c.provider(n).Reply? then c.provider(n).calls else []
  }

  predicate IsClean(c: Setting, n: nat) {
    c.provider(n).Reply? && !c.provider(n).leaks
  }

  predicate IsOnlySubmits(calls: seq<ToolCall>) {
    calls != [] && forall j | 0 <= j < |calls| :: calls[j].tool == SUBMIT
  }

  /** How many of the calls are not submits. */
  function Others(calls: seq<ToolCall>): nat {
    if calls == [] then 0
    else Others(calls[..|calls| - 1]) + if calls[|calls| - 1].tool != SUBMIT then 1 else 0
  }

  /** What replies 0 .. n-1 count towards the tool budget: their calls, and one for a reply without any. */
  function Counted(c: Setting, n: nat): nat {
    if n == 0 then 0
    else Counted(c, n - 1) + if CallsOf(c, n - 1) == [] then 1 else Others(CallsOf(c, n - 1))
  }

  /** How many of the replies 0 .. n-1 were only submits. */
  function Repaired(c: Setting, n: nat): nat {
    if n == 0 then 0 else Repaired(c, n - 1) + if IsOnlySubmits(CallsOf(c, n - 1)) then 1 else 0
  }

  /** The ordinal call `j` of a reply gets after `base` counted calls. */
  function Ordinal(base: nat, calls: seq<ToolCall>, j: nat): nat
    requires j < |calls|
  {
    base + Others(calls[..j]) + 1
  }

  /** Call `j` is handed to the executor: no submit, granted, and within the budget. */
  predicate IsExecuted(c: Setting, base: nat, calls: seq<ToolCall>, j: nat)
    requires j < |calls|
  {
    calls[j].tool != SUBMIT && calls[j].tool in c.granted && Ordinal(base, calls, j) <= c.maxToolCalls
  }

  /** Call `j` is executed and ends the turn. */
  predicate IsStop(c: Setting, base: nat, calls: seq<ToolCall>, j: int) {
    && 0 <= j < |calls| && IsExecuted(c, base, calls, j)
    && c.execute(Ordinal(base, calls, j)) in {TransientError, FatalError, Leaked}
  }

  predicate IsFirstStop(c: Setting, base: nat, calls: seq<ToolCall>, j: int) {
    IsStop(c, base, calls, j) && forall i | 0 <= i < j :: !IsStop(c, base, calls, i)
  }

  /** The calls of one reply that succeed, with their ordinals. */
  function Executed(c: Setting, base: nat, calls: seq<ToolCall>): seq<Recorded> {
    if calls == [] then []
    else
      var j := |calls| - 1;
      Executed(c, base, calls[..j]) +
      if IsExecuted(c, base, calls, j) && c.execute(Ordinal(base, calls, j)) == Succeeded
      then [Recorded(calls[j].tool, Ordinal(base, calls, j))] else []
  }

  /** All those of replies 0 .. n-1. */
  function AllExecuted(c: Setting, n: nat): seq<Recorded> {
    if n == 0 then [] else AllExecuted(c, n - 1) + Executed(c, Counted(c, n - 1), CallsOf(c, n - 1))
  }

  function InputOf(c: Setting, n: nat): nat {
    if n == 0 then 0 else InputOf(c, n - 1) + if c.provider(n - 1).Reply? then c.provider(n - 1).input else 0
  }

  function OutputOf(c: Setting, n: nat): nat {
    if n == 0 then 0 else OutputOf(c, n - 1) + if c.provider(n - 1).Reply? then c.provider(n - 1).output else 0
  }

  /** After reply `n` the loop asks again. */
  ghost predicate GoesOn(c: Setting, n: nat) {
    && IsClean(c, n)
    && if IsOnlySubmits(CallsOf(c, n)) then !c.valid(CallsOf(c, n)[0].arguments) && Repaired(c, n) < c.maxRepairs
       else forall j :: !IsStop(c, Counted(c, n), CallsOf(c, n), j)
  }

  /** What reply `n` ends the turn with, if it does. */
  ghost predicate EndsWith(c: Setting, n: nat, ending: Ending) {
    var calls := CallsOf(c, n);
    if c.provider(n).ProviderDown? then ending == ProviderError(c.provider(n).retryable)
    else if c.provider(n).leaks then ending == HardError
    else if !IsOnlySubmits(calls) then BatchStopped(c, Counted(c, n), calls, ending)
    else if c.valid(calls[0].arguments) then ending == Submitted(calls[0].arguments)
    else ending == OutputError && Repaired(c, n) >= c.maxRepairs
  }

  /** The turn carries what the replies so far account for, and each of them went on. */
  ghost predicate Follows(c: Setting, t: Turn) {
    var n := t.modelCalls;
    && t.toolCalls == Counted(c, n) && t.repairs == Repaired(c, n)
    && t.input == InputOf(c, n) && t.output == OutputOf(c, n) && t.recorded == AllExecuted(c, n)
    && forall k | 0 <= k < n :: GoesOn(c, k)
  }

  lemma {:induction false} OthersAre(calls: seq<ToolCall>)
    ensures |OthersOf(calls)| == Others(calls)
    ensures OthersOf(calls) == [] <==> forall j | 0 <= j < |calls| :: calls[j].tool == SUBMIT
  {
    if calls != [] {
      OthersAre(calls[..|calls| - 1]);
    }
  }

  lemma {:induction false} SubmitsAre(calls: seq<ToolCall>)
    requires forall j | 0 <= j < |calls| :: calls[j].tool == SUBMIT
    ensures SubmitsOf(calls) == calls
  {
    if calls != [] {
      SubmitsAre(calls[..|calls| - 1]);
    }
  }

  lemma PrefixStops(c: Setting, base: nat, calls: seq<ToolCall>)
    requires calls != []
    ensures forall j | 0 <= j < |calls| - 1 ::
              IsStop(c, base, calls, j) <==> IsStop(c, base, calls[..|calls| - 1], j)
  {
    var init := calls[..|calls| - 1];
    forall j | 0 <= j < |init|
      ensures calls[..j] == init[..j]
    {
    }
  }

  /** What running the other calls of one reply comes to. */
  ghost predicate BatchRan(c: Setting, t: Turn, calls: seq<ToolCall>, u: Turn, ending: Option<Ending>) {
    if ending.None? then
      && (forall j :: !IsStop(c, t.toolCalls, calls, j))
      && u.toolCalls == t.toolCalls + Others(calls)
      && u.recorded == t.recorded + Executed(c, t.toolCalls, calls)
    else BatchStopped(c, t.toolCalls, calls, ending.value)
  }

  ghost predicate BatchStopped(c: Setting, base: nat, calls: seq<ToolCall>, ending: Ending) {
    exists j | IsFirstStop(c, base, calls, j) ::
      ending == if c.execute(Ordinal(base, calls, j)) == TransientError then Transient else HardError
  }

  /** A batch runs its calls in order up to the first that stops it. */
  lemma {:induction false} BatchMeans(c: Setting, t: Turn, calls: seq<ToolCall>)
    ensures var (u, ending) := RunCalls(c, t, OthersOf(calls)); BatchRan(c, t, calls, u, ending)
  {
    if calls != [] {
      var init, last := calls[..|calls| - 1], calls[|calls| - 1];
      BatchMeans(c, t, init);
      var (u, ending) := RunCalls(c, t, OthersOf(init));
      if last.tool != SUBMIT {
        assert OthersOf(calls) == OthersOf(init) + [last];
        assert OthersOf(calls)[..|OthersOf(init)|] == OthersOf(init);
      }
      if ending.Some? {
        StaysStopped(c, t.toolCalls, calls, ending.value);
      } else {
        LastCall(c, t, u, calls);
      }
    }
  }

  lemma StaysStopped(c: Setting, base: nat, calls: seq<ToolCall>, ending: Ending)
    requires calls != [] && BatchStopped(c, base, calls[..|calls| - 1], ending)
    ensures BatchStopped(c, base, calls, ending)
  {
    var init := calls[..|calls| - 1];
    PrefixStops(c, base, calls);
    var j :| IsFirstStop(c, base, init, j)
      && ending == if c.execute(Ordinal(base, init, j)) == TransientError then Transient else HardError;
    assert calls[..j] == init[..j];
    assert IsFirstStop(c, base, calls, j);
  }

  /** The last call of a batch, when no earlier one stopped it. */
  lemma LastCall(c: Setting, t: Turn, u: Turn, calls: seq<ToolCall>)
    requires calls != [] && BatchRan(c, t, calls[..|calls| - 1], u, None)
    ensures var last := calls[|calls| - 1];
            if last.tool == SUBMIT then BatchRan(c, t, calls, u, None)
            else BatchRan(c, t, calls, RunCall(c, u, last).0, RunCall(c, u, last).1)
  {
    var j := |calls| - 1;
    PrefixStops(c, t.toolCalls, calls);
    if IsStop(c, t.toolCalls, calls, j) {
      assert IsFirstStop(c, t.toolCalls, calls, j);
    }
  }

  /** The reply that goes on, and what it adds. */
  lemma FollowsOn(c: Setting, t: Turn, u: Turn)
    requires Follows(c, t) && GoesOn(c, t.modelCalls) && u.modelCalls == t.modelCalls + 1
    requires var n := t.modelCalls; var calls := CallsOf(c, n);
             && u.input == t.input + c.provider(n).input && u.output == t.output + c.provider(n).output
             && u.repairs == t.repairs + (if IsOnlySubmits(calls) then 1 else 0)
             && u.toolCalls == t.toolCalls + (if calls == [] then 1 else Others(calls))
             && u.recorded == t.recorded + Executed(c, t.toolCalls, calls)
    ensures Follows(c, u)
  {
  }

  /** One round: it goes on, or ends, exactly as the reply says. */
  ghost predicate RoundRan(c: Setting, t: Turn, u: Turn, ending: Option<Ending>) {
    && u.modelCalls == t.modelCalls + 1
    && (ending.None? <==> GoesOn(c, t.modelCalls))
    && (ending.None? ==> Follows(c, u))
    && (ending.Some? ==> EndsWith(c, t.modelCalls, ending.value))
    && (ending.Some? && ending.value.Submitted? ==>
          && u.recorded == AllExecuted(c, t.modelCalls) && u.repairs == Repaired(c, t.modelCalls)
          && u.input == InputOf(c, u.modelCalls) && u.output == OutputOf(c, u.modelCalls))
  }

  lemma RoundMeans(c: Setting, t: Turn)
    requires Follows(c, t) && t.modelCalls < c.maxToolCalls + c.maxRepairs + 2
    ensures RoundRan(c, t, Round(c, t).0, Round(c, t).1)
  {
    if IsClean(c, t.modelCalls) {
      AnswerMeans(c, t);
      assert Round(c, t) == Answered(c, Billed(c, t), CallsOf(c, t.modelCalls));
    } else {
      UncleanMeans(c, t);
    }
  }

  lemma UncleanMeans(c: Setting, t: Turn)
    requires t.modelCalls < c.maxToolCalls + c.maxRepairs + 2 && !IsClean(c, t.modelCalls)
    ensures RoundRan(c, t, Round(c, t).0, Round(c, t).1)
  {
    assert !GoesOn(c, t.modelCalls);
  }

  /** The turn once reply `modelCalls` has been counted. */
  function Billed(c: Setting, t: Turn): Turn
    requires c.provider(t.modelCalls).Reply?
  {
    var r := c.provider(t.modelCalls);
    t.(modelCalls := t.modelCalls + 1, input := t.input + r.input, output := t.output + r.output)
  }

  lemma AnswerMeans(c: Setting, t: Turn)
    requires Follows(c, t) && IsClean(c, t.modelCalls)
    ensures var (u, ending) := Answered(c, Billed(c, t), CallsOf(c, t.modelCalls)); RoundRan(c, t, u, ending)
  {
    var calls := CallsOf(c, t.modelCalls);
    OthersAre(calls);
    if IsOnlySubmits(calls) {
      SubmitMeans(c, t);
    } else if calls == [] {
      FollowsOn(c, t, Answered(c, Billed(c, t), calls).0);
    } else {
      BatchAnswers(c, t);
    }
  }

  lemma SubmitMeans(c: Setting, t: Turn)
    requires Follows(c, t) && IsClean(c, t.modelCalls) && IsOnlySubmits(CallsOf(c, t.modelCalls))
    ensures var (u, ending) := Answered(c, Billed(c, t), CallsOf(c, t.modelCalls)); RoundRan(c, t, u, ending)
  {
    var calls, asked := CallsOf(c, t.modelCalls), Billed(c, t);
    SubmitAnswered(c, asked, calls);
    var (u, ending) := Answered(c, asked, calls);
    if ending.None? {
      SubmitGoesOn(c, t, u);
    } else {
      assert EndsWith(c, t.modelCalls, ending.value) && !GoesOn(c, t.modelCalls);
    }
  }

  lemma SubmitGoesOn(c: Setting, t: Turn, u: Turn)
    requires Follows(c, t) && IsOnlySubmits(CallsOf(c, t.modelCalls)) && GoesOn(c, t.modelCalls)
    requires u == Billed(c, t).(repairs := t.repairs + 1, messages := u.messages)
    ensures Follows(c, u)
  {
    SubmitsRecordNothing(c, t.toolCalls, CallsOf(c, t.modelCalls));
    FollowsOn(c, t, u);
  }

  /** A reply that is only submits stands or falls with the first. */
  lemma SubmitAnswered(c: Setting, asked: Turn, calls: seq<ToolCall>)
    requires IsOnlySubmits(calls)
    ensures var (u, ending) := Answered(c, asked, calls);
            && u == asked.(repairs := u.repairs, messages := u.messages)
            && u.repairs == asked.repairs + (if ending.None? then 1 else 0)
            && ending == if c.valid(calls[0].arguments) then Some(Submitted(calls[0].arguments))
                         else if asked.repairs >= c.maxRepairs then Some(OutputError) else None
  {
    OthersAre(calls);
    SubmitsAre(calls);
  }

  lemma BatchAnswers(c: Setting, t: Turn)
    requires Follows(c, t) && IsClean(c, t.modelCalls) && OthersOf(CallsOf(c, t.modelCalls)) != []
    ensures var (u, ending) := Answered(c, Billed(c, t), CallsOf(c, t.modelCalls)); RoundRan(c, t, u, ending)
  {
    var calls := CallsOf(c, t.modelCalls);
    var asked := Billed(c, t).(messages := t.messages + [Assistant(calls)]);
    OthersAre(calls);
    BatchMeans(c, asked, calls);
    RunCallsFrame(c, asked, OthersOf(calls));
    var (u, ending) := RunCalls(c, asked, OthersOf(calls));
    if ending.None? {
      FollowsOn(c, t, Answered(c, Billed(c, t), calls).0);
    } else {
      RunCallsEndings(c, asked, OthersOf(calls));
      var j :| IsFirstStop(c, t.toolCalls, calls, j);
      assert !GoesOn(c, t.modelCalls);
    }
  }

  lemma {:induction false} RunCallsEndings(c: Setting, t: Turn, calls: seq<ToolCall>)
    ensures RunCalls(c, t, calls).1 in {None, Some(Transient), Some(HardError)}
  {
    if calls != [] {
      RunCallsEndings(c, t, calls[..|calls| - 1]);
    }
  }

  lemma {:induction false} SubmitsRecordNothing(c: Setting, base: nat, calls: seq<ToolCall>)
    requires forall j | 0 <= j < |calls| :: calls[j].tool == SUBMIT
    ensures Executed(c, base, calls) == [] && Others(calls) == 0
  {
    if calls != [] {
      SubmitsRecordNothing(c, base, calls[..|calls| - 1]);
    }
  }

  lemma {:induction false} LoopMeans(c: Setting, t: Turn)
    requires Follows(c, t) && t.modelCalls <= c.maxToolCalls + c.maxRepairs + 2
    ensures EndsAsSaid(c, RunLoop(c, t).0, RunLoop(c, t).1)
    decreases if t.modelCalls >= Ceiling(c) then 0 else Ceiling(c) - t.modelCalls
  {
    if t.modelCalls < c.maxToolCalls + c.maxRepairs + 2 {
      RoundMeans(c, t);
      if Round(c, t).1.None? {
        LoopMeans(c, Round(c, t).0);
      }
    }
  }

  /**
   * The turn ends with the first reply that does not go on, and as that reply
   * says, or with an output error when every reply up to the ceiling went on. A
   * submitted turn reports exactly the calls that succeeded, the replies that
   * were repaired, and the tokens of every reply.
   */
  ghost predicate EndsAsSaid(c: Setting, t: Turn, ending: Ending) {
    var n, limit := t.modelCalls, c.maxToolCalls + c.maxRepairs + 2;
    && n <= limit
    && (|| (n == limit && ending == OutputError && forall k | 0 <= k < n :: GoesOn(c, k))
        || (n > 0 && !GoesOn(c, n - 1) && EndsWith(c, n - 1, ending) && forall k | 0 <= k < n - 1 :: GoesOn(c, k)))
    && (ending.Submitted? ==>
          && t.recorded == AllExecuted(c, n - 1) && t.repairs == Repaired(c, n - 1)
          && t.input == InputOf(c, n) && t.output == OutputOf(c, n))
  }

  lemma LoopEndsExactly(c: Setting)
    ensures EndsAsSaid(c, RunLoop(c, START).0, RunLoop(c, START).1)
  {
    LoopMeans(c, START);
  }

  /** Which reply it takes to submit. */
  predicate Submits(c: Setting, n: nat) {
    IsClean(c, n) && IsOnlySubmits(CallsOf(c, n)) && c.valid(CallsOf(c, n)[0].arguments)
  }

  lemma EndSubmits(c: Setting, n: nat, ending: Ending)
    requires EndsWith(c, n, ending)
    ensures ending.Submitted? <==> Submits(c, n)
    ensures ending.Submitted? ==> ending.arguments == CallsOf(c, n)[0].arguments
    ensures ending == OutputError ==> IsOnlySubmits(CallsOf(c, n)) && !Submits(c, n) && Repaired(c, n) >= c.maxRepairs
  {
    if IsClean(c, n) && !IsOnlySubmits(CallsOf(c, n)) {
      var j :| IsFirstStop(c, Counted(c, n), CallsOf(c, n), j) && ending in {Transient, HardError};
    }
  }

  /**
   * A turn submits exactly if its last reply is clean and only submits, and the
   * first of them is valid; that is what it submits. Every earlier reply that
   * was only submits had an invalid first one; and below the ceiling an output
   * error means an invalid submit once the repairs are spent.
   */
  lemma SubmitsExactly(c: Setting)
    ensures SubmitsAsSaid(c, RunLoop(c, START).0.modelCalls, RunLoop(c, START).1)
  {
    LoopMeans(c, START);
    SaidSubmits(c, RunLoop(c, START).0, RunLoop(c, START).1);
  }

  ghost predicate SubmitsAsSaid(c: Setting, n: nat, ending: Ending) {
    && (ending.Submitted? <==> n > 0 && Submits(c, n - 1))
    && (ending.Submitted? ==> ending.arguments == CallsOf(c, n - 1)[0].arguments)
    && (forall k | 0 <= k < n - 1 && IsOnlySubmits(CallsOf(c, k)) :: !c.valid(CallsOf(c, k)[0].arguments))
    && (ending == OutputError && n < c.maxToolCalls + c.maxRepairs + 2 ==>
          n > 0 && IsOnlySubmits(CallsOf(c, n - 1)) && !Submits(c, n - 1) && Repaired(c, n - 1) >= c.maxRepairs)
  }

  lemma SaidSubmits(c: Setting, t: Turn, ending: Ending)
    requires EndsAsSaid(c, t, ending)
    ensures SubmitsAsSaid(c, t.modelCalls, ending)
  {
    var n := t.modelCalls;
    forall k | 0 <= k < n - 1 && IsOnlySubmits(CallsOf(c, k))
      ensures !c.valid(CallsOf(c, k)[0].arguments)
    {
      assert GoesOn(c, k);
    }
    if GoesOn(c, n - 1) {
      assert n == c.maxToolCalls + c.maxRepairs + 2 && !Submits(c, n - 1);
    } else {
      EndSubmits(c, n - 1, ending);
    }
  }

  /** Only granted tools run, only within the budget, and each recorded call is one that succeeded. */
  lemma {:induction false} ExecutedAreGranted(c: Setting, n: nat)
    ensures forall r | r in AllExecuted(c, n) ::
              r.tool in c.granted && r.tool != SUBMIT && r.ordinal <= c.maxToolCalls
              && c.execute(r.ordinal) == Succeeded
  {
    if n > 0 {
      ExecutedAreGranted(c, n - 1);
      BatchIsGranted(c, Counted(c, n - 1), CallsOf(c, n - 1));
    }
  }

  lemma {:induction false} BatchIsGranted(c: Setting, base: nat, calls: seq<ToolCall>)
    ensures forall r | r in Executed(c, base, calls) ::
              r.tool in c.granted && r.tool != SUBMIT && r.ordinal <= c.maxToolCalls
              && c.execute(r.ordinal) == Succeeded
  {
    if calls != [] {
      BatchIsGranted(c, base, calls[..|calls| - 1]);
    }
  }
}
