/**
 * Definition-of-done evaluation (src/ravana/engine/dod.py) and the pure
 * decision of the terminate gate (`_decide_dod`, src/ravana/engine/loop.py).
 */
module Dod {
  import opened Outcomes
  import opened Json
  import opened StateMerge

  /** Outcome of the expression sandbox: it may raise. */
  datatype Truth = Holds | Fails | Raises

  datatype Usage = Usage(input: nat, output: nat) {
    function Total(): nat {
      input + output
    }
  }

  /** passed is None for a prose criterion that nobody has ruled on. */
  datatype CriterionResult = CriterionResult(criterion: string, prose: bool, passed: Option<bool>)

  /** What the expression engine does with criteria and conditions. */
  datatype Sandbox = Sandbox(parses: string -> bool, eval: (string, Shared) -> Truth)

  function Evaluate(box: Sandbox, criterion: string, state: Shared): CriterionResult {
    if box.parses(criterion) then CriterionResult(criterion, false, Some(box.eval(criterion, state) == Holds))
    else CriterionResult(criterion, true, None)
  }

  function EvaluateAll(box: Sandbox, criteria: seq<string>, state: Shared): (results: seq<CriterionResult>)
    ensures |results| == |criteria|
    ensures forall i | 0 <= i < |criteria| :: results[i] == Evaluate(box, criteria[i], state)
  {
    if criteria == [] then []
    else
      EvaluateAll(box, criteria[..|criteria| - 1], state) +
      [Evaluate(box, criteria[|criteria| - 1], state)]
  }

  /** How many of the first `k` results are prose: the position a ruling aligns with. */
  function ProseBefore(results: seq<CriterionResult>, k: nat): nat
    requires k <= |results|
  {
    if k == 0 then 0 else ProseBefore(results, k - 1) + if results[k - 1].prose then 1 else 0
  }

  /** The ruling at `i` counts only when it is there and exactly True. */
  predicate RuledTrue(verdicts: seq<Json>, i: nat) {
    i < |verdicts| && verdicts[i] == JBool(true)
  }

  function Ruled(results: seq<CriterionResult>, verdicts: seq<Json>, k: nat): CriterionResult
    requires k < |results|
  {
    if results[k].prose then results[k].(passed := Some(RuledTrue(verdicts, ProseBefore(results, k))))
    else results[k]
  }

  predicate AllMet(results: seq<CriterionResult>) {
    forall r | r in results :: r.passed != Some(false)
  }

  /** The mutable result object: the verdict is applied in place. */
  class DodResult {
    var results: seq<CriterionResult>

    /** `evaluate_dod` */
    constructor (box: Sandbox, criteria: seq<string>, state: Shared)
      ensures results == EvaluateAll(box, criteria, state)
    {
      results := [];
      new;
      for i := 0 to |criteria|
        invariant results == EvaluateAll(box, criteria[..i], state)
      {
        assert criteria[..i + 1][..i] == criteria[..i];
        var r := if box.parses(criteria[i])
          then CriterionResult(criteria[i], false, Some(box.eval(criteria[i], state) == Holds))
          else CriterionResult(criteria[i], true, None);
        results := results + [r];
      }
      assert criteria[..|criteria|] == criteria;
    }

    method ApplyProseVerdict(verdicts: seq<Json>)
      modifies this
      ensures |results| == |old(results)|
      ensures forall k | 0 <= k < |results| :: results[k] == Ruled(old(results), verdicts, k)
    {
      var i := 0;
      for k := 0 to |results|
        invariant |results| == |old(results)|
        invariant i == ProseBefore(old(results), k)
        invariant forall j | 0 <= j < k :: results[j] == Ruled(old(results), verdicts, j)
        invariant forall j | k <= j < |results| :: results[j] == old(results)[j]
      {
        if results[k].prose {
          var passed := if i < |verdicts| then verdicts[i] == JBool(true) else false;
          results := results[k := results[k].(passed := Some(passed))];
          i := i + 1;
        }
      }
    }
  }

  function RuledAll(results: seq<CriterionResult>, verdicts: seq<Json>): (ruled: seq<CriterionResult>)
    ensures |ruled| == |results|
    ensures forall k | 0 <= k < |results| :: ruled[k] == Ruled(results, verdicts, k)
  {
    seq(|results|, k requires 0 <= k < |results| => Ruled(results, verdicts, k))
  }

  /** What the injected judge did. `Spent` is the judgement error that carries usage, if readable. */
  datatype Judgement =
    | NotWired
    | Rulings(verdicts: seq<Json>, usage: Usage)
    | Spent(spent: Option<Usage>)
    | Broke

  datatype GateOutcome = CriteriaMet | CriteriaUnmet | EvaluatorError | CostCapExceeded

  /** The row the gate wants written; `results` is empty on an unforeseen error. */
  datatype Decision = Decision(completed: bool, outcome: GateOutcome, results: seq<CriterionResult>,
                               usage: Option<Usage>)

  predicate ExceedsCap(cap: Option<nat>, spent: nat, more: nat) {
    cap.Some? && spent + more > cap.value
  }

  predicate HasProse(results: seq<CriterionResult>) {
    exists r | r in results :: r.prose
  }

  /** `_decide_dod`: total, and silent about everything but its arguments. */
  function Decide(box: Sandbox, criteria: seq<string>, state: Shared, cap: Option<nat>, spent: nat,
                  judgement: Judgement): Decision
  {
    var results := EvaluateAll(box, criteria, state);
    if !HasProse(results) || judgement.NotWired? then
      Decision(AllMet(results), if AllMet(results) then CriteriaMet else CriteriaUnmet, results, None)
    else
      match judgement
      case Rulings(verdicts, usage) =>
        if ExceedsCap(cap, spent, usage.Total()) then
          Decision(false, CostCapExceeded, results, Some(usage))
        else
          var ruled := RuledAll(results, verdicts);
          Decision(AllMet(ruled), if AllMet(ruled) then CriteriaMet else CriteriaUnmet, ruled, Some(usage))
      case Spent(usage) =>
        if usage.Some? && ExceedsCap(cap, spent, usage.value.Total()) then
          Decision(false, CostCapExceeded, results, usage)
        else
          Decision(false, EvaluatorError, results, usage)
      case _ => Decision(false, EvaluatorError, [], None)
  }

  /** The position of a criterion among the prose criteria. */
  function ProsePosition(box: Sandbox, criteria: seq<string>, i: nat): nat
    requires i <= |criteria|
  {
    if i == 0 then 0
    else ProsePosition(box, criteria, i - 1) + if box.parses(criteria[i - 1]) then 0 else 1
  }

  /** The judge stayed within the token cap and ruled True on every prose criterion. */
  ghost predicate ProseMet(box: Sandbox, criteria: seq<string>, cap: Option<nat>, spent: nat,
                            judgement: Judgement)
  {
    && judgement.Rulings?
    && !ExceedsCap(cap, spent, judgement.usage.Total())
    && (forall i | 0 <= i < |criteria| && !box.parses(criteria[i]) ::
          RuledTrue(judgement.verdicts, ProsePosition(box, criteria, i)))
  }

  /** What it takes to complete: stated on the criteria, not on the evaluator's results. */
  ghost predicate DefinitionMet(box: Sandbox, criteria: seq<string>, state: Shared, cap: Option<nat>, spent: nat,
                       judgement: Judgement)
  {
    && ExpressionsHold(box, criteria, state)
    && (judgement.NotWired?
        || (forall i | 0 <= i < |criteria| :: box.parses(criteria[i]))
        || ProseMet(box, criteria, cap, spent, judgement))
  }

  /** The gate opens exactly when the definition of done is met. */
  lemma DecideExact(box: Sandbox, criteria: seq<string>, state: Shared, cap: Option<nat>, spent: nat,
                    judgement: Judgement)
    ensures Decide(box, criteria, state, cap, spent, judgement).completed <==>
            DefinitionMet(box, criteria, state, cap, spent, judgement)
  {
    AdvisoryMet(box, criteria, state);
    if judgement.Rulings? {
      RuledMet(box, criteria, state, judgement.verdicts);
    }
  }

  ghost predicate ExpressionsHold(box: Sandbox, criteria: seq<string>, state: Shared) {
    forall i | 0 <= i < |criteria| && box.parses(criteria[i]) :: box.eval(criteria[i], state) == Holds
  }

  lemma AdvisoryMet(box: Sandbox, criteria: seq<string>, state: Shared)
    ensures AllMet(EvaluateAll(box, criteria, state)) <==> ExpressionsHold(box, criteria, state)
    ensures HasProse(EvaluateAll(box, criteria, state)) <==>
            exists i | 0 <= i < |criteria| :: !box.parses(criteria[i])
  {
    var results := EvaluateAll(box, criteria, state);
    EachMet(results);
    if i :| 0 <= i < |criteria| && !box.parses(criteria[i]) {
      assert results[i] in results;
    }
  }

  lemma RuledMet(box: Sandbox, criteria: seq<string>, state: Shared, verdicts: seq<Json>)
    ensures AllMet(RuledAll(EvaluateAll(box, criteria, state), verdicts)) <==>
            && ExpressionsHold(box, criteria, state)
            && forall i | 0 <= i < |criteria| && !box.parses(criteria[i]) ::
                 RuledTrue(verdicts, ProsePosition(box, criteria, i))
  {
    var results := EvaluateAll(box, criteria, state);
    var ruled := RuledAll(results, verdicts);
    EachMet(ruled);
    forall i | 0 <= i < |criteria|
      ensures ruled[i].passed != Some(false) <==>
              if box.parses(criteria[i]) then box.eval(criteria[i], state) == Holds
              else RuledTrue(verdicts, ProsePosition(box, criteria, i))
    {
      ProseAligned(box, criteria, state, i);
    }
  }

  lemma {:induction false} ProseAligned(box: Sandbox, criteria: seq<string>, state: Shared, i: nat)
    requires i <= |criteria|
    ensures ProseBefore(EvaluateAll(box, criteria, state), i) == ProsePosition(box, criteria, i)
  {
    if i > 0 {
      ProseAligned(box, criteria, state, i - 1);
    }
  }

  lemma EachMet(results: seq<CriterionResult>)
    ensures AllMet(results) <==> forall i | 0 <= i < |results| :: results[i].passed != Some(false)
  {
    forall i | 0 <= i < |results|
      ensures results[i] in results
    {
    }
  }

  // ---- what the gate writes down ----

  /** There is prose, and a judge to rule on it. */
  ghost predicate IsJudged(box: Sandbox, criteria: seq<string>, judgement: Judgement) {
    !judgement.NotWired? && exists i | 0 <= i < |criteria| :: !box.parses(criteria[i])
  }

  function SpentOn(judgement: Judgement): Option<Usage> {
    match judgement
    case Rulings(_, usage) => Some(usage)
    case Spent(usage) => usage
    case _ => None
  }

  /** The tokens the judge spent take the run over its cap. */
  predicate IsOverCap(cap: Option<nat>, spent: nat, judgement: Judgement) {
    SpentOn(judgement).Some? && cap.Some?
    && spent + SpentOn(judgement).value.input + SpentOn(judgement).value.output > cap.value
  }

  /** What is recorded of criterion `i`: what its expression came to, or how it was ruled, if it was. */
  function Recorded(box: Sandbox, criteria: seq<string>, state: Shared, rulings: Option<seq<Json>>, i: nat)
    : CriterionResult
    requires i < |criteria|
  {
    var prose := !box.parses(criteria[i]);
    CriterionResult(criteria[i], prose,
                    if !prose then Some(box.eval(criteria[i], state) == Holds)
                    else if rulings.None? then None
                    else Some(RuledTrue(rulings.value, ProsePosition(box, criteria, i))))
  }

  /** The rulings that count: those of a judge within the cap. */
  function Counting(cap: Option<nat>, spent: nat, judgement: Judgement): Option<seq<Json>> {
    if judgement.Rulings? && !IsOverCap(cap, spent, judgement) then Some(judgement.verdicts) else None
  }

  /**
   * The row says why: the outcome names the cap before any other failure, the
   * usage is what the judge spent, and there is one result per criterion, in
   * order, unless the judge broke in a way nobody foresaw.
   */
  lemma DecisionExplains(box: Sandbox, criteria: seq<string>, state: Shared, cap: Option<nat>, spent: nat,
                         judgement: Judgement)
    ensures var d := Decide(box, criteria, state, cap, spent, judgement);
            var judged := IsJudged(box, criteria, judgement);
            && (d.completed <==> d.outcome == CriteriaMet)
            && (d.outcome == CostCapExceeded <==> judged && IsOverCap(cap, spent, judgement))
            && (d.outcome == EvaluatorError <==>
                  judged && !judgement.Rulings? && !IsOverCap(cap, spent, judgement))
            && d.usage == (if judged then SpentOn(judgement) else None)
            && (if judged && judgement.Broke? then d.results == []
                else
                  && |d.results| == |criteria|
                  && forall i | 0 <= i < |criteria| ::
                       d.results[i] == Recorded(box, criteria, state,
                                                if judged then Counting(cap, spent, judgement) else None, i))
  {
    AdvisoryMet(box, criteria, state);
    forall i | 0 <= i < |criteria|
      ensures ProseBefore(EvaluateAll(box, criteria, state), i) == ProsePosition(box, criteria, i)
    {
      ProseAligned(box, criteria, state, i);
    }
  }
}
