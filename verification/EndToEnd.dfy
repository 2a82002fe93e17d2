/** Where the gateway meets the engine: promises that take both sides to keep. */
module EndToEnd {
  import opened Outcomes
  import opened Json
  import opened StateMerge
  import opened Dod
  import opened Verdicts
  import Exec = Executions
  import Engine = EngineState
  import opened EngineRuns
  import opened EngineTheorems
  import ToolLoop
  import Judge
  import Fallback

  /** What the database makes of a turn. */
  datatype Writes = Writes(writable: bool, persists: bool, explains: bool)

  /** What the engine receives for a turn the tool loop submitted, and for a guided one, which calls no tools. */
  function FromToolLoop(t: ToolLoop.Turn, delta: Delta, writes: Writes): Engine.Turn {
    Engine.Finished(delta, Usage(t.input, t.output), Some(|t.recorded|), Some(t.repairs), writes.writable,
                    writes.persists, writes.explains)
  }

  function FromGuided(t: ToolLoop.GuidedTurn, delta: Delta, writes: Writes): Engine.Turn {
    Engine.Finished(delta, Usage(t.input, t.output), Some(0), Some(t.repairs), writes.writable, writes.persists,
                    writes.explains)
  }

  /** Only the run's token cap can reject the turn; otherwise it is accepted. */
  ghost predicate OnlyCapped(c: Engine.Config, s: Engine.State, turn: Engine.Turn)
    requires turn.Finished?
  {
    Engine.RuleOn(c, s, turn) ==
    if ExceedsCap(c.guards.maxTokens, Exec.TotalTokens(s.rows), turn.usage.Total()) then Engine.Rejected
    else Engine.Accepted
  }

  /**
   * The engine's guards on calls and repairs never reject a gateway turn, from
   * the tool loop or guided, run under the same limits.
   */
  lemma OnlyTheTokenCapRejects(c: Engine.Config, s: Engine.State, g: ToolLoop.Setting,
                               guided: nat -> ToolLoop.GuidedReply, delta: Delta, writes: Writes)
    requires g.maxToolCalls == c.guards.maxToolCalls && g.maxRepairs == c.guards.maxRepairs
    ensures OnlyCapped(c, s, FromToolLoop(ToolLoop.RunLoop(g, ToolLoop.START).0, delta, writes))
    ensures var t := ToolLoop.RunGuided(g.maxRepairs, guided, ToolLoop.GuidedTurn(0, 0, 0, 0)).0;
            OnlyCapped(c, s, FromGuided(t, delta, writes))
  {
    ToolLoop.TurnIsWithinGuards(g);
    GuidedStaysInBudget(g.maxRepairs, guided, ToolLoop.GuidedTurn(0, 0, 0, 0));
  }

  lemma {:induction false} GuidedStaysInBudget(maxRepairs: nat, provider: nat -> ToolLoop.GuidedReply,
                                               t: ToolLoop.GuidedTurn)
    requires t.repairs <= maxRepairs
    ensures ToolLoop.RunGuided(maxRepairs, provider, t).0.repairs <= maxRepairs
    decreases maxRepairs - t.repairs
  {
    var r := provider(t.modelCalls);
    if r.Guided? && !r.leaks && !r.valid && t.repairs < maxRepairs {
      GuidedStaysInBudget(maxRepairs, provider,
                          ToolLoop.GuidedTurn(t.repairs + 1, t.input + r.input, t.output + r.output, t.modelCalls + 1));
    }
  }

  /** The judgement's verdicts are the gateway's reading of `payload` for `n` prose criteria. */
  ghost predicate RuledFrom(judgement: Judgement, payload: seq<Member>, n: nat) {
    && judgement.Rulings? && |judgement.verdicts| == n
    && forall i | 0 <= i < n :: judgement.verdicts[i] == JBool(true) <==> Met(Entries(payload), n, i)
  }

  /**
   * What the engine hears of the gateway's judgement in setting `j`: the
   * rulings with all tokens spent, or the error that carries them.
   */
  ghost predicate IsJudgementOf(judgement: Judgement, j: Judge.Setting, n: nat) {
    var (state, end) := Judge.JudgeProse(j);
    match end
    case Returned(payload) => RuledFrom(judgement, payload, n) && judgement.usage == state.usage
    case _ => judgement == Spent(Some(state.usage))
  }

  /** Every judgement of the run that rules is the gateway's, in some setting. */
  ghost predicate JudgedByGateway(c: Engine.Config)
    requires c.dod.Some?
  {
    forall k | c.world.gates(k).judgement.Rulings? ::
      exists j :: IsJudgementOf(c.world.gates(k).judgement, j, ProseCount(c.world.gates(k).box, c.dod.value))
  }

  function ProseCount(box: Sandbox, criteria: seq<string>): nat {
    ProsePosition(box, criteria, |criteria|)
  }

  /** `judge_prose`: the fallback chain, then its payload mapped or its spending reported. */
  method JudgeProse(j: Judge.Setting, n: nat) returns (judgement: Judgement)
    ensures IsJudgementOf(judgement, j, n)
  {
    var state, end := Fallback.RunWithFallback(Judge.RunOne(j), Judge.START, j.entries);
    if !end.Returned? {
      return Spent(Some(state.usage));
    }
    var rulings := MapVerdicts(end.result, n);
    judgement := Rulings(seq(n, i requires 0 <= i < n => JBool(rulings[i])), state.usage);
  }

  /** Criterion `i` was ruled met by exactly one entry of the payload, on its own index. */
  ghost predicate SolelyRuledMet(box: Sandbox, criteria: seq<string>, payload: seq<Member>, i: nat)
    requires i < |criteria|
  {
    Met(Entries(payload), ProsePosition(box, criteria, |criteria|), ProsePosition(box, criteria, i))
  }

  lemma {:induction false} ProsePositionGrows(box: Sandbox, criteria: seq<string>, i: nat, j: nat)
    requires i < j <= |criteria| && !box.parses(criteria[i])
    ensures ProsePosition(box, criteria, i) < ProsePosition(box, criteria, j)
  {
    if j > i + 1 {
      ProsePositionGrows(box, criteria, i, j - 1);
    }
  }

  /** A judgement in setting `j` that returned, met every prose criterion, and was within the cap with all it spent. */
  ghost predicate ProseProven(c: Engine.Config, s: Engine.State, box: Sandbox, criteria: seq<string>,
                              j: Judge.Setting) {
    var (state, end) := Judge.JudgeProse(j);
    && end.Returned?
    && !ExceedsCap(c.guards.maxTokens, Exec.TotalTokens(s.rows), Judge.Billed(j, state.calls).Total())
    && forall i | 0 <= i < |criteria| && !box.parses(criteria[i]) ::
         SolelyRuledMet(box, criteria, end.result, i)
  }

  /** The gate reached with `k` log rows passed, on the state the run has. */
  ghost predicate GateProven(c: Engine.Config, s: Engine.State, k: nat)
    requires c.dod.Some?
  {
    var box, criteria := c.world.gates(k).box, c.dod.value;
    && k < |s.log| && s.log[k].event.DodEvaluated? && s.log[k].event.decision.completed
    && ExpressionsHold(box, criteria, s.shared)
    && (|| c.world.gates(k).judgement.NotWired?
        || (forall i | 0 <= i < |criteria| :: box.parses(criteria[i]))
        || exists j :: ProseProven(c, s, box, criteria, j))
  }

  /**
   * COMPLETED end to end. Every expression criterion held of the state the run
   * has, and unless prose was advisory (no judge wired, or no prose) the
   * gateway's judgement returned a payload in which every prose criterion has
   * exactly one entry, with that exact index and `met` exactly True; and the
   * nodes' tokens with those of every response the judge received are within
   * the cap. This is of the run as it ended, and until it is resumed again.
   */
  lemma CompletedIsProven(c: Engine.Config, held: bool, actions: seq<Engine.Action>)
    requires Wired(c.graph) && c.dod.Some? && JudgedByGateway(c)
    requires Run(c, held, actions).status == Engine.Completed && !Run(c, held, actions).past.reopened
    ensures exists k :: GateProven(c, Run(c, held, actions), k)
  {
    RunIsGood(c, held, actions);
    var s, criteria := Run(c, held, actions), c.dod.value;
    var k: nat :| k < |s.log|
      && s.log[k].event.DodEvaluated? && s.log[k].event.decision.completed
      && DefinitionMet(c.world.gates(k).box, criteria, s.shared, c.guards.maxTokens, Exec.TotalTokens(s.rows),
                       c.world.gates(k).judgement);
    var box, judgement := c.world.gates(k).box, c.world.gates(k).judgement;
    if judgement.Rulings? && ProseMet(box, criteria, c.guards.maxTokens, Exec.TotalTokens(s.rows), judgement) {
      var j :| IsJudgementOf(judgement, j, ProseCount(box, criteria));
      MetIsProven(c, s, box, criteria, judgement, j);
    }
    assert GateProven(c, s, k);
  }

  /** Whenever a run becomes COMPLETED, it has not been resumed since: that is when it is proven. */
  lemma CompletionIsFresh(c: Engine.Config, held: bool, actions: seq<Engine.Action>, action: Engine.Action)
    requires Wired(c.graph)
    requires Run(c, held, actions).status != Engine.Completed
    requires Engine.Next(c, Run(c, held, actions), action).status == Engine.Completed
    ensures !Engine.Next(c, Run(c, held, actions), action).past.reopened
  {
    var s := Run(c, held, actions);
    RunIsGood(c, held, actions);
    ReopenedStays(c, s, action);
    if Engine.IsTerminal(s.status) {
      TerminalIsClosed(c, s, action);
    }
  }

  lemma MetIsProven(c: Engine.Config, s: Engine.State, box: Sandbox, criteria: seq<string>, judgement: Judgement,
                    j: Judge.Setting)
    requires IsJudgementOf(judgement, j, ProseCount(box, criteria))
    requires ProseMet(box, criteria, c.guards.maxTokens, Exec.TotalTokens(s.rows), judgement)
    ensures ProseProven(c, s, box, criteria, j)
  {
    Judge.JudgementIsBudgetedAndBilled(j);
    forall i | 0 <= i < |criteria| && !box.parses(criteria[i])
      ensures SolelyRuledMet(box, criteria, Judge.JudgeProse(j).1.result, i)
    {
      ProsePositionGrows(box, criteria, i, |criteria|);
    }
  }
}
