/**
 * The engine loop as functions on the run's durable tables and its in-memory
 * context (src/ravana/engine/loop.py). Each function is one method of the
 * source; the class in EngineLoop.dfy performs the same steps in place.
 */
module EngineState {
  import opened Outcomes
  import opened StateMerge
  import opened Graph
  import opened Dod
  import opened Backoff
  import opened EventLog
  import Exec = Executions

  datatype Guards = Guards(maxTotalSteps: nat, loopCaps: map<string, nat>, maxToolCalls: nat,
                           maxRepairs: nat, maxRetries: nat, maxTokens: Option<nat>)

  /**
   * What one agent turn came to. The text of a failure is `recordable` if its
   * row can be written. A reported count is None when it does not compare with
   * a number; `writable` is false when the turn's own row or message cannot be
   * written, `persists` when its commit raises for another reason, and
   * `explains` when the text of the commit's error cannot be written.
   */
  datatype Turn =
    | Transient(recordable: bool)
    | Broken(recordable: bool)
    | Finished(delta: Delta, usage: Usage, toolCalls: Option<int>, repairs: Option<int>, writable: bool,
               persists: bool, explains: bool)

  /** A turn, and whether another process's cancel lands while it is in flight. */
  datatype TurnRun = TurnRun(turn: Turn, cancelled: bool)

  /**
   * The terminate gate: how its criteria evaluate, the judgement, a cancel that
   * lands before its status write, and which of its two writes fail.
   */
  datatype GateRun = GateRun(box: Sandbox, judgement: Judgement, cancelled: bool, writeFails: bool,
                             fallbackFails: bool)

  /**
   * Everything the engine cannot foresee. The n-th attempt of a run consults
   * `turns`, and evaluates its on_enter mutation, its edges' conditions and its
   * human trigger by `enter`, `condition` and `trigger` at n; the gate reached
   * with k log rows consults `gates(k)`; and the n-th retry sleep draws its
   * jitter from `rng(n)`.
   */
  datatype World = World(enter: (nat, string, Shared) -> Option<Delta>, condition: (nat, Edge, Shared) -> Truth,
                         trigger: (nat, string, Shared) -> Truth, turns: nat -> TurnRun,
                         gates: nat -> GateRun, rng: nat -> real -> real)

  datatype Config = Config(graph: CompiledGraph, guards: Guards, fields: map<string, Policy>,
                           initial: Shared, dod: Option<seq<string>>, world: World)

  datatype Status = Pending | Running | WaitingHuman | Completed | Failed | Cancelled

  predicate IsTerminal(status: Status) {
    status == Completed || status == Failed || status == Cancelled
  }

  datatype HitlRequest = HitlRequest(node: string, pending: bool)

  /** A retry sleep: the failure streak it follows and how long it waits. */
  datatype Sleep = Sleep(streak: nat, delay: real)

  /**
   * Where the run is: queued behind another run, between drains, inside one,
   * between the end of its loop and finalization, or left by a drain that ended
   * with an exception.
   */
  datatype Phase = Held | Idle | Draining | Ending | Raised

  /**
   * What other processes did to the run: whether it was let in at its start;
   * whether some cancel selected it while it was active, so that its write may
   * still come; whether it was resumed while COMPLETED; the nodes of other
   * runs' requests it was resumed with; and the nodes of its own requests that
   * were answered by resuming another run.
   */
  datatype Past = Past(entered: bool, selected: bool, reopened: bool, taken: seq<string>, lost: seq<string>)

  datatype State = State(
    // _RunCtx
    queue: seq<string>, terminalReached: bool, failed: bool,
    // run row
    status: Status, shared: Shared, version: nat,
    // the other tables
    rows: Exec.Rows, log: Log, hitl: seq<HitlRequest>,
    // the sleeps requested and the ids minted so far
    sleeps: seq<Sleep>, nextId: nat,
    phase: Phase,
    // history: some drain of this run ended with an exception, and other processes' doings
    everRaised: bool, past: Past)

  const RETRY_BASE := 1.0
  const RETRY_CAP := 30.0

  function Logged(s: State, event: Event): State {
    s.(log := Append(s.log, event))
  }

  function Raise(s: State): State {
    s.(phase := Raised, everRaised := true)
  }

  predicate PendingHitl(s: State) {
    exists h | h in s.hitl :: h.pending
  }

  /** Another process selects the active run to cancel it (start_run, strategy cancel_previous). */
  function SelectToCancel(s: State): State {
    if IsTerminal(s.status) then s else s.(past := s.past.(selected := true))
  }

  /**
   * The cancel's write lands. It is unconditional: it overwrites whatever
   * status the run has, if only the run was active when it was selected.
   */
  function LandCancel(s: State): State {
    if IsTerminal(s.status) && !s.past.selected then s
    else s.(status := Cancelled, past := s.past.(selected := true))
  }

  /**
   * `_fail_run`: binding the error text, or the record of a rejected turn, may
   * raise, and then nothing is written.
   */
  function FailRun(s: State, node: string, usage: Option<Usage>, writable: bool): State {
    if !writable && (usage.None? || Exec.Latest(s.rows, node) >= 0) then Raise(s)
    else MarkRunFailed(s, node, usage)
  }

  /** What failing the run writes. */
  function MarkRunFailed(s: State, node: string, usage: Option<Usage>): State {
    var i := Exec.Latest(s.rows, node);
    var rows := if i >= 0 then Exec.Mark(s.rows, i, Exec.Failed, usage) else s.rows;
    Logged(s.(rows := rows, status := Failed, failed := true, queue := []), Fail(node))
  }

  /** Merge a delta into shared state, bump the version and log the COMMIT; None when the merge raises. */
  function CommitDelta(c: Config, s: State, node: string, delta: Delta): Option<State> {
    match Merge(c.fields, s.shared, delta)
    case Ok(merged) =>
      Some(Logged(s.(shared := merged, version := s.version + 1), Commit(node, delta, s.version, s.version + 1)))
    case Err(_) => None
  }

  /** The state after the node's on_enter mutation; None when it raises. */
  function Enter(c: Config, s: State, node: Node): Option<State> {
    if node.onEnter.None? then Some(s)
    else
      match c.world.enter(|s.rows|, node.onEnter.value, s.shared)
      case None => None
      case Some(delta) => CommitDelta(c, s, node.id, delta)
  }

  /** The INSERT that opens an attempt. */
  function Begin(s: State, node: string): State {
    s.(rows := Exec.NewRow(s.rows, node, s.nextId), nextId := s.nextId + 1)
  }

  function MarkLast(s: State, status: Exec.RowStatus, usage: Option<Usage>): State {
    if s.rows == [] then s else s.(rows := Exec.Mark(s.rows, |s.rows| - 1, status, usage))
  }

  /**
   * A transient failure: mark the attempt, which raises if the error text
   * cannot be written, then requeue it. Beyond the largest float the delay of a
   * retry within the budget cannot be computed.
   */
  function Retry(c: Config, s: State, node: string, streak: nat, recordable: bool): State
    requires streak >= 1
  {
    if !recordable then Raise(s)
    else if streak <= c.guards.maxRetries && Overflows(streak) then Raise(MarkLast(s, Exec.Failed, None))
    else Requeued(c, s, node, streak)
  }

  /** The attempt marked and back at the front of the queue, after a sleep within the budget. */
  function Requeued(c: Config, s: State, node: string, streak: nat): State
    requires streak >= 1
  {
    var t := MarkLast(s, Exec.Failed, None).(queue := [node] + s.queue);
    if streak > c.guards.maxRetries then t
    else
      t.(sleeps := s.sleeps + [Sleep(streak, Delay(streak, RETRY_BASE, RETRY_CAP, c.world.rng(|s.sleeps|)))])
  }

  /** `_commit_turn`: the row, the state and the log together, or nothing. */
  function CommitTurn(c: Config, s: State, node: string, turn: Turn): Option<State>
    requires turn.Finished?
  {
    if !turn.writable || !turn.persists then None
    else
      match CommitDelta(c, s, node, turn.delta)
      case Some(t) => Some(MarkLast(t, Exec.Succeeded, Some(turn.usage)))
      case None => None
  }

  function LoopKey(f: string, t: string): string {
    f + "_to_" + t
  }

  /** Some target of the edge has fired as often as its loop cap allows. */
  predicate IsCapped(c: Config, log: Log, f: string, e: Edge) {
    exists t | t in e.to ::
      LoopKey(f, t) in c.guards.loopCaps && RouteCount(log, f, t) >= c.guards.loopCaps[LoopKey(f, t)]
  }

  /** What the n-th attempt's routing hears of an edge's condition and of its node's human trigger. */
  function ConditionAt(c: Config, n: nat, shared: Shared, e: Edge): Truth {
    if e.condition.None? then Holds else c.world.condition(n, e, shared)
  }

  function TriggerAt(c: Config, n: nat, shared: Shared, node: Node): Truth {
    if node.hitl.Some? && node.hitl.value.enabled then c.world.trigger(n, node.hitl.value.trigger, shared) else Fails
  }

  function ConditionOf(c: Config, s: State, e: Edge): Truth {
    ConditionAt(c, |s.rows|, s.shared, e)
  }

  function TriggerOf(c: Config, s: State, node: Node): Truth {
    TriggerAt(c, |s.rows|, s.shared, node)
  }

  /** The edges the routing loop does not skip: uncapped, and their condition is not false. */
  function NotSkipped(c: Config, s: State, f: string): Edge -> bool {
    (e: Edge) => !IsCapped(c, s.log, f, e) && ConditionOf(c, s, e) != Fails
  }

  datatype Choice = Fire(edge: Edge) | AskHuman | NoRoute | Stop | RouteRaises

  /** What `_route` tries after the conditional edges. */
  function Fallthrough(c: Config, node: Node, s: State): Choice {
    if TriggerOf(c, s, node) == Holds then AskHuman
    else if TriggerOf(c, s, node) == Raises then RouteRaises
    else if c.graph.Default(node.id).Some? then Fire(c.graph.Default(node.id).value)
    else if c.graph.HasOutgoingEdges(node.id) then NoRoute
    else Stop
  }

  function ChooseRoute(c: Config, node: Node, s: State): Choice {
    match FirstLive(c.graph.Conditional(node.id), NotSkipped(c, s, node.id))
    case Some(e) => if ConditionOf(c, s, e) == Raises then RouteRaises else Fire(e)
    case None => Fallthrough(c, node, s)
  }

  /** One target of a fired edge: the ROUTE event, then the terminal flag, the join gate or the queue. */
  function FireOne(c: Config, s: State, f: string, t: string): State {
    var routed := Logged(s, Route(f, t));
    if t == TERMINAL then routed.(terminalReached := true)
    else if c.graph.IsJoinAll(t) then
      if c.graph.InboundSources(t) <= Arrivals(routed.log, t) && t !in s.queue
      then routed.(queue := s.queue + [t])
      else routed
    else routed.(queue := s.queue + [t])
  }

  /** `_fire_edge` */
  function FireAll(c: Config, s: State, f: string, targets: seq<string>): State {
    if targets == [] then s
    else FireOne(c, FireAll(c, s, f, targets[..|targets| - 1]), f, targets[|targets| - 1])
  }

  /** `_raise_hitl` */
  function RaiseHitl(s: State, node: string): State {
    Logged(MarkLast(s, Exec.WaitingHuman, None).(hitl := s.hitl + [HitlRequest(node, true)]), HitlRaised(node))
  }

  /** `_route` */
  function RouteFrom(c: Config, s: State, node: Node): State {
    match ChooseRoute(c, node, s)
    case Fire(e) => FireAll(c, s, node.id, e.to)
    case AskHuman => RaiseHitl(s, node.id)
    case NoRoute => FailRun(s, node.id, None, true)
    case Stop => Logged(s, Terminate(node.id)).(terminalReached := true)
    case RouteRaises => Raise(s)
  }

  datatype Ruling = Accepted | Rejected | Incomparable

  /** The guards applied to a finished turn, in order, before anything is committed. */
  function RuleOn(c: Config, s: State, turn: Turn): Ruling
    requires turn.Finished?
  {
    if turn.toolCalls.None? then Incomparable
    else if turn.toolCalls.value > c.guards.maxToolCalls then Rejected
    else if turn.repairs.None? then Incomparable
    else if turn.repairs.value > c.guards.maxRepairs then Rejected
    else if ExceedsCap(c.guards.maxTokens, Exec.TotalTokens(s.rows), turn.usage.Total()) then Rejected
    else Accepted
  }

  /** The part of `_dispatch` after the turn: its guards, the commit and the route. */
  function SettleTurn(c: Config, s: State, node: Node, streak: nat, turn: Turn): State {
    match turn
    case Transient(recordable) => Retry(c, s, node.id, streak + 1, recordable)
    case Broken(recordable) => FailRun(s, node.id, None, recordable)
    case Finished(_, usage, _, _, writable, _, explains) =>
      match RuleOn(c, s, turn)
      case Incomparable => Raise(s)
      case Rejected => FailRun(s, node.id, Some(usage), writable)
      case Accepted =>
        match CommitTurn(c, s, node.id, turn)
        case None => FailRun(s, node.id, None, explains)
        case Some(committed) => RouteFrom(c, committed, node)
  }

  /** The part of `_dispatch` after on_enter: the turn, during which a cancel may land. */
  function RunTurn(c: Config, s: State, node: Node, streak: nat, run: TurnRun): State {
    SettleTurn(c, if run.cancelled then LandCancel(s) else s, node, streak, run.turn)
  }

  /** An open attempt: its on_enter mutation, then its turn. */
  function Attempt(c: Config, s: State, node: Node, streak: nat, run: TurnRun): State {
    if !node.agentBacked then Raise(s)
    else
      match Enter(c, s, node)
      case None => Raise(s)
      case Some(entered) => RunTurn(c, entered, node, streak, run)
  }

  /** `_dispatch` of the node at the head of the queue; an unknown node raises. */
  function Dispatch(c: Config, s: State): State
    requires s.queue != []
  {
    var id, popped := s.queue[0], s.(queue := s.queue[1..]);
    if Exec.Streak(s.rows, id) > c.guards.maxRetries || |s.rows| >= c.guards.maxTotalSteps
    then FailRun(popped, id, None, true)
    else if id !in c.graph.nodesById then Raise(Begin(popped, id))
    else
      Attempt(c, Begin(popped, id), c.graph.nodesById[id], Exec.Streak(s.rows, id), c.world.turns(|s.rows|))
  }

  /** `_pending_joins` */
  function PendingJoins(c: Config, s: State): seq<string> {
    PendingAmong(s, c.graph.JoinAllNodes())
  }

  function PendingAmong(s: State, ids: seq<string>): seq<string> {
    if ids == [] then []
    else
      var earlier, last := PendingAmong(s, ids[..|ids| - 1]), ids[|ids| - 1];
      if last !in s.queue && Arrivals(s.log, last) != {} then earlier + [last] else earlier
  }

  /** The drain loop leaves here. */
  predicate Drained(c: Config, s: State) {
    s.failed || (s.queue == [] && (PendingHitl(s) || PendingJoins(c, s) == []))
  }

  /** One turn of the drain loop: dispatch the head, or promote the held joins. */
  function Iterate(c: Config, s: State): State {
    if s.queue != [] then Dispatch(c, s) else s.(queue := PendingJoins(c, s))
  }

  /** `_update_run_status_if_active`: terminal statuses win. */
  function SetStatusIfActive(s: State, status: Status): State {
    if IsTerminal(s.status) then s else s.(status := status)
  }

  /** `_write_final` */
  function WriteFinal(s: State, status: Status, event: Option<Decision>, gate: GateRun): State {
    if gate.writeFails then
      if gate.fallbackFails then Raise(s) else SetStatusIfActive(s, Failed)
    else if IsTerminal(s.status) then s
    else
      SetStatusIfActive(if event.Some? then Logged(s, DodEvaluated(event.value)) else s, status)
  }

  /** What the gate decides of a definition of done. */
  function Judged(c: Config, s: State, criteria: seq<string>, gate: GateRun): Decision {
    Decide(gate.box, criteria, s.shared, c.guards.maxTokens, Exec.TotalTokens(s.rows), gate.judgement)
  }

  /** `_finalize_status`, leaving the drain; a cancel may land between its reading the status and its write. */
  function Finalize(c: Config, s: State): State {
    var gate := c.world.gates(|s.log|);
    if s.failed || IsTerminal(s.status) then s.(phase := Idle)
    else FinalizeActive(c, s, if gate.cancelled then LandCancel(s.(phase := Idle)) else s.(phase := Idle), gate)
  }

  /** The status chosen from what was read in `s` and written to `out`. */
  function FinalizeActive(c: Config, s: State, out: State, gate: GateRun): State {
    if PendingHitl(s) then WriteFinal(out, WaitingHuman, None, gate)
    else if !s.terminalReached then WriteFinal(out, s.status, None, gate)
    else if c.dod.None? then WriteFinal(out, Completed, None, gate)
    else
      var d := Judged(c, s, c.dod.value, gate);
      WriteFinal(out, if d.completed then Completed else Failed, Some(d), gate)
  }

  /** The context `resume_hitl` drains: whatever request was answered, its node in this run. */
  function Resume(s: State, node: string): State {
    Logged(s.(queue := [node], terminalReached := false, failed := false, phase := Draining), HitlResolved(node))
  }

  /** The run is resumed with its own request. */
  function AnswerHitl(s: State, i: nat): State
    requires i < |s.hitl|
  {
    Resume(s.(hitl := s.hitl[i := HitlRequest(s.hitl[i].node, false)]), s.hitl[i].node)
  }

  /** The run is resumed with another run's request for `node`. */
  function TakeAnswer(s: State, node: string): State {
    Resume(s.(past := s.past.(taken := s.past.taken + [node], reopened := s.past.reopened || s.status == Completed)),
           node)
  }

  /** Another run is resumed with this run's request: it is answered, and nothing else happens here. */
  function LoseRequest(s: State, i: nat): State
    requires i < |s.hitl|
  {
    s.(hitl := s.hitl[i := HitlRequest(s.hitl[i].node, false)], past := s.past.(lost := s.past.lost + [s.hitl[i].node]))
  }

  /** `start_run`; `held` is the queue strategy finding an active run. */
  function Start(c: Config, held: bool): State {
    State(if held then [] else [c.graph.entry], false, false, if held then Pending else Running,
          c.initial, 0, [], [], [], [], 0, if held then Held else Draining, false,
          Past(!held, false, false, [], []))
  }

  /**
   * What may happen next to a run: its drain advances; it is resumed with its
   * own request or with another run's; another run is resumed with its request;
   * another process selects it for cancelling, or writes the cancel.
   */
  datatype Action =
    | Tick
    | Answer(request: nat)
    | AnswerForeign(node: string)
    | AnswerElsewhere(request: nat)
    | Select
    | Cancel

  predicate IsPendingAt(s: State, i: nat) {
    i < |s.hitl| && s.hitl[i].pending
  }

  /** No drain of the run is under way. */
  predicate Resumable(s: State) {
    s.phase == Idle || s.phase == Raised || s.phase == Held
  }

  predicate Answerable(s: State, i: nat) {
    Resumable(s) && IsPendingAt(s, i)
  }

  /** One turn of the drain: of its loop, out of it, or its finalization. */
  function Advance(c: Config, s: State): State {
    if s.phase == Ending then Finalize(c, s)
    else if s.phase != Draining then s
    else if Drained(c, s) then s.(phase := Ending)
    else Iterate(c, s)
  }

  function Next(c: Config, s: State, action: Action): State {
    match action
    case Tick => Advance(c, s)
    case Answer(i) => if Answerable(s, i) then AnswerHitl(s, i) else s
    case AnswerForeign(node) => if Resumable(s) then TakeAnswer(s, node) else s
    case AnswerElsewhere(i) => if IsPendingAt(s, i) then LoseRequest(s, i) else s
    case Select => SelectToCancel(s)
    case Cancel => LandCancel(s)
  }
}
