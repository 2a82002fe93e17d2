# A verified model of the Ravana workflow engine

Ravana runs multi-agent workflows. A compiled graph of agent-backed nodes is
drained from a FIFO queue; every turn merges a delta into shared state; retries,
loops, joins, human requests and a definition-of-done gate decide where a run
goes and how it ends. This project models that engine and the runtime parts its
guarantees lean on, and proves what they promise together.

How the parts fit:

- `Graph`, `Validate` - compilation of a document into a graph, and the static
  checks made on it.
- `StateMerge`, `EventLog`, `Executions`, `Backoff`, `Dod` - the merge policy,
  the transition log, the attempt rows, the backoff and the gate, each as
  functions on their tables.
- `EngineState` - every method of the engine loop as a function on the run's
  durable tables and in-memory context. `EngineLoop` is the same loop as a class
  that updates its fields in place, each method proved equal to its function.
- `EngineOps` - every dispatch is a sequence of enabled atomic operations;
  `EngineInvariants` - each invariant is kept by each operation;
  `EngineRuns` - hence it holds at every reachable state of every run, and every
  drain ends. `EngineTheorems`, `EngineRouting` - what that means for
  whole runs. `EngineEscapes`, `EngineFailures`, `EngineCaps` - exactly when an
  exception escapes, a run is FAILED or its terminal status overwritten, or a loop
  cap is passed. `EngineOutcomes`, `EngineEndings` - a second account of each
  dispatch and finalization, in terms of the document, the tables and the guards
  alone, and what whole runs end with. `EngineRequests` - several runs over one
  table of human requests.
  `EngineWitnesses` - compiled documents and runs on which a promise fails.
- `CommitProtocol` - the turn commit with any number of concurrent writers.
- `Ledger`, `Mcp`, `IdempotencyKey` - the idempotency ledger under interleaving
  and crashes, the MCP call classified by phase, and the key's text.
- `ToolLoop`, `TurnEndings`, `Fallback`, `Judge`, `Verdicts`, `EndToEnd` - the
  gateway's turn loop and how it ends reply by reply, its fallback chain and prose
  judge, and where they meet the engine.
- `BoundedOutput`, `Json`, `SchemaValidate` - chunked sentinel search, and the
  hashable key for JSON equality.

A run is any sequence of six actions from its start: its drain advances (one turn
of its loop, the end of the loop, or finalization); it is resumed with a human's
answer to its own request; it is resumed with the request of another run, which
`resume_hitl` accepts; its own request is answered by resuming another run; another
process selects it for cancelling; and the cancel's write lands. A cancel may also
land while a turn is in flight or between finalization's read and write.

Everything the engine cannot foresee - turn results, how conditions and mutations
evaluate, cancels in flight, judgements, failing writes, jitter - is read from a
`World` of functions indexed by attempt, log length and sleep number, so the same
expression may evaluate differently each time. The theorems hold for every World,
so for every behaviour of those parties. Exceptions that leave the drain (phase
`Raised`) are modelled, not assumed away: `EngineEscapes` proves exactly when one
escapes, and a set of conditions on the document and the runtime under which none
does. Guards are assumed non-negative; the document model does not check it.

Promises the code does not keep, each with an input and its exact condition:

- A run can be stranded at RUNNING by an escaped exception. Inputs: an `on_enter`
  merge that is refused (`RefusedMergeStrandsTheRun`), a rejected turn whose record
  cannot be written (`UnwritableRejectionStrandsTheRun`), a failing turn whose error
  text cannot (`UnrecordableErrorStrandsTheRun`), and a 1025th transient failure in a
  row, whose delay overflows a float (`BackoffOverflowStrandsTheRun`). Exactly when
  one escapes: `RunRaisesExactly`.
- A run can be stranded without one. `resume_hitl` finds a request by its id and does
  not compare its run with the run it resumes, so the request's own run is left with
  nobody to ask. Inputs: at WAITING_HUMAN (`LostRequestStrandsTheWaiter`) and at
  RUNNING (`LostRequestStrandsTheAsker`), the branch of `engine/loop.py:401-405` that
  "shouldn't happen". Exactly when: `StuckExactly`; without such a resume that branch
  is unreachable (`DrainedIsLive`).
- COMPLETED is not final for the same reason: the run resumed may be COMPLETED.
  Inputs: it becomes FAILED (`ForeignAnswerFailsCompleted`), or stays COMPLETED on
  another state (`ForeignAnswerChangesCompleted`); one call can break both runs
  (`CrossedRespondBreaksBoth`). Exactly when: `CompletedIsSoundAndFinal`,
  `CompletedRunStays`, `ReopenedExactly`. It may also queue a node its graph does not
  have (`ForeignNodeEscapes`). The caller can rule all of it out, exactly by resuming
  a request's own run (`CrossedExactly`, `UncrossedRunsKeepTheirPromises`).
- A terminal status can be overwritten by a cancel, which selects active runs and
  writes CANCELLED later and unconditionally. Input:
  `LateCancelOverwritesCompleted`. Exactly when: `OverwrittenExactly`,
  `TerminalStatusExactly`, `SelectedExactly`.
- CANCELLED may become FAILED. Input: `CancelledMayFail`. Exactly when:
  `CancelledFailsExactly`, `CancelledRunFailsExactly`, and for FAILED in general
  `RunFailsExactly`.
- A loop cap is not a hard cap. Inputs: a default edge
  (`EngineWitnesses.DefaultEdgePassesItsCap`) and an edge that lists its target twice
  (`DoubledTargetPassesItsCap`). Exactly when: `CapIsPassedExactly`,
  `RunPassesCapExactly`.
- Static reachability can miss a node, but only one named like the terminal
  sentinel. Inputs: as entry (`SentinelEntryIsMissed`) and as a join
  (`SentinelJoinIsQueued`). Exactly when, foreign requests included:
  `RunLeavesReachableExactly`.
- `compiler/validate.py:90` says an unconditional edge always fires; a loop cap
  can skip it. Input: `CappedLoopHasNoRoute`. Exactly when a node the validator
  does not warn about fails to route: `SilenceIsNotCoverage`.
- `_commit_state` merges its caller's copy of the state, so with several writers
  it could lose a commit, which `_commit_turn` cannot (`NoCommitIsLost`). Input:
  `StaleCopyLosesACommit`. Exactly when: `StaleCommitExactly`.
- The text hashed into an idempotency key does not determine its invocation
  across runs, nodes and tools. Input: `KeysCollideAcrossScopes`. It does tell
  visits apart as long as neither visit id is part of the other's names
  (`KeysTellVisitsApart`), names one invocation if no name has a colon
  (`ColonFreeKeysNameOneInvocation`), and the ledger's scope check closes the rest
  (`ClaimIsForThisInvocation`).

## Model

| member | source | states |
|---|---|---|
| EngineTheorems.NoRunIsStranded | src/ravana/engine/loop.py:355-405 | In every reachable state of every run: between drains the run is COMPLETED, FAILED or CANCELLED, or WAITING_HUMAN with a request that can still be answered, or a request of its own was answered by resuming another run; a run held by the queue strategy is PENDING or CANCELLED; otherwise an exception has escaped |
| EngineTheorems.StuckExactly | src/ravana/engine/loop.py:1087-1133 | A run gets stuck - between drains, unfinished, nobody to ask - if and only if, while it waits, another run is resumed with its only pending request, or its finalization finds no request, no terminal and nothing wrong; and that finalization occurs only after such a resume |
| EngineTheorems.DrainLeavesNoRunning | src/ravana/engine/loop.py:355-405 | Every started or resumed drain ends, and leaves the run terminal or waiting for a pending request, unless an exception escaped or a request of the run was answered by resuming another |
| EngineEscapes.TameDrainSettlesTheRun | src/ravana/engine/loop.py:355-405 | If this graph's nodes all have agents, its own conditions, triggers and on_enter mutations never raise, counts compare, error texts and rejected turns can be recorded, the retry budget fits a float, a status write works at least the second time, and the run is resumed only with requests for its own graph's nodes, every drain of every run ends terminal or waiting, with no exception; or a request of it was answered by resuming another run |
| EngineEscapes.TameRunNeverRaises | src/ravana/engine/loop.py:668-674 | Under those conditions no exception escapes at any point of any run, the node lookup of a queued id included |
| EngineEscapes.RunRaisesExactly | src/ravana/engine/loop.py:355-405 | Over every run an exception has escaped if and only if some turn of the loop met one of the conditions below |
| EngineEscapes.DispatchRaisesExactly | src/ravana/engine/loop.py:625-790 | A dispatch escapes if and only if its guards let it through and: the node is unknown or has no agent; its on_enter raises or is refused; its turn fails, transiently or not, with an error text that cannot be written; its retry delay overflows; a reported count does not compare; its turn is rejected and cannot be recorded; its commit is refused with such an error text; or its committed turn meets a raising condition |
| EngineEscapes.RouteRaisesExactly | src/ravana/engine/loop.py:950-965 | Routing raises if and only if the condition of the first edge tried raises, or no edge is tried and the enabled human trigger raises |
| EngineEscapes.FinalizeRaisesExactly | src/ravana/engine/loop.py:472-505 | Finalization escapes if and only if the run is unfailed and active and both status writes fail |
| EngineEndings.EveryDispatchIsDeclared | src/ravana/engine/loop.py:625-790 | Every dispatch of every run is what the document, the tables and the guards say: the queue's head fails the run on spent retries or steps, or opens the node's next numbered attempt, merges and logs its on_enter delta, takes a cancel in flight, and settles its turn as the next rows say |
| EngineOutcomes.DispatchMeans | src/ravana/engine/loop.py:625-706 | The same of one dispatch in any sound state |
| EngineOutcomes.SettleMeans | src/ravana/engine/loop.py:707-790 | What a turn comes to: back at the front after a failure within its sleep; a failed run with the attempt's tokens if a limit is passed; state, version, event and row together and then its route if it is committed; or an escape with nothing written |
| EngineOutcomes.RulesExactly | src/ravana/engine/loop.py:751-768 | A finished turn is accepted if and only if its tool calls, its repairs and the run's tokens with its own are within the three limits, and unreadable if and only if a count a guard comes to does not compare |
| EngineEndings.EveryFinalizationIsDeclared | src/ravana/engine/loop.py:376-505 | Every finalization of every run leaves the status, the gate's event and the phase its table says: cancelled, unwritable, waiting, nothing reached, definition met, or not met |
| EngineWitnesses.RefusedMergeStrandsTheRun | src/ravana/engine/loop.py:672-674 | A compiled document and a run left RUNNING, with no drain and nobody to ask, by an on_enter delta whose merge is refused |
| EngineWitnesses.UnwritableRejectionStrandsTheRun | src/ravana/engine/loop.py:1052-1070 | The same for a turn over its tool-call budget whose row or message cannot be written, although its nodes are tame; its attempt stays open |
| EngineWitnesses.UnrecordableErrorStrandsTheRun | src/ravana/engine/loop.py:1072-1078 | The same for any failing turn, transient or not, whose error text cannot be written |
| EngineWitnesses.BackoffOverflowStrandsTheRun | src/ravana/engine/loop.py:719-734 | The same for the 1025th transient failure in a row under a larger retry budget, whose delay is no float |
| EngineRuns.DrainEnds | src/ravana/engine/loop.py:355-373 | The drain loop terminates from every reachable state and preserves all invariants |
| EngineRuns.DispatchAdvances | src/ravana/engine/loop.py:634-666 | Each dispatch opens one more attempt below max_total_steps or fails the run: the loop's progress measure |
| EngineRuns.DrainIsTicks | src/ravana/engine/loop.py:355-373 | A drain is a number of loop turns of the run, so what holds of all runs holds at the end of every drain |
| EngineRuns.DrainedIsLive | src/ravana/engine/loop.py:401-405 | The "nothing pending and no terminal" branch of finalization is unreachable, unless a request of the run was answered by resuming another run |
| EngineRuns.RunIsGood | src/ravana/engine/loop.py:355-1135 | All invariants - log, rows, caps, tokens, joins, activation balance, retry chains, sleeps, requests, status - hold at every reachable state of every run, foreign answers and late cancels included |
| EngineRuns.CompiledIsWired | src/ravana/compiler/graph.py:96-149 | What compilation and non-empty targets guarantee: every edge leads somewhere, ids index their own nodes, join-all ids are listed once |
| EngineOps.DispatchOps | src/ravana/engine/loop.py:625-790 | A dispatch is a sequence of atomic writes each of which is allowed where it happens, ending in a retry, a failure, a fire, a human request, a terminal or an escape; so what each write keeps, every dispatch keeps |
| EngineOps.RouteOps | src/ravana/engine/loop.py:950-1003 | Routing a committed attempt is such a sequence: every target of the chosen edge in order, each below its cap where the cap binds |
| EngineOps.ChosenIsFireable | src/ravana/engine/loop.py:938-972 | Whatever edge routing picks leads from the node by a compiled edge and passes no binding loop cap |
| EngineTheorems.CompletedIsSoundAndFinal | src/ravana/engine/loop.py:376-400 | A COMPLETED run not resumed since met its definition of done on the very state and tokens it still has, and logged it if there was a definition; an action leaves everything of it as it is if and only if it neither resumes it with another run's request nor lands a cancel that selected it while active |
| EngineTheorems.CompletedRunStays | src/ravana/engine/loop.py:376-400 | Of all continuations of such a run, exactly those without such an action leave it as it is |
| EngineTheorems.ReopenedExactly | src/ravana/engine/loop.py:1099-1130 | A run counts as resumed while COMPLETED if and only if some action resumed it with another run's request when it was: its own requests never can |
| EngineTheorems.PassedGateIffCompleted | src/ravana/engine/loop.py:472-505 | A DOD_EVALUATED result of 1 is in the log if and only if the run is or once was COMPLETED under a definition of done, whatever cancels, failing writes and resumes occur |
| EngineTheorems.TerminalIsClosed | src/ravana/engine/loop.py:459-469 | No action takes a run out of the terminal statuses, and the only changes within them are to FAILED and to CANCELLED |
| EngineTheorems.TerminalForever | src/ravana/engine/loop.py:459-469 | Over whole runs: once terminal always terminal, and COMPLETED is never reached from the other two; when the status changes is the next rows |
| EngineEndings.CompletesExactly | src/ravana/engine/loop.py:376-400 | A run becomes COMPLETED if and only if its drain is over, unfailed and active with nobody asked, a terminal was reached since it was last resumed, no cancel and no failing write comes first, and the definition of done, if any, is met |
| EngineEndings.TerminalReachedExactly | src/ravana/engine/loop.py:985-1003 | What the drain remembers of terminals is what the log says: since the last HITL_RESOLVED a branch ended or was routed to the sentinel |
| EngineEndings.CancelledExactly | src/ravana/engine/loop.py:259-269 | A run is CANCELLED if and only if a cancel has landed and no turn of its loop has failed the run since |
| EngineFailures.TerminalStatusExactly | src/ravana/engine/loop.py:259-269 | The status any action leaves a run that had ended: FAILED by a turn of its drain that fails it, else CANCELLED by a cancel that selected it while it was active, else the one it had |
| EngineFailures.OverwrittenExactly | src/ravana/engine/loop.py:259-269 | An action overwrites a COMPLETED or FAILED run with CANCELLED if and only if some cancel selected the run while it was active and the action is, or contains, its write |
| EngineFailures.SelectedExactly | src/ravana/engine/loop.py:259-269 | A cancel is outstanding or has landed if and only if some action selected the run while it was active |
| EngineWitnesses.LateCancelOverwritesCompleted | src/ravana/engine/loop.py:259-269 | A compiled document and a run selected while active, COMPLETED with its gate passed, and then CANCELLED |
| EngineWitnesses.ForeignAnswerFailsCompleted | src/ravana/engine/loop.py:1101-1130 | A compiled document and a run that is COMPLETED and, resumed with another run's request, FAILED |
| EngineWitnesses.ForeignAnswerChangesCompleted | src/ravana/engine/loop.py:1101-1130 | The same, staying COMPLETED while its state changes |
| EngineWitnesses.ForeignNodeEscapes | src/ravana/engine/loop.py:1101-1130 | A compiled document and a COMPLETED run that an answer for a node of another graph makes raise |
| EngineWitnesses.LostRequestStrandsTheWaiter | src/ravana/engine/loop.py:1101-1130 | A compiled document and a run left WAITING_HUMAN with nothing to answer and no exception |
| EngineWitnesses.LostRequestStrandsTheAsker | src/ravana/engine/loop.py:401-405 | The same, left RUNNING |
| EngineWitnesses.CrossedRespondBreaksBoth | src/ravana/cli.py:394-421 | Two compiled documents and their runs: one resume of the COMPLETED first with the request of the waiting second leaves the second stuck and the first, a turn later, FAILED |
| EngineRequests.EachIsARun | src/ravana/engine/loop.py:1087-1133 | In a system of any number of runs over one request table, under any calls, every run is a run by itself, so every theorem on runs holds of each |
| EngineRequests.CrossedExactly | src/ravana/engine/loop.py:1101-1107 | Some run answered for another or had its request answered by another if and only if some accepted resume named a request of a run other than the one it resumed |
| EngineRequests.UncrossedRunsKeepTheirPromises | src/ravana/engine/loop.py:355-405 | Where no resume does, every run between drains is terminal or can still be answered, and a COMPLETED one is never resumed and met its definition on the state it has |
| EngineWitnesses.CancelledMayFail | src/ravana/engine/loop.py:1079-1084 | A compiled document and a run that is CANCELLED and then FAILED, because failing a run sets the status unconditionally |
| EngineFailures.CancelledFailsExactly | src/ravana/engine/loop.py:1034-1084 | A CANCELLED run becomes FAILED if and only if its drain, still under way, comes to a dispatch with a spent guard or whose turn breaks with an error that can be written, is rejected and recorded, fails to commit with such an error, or finds no route; otherwise it stays CANCELLED |
| EngineFailures.CancelledRunFailsExactly | src/ravana/engine/loop.py:1034-1084 | A continuation of a CANCELLED run leaves it FAILED if and only if such a dispatch occurs and no cancel lands after it, and CANCELLED otherwise |
| EngineFailures.RunFailsExactly | src/ravana/engine/loop.py:376-505 | Any run is FAILED if and only if some turn of its loop was such a dispatch, or a finalization whose first status write alone failed or whose definition of done was not met and was not overtaken by a cancel, and no cancel has landed since |
| EngineFailures.DispatchFailsExactly | src/ravana/engine/loop.py:625-790 | One dispatch leaves the run FAILED if and only if one of those conditions holds of the dispatch, or the run was FAILED and no cancel landed during its turn |
| EngineFailures.FinalizeFailsExactly | src/ravana/engine/loop.py:376-505 | One finalization leaves the run FAILED if and only if it was, or one of those conditions holds at the gate |
| EngineTheorems.RunIsEventSourced | src/ravana/engine/loop.py:146-187 | At every reachable state log sequences are 1, 2, ..., COMMIT versions chain by one up to the row's version, and folding the merge over the COMMIT diffs from the initial state gives the shared state |
| EngineTheorems.RunStaysWithinGuards | src/ravana/engine/loop.py:634-639 | Over whole runs, resumes included: attempts never exceed max_total_steps, an unfailed run's tokens never exceed max_tokens_total, and a loop cap holds for every target no default edge leads to and no edge lists twice |
| EngineInvariants.TokensHeldKept | src/ravana/engine/loop.py:769-790 | Every committed turn leaves the run's total within the cap, and nothing but a rejected turn adds tokens beyond it |
| EngineEndings.TokensAreConserved | src/ravana/engine/loop.py:1052-1084 | Over every run the tokens on its rows are those of its committed turns and its recorded rejected ones, each counted once, and of nothing else |
| EngineInvariants.CapsHeldKept | src/ravana/engine/loop.py:938-947 | Each operation keeps ROUTE counts within the binding loop caps |
| EngineTheorems.ActivationsAreConserved | src/ravana/engine/loop.py:985-1031 | For every join-any node of a clean run: completed attempts plus occurrences in the queue equal [is the entry of a run let in] + ROUTE events to it + HITL_RESOLVED events for it |
| EngineInvariants.BalanceStep | src/ravana/engine/loop.py:708-735 | Each operation, a transient retry included, preserves both sides of that balance |
| EngineTheorems.FailuresAreRetriedAtOnce | src/ravana/engine/loop.py:708-735 | A transient failure is followed at once by the same node under the same logical visit, now or as the next dispatch |
| EngineTheorems.RetriesAreBounded | src/ravana/engine/loop.py:199-231 | No node ever has more than max_retries_per_node + 1 failures in a row, and the attempts of one visit are one contiguous block of its node's attempts |
| EngineTheorems.VisitsAreStable | src/ravana/engine/loop.py:220-231 | In every run an attempt continues the visit of its node's previous attempt exactly when that one failed or waits for a human; every other re-entry gets a fresh visit |
| EngineEndings.AttemptsAreCounted | src/ravana/engine/loop.py:641-666 | In every run the attempts of a node are numbered 1, 2, 3 and so on |
| Executions.StreakIsTrailing | src/ravana/engine/loop.py:199-210 | A streak is the number of a node's last attempts that are FAILED, up to the first that is not |
| EngineTheorems.RequestsAreConserved | src/ravana/engine/loop.py:1006-1031 | Node by node: the requests in the table are the HITL_RAISED events; those answered, plus the other runs' requests this run was resumed with, are the HITL_RESOLVED events plus its own answered by resuming others; so table and log agree if and only if as many were lost as taken |
| EngineEndings.ResumeIsDispatched | src/ravana/engine/loop.py:1087-1133 | A resume, whatever state the run was left in, answers the request, forgets queue, failure and terminal, and its next turn dispatches the request's node |
| EngineTheorems.SleepsAreExact | src/ravana/engine/loop.py:719-735 | A clean run has slept exactly after its failures within the budget, in order, for a total between half and all of the sum of min(30, 2^(k-1)) over their streaks |
| EngineEndings.RetrySchedule | src/ravana/runtime/backoff.py:29-39 | The ceilings of the engine's sleeps are 1, 2, 4, 8 and 16 seconds for a node's first failures in a row and 30 for any more |
| EngineRouting.RunStaysReachable | src/ravana/compiler/validate.py:50-63 | Whatever any run ever queues, attempts, asks a human about, routes from or holds as a join is in the set the validator computes, provided the entry is not named like the terminal sentinel, no reachable node routes to a join of that name, and other runs' requests it is resumed with name nodes of the set |
| EngineRouting.RunLeavesReachableExactly | src/ravana/compiler/validate.py:50-63 | Run by run: the queue ever leaves the computed set if and only if the run is let in with an entry named like the sentinel, or its drain, with nothing else to do, finds arrivals for a join of that name, or the run is resumed with another run's request for a node outside the set |
| EngineRouting.RunStaysWithin | src/ravana/engine/loop.py:333-373 | A set of nodes holding the entry and closed under edges contains every place a run visits, all resumes included, unless a join named like the sentinel is promoted or another run's request for a node outside the set is answered here |
| EngineRouting.SentinelEntryIsMissed | src/ravana/compiler/validate.py:53-57 | With an entry named like the sentinel the run's queue leaves the computed set at once |
| EngineRouting.SentinelJoinIsPromoted | src/ravana/engine/loop.py:355-373 | Whenever that condition on the join holds, the next turn of the loop queues it |
| EngineWitnesses.SentinelJoinIsQueued | src/ravana/engine/loop.py:355-373 | A compiled document whose only edge leads to the terminal, and a run that queues its join of that name in two turns although the search cannot reach it |
| EngineRouting.ArrivalsAreInbound | src/ravana/engine/loop.py:312-330 | In every reachable state the unconsumed arrivals of a node are among its compiled inbound sources, and a join-all node is queued at most once |
| EngineRouting.JoinsWaitForTheirWave | src/ravana/engine/loop.py:985-1003 | After any action of any run a join-all node is in the queue only if it was still waiting there, or as its own retry, or as the answer to a request for it, or once exactly all its sources have arrived, or, if held with arrivals, at quiescence with an empty queue and no human request pending |
| EngineRouting.JoinEnters | src/ravana/engine/loop.py:985-1003 | The same of every atomic write of a dispatch |
| EngineRouting.CleanDrainConsumesArrivals | src/ravana/engine/loop.py:355-373 | Whenever a drain of a run, left to itself, ends unfailed, without an exception and with no human request pending, no join has an unconsumed arrival |
| EngineEndings.CompleteJoinsAreQueued | src/ravana/engine/loop.py:985-1003 | Between the actions of a clean run every join-all node whose sources have all arrived since its last commit is in the queue: no complete join is left to quiescence |
| EngineEndings.PromotedInOrder | src/ravana/engine/loop.py:333-343 | Joins promoted at quiescence are queued in the order the document declares their nodes |
| EngineRouting.RunConsumesArrivals | src/ravana/engine/loop.py:355-373 | The same whatever happens between its turns, unless a request of the run was answered by resuming another |
| EngineRouting.RouteIsBestDeclared | src/ravana/engine/loop.py:950-960 | Against the document, not the sorted list: the edge fired is uncapped, its condition holds, and it beats every other such declared edge on priority and then on position; later stages are tried only if no declared edge qualifies |
| EngineOutcomes.RouteMeans | src/ravana/engine/loop.py:950-982 | What routing leaves in the tables, from the document: the best declared edge that is neither capped nor false fires; with none, the attempt waits and one request is pending if the human trigger holds; else the default edge fires; else the run fails if the node has any edge, and its branch ends if not; a condition or trigger consulted that raises changes nothing and escapes |
| EngineOutcomes.HumanComesFirst | src/ravana/engine/loop.py:962-969 | With every conditional edge capped or false, a human is asked - one more pending request, nothing queued - if and only if the trigger holds, whatever the default edge; the default edge is taken if and only if the trigger is false |
| EngineOutcomes.FiringMeans | src/ravana/engine/loop.py:985-1003 | Firing logs one ROUTE per target, in order, and appends to the back of the queue, in order, every target but the terminal and joins that are incomplete, queued, or listed before; the terminal counts as reached if and only if it did or is a target |
| EngineRouting.NoRouteExactly | src/ravana/engine/loop.py:950-973 | Routing fails with no match exactly when the node has conditional edges, all capped or false, no default, and no enabled human request whose trigger holds |
| EngineRouting.SafetyNetHolds | src/ravana/engine/loop.py:938-973 | A node with a default edge, or an unconditional edge none of whose targets has a loop cap, never fails to route, in any state |
| EngineRouting.SilenceIsNotCoverage | src/ravana/compiler/validate.py:82-94 | A node the validator does not warn about fails to route if and only if it has no default edge, its unconditional edges are capped, its others capped or false, and no enabled human trigger holds; and then it has an enabled human request or a capped unconditional edge |
| EngineWitnesses.CappedLoopHasNoRoute | src/ravana/compiler/validate.py:88-90 | A compiled unconditional self-loop the validator accepts, and a run that its first turn spends and its second fails for want of a route |
| EngineRouting.DefaultEdgePassesItsCap | src/ravana/engine/loop.py:967-969 | With nothing else to take, a default edge fires past its targets' loop caps, in any state |
| EngineCaps.CapIsPassedExactly | src/ravana/engine/loop.py:938-973 | Routing takes a count within its cap past it if and only if the edge it fires lists the target often enough; and then that edge is the default one or lists the target at least twice |
| EngineCaps.RunPassesCapExactly | src/ravana/engine/loop.py:938-1003 | Over whole runs a count is past its cap if and only if some dispatch of the loop took it there |
| EngineCaps.DispatchCounts | src/ravana/engine/loop.py:985-1003 | A dispatch adds to the count of f -> t exactly the mentions of t on the edge fired, if it is f's dispatch and routes at all |
| EngineWitnesses.DefaultEdgePassesItsCap | src/ravana/engine/loop.py:967-969 | A compiled self-loop by a default edge with cap 0, and a run that takes it in its first turn |
| EngineWitnesses.DoubledTargetPassesItsCap | src/ravana/engine/loop.py:985-991 | A compiled self-loop that lists its target twice with cap 1, and a run whose count is 2 after its first turn |
| EngineLoop.Engine.constructor | src/ravana/engine/loop.py:234-306 | A started run is the start state: its entry queued, or held with nothing queued |
| EngineLoop.Engine.ConsecutiveFailures | src/ravana/engine/loop.py:199-210 | The loop counts exactly the node's trailing FAILED attempts |
| EngineLoop.Engine.FailRun | src/ravana/engine/loop.py:1034-1084 | Failing in place gives the functional step: latest row relabelled, status, event, empty queue; or, if the error text or the record of a rejected turn cannot be written, an escape with none of it kept |
| EngineLoop.Engine.CommitState | src/ravana/engine/loop.py:906-935 | The on_enter commit in place, or the escaping merge error with nothing written |
| EngineLoop.Engine.CommitTurn | src/ravana/engine/loop.py:844-903 | Row, state and log change together, or the commit is refused with all three untouched |
| EngineLoop.Engine.EdgeIsLoopCapped | src/ravana/engine/loop.py:938-947 | The loop decides whether some target has fired as often as its cap allows |
| EngineLoop.Engine.FireEdge | src/ravana/engine/loop.py:985-1003 | Firing target by target in place is the fold the balance and cap proofs use |
| EngineLoop.Engine.RaiseHitl | src/ravana/engine/loop.py:1006-1031 | The attempt waits, a pending request exists, the event is logged |
| EngineLoop.Engine.FirstRoutable | src/ravana/engine/loop.py:950-960 | The edge loop finds the first edge neither capped nor false, if there is one |
| EngineLoop.Engine.Route | src/ravana/engine/loop.py:950-982 | Routing in place leaves the state the document declares: the state of which `EngineOutcomes.RouteMeans` says what it is |
| EngineLoop.Engine.SettleTurn | src/ravana/engine/loop.py:707-790 | Retry or its overflow, failure, the three post-turn guards with their failing comparisons, commit and route, in the source's order |
| EngineLoop.Engine.Requeue | src/ravana/engine/loop.py:708-735 | The transient branch in place: the attempt marked, or an escape if its error text cannot be written; a sleep within the budget or an overflow; and the node back at the front |
| EngineLoop.Engine.RunAttempt | src/ravana/engine/loop.py:668-706 | on_enter, then the turn during which the run may be cancelled |
| EngineLoop.Engine.Dispatch | src/ravana/engine/loop.py:625-674 | The two guards, the new attempt row, then the attempt |
| EngineLoop.Engine.PendingJoins | src/ravana/engine/loop.py:333-343 | The join-all nodes with unconsumed arrivals not already queued, in node order |
| EngineLoop.Engine.DrainQueue | src/ravana/engine/loop.py:355-373 | The in-place drain loop terminates in exactly the state the functional drain reaches, so every theorem on runs is about this loop |
| EngineLoop.Engine.UpdateStatusIfActive | src/ravana/engine/loop.py:459-469 | The status moves only if it was not terminal, and the caller learns whether it did |
| EngineLoop.Engine.WriteFinal | src/ravana/engine/loop.py:472-505 | Event and status together, or neither; a failing write falls back to FAILED without the event, and a second failure escapes |
| EngineLoop.Engine.FinalizeStatus | src/ravana/engine/loop.py:376-405 | Finalization in place is the functional one |
| EngineLoop.Engine.SelectFromOutside | src/ravana/engine/loop.py:259-264 | Another process selects the run for cancelling, if it is active |
| EngineLoop.Engine.CancelFromOutside | src/ravana/engine/loop.py:267-269 | A cancel that selected the run while active sets the status whatever it is by now |
| EngineLoop.Engine.ResumeHitl | src/ravana/engine/loop.py:1087-1133 | A resume is refused exactly when the request is missing or not pending, with nothing changed; otherwise, whichever run the request belongs to, it is this run resumed at the request's node followed by a whole drain |
| EventLog.AppendArrivals | src/ravana/engine/loop.py:312-330 | Arrivals derived from the log behave as a set: a ROUTE adds its source, the node's own COMMIT empties them, nothing else touches them |
| EventLog.ReplayAppend | src/ravana/engine/loop.py:146-187 | Replaying one more event is merging its diff exactly when it is a COMMIT, and the chain of versions extends only by one |
| Executions.MaxAttemptIsLatest | src/ravana/engine/loop.py:641-645 | The largest attempt number of a node is on its latest row, so ordering by attempt and by insertion agree |
| Executions.NewRowSound | src/ravana/engine/loop.py:641-666 | Opening an attempt keeps attempts ascending, streaks bounded and visits contiguous |
| Executions.MarkSound | src/ravana/engine/loop.py:1052-1078 | Marking a node's latest row keeps them too |
| Executions.StreakBound | src/ravana/engine/loop.py:199-210 | No streak of failures ever exceeds the retry budget by more than one |
| StateMerge.MergeDelta | src/ravana/engine/state_merge.py:15-40 | The loop over the delta computes the fold of single-member merges, stopping at the first type error |
| StateMerge.MergeMeans | src/ravana/engine/state_merge.py:15-40 | In terms of the values: a merge succeeds if and only if each member is accepted - append needs a list or something empty held, merge-object an object or something empty held and an object brought. Under append a held list stays in front, followed by the delta's items or its one value; under merge-object every name brought has its last value, every other name what it held, and names keep their places; otherwise the delta's value is taken; every other key is untouched |
| StateMerge.MergeRefusesFirst | src/ravana/engine/state_merge.py:28-36 | A merge that raises complains of the first member its policy refuses |
| StateMerge.MergeIsPointwise | src/ravana/engine/state_merge.py:15-40 | Independent of order: a merge succeeds exactly when every member combines with what its key held before, each such key takes that combination, and every other key is untouched |
| StateMerge.DisjointDeltasCommute | src/ravana/engine/state_merge.py:15-40 | Deltas on different keys commute: in either order both merges succeed or not alike, exactly when each succeeds alone, and the state is the same |
| CommitProtocol.NoCommitIsLost | src/ravana/engine/loop.py:844-903 | Under every interleaving of any number of writers: the state is the fold of the winners' deltas in commit order, versions and sequences are gapless, exactly the winners have an event, a message and a SUCCEEDED row, once each |
| CommitProtocol.LoopOutcome | src/ravana/engine/loop.py:858-903 | The retry loop ends exactly at the first attempt whose merge raises or that no rival races, or after three lost races, and only a win writes anything of its turn |
| CommitProtocol.GivesUpExactly | src/ravana/engine/loop.py:858-903 | A commit is given up if and only if each of three attempts merges and loses its race |
| CommitProtocol.ThreeRacesAreLost | src/ravana/engine/loop.py:858-903 | Under every schedule whoever gives up has lost exactly three races, and whoever wins or raises fewer |
| CommitProtocol.AbortIsFinal | src/ravana/engine/loop.py:900-902 | A writer whose transaction raises never commits, under any schedule that follows, and leaves no message and no row |
| CommitProtocol.RunStore.CommitTurn | src/ravana/engine/loop.py:858-903 | The loop with its rollback leaves the store the attempts describe |
| CommitProtocol.StaleCopyLosesACommit | src/ravana/engine/loop.py:917-935 | Merging a caller's copy instead of a re-read state loses a rival's commit: a concrete run whose state is not the fold of its log |
| CommitProtocol.StaleCommitExactly | src/ravana/engine/loop.py:917-935 | After such a commit the row is the fold of its log if and only if the copy's merge raises or equals the merge with the current state |
| CommitProtocol.MergesAgreeExactly | src/ravana/engine/loop.py:917-935 | Two states merge a delta alike if and only if they agree on every key outside it and combine alike on every key in it |
| CommitProtocol.FreshCopyIsFaithful | src/ravana/engine/loop.py:917-935 | If no rival has committed since the copy was read, the commit is faithful |
| Graph.Compile | src/ravana/compiler/graph.py:96-149 | Compilation succeeds exactly for documents with distinct node ids, a known entry, known edge ends and at most one default per node; the graph then represents the document, and a refusal names a genuine fault |
| Graph.PartitionEdges | src/ravana/compiler/graph.py:128-146 | One pass over the edges fills defaults, declared conditional edges and inbound sources exactly, or reports a genuine fault |
| Graph.AddInbound | src/ravana/compiler/graph.py:135-139 | The targets of one edge gain its source and nothing else changes, or the first unknown target is reported |
| Graph.IndexDetectsDuplicates | src/ravana/compiler/graph.py:98-101 | The index by id is as large as the node list exactly when no id repeats |
| Graph.SortDescends | src/ravana/compiler/graph.py:148-149 | Sorting is a permutation into descending priority |
| Graph.SortedFirstIsBest | src/ravana/compiler/graph.py:148-149 | The sort is stable where it matters: for every predicate the first passing sorted edge is the passing declared edge best by priority, then position |
| Graph.DeclaredBest | src/ravana/compiler/graph.py:128-149 | The best of the edges declared out of a node, by priority and then position among them, is the best such edge of the whole document |
| Graph.LeadsIsDeclared | src/ravana/compiler/graph.py:128-146 | Partitioning the edges loses none and invents none |
| Graph.CompiledIsClosed | src/ravana/compiler/graph.py:125-146 | In a compiled graph every edge joins known nodes, and inbound sources are exactly the nodes with an edge there |
| Validate.Reachable | src/ravana/compiler/validate.py:50-63 | The depth-first search returns exactly the nodes on a path from the entry, none if the entry is named like the sentinel |
| Validate.MissingSafetyNet | src/ravana/compiler/validate.py:75-102 | A node is warned about exactly when it has edges, no default, no unconditional edge and no enabled human request |
| Dod.DodResult.constructor | src/ravana/engine/dod.py:104-126 | Evaluation in order gives one result per criterion: ruled if an expression, open if prose |
| Dod.DodResult.ApplyProseVerdict | src/ravana/engine/dod.py:84-92 | In place, the k-th prose result takes the k-th verdict, met only if exactly True and failing closed when missing; expression results stay |
| Dod.DecideExact | src/ravana/engine/loop.py:570-622 | The gate opens exactly when every expression criterion holds and the prose is advisory, absent, or ruled exactly True throughout by a judge within the token cap |
| Dod.DecisionExplains | src/ravana/engine/loop.py:570-622 | The row says why: it is met if and only if the gate opens, cost_cap_exceeded if and only if a judge was asked and its tokens pass the cap, evaluator_error if and only if it gave no rulings within the cap; the usage is what the judge spent, and each criterion has its text, its kind and what it came to, in order, unless the judge broke |
| Dod.AdvisoryMet | src/ravana/engine/dod.py:63-68 | Without rulings `met` is exactly that every expression criterion holds |
| Dod.RuledMet | src/ravana/engine/dod.py:63-92 | With rulings `met` is exactly that and True at each prose criterion's own position |
| Verdicts.MapVerdicts | src/ravana/runtime/gateway.py:841-870 | Criterion i is met exactly when one entry, and no other, has the exact int index i and its `met` is exactly True |
| Verdicts.EntryRulesExactly | src/ravana/runtime/gateway.py:859-867 | An entry rules on criterion i if and only if it is an object whose index is the int i and there is such a criterion, and says met if and only if its `met` is True |
| Verdicts.EntriesAreListed | src/ravana/runtime/gateway.py:857-858 | The entries are the list under "verdicts", and there are none if that is missing or no list |
| EndToEnd.CompletedIsProven | src/ravana/engine/loop.py:570-622 | COMPLETED end to end over gateway, gate and engine, as the run ended and until it is resumed with another run's request: every expression holds of the state it has, and unless prose was advisory the gateway's judgement returned a payload with exactly one entry per prose criterion, met exactly True, and the nodes' tokens with those of every response the judge received are within the cap |
| EndToEnd.CompletionIsFresh | src/ravana/engine/loop.py:376-400 | Whenever a run becomes COMPLETED it has not been resumed since, so that much is true of every completion |
| EndToEnd.OnlyTheTokenCapRejects | src/ravana/engine/loop.py:751-768 | Under equal limits the engine's guards never reject a gateway turn for its calls or repairs, whether from the tool loop or guided: it is rejected exactly over the run's token cap and accepted otherwise |
| EndToEnd.JudgeProse | src/ravana/runtime/gateway.py:754-766 | What the engine receives of a judgement is the fallback chain's payload mapped to rulings with all tokens spent, or an error that carries them |
| Backoff.DelayBounds | src/ravana/runtime/backoff.py:29-39 | A delay lies between half the capped exponential and all of it, and that exponential never shrinks nor passes the cap |
| Backoff.CeilingDoubles | src/ravana/runtime/backoff.py:29-39 | The ceiling starts at the base, doubles with each failure, and stops at the cap |
| Backoff.BoundsAreMet | src/ravana/runtime/backoff.py:39 | The lowest draw gives half the ceiling and the highest all of it |
| Ledger.LedgerIsExclusive | src/ravana/runtime/tool_executor.py:303-383 | Under every interleaving and every crash: at most one live executor holds a key, its record always updates exactly its row, and the key's history is proper - invoked only first or after a recorded failure, no lost claim, every delivery the recorded result |
| Ledger.SuccessIsReplayed | src/ravana/runtime/tool_executor.py:339-383 | Once a key succeeded its row holds that result, every claim in its scope replays it, and no next step changes that |
| Ledger.SuccessIsFinal | src/ravana/runtime/tool_executor.py:262-301 | Nor any later steps: over all continuations the result stays and the handler is never invoked again |
| Ledger.AbandonedIsNeverInvoked | src/ravana/runtime/tool_executor.py:339-383 | A STARTED key whose holder is gone is never invoked again, over all continuations |
| Ledger.GrantsExactly | src/ravana/runtime/tool_executor.py:339-408 | In every reachable state a free executor's claim opens its job if and only if the key has no row or its row failed in the same scope; a claim refused changes nothing, and it is answered by the stored result if and only if the key succeeded in that scope |
| Ledger.FailureIsRetried | src/ravana/runtime/tool_executor.py:359-368 | After a recorded failure, whatever other keys do meanwhile, the next claim in its scope is granted and its invocation runs the handler exactly once more |
| Ledger.ToolExecutor.ClaimKey | src/ravana/runtime/tool_executor.py:339-408 | The claim in place: granted if and only if the key has no row or failed in its scope, and then STARTED; a stored result, a colliding scope or an unresolved start are answered with the table unchanged |
| Ledger.ToolExecutor.RecordOutcome | src/ravana/runtime/tool_executor.py:303-337 | The record in place, guarded by key, scope and STARTED |
| Ledger.ToolExecutor.Execute | src/ravana/runtime/tool_executor.py:228-301 | A read-only call never touches the ledger; a side-effecting one calls its handler if and only if the key has no row or failed in its scope, its row is then what the handler's outcome says, and it returns the handler's result or that of a key that succeeded in its scope |
| Mcp.CalledAtMostOnce | src/ravana/runtime/toolkits/mcp_server.py:373-393 | For a side-effecting sub-tool the remote tool is reached at most once per key under every interleaving, retry, timeout, cancellation, cleanup failure and crash |
| Mcp.Call.Invoke | src/ravana/runtime/toolkits/mcp_server.py:435-486 | The reply exactly: the result if and only if nothing breaks in and nothing leaks; fatal if and only if the credential fails; before dispatch a retry-safe cancellation or a transient error, after it an unknown outcome for a side-effecting tool, a leak or a failing cleanup included, and a transient error for a read-only one; and the tool is called once exactly if dispatched |
| Mcp.Call.CallOnce | src/ravana/runtime/toolkits/mcp_server.py:542-592 | Dispatch happens exactly when credentials resolve and the session opens; what leaves the session is the result, an error by phase, or a bare timeout or cancellation, exactly as the last thing to break in says, cleanup included |
| Mcp.ClassifiesTheToolItCalls | src/ravana/runtime/toolkits/mcp_server.py:362-371 | The executor and the handler classify the same sub-tool, even one named with the toolkit's own prefix |
| IdempotencyKey.KeyNamesOneInvocation | src/ravana/runtime/idempotency.py:16-27 | Within one scope equal pre-hash texts mean the same visit, ordinal and arguments |
| IdempotencyKey.KeysCollideAcrossScopes | src/ravana/runtime/idempotency.py:16-27 | Across scopes they do not: two invocations with uuid visits whose texts coincide because a node is named after the other's visit |
| IdempotencyKey.KeysTellVisitsApart | src/ravana/runtime/idempotency.py:16-27 | Across scopes too, as long as neither visit id is a colon-separated part of the other's run and node names, equal texts have equal visits and ordinals, and the same parts before them |
| IdempotencyKey.ColonFreeKeysNameOneInvocation | src/ravana/runtime/idempotency.py:16-27 | Where run, node, tool and visit of both have no colon, equal texts mean the same invocation, across scopes too |
| IdempotencyKey.ClaimIsForThisInvocation | src/ravana/runtime/tool_executor.py:396-408 | The scope check closes that gap: of two invocations with one key, a claim is accepted exactly when they are the same invocation |
| ToolLoop.TurnIsWithinGuards | src/ravana/runtime/gateway.py:576-721 | Every turn makes at most max_tool_calls_per_turn + max_output_repairs + 2 model calls and ends with executed calls and repairs within budget, their ordinals strictly rising |
| ToolLoop.CeilingIsSlack | src/ravana/runtime/gateway.py:580-598 | For a provider that obeys the forced submit the ceiling is never reached: an output error then means the repair budget is spent |
| ToolLoop.RoundKeepsBalance | src/ravana/runtime/gateway.py:628-695 | Whenever the loop goes round again its transcript answers every assistant turn call for call before the next user or assistant message |
| ToolLoop.Gateway.RunToolLoop | src/ravana/runtime/gateway.py:573-721 | The loop in place computes the round-by-round fold, and every request it sends is a balanced transcript |
| TurnEndings.LoopEndsExactly | src/ravana/runtime/gateway.py:573-721 | Said of the provider's replies alone: the turn ends with the first reply that does not let it go on, and as that reply says - down, leaking, stopped by the first tool call that ends the turn, submitted, or out of repairs - or with an output error at the ceiling; a submitted turn reports exactly the calls that succeeded with their ordinals, the replies repaired and the tokens of every reply |
| TurnEndings.SubmitsExactly | src/ravana/runtime/gateway.py:694-711 | A turn submits if and only if its last reply is clean, is only submits, and the first of them is valid, and submits that; every earlier reply that was only submits had an invalid first one; an output error below the ceiling means an invalid submit with the repairs spent |
| TurnEndings.ExecutedAreGranted | src/ravana/runtime/gateway.py:633-683 | Every call a turn reports was granted, within the budget, and succeeded |
| TurnEndings.BatchMeans | src/ravana/runtime/gateway.py:633-683 | The other calls of a reply run in order up to the first that is granted, in budget and fails fatally, transiently or with a leak |
| ToolLoop.Gateway.RunBatch | src/ravana/runtime/gateway.py:633-687 | The batch loop refuses, bounds, executes and records each call in order, stopping at the first ending |
| ToolLoop.GuidedLoop | src/ravana/runtime/gateway.py:500-523 | Guided decoding makes one model call more than its repairs and every answer but the last was invalid; it submits exactly the first valid answer, with the tokens of all, and any other ending is the last answer's own: provider down, a leak, or invalid with the repairs spent |
| Fallback.RunWithFallback | src/ravana/runtime/gateway.py:378-440 | The nested retry loops compute the chain entry by entry |
| Fallback.ChainEndIsExact | src/ravana/runtime/gateway.py:397-440 | The first entry that does not fail decides; if all fail the error is transient exactly when some entry ended on a retryable one, whatever its earlier try died of |
| Fallback.EntryIsTriedTwiceAtMost | src/ravana/runtime/gateway.py:397-424 | An entry is tried again, once, if and only if its first try fails retryably, and then ends as that one does |
| Judge.JudgementIsBudgetedAndBilled | src/ravana/runtime/gateway.py:723-838 | Over all entries and retries one judgement receives at most max_output_repairs + 1 responses in at most that plus 2 calls per entry, and the usage it reports, on return and on failure, is the sum over every response received |
| Judge.CompletesExactly | src/ravana/runtime/gateway.py:768-838 | Every answer of one completion but the last was invalid and cost a repair; the last decides, and it is returned if and only if it is clean and on the schema |
| Judge.JudgementIsAnAnswer | src/ravana/runtime/gateway.py:754-838 | A judgement over all entries and retries returns nothing but the payload of its last answer, which leaks nothing |
| Judge.UnreadyEntryIsSkipped | src/ravana/runtime/gateway.py:301-333 | An entry whose adapter or key does not resolve makes no call, and the chain goes on past it |
| Judge.Judge.JudgeCompletion | src/ravana/runtime/gateway.py:768-838 | The loop in place bills before it rejects and spends the shared repair budget |
| BoundedOutput.BoundedOutput.DrainFresh | src/ravana/runtime/toolkits/sandbox.py:950-970 | For every chunking and every non-empty sentinel: seen exactly when the whole stream contains it, the data is exactly the first `limit` bytes, and `omitted` the exact remainder |
| BoundedOutput.BoundedOutput.Drain | src/ravana/runtime/toolkits/sandbox.py:961-970 | The same invariant from any state of the object, over any further chunks |
| BoundedOutput.SeamSearch | src/ravana/runtime/toolkits/sandbox.py:963-967 | Searching the kept tail with the chunk finds a sentinel exactly when searching everything would |
| BoundedOutput.StreamIsConcatenation | src/ravana/runtime/toolkits/sandbox.py:961-970 | Chunks drained one list after another are one stream |
| Json.FreezeDecidesEquality | src/ravana/runtime/schema_validate.py:332-353 | Two values have the same key exactly when they are equal under section 4.2.2 of JSON Schema Core 2020-12: numbers by value, objects regardless of order, booleans never numbers |
| SchemaValidate.UniqueItemsExact | src/ravana/runtime/schema_validate.py:356-368 | The error of section 6.4.3 of JSON Schema Validation 2020-12 is reported exactly when two positions hold equal items, unless the step budget runs out, which it does not if it covers the items' steps |
| SchemaValidate.ExhaustsExactly | src/ravana/runtime/schema_validate.py:356-368 | The budget runs out if and only if it does so on an item before which nothing was repeated |
| SchemaValidate.Budget.FreezeJson | src/ravana/runtime/schema_validate.py:332-353 | The recursion returns the key and charges one step per value, or stops once the budget is exceeded |
| SchemaValidate.Budget.UniqueItems | src/ravana/runtime/schema_validate.py:356-368 | The loop with its seen set is the scan the exactness is proved of |

## Left out

- SQLite, SQL text, JSON text, timestamps and ids: tables are sequences and maps written transactionally, ids are fresh numbers; rows are kept in insertion order, which is attempt order (`Executions.MaxAttemptIsLatest`).
- A process crash or a cancelled coroutine (a BaseException) in the middle of an engine drain: crashes are modelled for the ledger only.
- Two drains of one run at once, and two resumes that both read one request as pending before either answers it; concurrent writers are modelled for the turn commit.
- Errors of the database itself, other than in the commit, the record of a rejected turn, the error text of a failed one and the final status write; node ids and document text that it cannot hold; and a resume whose response cannot be encoded, which raises before its drain.
- Within one attempt an edge or trigger is evaluated once; two edges equal in every field evaluate alike there.
- What an escaped exception leaves in an open transaction is taken as rolled back, as it is when the connection closes; a commit on the same connection before that is not modelled.
- Preparing and releasing a runtime around a drain, workspace handoff, audit rows and logging.
- Message rows, except as traces of a commit in `CommitProtocol`; HITL answers' contents.
- `EngineTheorems.RunIsEventSourced`: deltas have text keys, as every delta read from JSON has; a delta with other keys, such as an integer one from a YAML fixture, is logged as JSON text that merges it into the text key, and its replay then differs.
- `Graph.Compile`: leaves out the agent, toolkit and skill registries and the gate's agent lookup, so their error cases, because they do not touch the graph's shape.
- `EngineTheorems.ActivationsAreConserved`: assumes no escaped exception besides no failure, because an exception leaves an attempt open that nothing caused to end.
- `EngineTheorems.SleepsAreExact`: sleeps are numbers over `real`, since rounding is not the point, save the overflow, which is modelled; jitter is assumed to lie within its bounds, and backoff sleeps of the fallback chain are not counted.
- `Ledger.LedgerIsExclusive`: takes result text and argument text as given, so a handler result that cannot be encoded is the unknown-outcome case.
- `IdempotencyKey.KeyNamesOneInvocation`: is about the text before hashing, taking the hash as injective and the canonical JSON of the arguments as given; visit ids are uuids and so without a colon.
- `Mcp.CalledAtMostOnce`: transports, tool discovery, snapshot pinning across restarts and child environments are outcomes of a script, not modelled code.
- `ToolLoop.TurnIsWithinGuards`: strategy selection, prompt text and secret detection are outcomes; argument contents matter only through schema validity.
- `Judge.JudgementIsBudgetedAndBilled`: provider token counts are taken as non-negative integers, since others raise before they are added.
- `BoundedOutput.BoundedOutput.DrainFresh`: the text rendering of the captured bytes is not part of it, nor are empty sentinels in its last clause, for which any non-empty chunk counts as seen.
- `Json.FreezeDecidesEquality`: values are finite JSON with numbers as exact integers and reals; Python objects outside JSON are not part of it.
- `SchemaValidate.UniqueItemsExact`: only the step part of the validation budget, not its wall-clock deadline.
- Conditions, regular expressions and JSON Schema keywords other than `uniqueItems` are uninterpreted.
- The validator's broadcast-conflict and join-sanity warnings, and the sandbox's container and workspace supervision: many cases, no invariant beyond those here.
