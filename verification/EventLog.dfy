/**
 * The state_transition_log of one run: sequence numbers, and everything the
 * engine derives from the log instead of keeping it in memory.
 */
module EventLog {
  import opened Outcomes
  import opened StateMerge
  import opened Dod

  datatype Event =
    | Commit(node: string, diff: Delta, before: nat, after: nat)
    | Route(from: string, to: string)
    | HitlRaised(node: string)
    | HitlResolved(node: string)
    | Fail(node: string)
    | Terminate(node: string)
    | DodEvaluated(decision: Decision)

  datatype Entry = Entry(sequence: nat, event: Event)

  type Log = seq<Entry>

  /** COALESCE(MAX(sequence), 0) */
  function LastSequence(log: Log): nat {
    if log == [] then 0
    else
      var earlier, last := LastSequence(log[..|log| - 1]), log[|log| - 1].sequence;
      if earlier < last then last else earlier
  }

  function Append(log: Log, event: Event): Log {
    log + [Entry(LastSequence(log) + 1, event)]
  }

  /** The sequence of the last COMMIT from a node, or 0. */
  function LastCommitOf(log: Log, node: string): nat {
    if log == [] then 0
    else
      var earlier, last := LastCommitOf(log[..|log| - 1], node), log[|log| - 1];
      if last.event.Commit? && last.event.node == node && earlier < last.sequence then last.sequence
      else earlier
  }

  /** `_join_arrivals`: who has routed into a node since its last COMMIT. */
  function Arrivals(log: Log, node: string): set<string> {
    set e | e in log && e.event.Route? && e.event.to == node && e.sequence > LastCommitOf(log, node) ::
      e.event.from
  }

  /** `_edge_fire_count` */
  function RouteCount(log: Log, f: string, t: string): nat {
    if log == [] then 0
    else RouteCount(log[..|log| - 1], f, t) + if log[|log| - 1].event == Route(f, t) then 1 else 0
  }

  /** ROUTE events to a node, from anywhere. */
  function RoutesTo(log: Log, t: string): nat {
    if log == [] then 0
    else
      var last := log[|log| - 1].event;
      RoutesTo(log[..|log| - 1], t) + if last.Route? && last.to == t then 1 else 0
  }

  /** HITL_RAISED events for a node. */
  function RaisedCount(log: Log, node: string): nat {
    if log == [] then 0
    else RaisedCount(log[..|log| - 1], node) + if log[|log| - 1].event == HitlRaised(node) then 1 else 0
  }

  /** HITL_RESOLVED events for a node. */
  function ResolvedCount(log: Log, node: string): nat {
    if log == [] then 0
    else ResolvedCount(log[..|log| - 1], node) + if log[|log| - 1].event == HitlResolved(node) then 1 else 0
  }

  function CommitCount(log: Log): nat {
    if log == [] then 0
    else CommitCount(log[..|log| - 1]) + if log[|log| - 1].event.Commit? then 1 else 0
  }

  /** Folding the merge over the COMMIT diffs, from the initial state. */
  function Replay(fields: map<string, Policy>, initial: Shared, log: Log): Result<Shared, MergeError> {
    if log == [] then Ok(initial)
    else
      var earlier, last := Replay(fields, initial, log[..|log| - 1]), log[|log| - 1].event;
      if earlier.Ok? && last.Commit? then Merge(fields, earlier.value, last.diff) else earlier
  }

  ghost predicate HasFailed(log: Log) {
    exists e | e in log :: e.event.Fail?
  }

  /** A DOD_EVALUATED row whose gate result is 1. */
  ghost predicate HasPassedGate(log: Log) {
    exists e | e in log :: e.event.DodEvaluated? && e.event.decision.completed
  }

  /** Sequences run 1, 2, 3, ... */
  ghost predicate Gapless(log: Log) {
    forall i | 0 <= i < |log| :: log[i].sequence == i + 1
  }

  /** The k-th COMMIT takes the version from k - 1 to k. */
  ghost predicate Chained(log: Log) {
    log == [] ||
    var init, last := log[..|log| - 1], log[|log| - 1].event;
    Chained(init) && (last.Commit? ==> last.before == CommitCount(init) && last.after == last.before + 1)
  }

  /** How each derived quantity moves when one event is appended. */
  lemma AppendCounts(log: Log, event: Event)
    ensures Append(log, event)[..|log|] == log
    ensures forall f, t :: RouteCount(Append(log, event), f, t) ==
                           RouteCount(log, f, t) + if event == Route(f, t) then 1 else 0
    ensures forall t :: RoutesTo(Append(log, event), t) ==
                        RoutesTo(log, t) + if event.Route? && event.to == t then 1 else 0
    ensures forall n :: ResolvedCount(Append(log, event), n) ==
                        ResolvedCount(log, n) + if event == HitlResolved(n) then 1 else 0
  {
    assert Append(log, event)[..|log|] == log;
  }

  lemma AppendRequests(log: Log, event: Event, node: string)
    ensures RaisedCount(Append(log, event), node) ==
            RaisedCount(log, node) + if event == HitlRaised(node) then 1 else 0
    ensures ResolvedCount(Append(log, event), node) ==
            ResolvedCount(log, node) + if event == HitlResolved(node) then 1 else 0
  {
    assert Append(log, event)[..|log|] == log;
  }

  /** An event that puts a node in the queue. */
  predicate IsCause(event: Event, node: string) {
    (event.Route? && event.to == node) || event == HitlResolved(node)
  }

  lemma AppendCauses(log: Log, event: Event, node: string)
    ensures RoutesTo(Append(log, event), node) + ResolvedCount(Append(log, event), node) ==
            RoutesTo(log, node) + ResolvedCount(log, node) + if IsCause(event, node) then 1 else 0
  {
    assert Append(log, event)[..|log|] == log;
  }

  lemma AppendFlags(log: Log, event: Event)
    ensures HasFailed(Append(log, event)) <==> HasFailed(log) || event.Fail?
    ensures HasPassedGate(Append(log, event)) <==>
            HasPassedGate(log) || (event.DodEvaluated? && event.decision.completed)
  {
    var more := Append(log, event);
    assert forall e :: e in more <==> e in log || e == Entry(LastSequence(log) + 1, event);
    assert Entry(LastSequence(log) + 1, event) in more;
    if HasFailed(log) {
      var e :| e in log && e.event.Fail?;
      assert e in more;
    }
    if HasPassedGate(log) {
      var e :| e in log && e.event.DodEvaluated? && e.event.decision.completed;
      assert e in more;
    }
  }

  lemma {:induction false} GaplessLast(log: Log)
    requires Gapless(log)
    ensures LastSequence(log) == |log|
  {
    if log != [] {
      GaplessLast(log[..|log| - 1]);
    }
  }

  lemma {:induction false} LastCommitInLog(log: Log, node: string)
    requires Gapless(log)
    ensures LastCommitOf(log, node) <= |log|
  {
    if log != [] {
      LastCommitInLog(log[..|log| - 1], node);
    }
  }

  lemma AppendGapless(log: Log, event: Event)
    requires Gapless(log)
    ensures Gapless(Append(log, event))
  {
    GaplessLast(log);
  }

  /** A COMMIT consumes a node's arrivals, a ROUTE adds one, nothing else touches them. */
  lemma AppendArrivals(log: Log, event: Event, node: string)
    requires Gapless(log)
    ensures Arrivals(Append(log, event), node) ==
            if event.Commit? && event.node == node then {}
            else if event.Route? && event.to == node then Arrivals(log, node) + {event.from}
            else Arrivals(log, node)
  {
    var more, last := Append(log, event), Entry(|log| + 1, event);
    AppendMembers(log, event);
    AppendLastCommit(log, event, node);
    LastCommitInLog(log, node);
    if event.Commit? && event.node == node {
      forall e | e in more
        ensures e.sequence <= |log| + 1
      {
        var i :| 0 <= i < |more| && more[i] == e;
      }
    }
  }

  lemma AppendMembers(log: Log, event: Event)
    requires Gapless(log)
    ensures Gapless(Append(log, event))
    ensures forall e :: e in Append(log, event) <==> e in log || e == Entry(|log| + 1, event)
  {
    AppendGapless(log, event);
    GaplessLast(log);
    assert Append(log, event) == log + [Entry(|log| + 1, event)];
  }

  lemma AppendLastCommit(log: Log, event: Event, node: string)
    requires Gapless(log)
    ensures LastCommitOf(Append(log, event), node) ==
            if event.Commit? && event.node == node then |log| + 1 else LastCommitOf(log, node)
  {
    var more := Append(log, event);
    GaplessLast(log);
    LastCommitInLog(log, node);
    assert more[..|more| - 1] == log && more[|more| - 1] == Entry(|log| + 1, event);
  }

  lemma {:induction false} ReplayAppend(fields: map<string, Policy>, initial: Shared, log: Log, event: Event)
    ensures Replay(fields, initial, Append(log, event)) ==
            var earlier := Replay(fields, initial, log);
            if earlier.Ok? && event.Commit? then Merge(fields, earlier.value, event.diff) else earlier
    ensures CommitCount(Append(log, event)) == CommitCount(log) + if event.Commit? then 1 else 0
    ensures Chained(Append(log, event)) <==>
            Chained(log) && (event.Commit? ==> event.before == CommitCount(log) && event.after == event.before + 1)
  {
    assert Append(log, event)[..|log|] == log;
  }
}
