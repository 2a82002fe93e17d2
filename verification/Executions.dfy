/** The node_execution rows of one run, in insertion order. */
module Executions {
  import opened Outcomes
  import opened Dod

  datatype RowStatus = Running | Succeeded | Failed | WaitingHuman

  datatype Row = Row(node: string, attempt: nat, visit: nat, status: RowStatus, input: nat, output: nat)

  type Rows = seq<Row>

  /** COALESCE(MAX(attempt), 0) of a node. */
  function MaxAttempt(rows: Rows, node: string): nat {
    if rows == [] then 0
    else
      var earlier, last := MaxAttempt(rows[..|rows| - 1], node), rows[|rows| - 1];
      if last.node == node && earlier < last.attempt then last.attempt else earlier
  }

  /** The index of a node's latest row, or -1. */
  function Latest(rows: Rows, node: string): (i: int)
    ensures -1 <= i < |rows|
    ensures 0 <= i ==> rows[i].node == node
    ensures forall k | i < k < |rows| :: rows[k].node != node
  {
    if rows == [] then -1
    else if rows[|rows| - 1].node == node then |rows| - 1
    else Latest(rows[..|rows| - 1], node)
  }

  /** `_consecutive_failures`: how many of a node's latest rows are FAILED in a row. */
  function Streak(rows: Rows, node: string): nat {
    if rows == [] then 0
    else
      var init, last := rows[..|rows| - 1], rows[|rows| - 1];
      if last.node != node then Streak(init, node)
      else if last.status == Failed then 1 + Streak(init, node)
      else 0
  }

  function TotalTokens(rows: Rows): nat {
    if rows == [] then 0 else TotalTokens(rows[..|rows| - 1]) + rows[|rows| - 1].input + rows[|rows| - 1].output
  }

  /** `_logical_visit_for_dispatch`: a retry or a resume keeps the visit, a re-entry gets a new one. */
  function VisitFor(rows: Rows, node: string, newId: nat): nat {
    var i := Latest(rows, node);
    if i >= 0 && (rows[i].status == Failed || rows[i].status == WaitingHuman) then rows[i].visit else newId
  }

  function NewRow(rows: Rows, node: string, newId: nat): Rows {
    rows + [Row(node, MaxAttempt(rows, node) + 1, VisitFor(rows, node, newId), Running, 0, 0)]
  }

  /** UPDATE of one row's status and, when a result came with it, its tokens. */
  function Mark(rows: Rows, i: nat, status: RowStatus, usage: Option<Usage>): Rows
    requires i < |rows|
  {
    rows[i := match usage
              case Some(u) => rows[i].(status := status, input := u.input, output := u.output)
              case None => rows[i].(status := status)]
  }

  /** Rows of a node that have not failed: running, succeeded or waiting. */
  function Standing(rows: Rows, node: string): nat {
    if rows == [] then 0
    else
      var last := rows[|rows| - 1];
      Standing(rows[..|rows| - 1], node) + if last.node == node && last.status != Failed then 1 else 0
  }

  /** Completed attempts of a node: SUCCEEDED or WAITING_HUMAN. */
  function Completed(rows: Rows, node: string): nat {
    if rows == [] then 0
    else
      var last := rows[|rows| - 1];
      Completed(rows[..|rows| - 1], node) +
      if last.node == node && (last.status == Succeeded || last.status == WaitingHuman) then 1 else 0
  }

  /** The streaks at which the engine sleeps: one per FAILED row, up to the retry budget. */
  function SleptStreaks(rows: Rows, maxRetries: nat): seq<nat> {
    if rows == [] then []
    else
      var earlier, last := SleptStreaks(rows[..|rows| - 1], maxRetries), rows[|rows| - 1];
      if last.status == Failed && Streak(rows, last.node) <= maxRetries
      then earlier + [Streak(rows, last.node)]
      else earlier
  }

  /** Every attempt number is one more than the node's earlier ones. */
  ghost predicate AttemptsAscend(rows: Rows) {
    rows == [] ||
    var init, last := rows[..|rows| - 1], rows[|rows| - 1];
    AttemptsAscend(init) && last.attempt == MaxAttempt(init, last.node) + 1
  }

  /** Every attempt started on a streak within the retry budget. */
  ghost predicate StreaksWithin(rows: Rows, maxRetries: nat) {
    rows == [] ||
    var init, last := rows[..|rows| - 1], rows[|rows| - 1];
    StreaksWithin(init, maxRetries) && Streak(init, last.node) <= maxRetries
  }

  /** Attempts that share a visit id belong to one node and are contiguous among its attempts. */
  ghost predicate VisitBlocks(rows: Rows) {
    forall i, j | 0 <= i < j < |rows| && rows[i].visit == rows[j].visit ::
      && rows[i].node == rows[j].node
      && forall k | i < k < j && rows[k].node == rows[i].node :: rows[k].visit == rows[i].visit
  }

  predicate KeepsVisit(status: RowStatus) {
    status == Failed || status == WaitingHuman
  }

  /** An attempt continues the visit of the one before exactly when that one failed or waits for a human. */
  ghost predicate VisitsFollow(rows: Rows) {
    rows == [] ||
    var init, last := rows[..|rows| - 1], rows[|rows| - 1];
    var i := Latest(init, last.node);
    VisitsFollow(init) && (i >= 0 ==> (last.visit == init[i].visit <==> KeepsVisit(init[i].status)))
  }

  /** Row `j` is the node's next attempt after row `i`. */
  ghost predicate IsNext(rows: Rows, i: int, j: int) {
    0 <= i < j < |rows| && rows[i].node == rows[j].node && forall k | i < k < j :: rows[k].node != rows[i].node
  }

  lemma {:induction false} FollowsMeans(rows: Rows, i: int, j: int)
    requires VisitsFollow(rows) && IsNext(rows, i, j)
    ensures rows[j].visit == rows[i].visit <==> KeepsVisit(rows[i].status)
  {
    if j == |rows| - 1 {
      assert Latest(rows[..j], rows[j].node) == i;
    } else {
      FollowsMeans(rows[..|rows| - 1], i, j);
    }
  }

  ghost predicate VisitsBelow(rows: Rows, newId: nat) {
    forall r | r in rows :: r.visit < newId
  }

  /** What holds of the rows whatever happens to the run. */
  ghost predicate RowsSound(rows: Rows, maxRetries: nat, newId: nat) {
    && AttemptsAscend(rows) && StreaksWithin(rows, maxRetries)
    && VisitBlocks(rows) && VisitsFollow(rows) && VisitsBelow(rows, newId)
  }

  /** A FAILED row is followed at once by the same node under the same visit. */
  ghost predicate FailuresFollowed(rows: Rows) {
    forall i | 0 <= i < |rows| - 1 && rows[i].status == Failed ::
      rows[i + 1].node == rows[i].node && rows[i + 1].visit == rows[i].visit
  }

  ghost predicate NoneRunning(rows: Rows) {
    forall r | r in rows :: r.status != Running
  }

  lemma {:induction false} MaxAttemptIsLatest(rows: Rows, node: string)
    requires AttemptsAscend(rows)
    ensures MaxAttempt(rows, node) == if Latest(rows, node) < 0 then 0 else rows[Latest(rows, node)].attempt
    ensures forall i | 0 <= i < |rows| && rows[i].node == node :: rows[i].attempt <= MaxAttempt(rows, node)
  {
    if rows != [] {
      MaxAttemptIsLatest(rows[..|rows| - 1], node);
    }
  }

  lemma NewRowSound(rows: Rows, maxRetries: nat, newId: nat, node: string)
    requires RowsSound(rows, maxRetries, newId) && Streak(rows, node) <= maxRetries
    ensures RowsSound(NewRow(rows, node, newId), maxRetries, newId + 1)
  {
    var more := NewRow(rows, node, newId);
    assert more[..|rows|] == rows;
    NewRowKeepsBlocks(rows, newId, node);
    NewRowFollows(rows, newId, node);
    forall r | r in more
      ensures r.visit < newId + 1
    {
      var i := Latest(rows, node);
      assert i >= 0 ==> rows[i] in rows;
    }
  }

  lemma NewRowKeepsBlocks(rows: Rows, newId: nat, node: string)
    requires VisitBlocks(rows) && VisitsBelow(rows, newId)
    ensures VisitBlocks(NewRow(rows, node, newId))
  {
    var more, latest := NewRow(rows, node, newId), Latest(rows, node);
    forall i, j | 0 <= i < j < |more| && more[i].visit == more[j].visit
      ensures more[i].node == more[j].node
      ensures forall k | i < k < j && more[k].node == more[i].node :: more[k].visit == more[i].visit
    {
      if j == |rows| {
        assert rows[i] in rows;
        assert latest >= 0 && rows[latest].visit == more[j].visit;
        if i < latest {
          assert rows[i].visit == rows[latest].visit;
        }
      }
    }
  }

  lemma NewRowFollows(rows: Rows, newId: nat, node: string)
    requires VisitsFollow(rows) && VisitsBelow(rows, newId)
    ensures VisitsFollow(NewRow(rows, node, newId))
  {
    var i := Latest(rows, node);
    assert NewRow(rows, node, newId)[..|rows|] == rows;
    assert i >= 0 ==> rows[i] in rows;
  }

  lemma {:induction false} MarkKeepsLatest(rows: Rows, i: nat, status: RowStatus, usage: Option<Usage>, node: string)
    requires i < |rows|
    ensures Latest(Mark(rows, i, status, usage), node) == Latest(rows, node)
  {
    MarkPrefix(rows, i, status, usage);
    if i < |rows| - 1 {
      MarkKeepsLatest(rows[..|rows| - 1], i, status, usage, node);
    }
  }

  lemma {:induction false} MarkFollows(rows: Rows, i: nat, status: RowStatus, usage: Option<Usage>)
    requires VisitsFollow(rows) && i < |rows| && i == Latest(rows, rows[i].node)
    ensures VisitsFollow(Mark(rows, i, status, usage))
  {
    MarkPrefix(rows, i, status, usage);
    if i < |rows| - 1 {
      var init, last := rows[..|rows| - 1], rows[|rows| - 1];
      var before := Latest(init, last.node);
      MarkFollows(init, i, status, usage);
      MarkKeepsLatest(init, i, status, usage, last.node);
      assert before >= 0 ==> before != i && Mark(init, i, status, usage)[before] == init[before];
    }
  }

  lemma {:induction false} MarkSound(rows: Rows, maxRetries: nat, newId: nat, i: nat, status: RowStatus,
                                     usage: Option<Usage>)
    requires RowsSound(rows, maxRetries, newId)
    requires i < |rows| && i == Latest(rows, rows[i].node)
    ensures RowsSound(Mark(rows, i, status, usage), maxRetries, newId)
  {
    var marked := Mark(rows, i, status, usage);
    forall r | r in marked
      ensures r.visit < newId
    {
      var k :| 0 <= k < |marked| && marked[k] == r;
      assert rows[k] in rows && rows[k].visit == r.visit;
    }
    MarkKeepsAttempts(rows, i, status, usage);
    MarkKeepsStreaks(rows, maxRetries, i, status, usage);
    MarkFollows(rows, i, status, usage);
    assert forall k | 0 <= k < |rows| :: marked[k].visit == rows[k].visit && marked[k].node == rows[k].node;
  }

  lemma {:induction false} MarkKeepsAttempts(rows: Rows, i: nat, status: RowStatus, usage: Option<Usage>)
    requires i < |rows|
    ensures forall node :: MaxAttempt(Mark(rows, i, status, usage), node) == MaxAttempt(rows, node)
    ensures AttemptsAscend(rows) ==> AttemptsAscend(Mark(rows, i, status, usage))
  {
    MarkPrefix(rows, i, status, usage);
    if i < |rows| - 1 {
      MarkKeepsAttempts(rows[..|rows| - 1], i, status, usage);
    }
  }

  lemma MarkPrefix(rows: Rows, i: nat, status: RowStatus, usage: Option<Usage>)
    requires i < |rows|
    ensures Mark(rows, i, status, usage)[..|rows| - 1] ==
            if i == |rows| - 1 then rows[..|rows| - 1] else Mark(rows[..|rows| - 1], i, status, usage)
  {
  }

  lemma {:induction false} MarkKeepsOtherStreaks(rows: Rows, i: nat, status: RowStatus, usage: Option<Usage>,
                                                 node: string)
    requires i < |rows| && rows[i].node != node
    ensures Streak(Mark(rows, i, status, usage), node) == Streak(rows, node)
  {
    MarkPrefix(rows, i, status, usage);
    if i < |rows| - 1 {
      MarkKeepsOtherStreaks(rows[..|rows| - 1], i, status, usage, node);
    }
  }

  lemma {:induction false} MarkKeepsStreaks(rows: Rows, maxRetries: nat, i: nat, status: RowStatus,
                                            usage: Option<Usage>)
    requires StreaksWithin(rows, maxRetries)
    requires i < |rows| && i == Latest(rows, rows[i].node)
    ensures StreaksWithin(Mark(rows, i, status, usage), maxRetries)
  {
    MarkPrefix(rows, i, status, usage);
    if i < |rows| - 1 {
      var init := rows[..|rows| - 1];
      assert rows[|rows| - 1].node != rows[i].node;
      MarkKeepsStreaks(init, maxRetries, i, status, usage);
      MarkKeepsOtherStreaks(init, i, status, usage, rows[|rows| - 1].node);
    }
  }

  /** A node never has more than maxRetries + 1 failures in a row. */
  lemma {:induction false} StreakBound(rows: Rows, maxRetries: nat, node: string)
    requires StreaksWithin(rows, maxRetries)
    ensures Streak(rows, node) <= maxRetries + 1
  {
    if rows != [] {
      StreakBound(rows[..|rows| - 1], maxRetries, node);
    }
  }

  /** The rows of one node, in order. */
  function Of(rows: Rows, node: string): Rows {
    if rows == [] then []
    else
      var earlier, last := Of(rows[..|rows| - 1], node), rows[|rows| - 1];
      if last.node == node then earlier + [last] else earlier
  }

  /** A streak is how many of a node's last attempts are FAILED, up to the first that is not. */
  lemma {:induction false} StreakIsTrailing(rows: Rows, node: string)
    ensures var own, k := Of(rows, node), Streak(rows, node);
            && k <= |own|
            && (forall i | |own| - k <= i < |own| :: own[i].status == Failed)
            && (k < |own| ==> own[|own| - k - 1].status != Failed)
  {
    if rows != [] {
      StreakIsTrailing(rows[..|rows| - 1], node);
    }
  }

  /** The attempts of a node are numbered 1, 2, 3, ... */
  lemma {:induction false} AttemptsAreNumbered(rows: Rows, i: nat)
    requires AttemptsAscend(rows) && i < |rows|
    ensures rows[i].attempt == |Of(rows[..i], rows[i].node)| + 1
  {
    var init := rows[..|rows| - 1];
    if i < |init| {
      assert init[..i] == rows[..i];
      AttemptsAreNumbered(init, i);
    } else {
      MaxAttemptCounts(init, rows[i].node);
    }
  }

  lemma {:induction false} MaxAttemptCounts(rows: Rows, node: string)
    requires AttemptsAscend(rows)
    ensures MaxAttempt(rows, node) == |Of(rows, node)|
  {
    if rows != [] {
      MaxAttemptCounts(rows[..|rows| - 1], node);
    }
  }

  lemma {:induction false} CompletedWhenNoneRunning(rows: Rows, node: string)
    requires NoneRunning(rows)
    ensures Completed(rows, node) == Standing(rows, node)
  {
    if rows != [] {
      assert rows[|rows| - 1] in rows;
      assert NoneRunning(rows[..|rows| - 1]);
      CompletedWhenNoneRunning(rows[..|rows| - 1], node);
    }
  }

  /** How the derived quantities move when a row is added and when the last one is marked. */
  lemma NewRowCounts(rows: Rows, node: string, newId: nat, maxRetries: nat)
    ensures NewRow(rows, node, newId)[..|rows|] == rows
    ensures TotalTokens(NewRow(rows, node, newId)) == TotalTokens(rows)
    ensures forall n :: Standing(NewRow(rows, node, newId), n) == Standing(rows, n) + if n == node then 1 else 0
    ensures SleptStreaks(NewRow(rows, node, newId), maxRetries) == SleptStreaks(rows, maxRetries)
  {
    assert NewRow(rows, node, newId)[..|rows|] == rows;
  }

  lemma MarkLastCounts(rows: Rows, status: RowStatus, usage: Option<Usage>, maxRetries: nat)
    requires rows != [] && rows[|rows| - 1].status != Failed
    ensures var last, marked := rows[|rows| - 1], Mark(rows, |rows| - 1, status, usage);
            && marked[..|rows| - 1] == rows[..|rows| - 1]
            && TotalTokens(marked) == TotalTokens(rows) +
                                      (if usage.Some? then usage.value.Total() - last.input - last.output else 0)
            && (forall n :: Standing(marked, n) ==
                            Standing(rows, n) - (if n == last.node && status == Failed then 1 else 0))
            && SleptStreaks(marked, maxRetries) ==
               SleptStreaks(rows, maxRetries) +
               (if status == Failed && Streak(rows[..|rows| - 1], last.node) + 1 <= maxRetries
                then [Streak(rows[..|rows| - 1], last.node) + 1] else [])
  {
    MarkPrefix(rows, |rows| - 1, status, usage);
  }
}
