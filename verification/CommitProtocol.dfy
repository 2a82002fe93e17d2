/**
 * `_commit_turn` with several writers (src/ravana/engine/loop.py): an
 * optimistic read, a transaction guarded by the state version, and at most
 * three attempts. A writer's rivals may commit at any point between its reads
 * and its transactions.
 */
module CommitProtocol {
  import opened Outcomes
  import opened Json
  import opened StateMerge
  import opened EventLog

  const MAX_TRIES := 3

  /** One turn to commit: whose it is, from which node, with which delta. */
  datatype Turn = Turn(node: string, delta: Delta)

  /** The tables one commit touches; `messages` and `succeeded` name turns by number. */
  datatype Store = Store(shared: Shared, version: nat, log: Log, messages: seq<nat>, succeeded: set<nat>)

  /** What the transaction of turn `id` writes when its version check passes. */
  function Admit(s: Store, id: nat, turn: Turn, merged: Shared): Store {
    Store(merged, s.version + 1,
          Append(s.log, Commit(turn.node, turn.delta, s.version, s.version + 1)),
          s.messages + [id], s.succeeded + {id})
  }

  /**
   * Where a writer is: about to read, holding what it read, or finished with
   * its commit, three lost races, or an error that left no trace.
   */
  datatype Phase =
    | Ready(tries: nat)
    | Holding(tries: nat, seen: nat, merged: Shared)
    | Won
    | Lost
    | Errored

  datatype System = System(store: Store, phases: seq<Phase>)

  datatype Action = Read(w: nat) | Write(w: nat) | Abort(w: nat)

  /** SELECT the run row and merge; a merge error is raised before anything is written. */
  function AfterRead(fields: map<string, Policy>, s: Store, turn: Turn, tries: nat): Phase {
    if tries >= MAX_TRIES then Lost
    else
      match Merge(fields, s.shared, turn.delta)
      case Ok(merged) => Holding(tries, s.version, merged)
      case Err(_) => Errored
  }

  function Step(fields: map<string, Policy>, turns: seq<Turn>, sys: System, a: Action): System
    requires |turns| == |sys.phases|
  {
    if a.w >= |turns| then sys
    else
      match (a, sys.phases[a.w])
      case (Read(w), Ready(tries)) =>
        sys.(phases := sys.phases[w := AfterRead(fields, sys.store, turns[w], tries)])
      case (Write(w), Holding(tries, seen, merged)) =>
        if seen == sys.store.version then
          System(Admit(sys.store, w, turns[w], merged), sys.phases[w := Won])
        else sys.(phases := sys.phases[w := Ready(tries + 1)])
      // any error inside the transaction rolls it back
      case (Abort(w), Holding(_, _, _)) => sys.(phases := sys.phases[w := Errored])
      case _ => sys
  }

  function Initial(initial: Shared, turns: seq<Turn>): System {
    System(Store(initial, 0, [], [], {}), seq(|turns|, i => Ready(0)))
  }

  function Run(fields: map<string, Policy>, initial: Shared, turns: seq<Turn>, schedule: seq<Action>): (sys: System)
    ensures |sys.phases| == |turns|
  {
    if schedule == [] then Initial(initial, turns)
    else Step(fields, turns, Run(fields, initial, turns, schedule[..|schedule| - 1]), schedule[|schedule| - 1])
  }

  /** The i-th row of the log is the i-th winner's whole commit. */
  ghost predicate LogIsWinners(turns: seq<Turn>, s: Store) {
    && |s.log| == |s.messages| == s.version
    && forall i | 0 <= i < |s.log| ::
         && s.messages[i] < |turns|
         && s.log[i] == Entry(i + 1, Commit(turns[s.messages[i]].node, turns[s.messages[i]].delta, i, i + 1))
  }

  /** Exactly the winners have a message and a succeeded row, once each. */
  ghost predicate TracesAreWinners(sys: System) {
    && (forall i, j | 0 <= i < j < |sys.store.messages| :: sys.store.messages[i] != sys.store.messages[j])
    && (forall w | 0 <= w < |sys.phases| :: w in sys.store.messages <==> sys.phases[w] == Won)
    && (forall w :: w in sys.store.succeeded <==> w in sys.store.messages)
  }

  /** What a writer holds is the merge with the current state unless the version has moved on. */
  ghost predicate HoldingsFresh(fields: map<string, Policy>, turns: seq<Turn>, sys: System)
    requires |turns| == |sys.phases|
  {
    forall w | 0 <= w < |turns| && sys.phases[w].Holding? ::
      && sys.phases[w].seen <= sys.store.version
      && (sys.phases[w].seen == sys.store.version ==>
            Merge(fields, sys.store.shared, turns[w].delta) == Ok(sys.phases[w].merged))
  }

  ghost predicate Inv(fields: map<string, Policy>, initial: Shared, turns: seq<Turn>, sys: System)
    requires |turns| == |sys.phases|
  {
    && LogIsWinners(turns, sys.store) && TracesAreWinners(sys) && HoldingsFresh(fields, turns, sys)
    && Replay(fields, initial, sys.store.log) == Ok(sys.store.shared)
    && CommitCount(sys.store.log) == sys.store.version
  }

  lemma AdmitKeeps(fields: map<string, Policy>, initial: Shared, turns: seq<Turn>, sys: System, w: nat)
    requires |turns| == |sys.phases| && Inv(fields, initial, turns, sys)
    requires w < |turns| && sys.phases[w].Holding? && sys.phases[w].seen == sys.store.version
    ensures Inv(fields, initial, turns, Step(fields, turns, sys, Write(w)))
  {
    AdmitLogs(turns, sys.store, w, sys.phases[w].merged);
    ReplayAppend(fields, initial, sys.store.log,
                 Commit(turns[w].node, turns[w].delta, sys.store.version, sys.store.version + 1));
    AdmitTraces(sys, w, turns[w], sys.phases[w].merged);
  }

  lemma AdmitLogs(turns: seq<Turn>, s: Store, w: nat, merged: Shared)
    requires LogIsWinners(turns, s) && w < |turns|
    ensures LogIsWinners(turns, Admit(s, w, turns[w], merged))
  {
    assert Gapless(s.log);
    GaplessLast(s.log);
  }

  lemma AdmitTraces(sys: System, w: nat, turn: Turn, merged: Shared)
    requires TracesAreWinners(sys) && w < |sys.phases| && sys.phases[w].Holding?
    ensures TracesAreWinners(System(Admit(sys.store, w, turn, merged), sys.phases[w := Won]))
  {
    var before, after := sys.store.messages, Admit(sys.store, w, turn, merged).messages;
    assert forall v :: v in after <==> v in before || v == w;
    forall i, j | 0 <= i < j < |after|
      ensures after[i] != after[j]
    {
      if j == |before| {
        assert before[i] in before;
      }
    }
  }

  lemma StepKeeps(fields: map<string, Policy>, initial: Shared, turns: seq<Turn>, sys: System, a: Action)
    requires |turns| == |sys.phases| && Inv(fields, initial, turns, sys)
    ensures Inv(fields, initial, turns, Step(fields, turns, sys, a))
  {
    if a.Write? && a.w < |turns| && sys.phases[a.w].Holding? && sys.phases[a.w].seen == sys.store.version {
      AdmitKeeps(fields, initial, turns, sys, a.w);
    }
  }

  /**
   * Under every schedule the state is the fold of the winners' deltas in
   * commit order, sequences and versions are gapless, no winner's delta is
   * missing, and whoever lost or raised left no row, message or event.
   */
  lemma {:induction false} NoCommitIsLost(fields: map<string, Policy>, initial: Shared, turns: seq<Turn>,
                                          schedule: seq<Action>)
    ensures var sys := Run(fields, initial, turns, schedule);
            && Replay(fields, initial, sys.store.log) == Ok(sys.store.shared)
            && LogIsWinners(turns, sys.store)
            && (forall w | 0 <= w < |turns| ::
                  && (sys.phases[w] == Won <==> w in sys.store.messages)
                  && (sys.phases[w] == Won <==> w in sys.store.succeeded)
                  && multiset(sys.store.messages)[w] <= 1)
  {
    RunKeeps(fields, initial, turns, schedule);
    DistinctOnce(Run(fields, initial, turns, schedule).store.messages);
  }

  lemma {:induction false} RunKeeps(fields: map<string, Policy>, initial: Shared, turns: seq<Turn>,
                                    schedule: seq<Action>)
    ensures Inv(fields, initial, turns, Run(fields, initial, turns, schedule))
  {
    if schedule != [] {
      RunKeeps(fields, initial, turns, schedule[..|schedule| - 1]);
      StepKeeps(fields, initial, turns, Run(fields, initial, turns, schedule[..|schedule| - 1]),
                schedule[|schedule| - 1]);
    }
  }

  lemma {:induction false} DistinctOnce(ids: seq<nat>)
    requires forall i, j | 0 <= i < j < |ids| :: ids[i] != ids[j]
    ensures forall id :: multiset(ids)[id] <= 1
  {
    if ids != [] {
      var init, last := ids[..|ids| - 1], ids[|ids| - 1];
      assert ids == init + [last];
      DistinctOnce(init);
      assert last !in init;
    }
  }

  /** Writes of writer `w` that found the version moved on since its read. */
  function StaleWrites(fields: map<string, Policy>, initial: Shared, turns: seq<Turn>, schedule: seq<Action>, w: nat)
    : nat
  {
    if schedule == [] then 0
    else
      var sys, last := Run(fields, initial, turns, schedule[..|schedule| - 1]), schedule[|schedule| - 1];
      StaleWrites(fields, initial, turns, schedule[..|schedule| - 1], w) +
      if last == Write(w) && w < |turns| && sys.phases[w].Holding? && sys.phases[w].seen != sys.store.version then 1
      else 0
  }

  /** Whoever gives up has lost three races, whoever wins or raises fewer, and nobody more. */
  lemma {:induction false} ThreeRacesAreLost(fields: map<string, Policy>, initial: Shared, turns: seq<Turn>,
                                             schedule: seq<Action>, w: nat)
    requires w < |turns|
    ensures var stale := StaleWrites(fields, initial, turns, schedule, w);
            match Run(fields, initial, turns, schedule).phases[w]
            case Lost => stale == 3
            case Ready(tries) => stale == tries <= 3
            case Holding(tries, _, _) => stale == tries < 3
            case Won => stale < 3
            case Errored => stale < 3
  {
    if schedule != [] {
      ThreeRacesAreLost(fields, initial, turns, schedule[..|schedule| - 1], w);
    }
  }

  /** An error inside a transaction is final: that writer never commits, and leaves no trace. */
  lemma {:induction false} AbortIsFinal(fields: map<string, Policy>, initial: Shared, turns: seq<Turn>,
                                        schedule: seq<Action>, w: nat, more: seq<Action>)
    requires w < |turns| && Run(fields, initial, turns, schedule).phases[w].Holding?
    ensures var sys := Run(fields, initial, turns, schedule + [Abort(w)] + more);
            && sys.phases[w] == Errored
            && w !in sys.store.messages && w !in sys.store.succeeded
  {
    var all := schedule + [Abort(w)] + more;
    if more == [] {
      assert all[..|all| - 1] == schedule && all[|all| - 1] == Abort(w);
    } else {
      AbortIsFinal(fields, initial, turns, schedule, w, more[..|more| - 1]);
      assert all[..|all| - 1] == schedule + [Abort(w)] + more[..|more| - 1];
    }
    RunKeeps(fields, initial, turns, all);
  }

  // ---- one writer's loop ----

  datatype Outcome = Committed(merged: Shared) | MergeRaised | ConflictRaised

  /** The commits rivals get in between this writer's read and its transaction, each with its own valid merge. */
  function Rivals(fields: map<string, Policy>, s: Store, commits: seq<(nat, Turn)>): Store {
    if commits == [] then s
    else
      var earlier, last := Rivals(fields, s, commits[..|commits| - 1]), commits[|commits| - 1];
      match Merge(fields, earlier.shared, last.1.delta)
      case Ok(merged) => Admit(earlier, last.0, last.1, merged)
      case Err(_) => earlier
  }

  /** The loop from its `tries`-th attempt on. */
  function Attempts(fields: map<string, Policy>, s: Store, id: nat, turn: Turn, rivals: nat -> seq<(nat, Turn)>,
                    tries: nat): (Store, Outcome)
    decreases MAX_TRIES - tries
  {
    if tries >= MAX_TRIES then (s, ConflictRaised)
    else
      match Merge(fields, s.shared, turn.delta)
      case Err(_) => (s, MergeRaised)
      case Ok(merged) =>
        var now := Rivals(fields, s, rivals(tries));
        if now.version == s.version then (Admit(now, id, turn, merged), Committed(merged))
        else Attempts(fields, now, id, turn, rivals, tries + 1)
  }

  class RunStore {
    var s: Store

    constructor (initial: Shared)
      ensures s == Store(initial, 0, [], [], {})
    {
      s := Store(initial, 0, [], [], {});
    }

    /** `_commit_turn`, with `rivals(k)` committing during its k-th attempt. */
    method CommitTurn(fields: map<string, Policy>, id: nat, turn: Turn, rivals: nat -> seq<(nat, Turn)>)
      returns (r: Outcome)
      modifies this
      ensures (s, r) == Attempts(fields, old(s), id, turn, rivals, 0)
    {
      for tries := 0 to MAX_TRIES
        invariant Attempts(fields, s, id, turn, rivals, tries) == Attempts(fields, old(s), id, turn, rivals, 0)
      {
        var before := s.version;
        var merged := MergeDelta(fields, s.shared, turn.delta);
        if merged.Err? {
          return MergeRaised;
        }
        AttemptsStep(fields, s, id, turn, rivals, tries);
        s := Rivals(fields, s, rivals(tries));
        var saved := s;
        ghost var admitted := Admit(s, id, turn, merged.value);
        s := s.(succeeded := s.succeeded + {id});
        s := s.(messages := s.messages + [id]);
        if s.version != before {
          s := saved; // rollback
          continue;
        }
        s := s.(shared := merged.value, version := before + 1,
                log := Append(s.log, Commit(turn.node, turn.delta, before, before + 1)));
        assert s == admitted;
        return Committed(merged.value);
      }
      r := ConflictRaised;
    }
  }

  /** One attempt: won if no rival moved the version, otherwise over to the next. */
  lemma AttemptsStep(fields: map<string, Policy>, s: Store, id: nat, turn: Turn, rivals: nat -> seq<(nat, Turn)>,
                     tries: nat)
    requires tries < MAX_TRIES && Merge(fields, s.shared, turn.delta).Ok?
    ensures var now := Rivals(fields, s, rivals(tries));
            Attempts(fields, s, id, turn, rivals, tries) ==
            if now.version == s.version then
              var merged := Merge(fields, s.shared, turn.delta).value;
              (Admit(now, id, turn, merged), Committed(merged))
            else Attempts(fields, now, id, turn, rivals, tries + 1)
  {
  }

  /** The store once the rivals of attempts 0 .. k-1 have committed. */
  function After(fields: map<string, Policy>, s: Store, rivals: nat -> seq<(nat, Turn)>, k: nat): Store {
    if k == 0 then s else Rivals(fields, After(fields, s, rivals, k - 1), rivals(k - 1))
  }

  /** Some rival got a commit in during attempt `k`. */
  predicate Raced(fields: map<string, Policy>, s: Store, rivals: nat -> seq<(nat, Turn)>, k: nat) {
    After(fields, s, rivals, k + 1).version != After(fields, s, rivals, k).version
  }

  /** Attempt `k` is lost: its merge is fine but a rival gets in. */
  predicate IsLost(fields: map<string, Policy>, s: Store, turn: Turn, rivals: nat -> seq<(nat, Turn)>, k: nat) {
    Raced(fields, s, rivals, k) && Merge(fields, After(fields, s, rivals, k).shared, turn.delta).Ok?
  }

  /** What the loop comes to from attempt `tries` on, the rivals of the earlier attempts having committed. */
  function EndOf(fields: map<string, Policy>, s: Store, id: nat, turn: Turn, rivals: nat -> seq<(nat, Turn)>,
                 tries: nat): (Store, Outcome)
  {
    Attempts(fields, After(fields, s, rivals, tries), id, turn, rivals, tries)
  }

  /**
   * The loop ends at attempt `k`: out of tries, with a merge that raises, or
   * unraced. Only a win writes anything of this turn, on top of every rival's
   * commit; otherwise the store is the rivals' alone.
   */
  ghost predicate EndsAt(fields: map<string, Policy>, s: Store, id: nat, turn: Turn,
                         rivals: nat -> seq<(nat, Turn)>, k: nat, end: (Store, Outcome)) {
    var here := After(fields, s, rivals, k);
    match end.1
    case ConflictRaised => k == MAX_TRIES && end.0 == here
    case MergeRaised => k < MAX_TRIES && Merge(fields, here.shared, turn.delta).Err? && end.0 == here
    case Committed(merged) =>
      && k < MAX_TRIES && !Raced(fields, s, rivals, k)
      && Merge(fields, here.shared, turn.delta) == Ok(merged)
      && end.0 == Admit(here, id, turn, merged)
  }

  /** The first attempt from `tries` on that is not lost, or the last. */
  function FirstKept(fields: map<string, Policy>, s: Store, turn: Turn, rivals: nat -> seq<(nat, Turn)>,
                     tries: nat): (k: nat)
    requires tries <= MAX_TRIES
    ensures tries <= k <= MAX_TRIES
    ensures forall j | tries <= j < k :: IsLost(fields, s, turn, rivals, j)
    ensures k < MAX_TRIES ==> !IsLost(fields, s, turn, rivals, k)
    decreases MAX_TRIES - tries
  {
    if tries == MAX_TRIES || !IsLost(fields, s, turn, rivals, tries) then tries
    else FirstKept(fields, s, turn, rivals, tries + 1)
  }

  /** The loop ends, exactly, at the first attempt that is not lost. */
  lemma {:induction false} LoopOutcome(fields: map<string, Policy>, s: Store, id: nat, turn: Turn,
                                       rivals: nat -> seq<(nat, Turn)>, tries: nat)
    requires tries <= MAX_TRIES
    ensures EndsAt(fields, s, id, turn, rivals, FirstKept(fields, s, turn, rivals, tries),
                   EndOf(fields, s, id, turn, rivals, tries))
    decreases MAX_TRIES - tries
  {
    if tries < MAX_TRIES {
      if IsLost(fields, s, turn, rivals, tries) {
        LostGoesOn(fields, s, id, turn, rivals, tries);
        LoopOutcome(fields, s, id, turn, rivals, tries + 1);
      } else {
        KeptEndsHere(fields, s, id, turn, rivals, tries);
      }
    }
  }

  lemma LostGoesOn(fields: map<string, Policy>, s: Store, id: nat, turn: Turn, rivals: nat -> seq<(nat, Turn)>,
                   k: nat)
    requires k < MAX_TRIES && IsLost(fields, s, turn, rivals, k)
    ensures EndOf(fields, s, id, turn, rivals, k) == EndOf(fields, s, id, turn, rivals, k + 1)
  {
  }

  lemma KeptEndsHere(fields: map<string, Policy>, s: Store, id: nat, turn: Turn, rivals: nat -> seq<(nat, Turn)>,
                     k: nat)
    requires k < MAX_TRIES && !IsLost(fields, s, turn, rivals, k)
    ensures EndsAt(fields, s, id, turn, rivals, k, EndOf(fields, s, id, turn, rivals, k))
  {
    RivalsKeepVersion(fields, After(fields, s, rivals, k), rivals(k));
  }

  /** A commit is given up exactly when each of three attempts merges and loses its race. */
  lemma GivesUpExactly(fields: map<string, Policy>, s: Store, id: nat, turn: Turn, rivals: nat -> seq<(nat, Turn)>)
    ensures Attempts(fields, s, id, turn, rivals, 0).1 == ConflictRaised <==>
            && IsLost(fields, s, turn, rivals, 0) && IsLost(fields, s, turn, rivals, 1)
            && IsLost(fields, s, turn, rivals, 2)
  {
    LoopOutcome(fields, s, id, turn, rivals, 0);
    var k := FirstKept(fields, s, turn, rivals, 0);
    assert MAX_TRIES == 3;
    if k < MAX_TRIES {
      assert !IsLost(fields, s, turn, rivals, k) && (k == 0 || k == 1 || k == 2);
    }
  }

  /** Rivals that leave the version alone leave everything alone. */
  lemma {:induction false} RivalsKeepVersion(fields: map<string, Policy>, s: Store, commits: seq<(nat, Turn)>)
    ensures Rivals(fields, s, commits).version >= s.version
    ensures Rivals(fields, s, commits).version == s.version ==> Rivals(fields, s, commits) == s
  {
    if commits != [] {
      RivalsKeepVersion(fields, s, commits[..|commits| - 1]);
    }
  }

  /**
   * `_commit_state` merges the caller's copy of the state but checks the
   * version it reads afterwards, so a rival commit in between is overwritten:
   * the row no longer is the fold of its log.
   */
  function CommitStale(fields: map<string, Policy>, s: Store, copy: Shared, id: nat, turn: Turn): Store {
    match Merge(fields, copy, turn.delta)
    case Ok(merged) => Admit(s, id, turn, merged)
    case Err(_) => s
  }

  /** The row is still the fold of its log exactly if the copy raises or merges as the current state would. */
  lemma StaleCommitExactly(fields: map<string, Policy>, initial: Shared, s: Store, copy: Shared, id: nat, turn: Turn)
    requires Replay(fields, initial, s.log) == Ok(s.shared)
    ensures var end := CommitStale(fields, s, copy, id, turn);
            Replay(fields, initial, end.log) == Ok(end.shared) <==>
            Merge(fields, copy, turn.delta).Err? ||
            Merge(fields, s.shared, turn.delta) == Merge(fields, copy, turn.delta)
  {
    ReplayAppend(fields, initial, s.log, Commit(turn.node, turn.delta, s.version, s.version + 1));
  }

  /** Two states merge a delta alike exactly if they agree outside it and combine alike inside it. */
  lemma MergesAgreeExactly(fields: map<string, Policy>, s: Shared, copy: Shared, delta: Delta)
    requires DistinctNames(delta) && Merge(fields, s, delta).Ok? && Merge(fields, copy, delta).Ok?
    ensures Merge(fields, s, delta) == Merge(fields, copy, delta) <==>
            && (forall key | forall i | 0 <= i < |delta| :: delta[i].name != key :: Held(s, key) == Held(copy, key))
            && (forall i | 0 <= i < |delta| ::
                  Combine(PolicyOf(fields, delta[i].name), Held(s, delta[i].name), delta[i]) ==
                  Combine(PolicyOf(fields, delta[i].name), Held(copy, delta[i].name), delta[i]))
  {
    MergeIsPointwise(fields, s, delta);
    MergeIsPointwise(fields, copy, delta);
    var a, b := Merge(fields, s, delta).value, Merge(fields, copy, delta).value;
    if forall key :: Held(a, key) == Held(b, key) {
      SameHeld(a, b);
    }
  }

  /** No commit has got in since the copy was read: then committing it is faithful. */
  lemma FreshCopyIsFaithful(fields: map<string, Policy>, initial: Shared, s: Store, commits: seq<(nat, Turn)>,
                            id: nat, turn: Turn)
    requires Replay(fields, initial, s.log) == Ok(s.shared)
    requires Rivals(fields, s, commits).version == s.version
    ensures var end := CommitStale(fields, Rivals(fields, s, commits), s.shared, id, turn);
            Replay(fields, initial, end.log) == Ok(end.shared)
  {
    RivalsKeepVersion(fields, s, commits);
    StaleCommitExactly(fields, initial, s, s.shared, id, turn);
  }

  lemma StaleCopyLosesACommit() returns (mine: Turn, rival: Turn)
    ensures var start := Store(map[], 0, [], [], {});
            var raced := Rivals(map[], start, [(0, rival)]);
            var end := CommitStale(map[], raced, start.shared, 1, mine);
            && Replay(map[], map[], raced.log) == Ok(raced.shared)
            && Replay(map[], map[], end.log) != Ok(end.shared)
  {
    mine, rival := Turn("a", [Member("x", JInt(1))]), Turn("b", [Member("y", JInt(2))]);
    var start := Store(map[], 0, [], [], {});
    var raced := Rivals(map[], start, [(0, rival)]);
    var end := CommitStale(map[], raced, start.shared, 1, mine);
    assert Merge(map[], map[], []) == Ok(map[]);
    assert rival.delta[..0] == [] && mine.delta[..0] == [];
    assert [(0, rival)][..0] == [];
    assert Merge(map[], map[], rival.delta) == Ok(map["y" := JInt(2)]);
    assert Merge(map[], map[], mine.delta) == Ok(map["x" := JInt(1)]);
    assert end.shared == map["x" := JInt(1)];
    ReplayAppend(map[], map[], start.log, Commit("b", rival.delta, 0, 1));
    ReplayAppend(map[], map[], raced.log, Commit("a", mine.delta, 1, 2));
    var folded := Merge(map[], raced.shared, mine.delta);
    assert Merge(map[], raced.shared, mine.delta[..0]) == Ok(raced.shared);
    assert folded.value["y"] == JInt(2) && "y" !in end.shared;
  }
}
