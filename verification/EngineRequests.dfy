/**
 * Several runs over one table of human requests. `resume_hitl` is given a run
 * and a request id, finds the request by its id alone, and never compares the
 * request's run with the one it resumes (src/ravana/engine/loop.py).
 */
module EngineRequests {
  import opened EngineState
  import opened EngineOps
  import opened EngineInvariants
  import opened EngineRuns
  import opened EngineTheorems
  import opened EngineRouting

  /** A step of one run that concerns no other, or a resume of `run` with request `request` of `owner`. */
  datatype Call = Own(run: nat, action: Action) | Respond(run: nat, owner: nat, request: nat)

  /** The actions a run may take by itself. */
  predicate IsOwn(action: Action) {
    action == Tick || action == Select || action == Cancel
  }

  /** A resume goes ahead if its request is pending and no drain of its run is under way. */
  predicate IsAccepted(sys: seq<State>, call: Call) {
    && call.Respond? && call.run < |sys| && call.owner < |sys|
    && Resumable(sys[call.run]) && IsPendingAt(sys[call.owner], call.request)
  }

  function Serve(cs: seq<Config>, sys: seq<State>, call: Call): (after: seq<State>)
    requires |cs| == |sys|
    ensures |after| == |sys|
  {
    match call
    case Own(r, action) => if r < |sys| && IsOwn(action) then sys[r := Next(cs[r], sys[r], action)] else sys
    case Respond(r, owner, i) =>
      if !IsAccepted(sys, call) then sys
      else if r == owner then sys[r := AnswerHitl(sys[r], i)]
      else sys[r := TakeAnswer(sys[r], sys[owner].hitl[i].node)][owner := LoseRequest(sys[owner], i)]
  }

  function ServeAll(cs: seq<Config>, held: seq<bool>, calls: seq<Call>): (sys: seq<State>)
    requires |cs| == |held|
    ensures |sys| == |cs|
  {
    if calls == [] then seq(|cs|, r requires 0 <= r < |cs| => Start(cs[r], held[r]))
    else Serve(cs, ServeAll(cs, held, calls[..|calls| - 1]), calls[|calls| - 1])
  }

  /** What a call is to one run. */
  function ActionFor(sys: seq<State>, call: Call, r: nat): seq<Action> {
    match call
    case Own(run, action) => if run == r && IsOwn(action) then [action] else []
    case Respond(run, owner, i) =>
      if !IsAccepted(sys, call) then []
      else if run == owner == r then [Answer(i)]
      else if run == r then [AnswerForeign(sys[owner].hitl[i].node)]
      else if owner == r then [AnswerElsewhere(i)]
      else []
  }

  /** The actions one run sees of all calls. */
  function ActionsFor(cs: seq<Config>, held: seq<bool>, calls: seq<Call>, r: nat): seq<Action>
    requires |cs| == |held|
  {
    if calls == [] then []
    else
      var init := calls[..|calls| - 1];
      ActionsFor(cs, held, init, r) + ActionFor(ServeAll(cs, held, init), calls[|calls| - 1], r)
  }

  /** Every run of the system is a run by itself: what is proved of runs holds of each. */
  lemma {:induction false} EachIsARun(cs: seq<Config>, held: seq<bool>, calls: seq<Call>, r: nat)
    requires |cs| == |held| && r < |cs|
    ensures ServeAll(cs, held, calls)[r] == Run(cs[r], held[r], ActionsFor(cs, held, calls, r))
  {
    if calls != [] {
      var init, last := calls[..|calls| - 1], calls[|calls| - 1];
      EachIsARun(cs, held, init, r);
      ServeIsAction(cs, ServeAll(cs, held, init), last, r);
      AtMostOneMore(cs[r], held[r], ActionsFor(cs, held, init, r), ActionFor(ServeAll(cs, held, init), last, r));
    }
  }

  lemma AtMostOneMore(c: Config, held: bool, before: seq<Action>, more: seq<Action>)
    requires |more| <= 1
    ensures Run(c, held, before + more) ==
            if more == [] then Run(c, held, before) else Next(c, Run(c, held, before), more[0])
  {
    if more == [] {
      assert before + more == before;
    } else {
      RunAppends(c, held, before, more[0]);
      assert before + more == before + [more[0]];
    }
  }

  lemma ServeIsAction(cs: seq<Config>, sys: seq<State>, call: Call, r: nat)
    requires |cs| == |sys| && r < |sys|
    ensures |ActionFor(sys, call, r)| <= 1
    ensures Serve(cs, sys, call)[r] ==
            if ActionFor(sys, call, r) == [] then sys[r] else Next(cs[r], sys[r], ActionFor(sys, call, r)[0])
  {
  }

  /** Some accepted resume named a request of another run. */
  ghost predicate EverCrossed(cs: seq<Config>, held: seq<bool>, calls: seq<Call>)
    requires |cs| == |held|
  {
    calls != [] &&
    var init, last := calls[..|calls| - 1], calls[|calls| - 1];
    || EverCrossed(cs, held, init)
    || IsCrossing(ServeAll(cs, held, init), last)
  }

  /** A run that answered for others or had its requests answered by others. */
  predicate IsCrossed(s: State) {
    s.past.taken != [] || s.past.lost != []
  }

  ghost predicate AnyCrossed(sys: seq<State>) {
    exists r | 0 <= r < |sys| :: IsCrossed(sys[r])
  }

  predicate IsCrossing(sys: seq<State>, call: Call) {
    IsAccepted(sys, call) && call.run != call.owner
  }

  /**
   * The condition a caller can check - that the request's run is the run it
   * resumes - is exactly what keeps every run clear of foreign answers.
   */
  lemma {:induction false} CrossedExactly(cs: seq<Config>, held: seq<bool>, calls: seq<Call>)
    requires |cs| == |held| && forall r | 0 <= r < |cs| :: Wired(cs[r].graph)
    ensures EverCrossed(cs, held, calls) <==> AnyCrossed(ServeAll(cs, held, calls))
  {
    if calls != [] {
      var init, last := calls[..|calls| - 1], calls[|calls| - 1];
      CrossedExactly(cs, held, init);
      forall r | 0 <= r < |cs|
        ensures Good(cs[r], ServeAll(cs, held, init)[r])
      {
        EachIsARun(cs, held, init, r);
        RunIsGood(cs[r], held[r], ActionsFor(cs, held, init, r));
      }
      ServeCrossesAny(cs, ServeAll(cs, held, init), last);
    }
  }

  lemma ServeCrossesAny(cs: seq<Config>, sys: seq<State>, call: Call)
    requires |cs| == |sys| && forall r | 0 <= r < |cs| :: Wired(cs[r].graph) && Good(cs[r], sys[r])
    ensures AnyCrossed(Serve(cs, sys, call)) <==> AnyCrossed(sys) || IsCrossing(sys, call)
  {
    var after := Serve(cs, sys, call);
    forall r | 0 <= r < |cs|
      ensures IsCrossed(after[r]) <==>
              IsCrossed(sys[r]) || (IsCrossing(sys, call) && (r == call.run || r == call.owner))
    {
      ServeCrosses(cs, sys, call, r);
    }
    if IsCrossing(sys, call) {
      assert IsCrossed(after[call.run]);
    }
    if r :| 0 <= r < |cs| && IsCrossed(sys[r]) {
      assert IsCrossed(after[r]);
    }
  }

  lemma ServeCrosses(cs: seq<Config>, sys: seq<State>, call: Call, r: nat)
    requires |cs| == |sys| && r < |sys| && Wired(cs[r].graph) && Good(cs[r], sys[r])
    ensures IsCrossed(Serve(cs, sys, call)[r]) <==>
            || IsCrossed(sys[r])
            || (IsCrossing(sys, call) && (r == call.run || r == call.owner))
  {
    if call.Own? && call.run == r && IsOwn(call.action) {
      OwnCrossesNothing(cs[r], sys[r], call.action);
    }
  }

  lemma OwnCrossesNothing(c: Config, s: State, action: Action)
    requires Wired(c.graph) && Good(c, s) && IsOwn(action)
    ensures Next(c, s, action).past.taken == s.past.taken && Next(c, s, action).past.lost == s.past.lost
  {
    var path := NextPath(c, s, action);
    assert ApplyAll(c, s, Here) == s;
    if FromDispatch(path) {
      PastAlong(c, s, path);
    } else {
      PastMoves(c, s, path.op);
    }
  }

  /**
   * Where no caller crosses runs, the promises hold as they stand: no run gets
   * stuck, and none that is COMPLETED is ever resumed.
   */
  lemma UncrossedRunsKeepTheirPromises(cs: seq<Config>, held: seq<bool>, calls: seq<Call>, r: nat)
    requires |cs| == |held| && r < |cs| && forall k | 0 <= k < |cs| :: Wired(cs[k].graph)
    requires !EverCrossed(cs, held, calls)
    ensures var s := ServeAll(cs, held, calls)[r];
            && (s.phase == Idle ==>
                  IsTerminal(s.status) || (s.status == WaitingHuman && exists i :: Answerable(s, i)))
            && !s.past.reopened
            && (s.status == Completed ==> GatePassed(cs[r], s))
  {
    var actions := ActionsFor(cs, held, calls, r);
    CrossedExactly(cs, held, calls);
    EachIsARun(cs, held, calls, r);
    assert !IsCrossed(ServeAll(cs, held, calls)[r]);
    NoRunIsStranded(cs[r], held[r], actions);
    RunIsGood(cs[r], held[r], actions);
    UntakenIsNotReopened(cs[r], held[r], actions);
  }

  lemma {:induction false} UntakenIsNotReopened(c: Config, held: bool, actions: seq<Action>)
    requires Wired(c.graph)
    ensures Run(c, held, actions).past.taken == [] ==> !Run(c, held, actions).past.reopened
  {
    if actions != [] {
      var init, last := actions[..|actions| - 1], actions[|actions| - 1];
      UntakenIsNotReopened(c, held, init);
      RunIsGood(c, held, init);
      NextTakes(c, Run(c, held, init), last);
      ReopenedStays(c, Run(c, held, init), last);
    }
  }
}
