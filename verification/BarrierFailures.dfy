/** Runs in which the barrier protocol does not keep its promises, and the exact conditions under
    which it does. */
module BarrierFailures {
  import opened Barrier
  import opened BarrierInvariants
  import opened BarrierColours
  import opened BarrierDraining
  import opened BarrierOrdering
  import opened BarrierTheorems

  ghost predicate Step(s: State, a: Action, t: State) { Enabled(s, a) && Apply(s, a) == t }

  lemma {:induction false} TraceRuns(st: nat -> State, acts: seq<Action>, i: nat)
    requires i <= |acts| && forall k: nat :: k < |acts| ==> Step(st(k), acts[k], st(k + 1))
    ensures Runs(st(i), acts[i..], st(|acts|))
    decreases |acts| - i
  {
    hide Apply, Enabled;
    if i < |acts| {
      assert Step(st(i), acts[i], st(i + 1));
      TraceRuns(st, acts, i + 1);
      assert acts[i..][1..] == acts[i + 1..];
    }
  }

  // ----- one plain request at the driver -----

  function Taken(m: Mode, i: nat): State {
    var s := Init(m).(kind := [Plain], color := [false], epoch := [0]);
    match i
    case 0 => Init(m)
    case 1 => s.(sorted := {0})
    case 2 => s.(queue := [0])
    case _ => s.(driver := {0}, started := {0}, issued := {0}, inFlight := 1)
  }

  const TAKE := [AddSort, Dispatch(0, 0), FetchHead]

  lemma IdleGoes(s: State, r: int)
    requires s.ordseq == {} && s.queue != [] && s.queue[0] == r && !IsBarrier(s, r) && r != NOREQ
    ensures Fetch(s) == Issue(MarkStarted(s, r), r)
  {
    hide StartOrdered;
  }

  lemma TakenStep2(m: Mode)
    ensures Step(Taken(m, 2), FetchHead, Taken(m, 3))
  {
    hide Fetch, Peek;
    var s := Taken(m, 2);
    IdleGoes(s, 0);
    var t := Issue(MarkStarted(s, 0), 0);
    assert t.queue == [] && t.driver == {0} && t.started == {0} && t.issued == {0};
    assert t.inFlight == 1;
  }

  lemma TakenRuns(m: Mode)
    ensures Runs(Init(m), TAKE, Taken(m, 3))
  {
    TakenStep2(m);
    forall k: nat | k < 3 ensures Step(Taken(m, k), TAKE[k], Taken(m, k + 1)) { }
    TraceRuns((i: nat) => Taken(m, i), TAKE, 0);
    assert TAKE[0..] == TAKE;
  }

  // ----- steps of a sequence -----

  /** The stages still open once the sequence in `u` has been started. */
  ghost function Left(u: State): set<Stage> { {STARTED} + Skipped(u.ordered, u.ordered.byDrain && u.inFlight != 0) }

  ghost function Begun(u: State): State { u.(ordseq := Left(u), errs := u.errs + [0]) }

  lemma Begins(u: State)
    requires u.ordseq == {STARTED} && CurSeq(Left(u)) != DONE
    ensures FinishStart(u).st == Begun(u) && FinishStart(u).go
  {
    assert {STARTED} * Skipped(u.ordered, u.ordered.byDrain && u.inFlight != 0) == {};
  }

  /** Fetching a barrier begins its sequence; unless it must wait, its first proxy is handed out. */
  lemma FetchBegins(s: State, u: State, p: int)
    requires s.queue != [] && s.ordseq == {} && IsBarrier(s, s.queue[0]) && s.nextOrdered != ORDERED_NONE
    requires u == QueueSequence(s, s.queue[0]) && u.ordseq == {STARTED} && CurSeq(Left(u)) != DONE
    requires p == (if u.ordered.doPre then PRE else if u.ordered.doBar then BARRQ else POST)
    ensures u.ordered.byDrain && u.inFlight != 0 ==> Fetch(s) == Begun(u)
    ensures !(u.ordered.byDrain && u.inFlight != 0) && (u.ordered.doPre || u.ordered.doBar || u.ordered.doPost) && u.queue != [] ==>
              Fetch(s) == Issue(MarkStarted(Begun(u), p), p)
  {
    hide QueueSequence, CompleteSeq, CurSeq, Issue, Left;
    Begins(u);
  }

  /** The completion of a proxy after the drain closes its stage. */
  lemma ProxyEnds(s: State, r: int)
    requires IsProxy(r) && STARTED in s.ordseq && DRAIN in s.ordseq
    ensures Complete(s, r, 0) == CompleteSeq(Release(s, r, 0), {ProxyStage(r)}, 0)
  {
    hide CompleteSeq;
    var s1 := s.(driver := s.driver - {r});
    assert CurSeq(s.ordseq) != DRAIN;
    assert CompletedRequest(s1, r) == Release(s, r, 0);
  }

  /** The proxy of the current stage at the head is handed out. */
  lemma ProxyGoes(u: State, q: int)
    requires Running(u) && u.queue != [] && u.queue[0] == q && IsProxy(q) && CurSeq(u.ordseq) == ProxyStage(q) && !u.ordered.byTag
    ensures Fetch(u) == Issue(MarkStarted(u, q), q)
  {
  }

  /** The last open stage closes. */
  lemma LastStage(u: State, st: Stage)
    requires st !in u.ordseq && CurSeq(u.ordseq + {st}) == DONE && u.orig !in u.started
    ensures CompleteSeq(u, {st}, 0) == EndRequest(u.(ordseq := {}, orig := NOREQ, errs := u.errs + [0]), u.orig, u.orderr)
  {
    assert u.ordseq * {st} == {};
  }

  // ----- an empty barrier on a queue that orders by tag -----

  const TAG_MODE := Mode(false, true, false, true, false, false)

  /** The request is still at the driver when the tagged barrier ends; the empty barrier that follows
      drains, and the request comes back while it does. */
  const LATE_RETURN := [AddBack(Barrier(false)), FetchHead, End(BARRQ, 0), AddBack(Barrier(true)), FetchHead, PutBack(0)]

  function Late(i: nat): State {
    var s0 := Taken(TAG_MODE, 3);
    var s1 := s0.(kind := [Plain, Barrier(false)], color := [false, false], epoch := [0, 0], barriers := [1],
                  ordcolor := true, queue := [1], soft := {1});
    var s2 := s1.(queue := [], soft := {1, BARRQ}, ordered := TAG_MODE, errs := [0],
                  ordseq := {STARTED, DRAIN, PREFLUSH, POSTFLUSH}, orig := 1, begun := 1,
                  driver := {0, BARRQ}, started := {0, BARRQ}, issued := {0, BARRQ}, inFlight := 2);
    var s3 := s2.(driver := {0}, inFlight := 1, errs := [0, 0], ordseq := {}, orig := NOREQ,
                  ended := multiset{1}, results := map[1 := 0]);
    var s4 := s3.(kind := [Plain, Barrier(false), Barrier(true)], color := [false, false, true], epoch := [0, 0, 1],
                  barriers := [1, 2], ordcolor := false, queue := [2], soft := {1, BARRQ, 2});
    var s5 := s4.(queue := [], ordered := EffectiveMode(TAG_MODE, true), errs := [0],
                  ordseq := {STARTED, PREFLUSH, BAR, POSTFLUSH}, orig := 2, begun := 2);
    match i
    case 0 => s0
    case 1 => s1
    case 2 => s2
    case 3 => s3
    case 4 => s4
    case 5 => s5
    case _ => s5.(queue := [0], driver := {}, started := {BARRQ}, soft := {1, BARRQ, 2, 0}, inFlight := 0)
  }

  lemma LateStep0()
    ensures Step(Late(0), LATE_RETURN[0], Late(1)) && Step(Late(3), LATE_RETURN[3], Late(4))
  {
    assert Late(0).queue + [1] == [1] && Late(3).queue + [2] == [2];
  }

  lemma LateQueued1(u: State)
    requires u == QueueSequence(Late(1), 1)
    ensures u == Late(1).(orderr := 0, errs := [], ordered := TAG_MODE, ordseq := {STARTED}, queue := [BARRQ],
                          orig := 1, begun := 1, soft := {1, BARRQ})
    ensures Left(u) == {STARTED, DRAIN, PREFLUSH, POSTFLUSH}
  {
    assert Late(1).queue[1..] == [] && [BARRQ] + [] == [BARRQ] && Late(1).started - {BARRQ} == {0};
  }

  lemma LateStep1()
    ensures Step(Late(1), LATE_RETURN[1], Late(2))
  {
    hide QueueSequence, Left, Fetch, Peek;
    var u := QueueSequence(Late(1), 1);
    LateQueued1(u);
    FetchBegins(Late(1), u, BARRQ);
    var t := Issue(MarkStarted(Begun(u), BARRQ), BARRQ);
    assert t.queue == [] && t.errs == [0] && t.driver == {0, BARRQ} && t.started == {0, BARRQ};
    assert t.issued == {0, BARRQ} && t.inFlight == 2;
  }

  lemma LateStep2()
    ensures Step(Late(2), LATE_RETURN[2], Late(3))
  {
    hide CompleteSeq, Complete;
    var s := Late(2);
    ProxyEnds(s, BARRQ);
    var u := Release(s, BARRQ, 0);
    assert u.driver == {0} && u.inFlight == 1;
    assert CurSeq(u.ordseq + {BAR}) == DONE;
    LastStage(u, BAR);
    assert u.errs + [0] == [0, 0] && u.ended + multiset{1} == multiset{1} && u.results[1 := 0] == map[1 := 0];
  }

  lemma LateQueued4(u: State)
    requires u == QueueSequence(Late(4), 2)
    ensures u == Late(4).(orderr := 0, errs := [], ordered := EffectiveMode(TAG_MODE, true), ordseq := {STARTED},
                          queue := [], orig := 2, begun := 2)
    ensures Left(u) == {STARTED, PREFLUSH, BAR, POSTFLUSH}
  {
    assert Late(4).queue[1..] == [];
  }

  lemma LateStep4()
    ensures Step(Late(4), LATE_RETURN[4], Late(5))
  {
    hide QueueSequence, Left, Fetch, Peek;
    var u := QueueSequence(Late(4), 2);
    LateQueued4(u);
    FetchBegins(Late(4), u, POST);
    assert Begun(u).errs == [0];
  }

  lemma LateStep5()
    ensures Step(Late(5), LATE_RETURN[5], Late(6))
  {
    hide Requeue, RequeuePos, ReqSeq;
    var s := Late(5);
    RequeueShape(s, 0);
    var t := TakeBack(s, 0);
    assert InsertAt([], 0, 0) == [0] && t.driver == {} && t.started == {BARRQ} && t.inFlight == 0;
    assert t.soft == {1, BARRQ, 2, 0};
  }

  lemma LateRuns()
    ensures Runs(Init(TAG_MODE), TAKE + LATE_RETURN, Late(6))
  {
    LateStep0(); LateStep1(); LateStep2(); LateStep4(); LateStep5();
    forall k: nat | k < 6 ensures Step(Late(k), LATE_RETURN[k], Late(k + 1)) { }
    TraceRuns(Late, LATE_RETURN, 0);
    TakenRuns(TAG_MODE);
    RunsJoin(Init(TAG_MODE), TAKE, Late(0), LATE_RETURN[0..], Late(6));
    assert LATE_RETURN[0..] == LATE_RETURN;
  }

  lemma LateIsStuck(s: State)
    requires s == Late(6)
    ensures Stuck(s) && s.ordered.byDrain && s.queue == [0] && DoOrdered(s) == Verdict(s, NOREQ, true)
    ensures IsPlain(s, 0) && s.orig == 2 && IsBarrier(s, 2) && CurSeq(s.ordseq + {DRAIN}) == DONE
  {
    assert STARTED in s.ordseq;
  }

  /** A drain can come to a standstill without any flagged command: an empty barrier makes a queue
      that orders by tag drain for a request of the barrier before last.  The next driver command that
      comes and goes ends the barrier ahead of the request. */
  lemma TaggedQueueSticks() returns (acts: seq<Action>, s: State, more: seq<Action>, t: State)
    ensures Reachable(TAG_MODE, acts, s) && Unflagged(acts) && s.ordered.byDrain && Stuck(s)
    ensures s.queue != [] && DoOrdered(s) == Verdict(s, NOREQ, true)
    ensures Unflagged(more) && Runs(s, more, t) && IsPlain(t, 0) && IsBarrier(t, 2) && 2 in t.ended && 0 !in t.ended
  {
    hide Runs, DoOrdered, Sane, Live, Stuck, Inv, Coloured, CurSeq;
    acts, s := TAKE + LATE_RETURN, Late(6);
    LateRuns();
    LateIsStuck(s);
    ReachableColoured(TAG_MODE, acts, s);
    ColouredLive(s);
    more, t := Unstick(s);
    SaneInv(t);
    QueuedIsKnown(t, 0);
  }

  /** Among the modes a driver may ask for, exactly ordering by tag without flushes can come to a
      standstill. */
  lemma StuckModes(m: Mode)
    requires Supported(m)
    ensures (forall acts, s :: Reachable(m, acts, s) && Unflagged(acts) ==> !Stuck(s)) <==> !(m.byTag && !m.doPre)
  {
    hide Reachable, Stuck, Unflagged;
    if m.byTag && !m.doPre {
      assert m == TAG_MODE;
      var acts, s, more, t := TaggedQueueSticks();
    } else {
      forall acts, s | Reachable(m, acts, s) && Unflagged(acts) ensures !Stuck(s) {
        if m.byDrain {
          DrainNeverStuck(m, acts, s);
        } else {
          NeverStuckUndrained(m, acts, s);
        }
      }
    }
  }

  lemma NeverStuckUndrained(m: Mode, acts: seq<Action>, s: State)
    requires Reachable(m, acts, s) && Unflagged(acts) && !m.byDrain && (m.byTag ==> m.doPre)
    ensures !Stuck(s)
  {
    hide Inv, Coloured, Stuck;
    ReachableColoured(m, acts, s);
    ColouredLive(s);
    StuckIff(s);
    TagWithFlushNeverDrains(m, acts, s);
  }

  // ----- a request put back behind a flagged command -----

  const DRAIN_MODE := Mode(true, false, false, true, false, false)

  /** A driver command with REQ_HARDBARRIER comes and goes, the drain for a barrier begins, and the
      request issued before both comes back. */
  const FLAGGED_RETURN :=
    [AddBack(Special(true)), FetchHead, End(1, 0), AddBack(Barrier(false)), FetchHead, PutBack(0)]

  function Returned(i: nat): State {
    var s0 := Taken(DRAIN_MODE, 3);
    var s1 := s0.(kind := [Plain, Special(true)], color := [false, false], epoch := [0, 0], ordcolor := true,
                  queue := [1], soft := {1});
    var s2 := s1.(queue := [], driver := {0, 1}, started := {0, 1}, issued := {0, 1});
    var s3 := s2.(driver := {0}, ended := multiset{1}, results := map[1 := 0]);
    var s4 := s3.(kind := [Plain, Special(true), Barrier(false)], color := [false, false, true], epoch := [0, 0, 0],
                  barriers := [2], ordcolor := false, queue := [2], soft := {1, 2});
    var s5 := s4.(queue := [BARRQ], soft := {1, 2, BARRQ}, ordered := DRAIN_MODE, errs := [0],
                  ordseq := {STARTED, PREFLUSH, POSTFLUSH}, orig := 2, begun := 1);
    match i
    case 0 => s0
    case 1 => s1
    case 2 => s2
    case 3 => s3
    case 4 => s4
    case 5 => s5
    case _ => s5.(queue := [BARRQ, 0], driver := {}, started := {1}, soft := {0, 1, 2, BARRQ}, inFlight := 0)
  }

  lemma ReturnedStep0()
    ensures Step(Returned(0), FLAGGED_RETURN[0], Returned(1))
  {
    assert Returned(0).queue + [1] == [1];
  }

  lemma ReturnedStep1()
    ensures Step(Returned(1), FLAGGED_RETURN[1], Returned(2))
  {
    hide Fetch, Peek;
    IdleGoes(Returned(1), 1);
    var t := Issue(MarkStarted(Returned(1), 1), 1);
    assert t.queue == [] && t.driver == {0, 1} && t.started == {0, 1} && t.issued == {0, 1} && t.inFlight == 1;
  }

  lemma CommandEnds(s: State, r: int)
    requires IsSpecial(s, r) && !Running(s)
    ensures Complete(s, r, 0) == Release(s, r, 0)
  {
    hide CompleteSeq, ReqSeq;
  }

  lemma ReturnedStep2()
    ensures Step(Returned(2), FLAGGED_RETURN[2], Returned(3))
  {
    hide Complete;
    CommandEnds(Returned(2), 1);
    var t := Release(Returned(2), 1, 0);
    assert t.driver == {0} && t.ended == multiset{1} && t.results == map[1 := 0] && t.inFlight == 1;
  }

  lemma ReturnedStep3()
    ensures Step(Returned(3), FLAGGED_RETURN[3], Returned(4))
  {
    assert Returned(3).queue + [2] == [2];
  }

  lemma ReturnedQueued4(u: State)
    requires u == QueueSequence(Returned(4), 2)
    ensures u == Returned(4).(orderr := 0, errs := [], ordered := DRAIN_MODE, ordseq := {STARTED}, queue := [BARRQ],
                              orig := 2, begun := 1, soft := {1, 2, BARRQ})
    ensures Left(u) == {STARTED, PREFLUSH, POSTFLUSH}
  {
    assert Returned(4).queue[1..] == [] && [BARRQ] + [] == [BARRQ] && {0, 1} - {BARRQ} == {0, 1};
  }

  lemma ReturnedStep4()
    ensures Step(Returned(4), FLAGGED_RETURN[4], Returned(5))
  {
    hide QueueSequence, Left, Fetch, Peek;
    var u := QueueSequence(Returned(4), 2);
    ReturnedQueued4(u);
    FetchBegins(Returned(4), u, BARRQ);
    assert Begun(u).errs == [0];
  }

  lemma ReturnedPlace()
    ensures RequeueAt(Returned(5), 0) == 1
  {
    var s := Returned(5);
    assert ReqSeq(s, 0) == DONE && ReqSeq(s, BARRQ) == BAR;
    assert RequeuePos(s, DONE, 0) == RequeuePos(s, DONE, 1) == 1;
  }

  lemma ReturnedStep5()
    ensures Step(Returned(5), FLAGGED_RETURN[5], Returned(6))
  {
    hide Requeue, RequeuePos, ReqSeq, RequeueAt;
    var s := Returned(5);
    RequeueShape(s, 0);
    ReturnedPlace();
    var t := TakeBack(s, 0);
    assert InsertAt([BARRQ], 1, 0) == [BARRQ, 0] && t.driver == {} && t.started == {1} && t.inFlight == 0;
    assert t.soft == {0, 1, 2, BARRQ};
  }

  lemma ReturnedRuns()
    ensures Runs(Init(DRAIN_MODE), TAKE + FLAGGED_RETURN, Returned(6))
  {
    hide Runs;
    ReturnedStep0(); ReturnedStep1(); ReturnedStep2(); ReturnedStep3(); ReturnedStep4(); ReturnedStep5();
    forall k: nat | k < 6 ensures Step(Returned(k), FLAGGED_RETURN[k], Returned(k + 1)) { }
    TraceRuns(Returned, FLAGGED_RETURN, 0);
    TakenRuns(DRAIN_MODE);
    assert FLAGGED_RETURN[0..] == FLAGGED_RETURN;
    RunsJoin(Init(DRAIN_MODE), TAKE, Returned(0), FLAGGED_RETURN, Returned(6));
  }

  lemma ReturnedStuck(s: State)
    requires s == Returned(6)
    ensures Stuck(s) && DoOrdered(s) == Verdict(s, NOREQ, true) && Live(s) && s.queue == [BARRQ, 0] && s.orig == 2
    ensures IsPlain(s, 0) && |s.kind| == 3 && s.ordered == DRAIN_MODE && s.nextOrdered == DRAIN_MODE
    ensures s.ordseq + {DRAIN} == {STARTED, DRAIN, PREFLUSH, POSTFLUSH} && CurSeq(s.ordseq + {DRAIN}) != DONE
  {
    assert STARTED in s.ordseq;
  }

  /** The request put back looks submitted after the barrier, and the drain comes to a standstill.  That
      is not for good: the next driver command that comes and goes lets the barrier overtake the
      request. */
  lemma FlaggedCommandStalls() returns (acts: seq<Action>, s: State, more: seq<Action>, t: State)
    ensures Reachable(DRAIN_MODE, acts, s) && Stuck(s) && s.queue != [] && DoOrdered(s) == Verdict(s, NOREQ, true)
    ensures Unflagged(more) && Runs(s, more, t) && BARRQ in t.driver && IsPlain(t, 0) && 0 < t.orig && 0 !in t.ended
    ensures !DrainSafe(t)
  {
    hide Runs, Sane, Inv, Stuck, Live, Fetch, Peek, DrainSafe, Returned, Unflagged, CurSeq;
    acts, s := TAKE + FLAGGED_RETURN, Returned(6);
    ReturnedRuns();
    ReturnedStuck(s);
    ReachableInv(DRAIN_MODE, acts, s);
    assert Sane(s) by { ByDrainIsSane(s); }
    var u;
    more, u := Unstick(s);
    assert Inv(u) by { SaneInv(u); }
    ModeStays(s, more, u);
    t := Fetch(u);
    OvertakesHere(s, u, t);
    OneStep(u, FetchHead);
    RunsJoin(s, more, u, [FetchHead], t);
    assert Unflagged(more + [FetchHead]) by { PlusFetch(more); }
    more := more + [FetchHead];
  }

  lemma PlusFetch(acts: seq<Action>)
    requires Unflagged(acts)
    ensures Unflagged(acts + [FetchHead])
  {
  }

  lemma ByDrainIsSane(s: State)
    requires Inv(s) && s.nextOrdered.byDrain
    ensures Sane(s)
  {
  }

  lemma OvertakesHere(s: State, u: State, t: State)
    requires |s.kind| == 3 && IsPlain(s, 0) && s.orig == 2 && s.queue == [BARRQ, 0]
    requires Inv(u) && u.kind == s.kind + [Special(false)] && u.queue == s.queue && u.driver == {} && u.orig == 2
    requires u.ordseq == {STARTED, DRAIN, PREFLUSH, POSTFLUSH} && u.nextOrdered == DRAIN_MODE && t == Fetch(u)
    ensures BARRQ in t.driver && IsPlain(t, 0) && t.orig == 2 && 0 !in t.ended && !DrainSafe(t)
  {
    assert u.queue[1] in multiset(u.queue);
    assert RequestOk(u, {}, 0);
    ProxyGoes(u, BARRQ);
    assert !Separated(t, BARRQ);
  }

  lemma OneStep(s: State, a: Action)
    requires Enabled(s, a)
    ensures Runs(s, [a], Apply(s, a))
  {
    hide Apply, Enabled;
    assert [a][1..] == [];
  }
}
