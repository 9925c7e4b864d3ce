/** Driver commands that carry REQ_HARDBARRIER: they toggle the colour without being barriers.  What
    that breaks on a queue that orders by draining, in every such mode. */
module BarrierFlagged {
  import opened Barrier
  import opened BarrierInvariants
  import opened BarrierColours
  import opened BarrierDraining
  import opened BarrierOrdering
  import opened BarrierTheorems
  import opened BarrierFailures

  /** A barrier, the flagged command, a plain request and another barrier; the last two show the
      colour of the first barrier. */
  const LOG := [Barrier(false), Special(true), Plain, Barrier(false)]
  const COLOURS := [false, true, false, false]
  const LOAD := [AddBack(Barrier(false)), AddBack(Special(true)), AddBack(Plain), AddBack(Barrier(false))]

  function Loaded(m: Mode): State {
    Init(m).(kind := LOG, color := COLOURS, epoch := [0, 1, 1, 1], barriers := [0, 3], ordcolor := true,
             queue := [0, 1, 2, 3], soft := {0, 1, 2, 3})
  }

  lemma LoadedRuns(m: Mode)
    ensures Runs(Init(m), LOAD, Loaded(m))
  {
    hide Runs, SubmitBack;
    var s1 := SubmitBack(Init(m), Barrier(false));
    var s2 := SubmitBack(s1, Special(true));
    LoadedFirst(m);
    LoadedRest(m, s2);
    assert s1.sorted == s2.sorted == SubmitBack(s2, Plain).sorted == {} by {
      SubmitBackSorts(Init(m), Barrier(false));
      SubmitBackSorts(s1, Special(true));
      SubmitBackSorts(s2, Plain);
    }
    RunsThree(s1, LOAD[1], s2, LOAD[2], SubmitBack(s2, Plain), LOAD[3], Loaded(m));
    RunsFirst(Init(m), LOAD[0], s1, [LOAD[1], LOAD[2], LOAD[3]], Loaded(m));
    assert [LOAD[0]] + [LOAD[1], LOAD[2], LOAD[3]] == LOAD;
  }

  lemma SubmitBackSorts(s: State, k: Kind)
    ensures SubmitBack(s, k).sorted == s.sorted
  {
  }

  lemma LoadedFirst(m: Mode)
    ensures SubmitBack(SubmitBack(Init(m), Barrier(false)), Special(true)) ==
            Init(m).(kind := LOG[..2], color := COLOURS[..2], epoch := [0, 1], barriers := [0], queue := [0, 1], soft := {0, 1})
  {
    var s1 := SubmitBack(Init(m), Barrier(false));
    assert s1.kind == [Barrier(false)] && s1.color == [false] && s1.epoch == [0] && s1.queue == [0] && s1.soft == {0};
    assert s1.barriers == [0];
    var s2 := SubmitBack(s1, Special(true));
    assert s2.kind == LOG[..2] && s2.color == COLOURS[..2] && s2.epoch == [0, 1] && s2.queue == [0, 1] && s2.soft == {0, 1};
  }

  lemma RunsFirst(s: State, a: Action, t: State, acts: seq<Action>, u: State)
    requires Enabled(s, a) && Apply(s, a) == t && Runs(t, acts, u)
    ensures Runs(s, [a] + acts, u)
  {
    hide Apply, Enabled;
    assert ([a] + acts)[1..] == acts;
  }

  lemma LoadedRest(m: Mode, s: State)
    requires s == Init(m).(kind := LOG[..2], color := COLOURS[..2], epoch := [0, 1], barriers := [0], queue := [0, 1], soft := {0, 1})
    ensures SubmitBack(SubmitBack(s, Plain), Barrier(false)) == Loaded(m)
  {
    var s3 := SubmitBack(s, Plain);
    assert s3.kind == LOG[..3] && s3.color == COLOURS[..3] && s3.epoch == [0, 1, 1] && s3.queue == [0, 1, 2];
    assert s3.soft == {0, 1, 2};
    var s4 := SubmitBack(s3, Barrier(false));
    assert s4.kind == LOG && s4.color == COLOURS && s4.epoch == [0, 1, 1, 1] && s4.queue == [0, 1, 2, 3];
    assert s4.soft == {0, 1, 2, 3} && s4.barriers == [0, 3];
  }

  /** The proxies of a sequence in mode `m` that come after `p`. */
  function After(m: Mode, p: int): seq<int> {
    (if p < BARRQ then [BARRQ] else []) + (if p < POST && m.doPost then [POST] else [])
  }

  ghost function OpenFrom(m: Mode, p: int): set<Stage> {
    {ProxyStage(p)} + (if p < BARRQ then {BAR} else {}) + (if p < POST && m.doPost then {POSTFLUSH} else {})
  }

  ghost predicate DrainsBy(m: Mode) { Supported(m) && m.byDrain }

  ghost function First(m: Mode): int { if m.doPre then PRE else BARRQ }

  ghost function Closed(m: Mode, p: int): set<Stage> { {STARTED, DRAIN, PREFLUSH, BAR, POSTFLUSH} - OpenFrom(m, p) }

  /** The first barrier's sequence in mode `m` has come to its proxy `p`. */
  ghost predicate ComesTo(s: State, m: Mode, p: int) {
    && DrainsBy(m) && IsProxy(p) && (p == PRE ==> m.doPre) && (p == POST ==> m.doPost)
    && s.kind == LOG && s.color == COLOURS && s.orig == 0 && s.ordered == m && s.nextOrdered == m
    && s.ended == multiset{} && s.started * {0, 1, 2, 3} == {} && s.ordseq == Closed(m, p)
  }

  /** The driver holds that proxy. */
  ghost predicate Serving(s: State, m: Mode, p: int) {
    Inv(s) && ComesTo(s, m, p) && s.queue == After(m, p) + [1, 2, 3] && s.driver == {p}
  }

  lemma ServingStage(m: Mode, p: int)
    requires DrainsBy(m) && IsProxy(p)
    ensures CurSeq(Closed(m, p)) == ProxyStage(p) && STARTED in Closed(m, p) && DRAIN in Closed(m, p)
    ensures ProxyStage(p) !in Closed(m, p)
  {
  }

  lemma IssuedServes(w: State, m: Mode, p: int, t: State)
    requires ComesTo(w, m, p) && w.queue == [p] + (After(m, p) + [1, 2, 3]) && w.driver == {}
    requires t == Issue(MarkStarted(w, p), p) && Inv(t)
    ensures Serving(t, m, p)
  {
    hide Inv, Closed, After;
    assert w.queue[1..] == After(m, p) + [1, 2, 3];
  }

  lemma AfterShape(m: Mode)
    ensures After(m, PRE) == [BARRQ] + After(m, BARRQ) && After(m, BARRQ) == if m.doPost then [POST] else []
  {
  }

  /** The proxies queued in front of `q`. */
  lemma PushedQueue(s0: State, m: Mode, q: seq<int>)
    requires DrainsBy(m) && s0.queue == q && s0.started == {}
    ensures var u := PushIf(PushIf(PushIf(s0, POST, m.doPost), BARRQ, true), PRE, m.doPre);
            u.queue == [First(m)] + (After(m, First(m)) + q) && u.started == {}
  {
    hide After;
    AfterShape(m);
    var s1 := PushIf(s0, POST, m.doPost);
    assert s1.queue == After(m, BARRQ) + q && s1.started == {};
    var s2 := PushIf(s1, BARRQ, true);
    assert s2.queue == [BARRQ] + (After(m, BARRQ) + q) && s2.started == {};
    assert After(m, PRE) + q == s2.queue;
  }

  lemma LoadedQueue(m: Mode, u: State)
    requires DrainsBy(m) && u == QueueSequence(Loaded(m), 0)
    ensures u.queue == [First(m)] + (After(m, First(m)) + [1, 2, 3]) && u.started == {}
  {
    hide PushIf, After;
    var s0 := StashBarrier(Loaded(m), 0);
    assert s0.queue == [1, 2, 3] && s0.ordered == m;
    PushedQueue(s0, m, [1, 2, 3]);
  }

  lemma LoadedStages(m: Mode, u: State)
    requires DrainsBy(m) && u.ordered == m && u.inFlight == 0
    ensures Left(u) == Closed(m, First(m))
  {
  }

  lemma LoadedIdle(m: Mode, u: State)
    requires u == QueueSequence(Loaded(m), 0)
    ensures u.inFlight == 0 && u.ordered == m
  {
  }

  lemma LoadedInv(m: Mode)
    requires Supported(m)
    ensures Inv(Loaded(m))
  {
    InitInv(m);
    LoadedRuns(m);
    RunInv(Init(m), LOAD, Loaded(m));
  }

  lemma LoadedComesTo(m: Mode, u: State)
    requires DrainsBy(m) && u == QueueSequence(Loaded(m), 0)
    ensures u.ordseq == {STARTED} && u.inFlight == 0 && u.ordered == m && u.driver == {}
    ensures ComesTo(Begun(u), m, First(m)) && CurSeq(Left(u)) != DONE
  {
    hide QueueSequence, Left, Closed, CurSeq;
    LoadedQueue(m, u);
    QueueSequenceShape(Loaded(m));
    LoadedIdle(m, u);
    LoadedStages(m, u);
    ServingStage(m, First(m));
  }

  lemma StartServing(m: Mode, t: State)
    requires DrainsBy(m) && t == Fetch(Loaded(m))
    ensures Serving(t, m, First(m))
  {
    hide Inv, QueueSequence, Left, After, Fetch, Peek, CurSeq, Serving, ComesTo, Issue, MarkStarted;
    var s := Loaded(m);
    var u := QueueSequence(s, 0);
    LoadedInv(m);
    FetchInv(s);
    LoadedQueue(m, u);
    LoadedComesTo(m, u);
    FetchBegins(s, u, First(m));
    IssuedServes(Begun(u), m, First(m), t);
  }

  /** The current proxy ends and its stage closes. */
  lemma ServedOne(s: State, m: Mode, p: int, u: State)
    requires Serving(s, m, p) && After(m, p) != [] && u == Complete(s, p, 0)
    ensures u == Release(s, p, 0).(ordseq := u.ordseq, errs := u.errs)
    ensures u.ordseq == Closed(m, After(m, p)[0])
  {
    hide Inv, Complete, CompleteSeq;
    var q := After(m, p)[0];
    ServingStage(m, p);
    ServingStage(m, q);
    ProxyEnds(s, p);
    assert s.ordseq + {ProxyStage(p)} == Closed(m, q);
    StageCloses(Release(s, p, 0), ProxyStage(p));
  }

  /** The next proxy is fetched once the current one has ended. */
  lemma ServeNext(s: State, m: Mode, p: int, u: State, t: State)
    requires Serving(s, m, p) && After(m, p) != [] && u == Complete(s, p, 0) && u.queue != [] && t == Fetch(u)
    ensures Serving(t, m, After(m, p)[0])
  {
    hide Inv, Fetch, Peek, Complete, CompleteSeq, CurSeq, Closed, Issue;
    var q := After(m, p)[0];
    CompleteInv(s, p, 0);
    ServedOne(s, m, p, u);
    ServingStage(m, q);
    assert u.queue == [q] + (After(m, q) + [1, 2, 3]);
    ProxyGoes(u, q);
    FetchInv(u);
    IssuedServes(u, m, q, t);
  }

  lemma StageCloses(u: State, st: Stage)
    requires st !in u.ordseq && CurSeq(u.ordseq + {st}) != DONE
    ensures CompleteSeq(u, {st}, 0) == u.(ordseq := u.ordseq + {st}, errs := u.errs + [0])
  {
    assert u.ordseq * {st} == {};
  }

  // ----- the last proxy is with the driver -----

  /** The first barrier's sequence is at its last proxy `p`; the driver holds `d` and `q` is queued. */
  ghost predicate Last(s: State, m: Mode, p: int, d: set<int>, q: seq<int>) {
    && Inv(s) && DrainsBy(m) && IsProxy(p) && After(m, p) == []
    && s.kind == LOG && s.color == COLOURS && s.orig == 0 && s.ordered == m && s.nextOrdered == m
    && s.ordseq == Closed(m, p) && s.driver == d && s.queue == q && 0 !in s.started
  }

  lemma {:induction false} ServeAll(m: Mode, acts: seq<Action>, s: State, p: int)
    returns (all: seq<Action>, t: State, last: int)
    requires Runs(Init(m), acts, s) && Serving(s, m, p)
    ensures Runs(Init(m), all, t) && Last(t, m, last, {last}, [1, 2, 3])
    decreases -p
  {
    hide Inv, Runs, Complete, Fetch, Closed;
    if After(m, p) == [] {
      assert [] + [1, 2, 3] == [1, 2, 3];
      assert 0 in s.started ==> 0 in s.started * {0, 1, 2, 3};
      all, t, last := acts, s, p;
    } else {
      RunsAppend(Init(m), acts, s, End(p, 0));
      var u := Complete(s, p, 0);
      ServedOne(s, m, p, u);
      RunsAppend(Init(m), acts + [End(p, 0)], u, FetchHead);
      ServeNext(s, m, p, u, Fetch(u));
      all, t, last := ServeAll(m, acts + [End(p, 0)] + [FetchHead], Fetch(u), After(m, p)[0]);
    }
  }

  /** Some run brings the sequence of the first barrier to its last proxy, with the rest still queued. */
  lemma ReachLast(m: Mode) returns (acts: seq<Action>, s: State, p: int)
    requires DrainsBy(m)
    ensures Runs(Init(m), acts, s) && Last(s, m, p, {p}, [1, 2, 3])
  {
    hide Inv, Runs, Fetch, Serving, Last;
    LoadedRuns(m);
    RunsAppend(Init(m), LOAD, Loaded(m), FetchHead);
    StartServing(m, Fetch(Loaded(m)));
    acts, s, p := ServeAll(m, LOAD + [FetchHead], Fetch(Loaded(m)), First(m));
  }

  /** Every later request is let through: it looks submitted before the barrier. */
  lemma LetThrough(s: State, m: Mode, p: int, d: set<int>, q: seq<int>)
    requires Last(s, m, p, d, q) && q != [] && 1 <= q[0] <= 3
    ensures exists w :: DoOrdered(s) == Verdict(s.(warned := w), q[0], true)
  {
    hide Inv, Closed;
    ServingStage(m, p);
  }

  lemma LastFetch(s: State, m: Mode, p: int, d: set<int>, q: seq<int>, t: State)
    requires Last(s, m, p, d, q) && q != [] && 1 <= q[0] <= 3 && t == Fetch(s)
    ensures Last(t, m, p, d + {q[0]}, q[1..]) && q[0] in t.issued
  {
    hide Inv, Closed, DoOrdered;
    FetchInv(s);
    LetThrough(s, m, p, d, q);
  }

  lemma LastPeek(s: State, m: Mode, p: int, d: set<int>, q: seq<int>, t: State)
    requires Last(s, m, p, d, q) && q != [] && 1 <= q[0] <= 3 && t == Peek(s).st
    ensures Last(t, m, p, d, q) && q[0] in t.started
  {
    hide Inv, Closed, DoOrdered;
    PeekInv(s);
    LetThrough(s, m, p, d, q);
  }

  lemma LastEnd(s: State, m: Mode, p: int, d: set<int>, q: seq<int>, r: int, t: State)
    requires Last(s, m, p, d, q) && r in d && 1 <= r <= 3 && t == Complete(s, r, 0)
    ensures Last(t, m, p, d - {r}, q) && t.started == s.started && r in t.ended
  {
    hide Inv, Closed, Complete, CompleteSeq;
    CompleteInv(s, r, 0);
    CompleteShape(s, r, 0);
    ServingStage(m, p);
  }

  lemma FirstNotEnded(s: State, m: Mode, p: int, d: set<int>, q: seq<int>)
    requires Last(s, m, p, d, q)
    ensures 0 !in s.ended && IsBarrier(s, 0) && IsPlain(s, 2) && IsBarrier(s, 3)
  {
    assert RequestOk(s, {}, 0);
  }

  /** A plain request submitted after the barrier is at the driver together with the barrier's proxy. */
  lemma Overtaken(m: Mode) returns (acts: seq<Action>, s: State, p: int)
    requires DrainsBy(m)
    ensures Runs(Init(m), acts, s) && Last(s, m, p, {p, 1, 2}, [3]) && 2 in s.issued
    ensures !DrainSafe(s) && !NoOvertaking(s)
  {
    hide Inv, Runs, Fetch, Closed;
    var before, s0;
    before, s0, p := ReachLast(m);
    var s1 := Fetch(s0);
    LastFetch(s0, m, p, {p}, [1, 2, 3], s1);
    assert {p} + {1} == {p, 1} && [1, 2, 3][1..] == [2, 3];
    RunsAppend(Init(m), before, s0, FetchHead);
    s := Fetch(s1);
    LastFetch(s1, m, p, {p, 1}, [2, 3], s);
    assert {p, 1} + {2} == {p, 1, 2} && [2, 3][1..] == [3];
    RunsAppend(Init(m), before + [FetchHead], s1, FetchHead);
    acts := before + [FetchHead] + [FetchHead];
    FirstNotEnded(s, m, p, {p, 1, 2}, [3]);
    assert IsProxy(p) && p in s.driver && !Separated(s, p);
  }

  /** Another barrier, handed out like a plain request, ends before the first one. */
  lemma EndsTooEarly(m: Mode) returns (acts: seq<Action>, s: State)
    requires DrainsBy(m)
    ensures Runs(Init(m), acts, s) && !EndsInOrder(s)
  {
    hide Inv, Runs, Fetch, Complete, Closed;
    var before, s0, p := Overtaken(m);
    var s1 := Fetch(s0);
    LastFetch(s0, m, p, {p, 1, 2}, [3], s1);
    RunsAppend(Init(m), before, s0, FetchHead);
    s := Complete(s1, 3, 0);
    LastEnd(s1, m, p, {p, 1, 2} + {3}, [3][1..], 3, s);
    RunsAppend(Init(m), before + [FetchHead], s1, End(3, 0));
    acts := before + [FetchHead] + [End(3, 0)];
    FirstNotEnded(s, m, p, {p, 1, 2} + {3} - {3}, [3][1..]);
    assert !IsSpecial(s, 0);
  }

  // ----- a barrier that waits for itself -----

  /** The first barrier's sequence ends while the other barrier has been offered but not taken. */
  lemma LastCloses(s: State, m: Mode, p: int, t: State)
    requires Last(s, m, p, {p}, [3]) && t == Complete(s, p, 0)
    ensures Inv(t) && t.ordseq == {} && t.kind == LOG && t.nextOrdered == m && t.queue == [3] && t.driver == {}
    ensures t.started == s.started && t.inFlight == 0
  {
    hide Inv, Closed, Complete, CompleteSeq;
    CompleteInv(s, p, 0);
    ServingStage(m, p);
    ProxyEnds(s, p);
    ClosesAll(m, p);
    LastStage(Release(s, p, 0), ProxyStage(p));
    NothingInFlight(t);
  }

  lemma ClosesAll(m: Mode, p: int)
    requires DrainsBy(m) && IsProxy(p) && After(m, p) == []
    ensures CurSeq(Closed(m, p) + {ProxyStage(p)}) == DONE
  {
  }

  lemma NothingInFlight(t: State)
    requires Inv(t) && t.ordseq == {} && t.driver == {}
    ensures t.inFlight == 0
  {
    assert Accounted(t) == {};
  }

  /** Its own sequence then counts it as in flight. */
  lemma BeginsWaiting(s: State, m: Mode, t: State)
    requires Inv(s) && DrainsBy(m) && s.ordseq == {} && s.kind == LOG && s.nextOrdered == m && s.queue == [3]
    requires s.driver == {} && s.inFlight == 0 && 3 in s.started && t == Fetch(s)
    ensures Inv(t) && WaitsForItself(t, 3) && Stuck(t)
  {
    hide Inv, Fetch, Peek, QueueSequence, Left, Stuck, CurSeq;
    var u := QueueSequence(s, 3);
    FetchInv(s);
    QueueSequenceShape(s);
    CountsItself(s, m, u);
    FetchBegins(s, u, First(m));
    StuckIff(t);
  }

  lemma CountsItself(s: State, m: Mode, u: State)
    requires DrainsBy(m) && s.ordseq == {} && s.kind == LOG && s.nextOrdered == m && s.queue == [3]
    requires s.inFlight == 0 && 3 in s.started && u == QueueSequence(s, 3)
    ensures u.inFlight == 1 && u.ordered == m && 3 in u.started && u.queue != [] && IsProxy(u.queue[0])
    ensures DRAIN !in Left(u) && STARTED in Left(u) && CurSeq(Left(u)) == DRAIN
  {
  }

  /** The sequence of the second barrier never ends, whatever happens afterwards. */
  lemma HangsForGood(m: Mode) returns (acts: seq<Action>, s: State)
    requires DrainsBy(m)
    ensures Runs(Init(m), acts, s) && Stuck(s) && Running(s) && !CanEnd(s)
  {
    hide Inv, Runs, Fetch, Peek, Complete, Closed, Stuck;
    var before, s0, p := Overtaken(m);
    var s1 := Peek(s0).st;
    LastPeek(s0, m, p, {p, 1, 2}, [3], s1);
    RunsAppend(Init(m), before, s0, PeekHead);
    var s2 := Complete(s1, 1, 0);
    LastEnd(s1, m, p, {p, 1, 2}, [3], 1, s2);
    RunsAppend(Init(m), before + [PeekHead], s1, End(1, 0));
    var s3 := Complete(s2, 2, 0);
    LastEnd(s2, m, p, {p, 1, 2} - {1}, [3], 2, s3);
    RunsAppend(Init(m), before + [PeekHead] + [End(1, 0)], s2, End(2, 0));
    assert {p, 1, 2} - {1} - {2} == {p};
    var s4 := Complete(s3, p, 0);
    LastCloses(s3, m, p, s4);
    RunsAppend(Init(m), before + [PeekHead] + [End(1, 0)] + [End(2, 0)], s3, End(p, 0));
    s := Fetch(s4);
    BeginsWaiting(s4, m, s);
    RunsAppend(Init(m), before + [PeekHead] + [End(1, 0)] + [End(2, 0)] + [End(p, 0)], s4, FetchHead);
    acts := before + [PeekHead] + [End(1, 0)] + [End(2, 0)] + [End(p, 0)] + [FetchHead];
    forall more, t | Runs(s, more, t) ensures Running(t) { WaitsForever(s, more, t, 3); }
  }

  // ----- exactly when the promises hold -----

  /** Every run with mode `m`, with flagged driver commands or without. */
  ghost predicate RunsTo(m: Mode, flagged: bool, acts: seq<Action>, s: State) {
    Reachable(m, acts, s) && (flagged || Unflagged(acts))
  }

  /** Requests are kept on their side of a running barrier in every run exactly if no driver command
      carries the barrier flag. */
  lemma DrainSafetyIff(m: Mode, flagged: bool)
    requires DrainsBy(m)
    ensures (forall acts, s :: RunsTo(m, flagged, acts, s) ==> DrainSafe(s)) <==> !flagged
    ensures (forall acts, s :: RunsTo(m, flagged, acts, s) ==> NoOvertaking(s)) <==> !flagged
  {
    hide Runs, DrainSafe, NoOvertaking, Unflagged;
    if flagged {
      var acts, s, p := Overtaken(m);
      assert RunsTo(m, flagged, acts, s);
    } else {
      forall acts, s | RunsTo(m, flagged, acts, s) ensures DrainSafe(s) && NoOvertaking(s) {
        DrainSafety(m, acts, s);
        NoneOvertakes(m, acts, s);
      }
    }
  }

  /** The same for the order in which barriers and earlier requests end. */
  lemma EndsInOrderIff(m: Mode, flagged: bool)
    requires DrainsBy(m)
    ensures (forall acts, s :: RunsTo(m, flagged, acts, s) ==> EndsInOrder(s)) <==> !flagged
  {
    hide Runs, EndsInOrder, Unflagged;
    if flagged {
      var acts, s := EndsTooEarly(m);
      assert RunsTo(m, flagged, acts, s);
    } else {
      forall acts, s | RunsTo(m, flagged, acts, s) ensures EndsInOrder(s) { BarrierEndsLast(m, acts, s); }
    }
  }

  /** And for standstills, passing or final. */
  lemma StuckOnlyByFlagged(m: Mode, flagged: bool)
    requires DrainsBy(m)
    ensures (forall acts, s :: RunsTo(m, flagged, acts, s) ==> !Stuck(s)) <==> !flagged
    ensures (forall acts, s :: RunsTo(m, flagged, acts, s) ==> CanEnd(s)) <==> !flagged
  {
    hide Runs, Stuck, CanEnd, Unflagged;
    if flagged {
      var acts, s := HangsForGood(m);
      assert RunsTo(m, flagged, acts, s);
    } else {
      forall acts, s | RunsTo(m, flagged, acts, s) ensures !Stuck(s) && CanEnd(s) {
        DrainNeverStuck(m, acts, s);
        EndsSomehow(m, acts, s);
      }
    }
  }

  lemma EndsSomehow(m: Mode, acts: seq<Action>, s: State)
    requires Reachable(m, acts, s) && Unflagged(acts)
    ensures CanEnd(s)
  {
    hide Runs, Reachable;
    AlwaysFinishes(m, acts, s);
  }
}
