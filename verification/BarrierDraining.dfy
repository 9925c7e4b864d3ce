/** Waiting for the requests in flight, in every ordering mode: an empty barrier makes a queue that
    orders by tag drain as well.  When a drain comes to a standstill, and how it ends. */
module BarrierDraining {
  import opened Barrier
  import opened BarrierInvariants
  import opened BarrierColours

  /** A sequence waits for the requests in flight. */
  ghost predicate Draining(s: State) { Running(s) && DRAIN !in s.ordseq }

  /** A sequence is running, the driver holds nothing, and the queue gives it nothing. */
  ghost predicate Stuck(s: State) {
    Running(s) && s.driver == {} && (s.queue == [] || DoOrdered(s).pick == NOREQ)
  }

  /** A drain that waits has something to wait for. */
  ghost predicate Progress(s: State) {
    Draining(s) && s.driver == {} ==> s.queue != [] && ReqSeq(s, s.queue[0]) == DRAIN
  }

  /** While a sequence drains, the driver holds no plain request that looks submitted after its barrier. */
  ghost predicate Matching(s: State) {
    Draining(s) ==> forall r :: r in s.driver && IsPlain(s, r) ==> ReqSeq(s, r) == DRAIN
  }

  lemma DrainingMode(s: State)
    requires Inv(s) && Draining(s)
    ensures s.ordered.byDrain && !s.ordered.byTag && CurSeq(s.ordseq) == DRAIN
    ensures forall r :: r in s.driver ==> !IsProxy(r)
  {
    forall r | r in s.driver ensures !IsProxy(r) { assert RequestOk(s, {}, r); }
  }

  /** A request of the drain stage at the head is handed out. */
  lemma DrainHeadGoes(s: State)
    requires Inv(s) && Draining(s) && s.queue != [] && ReqSeq(s, s.queue[0]) == DRAIN
    ensures DoOrdered(s) == Verdict(s, s.queue[0], true)
    ensures Fetch(s) == Issue(MarkStarted(s, s.queue[0]), s.queue[0])
    ensures Fetch(s).driver == s.driver + {s.queue[0]} && Fetch(s).queue == s.queue[1..]
  {
    DrainingMode(s);
    QueuedIsKnown(s, 0);
  }

  /** Nothing else is. */
  lemma OtherHeadsWait(s: State)
    requires Inv(s) && Draining(s) && s.queue != [] && ReqSeq(s, s.queue[0]) != DRAIN
    ensures DoOrdered(s) == Verdict(s, NOREQ, true)
  {
    DrainingMode(s);
    QueuedIsKnown(s, 0);
  }

  /** The queue's driver orders by draining, or the colours mean what they should. */
  ghost predicate Sane(s: State) { Inv(s) && (s.nextOrdered.byDrain || Coloured(s)) }

  /** The sequence is not itself counted among the requests it waits for. */
  ghost predicate Live(s: State) { Draining(s) ==> s.orig !in s.started }

  lemma ColouredLive(s: State)
    requires ColouredInv(s)
    ensures Sane(s) && Live(s)
  {
    if Running(s) { assert ColourOk(s, s.orig); }
  }

  /** Once the queue is drained, the head is of the current stage or an earlier one. */
  lemma AfterDrain(s: State)
    requires Sane(s) && Running(s) && DRAIN in s.ordseq && s.driver == {}
    ensures s.queue != [] && Bit(ReqSeq(s, s.queue[0])) <= Bit(CurSeq(s.ordseq))
    ensures s.ordered.byTag ==> !IsBarrier(s, s.queue[0])
  {
    var p := if PREFLUSH !in s.ordseq then PRE else if BAR !in s.ordseq then BARRQ else POST;
    assert RequestOk(s, {}, p);
    assert p in multiset(s.queue);
    var i :| 0 <= i < |s.queue| && s.queue[i] == p;
    assert 0 < i ==> Before(s, s.queue[0], s.queue[i]);
    if s.ordered.byTag && IsBarrier(s, s.queue[0]) { DrainHeadIssued(s); }
  }

  /** Nothing but a drain can come to a standstill: a sequence that orders by tag never does. */
  lemma StuckIff(s: State)
    requires Sane(s)
    ensures Stuck(s) <==> !Progress(s)
  {
    if Running(s) && s.driver == {} {
      if DRAIN in s.ordseq {
        AfterDrain(s);
        QueuedIsKnown(s, 0);
      } else if s.queue != [] {
        QueuedIsKnown(s, 0);
        if ReqSeq(s, s.queue[0]) == DRAIN { DrainHeadGoes(s); } else { OtherHeadsWait(s); }
      }
    }
  }

  // ----- what the steps keep -----

  lemma SubmitProgress(s: State, k: Kind, t: State)
    requires Inv(s) && Progress(s) && t.kind == Submit(s, k).kind && t.color == Submit(s, k).color
    requires t.ordseq == s.ordseq && t.driver == s.driver && t.orig == s.orig
    requires t.queue == s.queue || t.queue == s.queue + [|s.kind|]
    ensures Progress(t)
  {
    if Draining(s) && s.driver == {} {
      QueuedIsKnown(s, 0);
      SubmitStage(s, k, s.queue[0]);
    }
  }

  /** The scheduler cannot slip anything in front of a request of the drain stage. */
  lemma MoveProgress(s: State, r: int, p: nat)
    requires ColouredInv(s) && Progress(s) && MayMove(s, r, p)
    ensures Progress(MoveToQueue(s, r, p))
  {
    if Draining(s) && s.driver == {} && p == 0 {
      BehindTheFlags(s, r, p, 0);
      DrainHeadIssued(s);
    }
  }

  lemma IdleAccounted(s: State)
    requires ColouredInv(s) && s.driver == {}
    ensures s.inFlight == 0
  {
    assert Accounted(s) == {};
    if Running(s) { assert ColourOk(s, s.orig); }
  }

  lemma StartProgress(s: State, t: State)
    requires ColouredInv(s) && AtBarrier(s) && t == StartOrdered(s, s.queue[0]).st
    ensures Progress(t) && t.driver == s.driver && t.begun == s.begun + 1 && (Running(t) ==> t.orig == s.queue[0])
    ensures s.driver == {} ==> !Draining(t)
  {
    var u := QueueSequence(s, s.queue[0]);
    StartOrderedShape(s, u);
    QueueSequenceShape(s);
    StashKeeps(s, u);
    if s.driver == {} { IdleAccounted(s); }
    SkippedDrain(u.ordered, u.ordered.byDrain && u.inFlight != 0);
  }

  lemma StartFrame(s: State, t: State)
    requires s.queue != [] && IsBarrier(s, s.queue[0]) && t == StartOrdered(s, s.queue[0]).st
    ensures t.kind == s.kind && t.color == s.color && t.barriers == s.barriers && t.driver == s.driver
    ensures t.begun == s.begun + 1 && t.nextOrdered == s.nextOrdered
  {
    hide CompleteSeq;
    var u := QueueSequence(s, s.queue[0]);
    QueueSequenceShape(s);
    StartOrderedShape(s, u);
    CompleteSeqFrame(u, Skipped(u.ordered, u.ordered.byDrain && u.inFlight != 0), 0, t);
  }

  lemma SkippedDrain(m: Mode, mustDrain: bool)
    ensures DRAIN in Skipped(m, mustDrain) <==> !mustDrain
  {
  }

  lemma StashKeeps(s: State, u: State)
    requires ColouredInv(s) && AtBarrier(s) && u == QueueSequence(s, s.queue[0])
    ensures u.inFlight == s.inFlight && u.driver == s.driver && u.begun == s.begun + 1 && u.orig == s.queue[0]
  {
    assert ColourOk(s, s.queue[0]);
  }

  lemma PeekProgress(s: State, v: Verdict)
    requires ColouredInv(s) && s.queue != [] && v == Peek(s) && Progress(s)
    ensures Progress(v.st)
  {
    hide Inv, Coloured, StartOrdered, Peek, IsBarrier;
    if Running(s) || !IsBarrier(s, s.queue[0]) { PeekQuiet(s, v.st); StageFrame(s, v.st, s.queue[0]); }
    else if s.nextOrdered == ORDERED_NONE { PeekRefuses(s, v.st); }
    else {
      var u := StartOrdered(s, s.queue[0]).st;
      StartProgress(s, u);
      PeekStarts(s, v.st, u);
    }
  }

  lemma FetchProgress(s: State)
    requires ColouredInv(s) && s.queue != [] && Progress(s)
    ensures Progress(Fetch(s))
  {
    hide Inv, Coloured, Peek;
    var v := Peek(s);
    PeekProgress(s, v);
    assert Fetch(s) != v.st ==> v.pick in Fetch(s).driver;
  }

  /** The drain check closes the stage unless something of it is still to come. */
  lemma CheckDrainedProgress(u: State, t: State)
    requires Inv(u) && (Running(u) ==> u.orig !in u.started) && t == CheckDrained(u)
    ensures Progress(t)
  {
    assert u.driver == {} ==> Accounted(u) == {};
  }

  lemma CompleteProgress(s: State, r: int, e: int, t: State)
    requires ColouredInv(s) && r in s.driver && t == Complete(s, r, e)
    ensures Progress(t)
  {
    hide CompleteSeq;
    if IsProxy(r) {
      ProxyClosesOwnStage(s, r, e);
      CloseKeepsDrained(Release(s, r, e), {ProxyStage(r)}, e);
    } else {
      ReleaseInv(s, r, e);
      CompleteShape(s, r, e);
      if Running(s) { assert ColourOk(s, s.orig); }
      CheckDrainedProgress(Release(s, r, e), t);
    }
  }

  lemma CloseKeepsDrained(u: State, c: set<Stage>, e: int)
    requires DRAIN in u.ordseq + c
    ensures !Draining(CompleteSeq(u, c, e))
  {
  }

  /** A request of the drain stage is put back at the head. */
  lemma RequeueProgress(s: State, r: int, t: State)
    requires ColouredInv(s) && r in s.driver && t == Requeue(s, r) && Matching(s)
    ensures Progress(t)
  {
    if Draining(s) {
      RequeueShape(s, r);
      DrainingMode(s);
      assert RequestOk(s, {}, r) && ColourOk(s, r);
      assert ReqSeq(s, r) == DRAIN;
      assert RequeueAt(s, r) == 0;
    }
  }

  lemma StepProgress(s: State, a: Action, t: State)
    requires ColouredInv(s) && !Flagged(a) && Enabled(s, a) && t == Apply(s, a) && Progress(s) && Matching(s)
    ensures Progress(t)
  {
    hide Inv, Coloured;
    match a
    case AddSort => SubmitProgress(s, Plain, t);
    case AddBack(k) => SubmitProgress(s, k, t);
    case AddFront(hard) =>
    case Dispatch(r, p) => MoveProgress(s, r, p);
    case PeekHead => PeekProgress(s, Peek(s));
    case FetchHead => FetchProgress(s);
    case End(r, e) => CompleteProgress(s, r, e, t);
    case PutBack(r) => RequeueProgress(s, r, t);
    case BarError(e) =>
  }

  /** No step goes back to an earlier sequence. */
  lemma StepBegun(s: State, a: Action, t: State)
    requires Inv(s) && Enabled(s, a) && t == Apply(s, a)
    ensures s.begun <= t.begun && t.nextOrdered == s.nextOrdered
    ensures Running(t) && t.begun == s.begun ==> Running(s) && t.orig == s.orig && s.ordseq <= t.ordseq
    ensures s.kind <= t.kind && s.color <= t.color && s.barriers <= t.barriers && (!a.FetchHead? ==> t.driver <= s.driver)
  {
    hide Inv, Requeue, Complete, Peek;
    match a
    case PeekHead => PeekBegun(s, t);
    case FetchHead => PeekBegun(s, Peek(s).st);
    case End(r, e) => CompleteBegun(s, r, e, t);
    case PutBack(r) => RequeueShape(s, r);
    case _ =>
  }

  lemma PeekBegun(s: State, t: State)
    requires s.queue != [] && t == Peek(s).st
    ensures s.begun <= t.begun && t.nextOrdered == s.nextOrdered && t.kind == s.kind && t.color == s.color
    ensures t.barriers == s.barriers && t.driver == s.driver
    ensures Running(t) && t.begun == s.begun ==> Running(s) && t.orig == s.orig && s.ordseq <= t.ordseq
  {
    hide Peek, StartOrdered, IsBarrier;
    if Running(s) || !IsBarrier(s, s.queue[0]) { PeekQuiet(s, t); }
    else if s.nextOrdered == ORDERED_NONE { PeekRefuses(s, t); }
    else { PeekStarts(s, t, StartOrdered(s, s.queue[0]).st); StartFrame(s, StartOrdered(s, s.queue[0]).st); }
  }

  /** Looking at the head changes nothing but marks, unless it begins or refuses a barrier. */
  lemma PeekQuiet(s: State, t: State)
    requires s.queue != [] && (Running(s) || !IsBarrier(s, s.queue[0])) && t == Peek(s).st
    ensures t == s.(started := t.started, warned := t.warned) && t.started <= s.started + {s.queue[0]}
  {
    hide ReqSeq, CurSeq, IsFs, IsBarrier, StartOrdered, Bit;
  }

  lemma PeekRefuses(s: State, t: State)
    requires s.queue != [] && !Running(s) && IsBarrier(s, s.queue[0]) && s.nextOrdered == ORDERED_NONE && t == Peek(s).st
    ensures t == Refuse(s)
  {
  }

  lemma PeekStarts(s: State, t: State, u: State)
    requires s.queue != [] && !Running(s) && IsBarrier(s, s.queue[0]) && s.nextOrdered != ORDERED_NONE && t == Peek(s).st
    requires u == StartOrdered(s, s.queue[0]).st
    ensures t == u.(started := t.started)
  {
    hide StartOrdered;
  }

  lemma CompleteBegun(s: State, r: int, e: int, t: State)
    requires Inv(s) && r in s.driver && t == Complete(s, r, e)
    ensures t.begun == s.begun && t.nextOrdered == s.nextOrdered && t.started == s.started
    ensures t.kind == s.kind && t.color == s.color && t.barriers == s.barriers && t.driver <= s.driver
    ensures Running(t) ==> Running(s) && t.orig == s.orig && s.ordseq <= t.ordseq
  {
    hide CompleteSeq;
    var u := Release(s, r, e);
    if IsProxy(r) {
      ProxyClosesOwnStage(s, r, e);
      CompleteSeqFrame(u, {ProxyStage(r)}, e, CompleteSeq(u, {ProxyStage(r)}, e));
    } else {
      CompleteShape(s, r, e);
      CompleteSeqFrame(u, {DRAIN}, 0, CompleteSeq(u, {DRAIN}, 0));
    }
  }

  /** Within one sequence nothing of the other colour joins the requests at the driver. */
  lemma StepMatching(s: State, a: Action, t: State)
    requires ColouredInv(s) && Enabled(s, a) && t == Apply(s, a) && Matching(s) && t.begun == s.begun
    ensures Matching(t)
  {
    hide Coloured, Inv, Fetch, Peek, Complete, Requeue, MoveToQueue, ReqSeq;
    StepBegun(s, a, t);
    if Draining(t) {
      forall r | r in t.driver && IsPlain(t, r) ensures ReqSeq(t, r) == DRAIN {
        if r in s.driver { MatchingFrame(s, t, r); } else { FetchMatching(s, t, r); }
      }
    }
  }

  lemma FetchMatching(s: State, t: State, r: int)
    requires Inv(s) && Draining(s) && s.queue != [] && t == Fetch(s) && r in t.driver && r !in s.driver
    ensures ReqSeq(t, r) == DRAIN
  {
    if ReqSeq(s, s.queue[0]) == DRAIN { DrainHeadGoes(s); } else { OtherHeadsWait(s); }
  }

  lemma MatchingFrame(s: State, t: State, r: int)
    requires Inv(s) && Draining(s) && Matching(s) && s.kind <= t.kind && s.color <= t.color && t.orig == s.orig
    requires r in s.driver && IsPlain(t, r)
    ensures ReqSeq(t, r) == DRAIN
  {
    assert RequestOk(s, {}, r);
  }

  // ----- a drain that can come to a standstill -----

  /** From here to the end of sequence number `k` nothing comes to a standstill. */
  ghost predicate Keeps(s: State, k: nat) {
    k <= s.begun && (Running(s) && s.begun == k ==> Progress(s) && Matching(s))
  }

  lemma StepKeeps(s: State, a: Action, t: State, k: nat)
    requires ColouredInv(s) && !Flagged(a) && Enabled(s, a) && t == Apply(s, a) && Keeps(s, k)
    ensures Keeps(t, k)
  {
    hide Coloured, Inv, Apply, Enabled, Progress, Matching;
    StepBegun(s, a, t);
    if Running(t) && t.begun == k {
      StepProgress(s, a, t);
      StepMatching(s, a, t);
    }
  }

  lemma {:induction false} RunKeeps(s: State, acts: seq<Action>, t: State, k: nat)
    requires ColouredInv(s) && Runs(s, acts, t) && Unflagged(acts) && Keeps(s, k)
    ensures ColouredInv(t) && Keeps(t, k) && s.barriers <= t.barriers
    decreases |acts|
  {
    hide Coloured, Inv, Apply, Enabled, Keeps;
    if acts != [] {
      StepBegun(s, acts[0], Apply(s, acts[0]));
      StepColoured(s, acts[0], Apply(s, acts[0]));
      StepKeeps(s, acts[0], Apply(s, acts[0]), k);
      RunKeeps(Apply(s, acts[0]), acts[1..], t, k);
    }
  }

  /** A barrier has only one sequence. */
  lemma SameSequence(s: State, t: State)
    requires ColouredInv(s) && ColouredInv(t) && Running(s) && Running(t) && s.orig == t.orig && s.begun <= t.begun
    requires s.barriers <= t.barriers
    ensures s.begun == t.begun
  {
    assert BarrierOk(t, s.begun - 1) && BarrierOk(t, t.begun - 1);
  }

  /** The request at the driver looks submitted after the barrier being drained for. */
  ghost predicate Mismatched(s: State, r: int) {
    r in s.driver && IsPlain(s, r) && ColorOf(s, r) != ColorOf(s, s.orig)
  }

  /** Some run reaches a standstill before the sequence of barrier `b` ends. */
  ghost predicate CanStick(s: State, b: int) {
    exists acts, t :: Unflagged(acts) && Runs(s, acts, t) && t.orig == b && Stuck(t)
  }

  /** Ending another request leaves the drain open, since `r` is in flight. */
  lemma EndOther(s: State, r: int, x: int, t: State)
    requires ColouredInv(s) && Draining(s) && Mismatched(s, r) && x in s.driver && x != r && t == Complete(s, x, 0)
    ensures Draining(t) && t.orig == s.orig && Mismatched(t, r) && t.queue == s.queue && t.driver == s.driver - {x}
  {
    DrainingMode(s);
    CompleteShape(s, x, 0);
    var u := Release(s, x, 0);
    ReleaseInv(s, x, 0);
    assert r in Accounted(u);
    assert |Accounted(u)| > 0;
  }

  /** With `r` alone at the driver and nothing else to drain, putting it back is a standstill. */
  lemma PutBackSticks(s: State, r: int, t: State)
    requires ColouredInv(s) && Draining(s) && Mismatched(s, r) && s.driver == {r} && t == Requeue(s, r)
    requires s.queue == [] || ReqSeq(s, s.queue[0]) != DRAIN
    ensures Stuck(t) && t.orig == s.orig
  {
    RequeueShape(s, r);
    RequeueInv(s, r);
    RequeueColoured(s, r, t);
    ColouredLive(t);
    StuckIff(t);
  }

  lemma SomeOf(d: set<int>) returns (r: int)
    requires d != {}
    ensures r in d
  {
    assert (forall x :: x !in d) ==> d == {};
    r :| r in d;
  }

  /** How much is left to hand out and to complete. */
  ghost function Load(s: State): nat { 2 * |s.queue| + |s.driver| }

  /** A step towards that: end what else is at the driver, hand out what else is to be drained. */
  lemma StepToStick(s: State, r: int) returns (a: Action)
    requires ColouredInv(s) && Draining(s) && Mismatched(s, r)
    requires s.driver != {r} || (s.queue != [] && ReqSeq(s, s.queue[0]) == DRAIN)
    ensures !Flagged(a) && Enabled(s, a)
    ensures var t := Apply(s, a); Draining(t) && t.orig == s.orig && Mismatched(t, r) && Load(t) < Load(s)
  {
    hide Coloured, Inv, Complete, Fetch, Peek, ReqSeq, Requeue, MoveToQueue, NoteError;
    if s.driver != {r} {
      assert s.driver - {r} != {} by { assert s.driver == (s.driver - {r}) + {r}; }
      var x := SomeOf(s.driver - {r});
      a := End(x, 0);
      EndOther(s, r, x, Complete(s, x, 0));
    } else {
      a := FetchHead;
      DrainHeadGoes(s);
      assert |s.driver + {s.queue[0]}| <= |s.driver| + 1;
    }
  }

  lemma {:induction false} MismatchSticks(s: State, r: int) returns (acts: seq<Action>, t: State)
    requires ColouredInv(s) && Draining(s) && Mismatched(s, r)
    ensures Unflagged(acts) && Runs(s, acts, t) && t.orig == s.orig && Stuck(t)
    decreases Load(s)
  {
    hide Coloured, Inv, Complete, Requeue, Fetch, Stuck, ReqSeq;
    if s.driver != {r} || (s.queue != [] && ReqSeq(s, s.queue[0]) == DRAIN) {
      var a := StepToStick(s, r);
      StepColoured(s, a, Apply(s, a));
      var rest;
      rest, t := MismatchSticks(Apply(s, a), r);
      acts := [a] + rest;
    } else {
      PutBackSticks(s, r, Requeue(s, r));
      acts, t := [PutBack(r)], Requeue(s, r);
    }
  }

  /** In every mode: a drain can come to a standstill exactly if it already has, or if the driver holds
      a plain request of the other colour than the barrier's. */
  lemma DrainSticksIff(s: State)
    requires ColouredInv(s) && Draining(s)
    ensures CanStick(s, s.orig) <==> Stuck(s) || exists r :: Mismatched(s, r)
  {
    hide Coloured, Stuck;
    if Stuck(s) {
      assert Unflagged([]) && Runs(s, [], s);
    }
    if r :| Mismatched(s, r) {
      var acts, t := MismatchSticks(s, r);
    }
    if CanStick(s, s.orig) && !Stuck(s) && !(exists r :: Mismatched(s, r)) {
      ColouredLive(s);
      StuckIff(s);
      forall r | r in s.driver && IsPlain(s, r) ensures ReqSeq(s, r) == DRAIN { assert !Mismatched(s, r); }
      var acts, t :| Unflagged(acts) && Runs(s, acts, t) && t.orig == s.orig && Stuck(t);
      NeverSticks(s, acts, t);
    }
  }

  lemma NeverSticks(s: State, acts: seq<Action>, t: State)
    requires ColouredInv(s) && Running(s) && Progress(s) && Matching(s) && Unflagged(acts) && Runs(s, acts, t)
    ensures !(t.orig == s.orig && Stuck(t))
  {
    RunKeeps(s, acts, t, s.begun);
    ColouredLive(t);
    StuckIff(t);
    if t.orig == s.orig && Running(t) { SameSequence(s, t); }
  }

  // ----- what a drain has waited for -----

  /** Nothing in flight: the driver holds no filesystem request. */
  lemma IdleDriver(s: State, r: int)
    requires Inv(s) && s.inFlight == 0 && IsFs(s, r)
    ensures r !in s.driver
  {
    assert r in s.driver ==> r in Accounted(s);
  }

  /** A request of the drain stage that was put back makes the head one of the drain stage. */
  lemma DrainStageFirst(s: State, i: nat)
    requires ColouredInv(s) && Running(s) && i < |s.queue| && IsPlain(s, s.queue[i])
    requires s.queue[i] in s.issued && ReqSeq(s, s.queue[i]) == DRAIN
    ensures ReqSeq(s, s.queue[0]) == DRAIN
  {
    QueuedIsKnown(s, 0);
    if 0 < i { assert InPlace(s, s.queue[0], s.queue[i]) && ColourOk(s, s.queue[0]); }
  }

  /** The request was put back while the drain waited, and looks submitted after the barrier. */
  ghost predicate LeftBehind(s: State, r: int) {
    Queued(s, r) && IsPlain(s, r) && r in s.issued && ColorOf(s, r) != ColorOf(s, s.orig)
  }

  /** In every mode, when the drain stage is about to close: everything submitted before the barrier has
      ended exactly if nothing of the other colour was put back meanwhile. */
  lemma DrainClosesIff(s: State)
    requires ColouredInv(s) && Draining(s) && s.inFlight == 0
    requires s.queue == [] || Bit(ReqSeq(s, s.queue[0])) > Bit(DRAIN)
    ensures (forall r :: IsPlain(s, r) && r < s.orig ==> r in s.ended) <==> !(exists r :: LeftBehind(s, r))
  {
    if r :| LeftBehind(s, r) { BehindTheBarrier(s, r); }
    if !(exists r :: LeftBehind(s, r)) {
      forall r | IsPlain(s, r) && r < s.orig ensures r in s.ended { WaitedFor(s, r); }
    }
  }

  lemma BehindTheBarrier(s: State, r: int)
    requires ColouredInv(s) && Draining(s) && LeftBehind(s, r)
    ensures r < s.orig && r !in s.ended
  {
    DrainingMode(s);
    assert RequestOk(s, {}, r) && ColourOk(s, r) && BarrierOk(s, s.begun - 1);
  }

  lemma WaitedFor(s: State, r: int)
    requires ColouredInv(s) && Draining(s) && s.inFlight == 0 && IsPlain(s, r) && r < s.orig && !LeftBehind(s, r)
    requires s.queue == [] || Bit(ReqSeq(s, s.queue[0])) > Bit(DRAIN)
    ensures r in s.ended
  {
    assert RequestOk(s, {}, r) && ColourOk(s, r) && BarrierOk(s, s.begun - 1) && RequestOk(s, {}, s.orig);
    IdleDriver(s, r);
    if Queued(s, r) {
      assert r in multiset(s.queue);
      var i :| 0 <= i < |s.queue| && s.queue[i] == r;
      DrainStageFirst(s, i);
    }
  }

  // ----- which sequences can be finished -----

  lemma StepSane(s: State, a: Action, t: State)
    requires Sane(s) && !Flagged(a) && Enabled(s, a) && t == Apply(s, a)
    ensures Sane(t)
  {
    hide Inv, Coloured;
    StepInv(s, a);
    if Coloured(s) { StepColoured(s, a, t); }
    StepBegun(s, a, t);
  }

  /** At a standstill, one more driver command that comes and goes closes the drain stage. */
  lemma Unstick(s: State) returns (acts: seq<Action>, t: State)
    requires Sane(s) && Live(s) && Stuck(s)
    ensures Unflagged(acts) && Runs(s, acts, t) && Sane(t) && t.begun == s.begun && !Draining(t)
    ensures t.kind == s.kind + [Special(false)] && t.queue == s.queue && t.driver == {}
    ensures CurSeq(s.ordseq + {DRAIN}) != DONE ==> Running(t) && t.orig == s.orig && t.ordseq == s.ordseq + {DRAIN}
    ensures CurSeq(s.ordseq + {DRAIN}) == DONE ==> s.orig in t.ended
  {
    hide Sane, Inv, Coloured, Stuck, Complete, Fetch, SubmitFront, ReqSeq, CurSeq, Bit, Runs;
    var x := |s.kind|;
    var s1 := SubmitFront(s, false);
    StepSane(s, AddFront(false), s1);
    StuckDrain(s);
    SaneInv(s);
    SaneInv(s1);
    CommandTaken(s, s1);
    var s2 := Fetch(s1);
    StepSane(s1, FetchHead, s2);
    t := Complete(s2, x, 0);
    StepSane(s2, End(x, 0), t);
    SaneInv(s2);
    CommandCloses(s, s2, t);
    acts := [AddFront(false), FetchHead, End(x, 0)];
    RunsThree(s, AddFront(false), s1, FetchHead, s2, End(x, 0), t);
  }

  lemma SaneInv(s: State)
    requires Sane(s)
    ensures Inv(s)
  {
  }

  lemma OrigIsOld(s: State)
    requires Inv(s) && Running(s)
    ensures IsBarrier(s, s.orig)
  {
  }

  lemma SubmittedStage(s: State)
    ensures ReqSeq(SubmitFront(s, false), |s.kind|) == DRAIN
  {
  }

  lemma RunsThree(s: State, a: Action, s1: State, b: Action, s2: State, c: Action, t: State)
    requires Enabled(s, a) && s1 == Apply(s, a) && Enabled(s1, b) && s2 == Apply(s1, b) && Enabled(s2, c) && t == Apply(s2, c)
    ensures Runs(s, [a, b, c], t)
  {
    hide Apply, Enabled;
    assert Runs(s2, [c], t) by { assert [c][1..] == []; }
    assert Runs(s1, [b, c], t) by { assert [b, c][1..] == [c]; }
    assert [a, b, c][1..] == [b, c];
  }

  lemma StuckDrain(s: State)
    requires Sane(s) && Stuck(s)
    ensures Draining(s) && s.driver == {} && (s.queue == [] || Bit(ReqSeq(s, s.queue[0])) > Bit(DRAIN))
  {
    StuckIff(s);
  }

  lemma CommandTaken(s: State, s1: State)
    requires Inv(s) && Draining(s) && s.driver == {} && Live(s) && s1 == SubmitFront(s, false) && Inv(s1)
    ensures s1.queue != []
    ensures var s2 := Fetch(s1);
            && s2.driver == {|s.kind|} && s2.kind == s.kind + [Special(false)] && s.color <= s2.color && s2.begun == s.begun
            && s2.queue == s.queue && s2.ordseq == s.ordseq && s2.orig == s.orig && s2.orig !in s2.started
  {
    hide Inv, Fetch, Peek;
    SubmittedStage(s);
    assert s1.queue[1..] == s.queue;
    OrigIsOld(s);
    DrainHeadGoes(s1);
  }

  lemma CommandCloses(s: State, s2: State, t: State)
    requires Inv(s) && Draining(s) && s.driver == {} && (s.queue == [] || Bit(ReqSeq(s, s.queue[0])) > Bit(DRAIN))
    requires Inv(s2) && s2.driver == {|s.kind|} && s2.kind == s.kind + [Special(false)] && s.color <= s2.color
    requires s2.queue == s.queue && s2.ordseq == s.ordseq && s2.orig == s.orig && s2.orig !in s2.started
    requires t == Complete(s2, |s.kind|, 0)
    ensures !Draining(t) && t.begun == s2.begun && t.kind == s2.kind && t.queue == s.queue && t.driver == {}
    ensures CurSeq(s.ordseq + {DRAIN}) != DONE ==> Running(t) && t.orig == s.orig && t.ordseq == s.ordseq + {DRAIN}
    ensures CurSeq(s.ordseq + {DRAIN}) == DONE ==> s.orig in t.ended
  {
    hide CompleteSeq, Complete;
    var u := Release(s2, |s.kind|, 0);
    CompleteShape(s2, |s.kind|, 0);
    ReleaseInv(s2, |s.kind|, 0);
    assert Accounted(u) == {};
    if s.queue != [] { QueuedIsKnown(s, 0); assert ReqSeq(u, u.queue[0]) == ReqSeq(s, s.queue[0]); }
    CompleteSeqFrame(u, {DRAIN}, 0, CompleteSeq(u, {DRAIN}, 0));
    StaysOpen(u, {DRAIN});
  }

  lemma StaysOpen(u: State, c: set<Stage>)
    requires c != {}
    ensures CurSeq(u.ordseq + c) != DONE ==> Running(CompleteSeq(u, c, 0))
    ensures CurSeq(u.ordseq + c) == DONE ==> u.orig in CompleteSeq(u, c, 0).ended
  {
    assert u.ordseq + c != {} by { var st :| st in c; assert st in u.ordseq + c; }
  }

  /** A step towards the end: complete what the driver holds, else hand out the head. */
  lemma StepToFinish(s: State) returns (a: Action)
    requires Sane(s) && Live(s) && Running(s) && !Stuck(s)
    ensures !Flagged(a) && Enabled(s, a) && Load(Apply(s, a)) < Load(s)
    ensures var t := Apply(s, a); t.begun == s.begun && Live(t) && (Running(t) ==> s.ordseq <= t.ordseq && t.orig == s.orig)
  {
    hide Inv, Coloured, Complete, Fetch;
    if s.driver == {} {
      a := FetchHead;
      FetchShrinks(s);
    } else {
      var r := SomeOf(s.driver);
      a := End(r, 0);
      CompleteBegun(s, r, 0, Complete(s, r, 0));
      CompleteShrinks(s, r);
    }
  }

  lemma PeekPicks(s: State)
    requires s.queue != [] && Running(s) && DoOrdered(s).pick != NOREQ
    ensures Peek(s).go && Peek(s).pick == s.queue[0]
  {
    hide StartOrdered, ReqSeq, CurSeq;
  }

  lemma FetchShrinks(s: State)
    requires Inv(s) && Live(s) && Running(s) && !Stuck(s) && s.driver == {}
    ensures s.queue != []
    ensures var t := Fetch(s); t.begun == s.begun && t.ordseq == s.ordseq && t.orig == s.orig && Load(t) < Load(s) && Live(t)
  {
    hide Inv, StartOrdered, ReqSeq, CurSeq, Peek;
    if s.queue != [] { QueuedIsKnown(s, 0); PeekQuiet(s, Peek(s).st); PeekPicks(s); }
    assert Fetch(s).driver == {s.queue[0]};
  }

  lemma CompleteShrinks(s: State, r: int)
    requires Inv(s) && r in s.driver
    ensures Load(Complete(s, r, 0)) < Load(s)
  {
    hide CompleteSeq;
    var u := Release(s, r, 0);
    if IsProxy(r) {
      ProxyClosesOwnStage(s, r, 0);
      CompleteSeqFrame(u, {ProxyStage(r)}, 0, CompleteSeq(u, {ProxyStage(r)}, 0));
    } else {
      CompleteShape(s, r, 0);
      CompleteSeqFrame(u, {DRAIN}, 0, CompleteSeq(u, {DRAIN}, 0));
    }
  }

  lemma {:induction false} RunsJoin(s: State, a: seq<Action>, t: State, b: seq<Action>, u: State)
    requires Runs(s, a, t) && Runs(t, b, u)
    ensures Runs(s, a + b, u)
    decreases |a|
  {
    if a == [] {
      assert a + b == b;
    } else {
      RunsJoin(Apply(s, a[0]), a[1..], t, b, u);
      assert (a + b)[1..] == a[1..] + b;
    }
  }

  /** The running sequence can be finished: by handing out and completing, and at a standstill by one
      more driver command. */
  lemma {:induction false} CanFinish(s: State) returns (acts: seq<Action>, t: State)
    requires Sane(s) && Live(s)
    ensures Unflagged(acts) && Runs(s, acts, t) && !Running(t) && t.begun == s.begun
    decreases Draining(s), Load(s)
  {
    hide Sane, Stuck, Apply, Enabled;
    if !Running(s) {
      acts, t := [], s;
    } else {
      var first, next;
      if Stuck(s) {
        StuckDrain(s);
        first, next := Unstick(s);
      } else {
        var a := StepToFinish(s);
        first, next := [a], Apply(s, a);
        StepSane(s, a, next);
        assert first[1..] == [];
      }
      var rest;
      rest, t := CanFinish(next);
      RunsJoin(s, first, next, rest, t);
      acts := first + rest;
    }
  }

  // ----- the one that cannot -----

  /** The sequence of `b` waits for the requests in flight, and `b` is counted among them. */
  ghost predicate WaitsForItself(s: State, b: int) { Draining(s) && s.orig == b && b in s.started }

  /** Whatever happens next, it goes on waiting. */
  lemma StepWaits(s: State, a: Action, t: State, b: int)
    requires Inv(s) && WaitsForItself(s, b) && Enabled(s, a) && t == Apply(s, a)
    ensures WaitsForItself(t, b)
  {
    hide Inv, Requeue, Complete, Peek;
    match a
    case PeekHead => PeekWaits(s, t, b);
    case FetchHead => PeekWaits(s, Peek(s).st, b);
    case End(r, e) => CompleteWaits(s, r, e, t, b);
    case PutBack(r) => HeldIsNotOrig(s, r); RequeueShape(s, r);
    case AddFront(hard) => OrigIsOld(s);
    case _ =>
  }

  lemma PeekWaits(s: State, t: State, b: int)
    requires WaitsForItself(s, b) && s.queue != [] && t == Peek(s).st
    ensures WaitsForItself(t, b)
  {
    hide Peek;
    PeekQuiet(s, t);
    PeekMarks(s);
  }

  lemma PeekMarks(s: State)
    requires s.queue != [] && Running(s)
    ensures s.started <= Peek(s).st.started
  {
    hide ReqSeq, CurSeq, IsFs, IsBarrier, StartOrdered;
  }

  lemma CompleteWaits(s: State, r: int, e: int, t: State, b: int)
    requires Inv(s) && WaitsForItself(s, b) && r in s.driver && t == Complete(s, r, e)
    ensures WaitsForItself(t, b)
  {
    hide CompleteSeq;
    DrainingMode(s);
    OrigIsOld(s);
    CompleteShape(s, r, e);
    ReleaseInv(s, r, e);
    assert Account(Release(s, r, e), b) == 1;
  }

  lemma {:induction false} WaitsForever(s: State, acts: seq<Action>, t: State, b: int)
    requires Inv(s) && WaitsForItself(s, b) && Runs(s, acts, t)
    ensures WaitsForItself(t, b)
    decreases |acts|
  {
    hide Inv, WaitsForItself, Apply, Enabled;
    if acts != [] {
      StepInv(s, acts[0]);
      StepWaits(s, acts[0], Apply(s, acts[0]), b);
      WaitsForever(Apply(s, acts[0]), acts[1..], t, b);
    }
  }

  /** Some run ends the sequence of `s`. */
  ghost predicate CanEnd(s: State) { exists acts, t :: Runs(s, acts, t) && !Running(t) }

  /** Whatever is submitted, a running sequence can be ended exactly if it does not wait for itself. */
  lemma CanEndIff(s: State)
    requires Sane(s) && Running(s)
    ensures CanEnd(s) <==> !WaitsForItself(s, s.orig)
  {
    hide Sane, Runs;
    SaneInv(s);
    if WaitsForItself(s, s.orig) {
      forall acts, t | Runs(s, acts, t) ensures Running(t) { WaitsForever(s, acts, t, s.orig); }
    } else {
      var acts, t := CanFinish(s);
    }
  }
}
