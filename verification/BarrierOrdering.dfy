/** Ordering by draining: what passes a barrier, for queues whose driver asked for that order. */
module BarrierOrdering {
  import opened Barrier
  import opened BarrierInvariants
  import opened BarrierColours
  import opened BarrierDraining

  /** Every plain request of an epoch below the floor has ended. */
  ghost function Floor(s: State): int { if Draining(s) then s.begun - 1 else s.begun }

  ghost predicate OrderOk(s: State, r: int)
    requires |s.kind| == |s.epoch|
  {
    && (IsPlain(s, r) && s.epoch[r] < Floor(s) ==> r in s.ended)
    && (IsProxy(r) && r in s.driver ==> ProxyStage(r) == CurSeq(s.ordseq))
  }

  ghost predicate AllOrdered(s: State) {
    && |s.kind| == |s.epoch|
    && s.nextOrdered.byDrain && !s.warned
    && (forall r :: OrderOk(s, r))
  }

  ghost predicate Ordered(s: State) { AllOrdered(s) == true }

  ghost predicate OrderedInv(s: State) { ColouredInv(s) && Ordered(s) && Progress(s) }

  lemma InitOrdered(m: Mode)
    requires Supported(m) && m.byDrain
    ensures OrderedInv(Init(m))
  {
    InitColoured(m);
  }

  lemma DrainMode(s: State)
    requires Inv(s) && Ordered(s) && Running(s)
    ensures s.ordered.byDrain && !s.ordered.byTag
  {
  }

  /** Nothing but what is queued, sorted or marked changes. */
  lemma OrderedFrame(s: State, t: State)
    requires Ordered(s) && s.kind <= t.kind && s.epoch <= t.epoch && |t.kind| == |t.epoch|
    requires t.nextOrdered == s.nextOrdered && t.warned == s.warned && t.begun == s.begun && t.ordseq == s.ordseq
    requires t.ended == s.ended && t.driver <= s.driver
    requires forall r :: |s.kind| <= r < |t.kind| ==> Floor(s) <= t.epoch[r]
    ensures Ordered(t)
  {
    forall r ensures OrderOk(t, r) { assert OrderOk(s, r); }
  }

  /** What the driver holds, in drain order: plain requests of the open epoch, or the running proxy. */
  lemma HeldIsCurrent(s: State, r: int)
    requires ColouredInv(s) && Ordered(s) && r in s.driver
    ensures IsPlain(s, r) ==> s.epoch[r] == Floor(s) == Ceiling(s) && (Running(s) ==> ReqSeq(s, r) == DRAIN)
    ensures IsProxy(r) ==> Running(s) && DRAIN in s.ordseq && ProxyStage(r) == CurSeq(s.ordseq)
  {
    assert OrderOk(s, r) && RequestOk(s, {}, r) && ColourOk(s, r);
    if Running(s) {
      DrainMode(s);
      if IsPlain(s, r) { StageOfEpoch(s, r); }
    }
  }

  /** So no drain waits for a request of the other colour. */
  lemma DrainsMatch(s: State)
    requires ColouredInv(s) && Ordered(s)
    ensures Matching(s)
  {
    if Draining(s) {
      forall r | r in s.driver && IsPlain(s, r) ensures ReqSeq(s, r) == DRAIN { HeldIsCurrent(s, r); }
    }
  }

  // ----- the sequence -----

  /** Everything submitted before the running barrier has ended. */
  ghost predicate Drained(s: State)
    requires |s.kind| == |s.epoch|
  {
    forall r :: IsPlain(s, r) && s.epoch[r] < s.begun ==> r in s.ended
  }

  /** Closing stages: the drain stage only once everything before the barrier has ended, and no
      proxy at the driver but that of the stage that becomes the current one. */
  ghost predicate MayClose(s: State, c: set<Stage>)
    requires |s.kind| == |s.epoch|
  {
    && Running(s)
    && (DRAIN in s.ordseq + c ==> Drained(s))
    && (forall r :: IsProxy(r) && r in s.driver ==> ProxyStage(r) == CurSeq(s.ordseq + c))
  }

  lemma CloseOrder(s: State, c: set<Stage>, e: int, r: int)
    requires Ordered(s) && MayClose(s, c)
    ensures OrderOk(CompleteSeq(s, c, e), r)
  {
    assert OrderOk(s, r);
  }

  lemma CloseOrdered(s: State, c: set<Stage>, e: int, t: State)
    requires Ordered(s) && MayClose(s, c) && t == CompleteSeq(s, c, e)
    ensures Ordered(t)
  {
    hide OrderOk;
    forall r ensures OrderOk(t, r) { CloseOrder(s, c, e, r); }
  }

  /** With the next barrier at the head, everything before it is at the driver or has ended. */
  lemma HeadBarrierDrained(s: State, r: int)
    requires ColouredInv(s) && AtBarrier(s) && IsPlain(s, r) && s.epoch[r] <= s.begun && r !in s.driver
    ensures r in s.ended
  {
    assert RequestOk(s, {}, r);
    if r !in s.issued { IssuedBefore(s, r); }
    if Queued(s, r) {
      assert r in multiset(s.queue);
      var i :| 0 <= i < |s.queue| && s.queue[i] == r;
      assert i > 0;
      NothingStaged(s, i);
    }
  }

  lemma QueueSequenceOrdered(s: State, u: State)
    requires ColouredInv(s) && Ordered(s) && AtBarrier(s) && u == QueueSequence(s, s.queue[0])
    ensures Ordered(u) && u.ordseq == {STARTED} && u.inFlight == s.inFlight
    ensures u.driver == s.driver && u.ended == s.ended && u.begun == s.begun + 1 && u.kind == s.kind && u.epoch == s.epoch
  {
    QueueSequenceShape(s);
    StashKeeps(s, u);
    forall r ensures OrderOk(u, r) { assert OrderOk(s, r) && RequestOk(s, {}, r); }
  }

  lemma StartMayClose(s: State, u: State)
    requires ColouredInv(s) && Ordered(s) && AtBarrier(s) && u == QueueSequence(s, s.queue[0])
    requires |u.kind| == |u.epoch|
    ensures MayClose(u, Skipped(u.ordered, u.ordered.byDrain && u.inFlight != 0))
  {
    QueueSequenceOrdered(s, u);
    QueueSequenceShape(s);
    SkippedDrain(u.ordered, u.ordered.byDrain && u.inFlight != 0);
    if u.inFlight == 0 {
      forall r | IsPlain(u, r) && u.epoch[r] < u.begun ensures r in u.ended {
        IdleDriver(s, r);
        HeadBarrierDrained(s, r);
      }
    }
    forall r | IsProxy(r) ensures r !in u.driver { assert RequestOk(s, {}, r); }
    assert u.ordered.byDrain;
  }

  lemma StartOrderKept(s: State, t: State)
    requires ColouredInv(s) && Ordered(s) && AtBarrier(s) && t == StartOrdered(s, s.queue[0]).st
    ensures Ordered(t)
  {
    hide Inv, Coloured, CompleteSeq, QueueSequence, MayClose;
    var u := QueueSequence(s, s.queue[0]);
    StartOrderedShape(s, u);
    QueueSequenceOrdered(s, u);
    StartMayClose(s, u);
    CloseOrdered(u, Skipped(u.ordered, u.ordered.byDrain && u.inFlight != 0), 0, t);
  }

  // ----- taking the head -----

  /** The head never belongs to a stage that is already over: the WARN_ON does not fire. */
  lemma HeadNotLate(s: State)
    requires ColouredInv(s) && Ordered(s) && s.queue != [] && Running(s) && !IsSpecial(s, s.queue[0])
    ensures Bit(ReqSeq(s, s.queue[0])) >= Bit(CurSeq(s.ordseq))
  {
    var r := s.queue[0];
    assert r in multiset(s.queue);
    assert RequestOk(s, {}, r) && OrderOk(s, r) && ColourOk(s, r);
    DrainMode(s);
    if IsFsTicket(s, r) && ReqSeq(s, r) != DONE { DrainHeadIssued(s); }
  }

  /** In drain order a proxy is handed out only in its own stage. */
  ghost predicate InTurn(s: State, r: int) { IsProxy(r) ==> ProxyStage(r) == CurSeq(s.ordseq) }

  lemma DoOrderedKeeps(s: State, t: State)
    requires ColouredInv(s) && Ordered(s) && s.queue != [] && t == DoOrdered(s).st
    ensures Ordered(t)
  {
    if !Running(s) && IsBarrier(s, s.queue[0]) {
      StartOrderKept(s, t);
    } else if Running(s) && !IsSpecial(s, s.queue[0]) {
      HeadNotLate(s);
      DrainMode(s);
      assert t == s;
    }
  }

  lemma TurnInSequence(s: State)
    requires ColouredInv(s) && Ordered(s) && s.queue != [] && Running(s)
    ensures var v := DoOrdered(s); v.pick != NOREQ ==> InTurn(v.st, v.pick)
  {
    var r := s.queue[0];
    assert r in multiset(s.queue);
    assert RequestOk(s, {}, r);
    DrainMode(s);
    if !IsSpecial(s, r) { HeadNotLate(s); }
  }

  /** With nothing to drain, the first proxy queued is that of the current stage. */
  lemma FirstTurn(m: Mode)
    requires m.doPre || m.doBar || m.doPost
    ensures CurSeq({STARTED} + Skipped(m, false)) ==
            ProxyStage(if m.doPre then PRE else if m.doBar then BARRQ else POST)
  {
  }

  lemma TurnAfterSkip(u: State)
    requires u.ordseq == {STARTED}
    ensures var v := FinishStart(u); v.go && v.pick != NOREQ ==> InTurn(v.st, v.pick)
  {
    if FinishStart(u).pick != NOREQ { FirstTurn(u.ordered); }
  }

  lemma TurnOfPick(s: State)
    requires ColouredInv(s) && Ordered(s) && s.queue != []
    ensures var v := DoOrdered(s); v.go && v.pick != NOREQ ==> InTurn(v.st, v.pick)
  {
    if Running(s) { TurnInSequence(s); }
    else if IsBarrier(s, s.queue[0]) {
      QueueSequenceShape(s);
      TurnAfterSkip(QueueSequence(s, s.queue[0]));
    } else {
      assert s.queue[0] in multiset(s.queue);
      assert RequestOk(s, {}, s.queue[0]);
    }
  }

  lemma PeekOrdered(s: State, v: Verdict)
    requires ColouredInv(s) && Ordered(s) && s.queue != [] && v == Peek(s)
    ensures Ordered(v.st)
    ensures v.go && v.pick != NOREQ ==> InTurn(v.st, v.pick)
  {
    hide Inv, Coloured, DoOrdered;
    var w := DoOrdered(s);
    DoOrderedKeeps(s, w.st);
    TurnOfPick(s);
    OrderedFrame(w.st, v.st);
  }

  lemma IssueOrdered(s: State, r: int, t: State)
    requires Ordered(s) && s.queue != [] && InTurn(s, r) && t == Issue(s, r)
    ensures Ordered(t)
  {
    forall x ensures OrderOk(t, x) { assert OrderOk(s, x); }
  }

  lemma FetchOrdered(s: State, t: State)
    requires ColouredInv(s) && Ordered(s) && s.queue != [] && t == Fetch(s)
    ensures Ordered(t)
  {
    hide Inv, Coloured, Peek;
    var v := Peek(s);
    PeekOrdered(s, v);
    if v.go && v.pick != NOREQ && v.st.queue != [] { IssueOrdered(v.st, v.pick, t); }
  }

  // ----- completion and requeueing -----

  /** Nothing in flight and no drain-stage request at the head: everything before the barrier ended. */
  lemma DrainDone(s: State, r: int)
    requires ColouredInv(s) && Ordered(s) && Draining(s) && s.inFlight == 0 && IsPlain(s, r) && s.epoch[r] < s.begun
    requires s.queue == [] || Bit(ReqSeq(s, s.queue[0])) > Bit(DRAIN)
    ensures r in s.ended
  {
    assert RequestOk(s, {}, r) && OrderOk(s, r) && ColourOk(s, r) && RequestOk(s, {}, s.orig);
    IdleDriver(s, r);
    if Queued(s, r) {
      assert r in multiset(s.queue);
      var i :| 0 <= i < |s.queue| && s.queue[i] == r;
      StageOfEpoch(s, r);
      DrainStageFirst(s, i);
    }
  }

  lemma DrainMayClose(s: State)
    requires ColouredInv(s) && Ordered(s) && Draining(s) && s.inFlight == 0
    requires s.queue == [] || Bit(ReqSeq(s, s.queue[0])) > Bit(DRAIN)
    ensures MayClose(s, {DRAIN})
  {
    forall r | IsPlain(s, r) && s.epoch[r] < s.begun ensures r in s.ended { DrainDone(s, r); }
    forall r | IsProxy(r) ensures r !in s.driver { assert RequestOk(s, {}, r); }
  }

  lemma CheckDrainedOrdered(s: State, t: State)
    requires ColouredInv(s) && Ordered(s) && t == CheckDrained(s)
    ensures Ordered(t)
  {
    hide Inv, Coloured, CompleteSeq, MayClose, Ordered, ReqSeq;
    if t != s {
      DrainMayClose(s);
      CloseOrdered(s, {DRAIN}, 0, t);
    }
  }

  lemma ProxyMayClose(s: State, r: int, e: int, u: State)
    requires ColouredInv(s) && Ordered(s) && r in s.driver && IsProxy(r) && u == Release(s, r, e)
    requires |u.kind| == |u.epoch|
    ensures MayClose(u, {ProxyStage(r)})
  {
    hide CompleteSeq, Complete;
    ProxyClosesOwnStage(s, r, e);
    assert OrderOk(s, r);
    forall x | IsPlain(u, x) && u.epoch[x] < u.begun ensures x in u.ended { assert OrderOk(s, x); }
    forall x | IsProxy(x) ensures x !in u.driver { assert OrderOk(s, x); }
  }

  lemma ReleaseOrdered(s: State, r: int, e: int, u: State)
    requires ColouredInv(s) && Ordered(s) && r in s.driver && u == Release(s, r, e)
    ensures Ordered(u) && Coloured(u) && (!IsProxy(r) ==> Inv(u))
  {
    hide OrderOk;
    ReleaseInv(s, r, e);
    ColouredFrame(s, u);
    forall x ensures OrderOk(u, x) { ReleaseOrder(s, r, e, x); }
  }

  lemma ReleaseOrder(s: State, r: int, e: int, x: int)
    requires Ordered(s)
    ensures OrderOk(Release(s, r, e), x)
  {
    assert OrderOk(s, x);
  }

  lemma CompleteOrdered(s: State, r: int, e: int, t: State)
    requires ColouredInv(s) && Ordered(s) && r in s.driver && t == Complete(s, r, e)
    ensures Ordered(t)
  {
    hide Inv, Coloured, Complete, CompleteSeq, CheckDrained, MayClose;
    var u := Release(s, r, e);
    ReleaseOrdered(s, r, e, u);
    if IsProxy(r) {
      ProxyClosesOwnStage(s, r, e);
      ProxyMayClose(s, r, e, u);
      CloseOrdered(u, {ProxyStage(r)}, e, t);
    } else {
      CompleteShape(s, r, e);
      CheckDrainedOrdered(u, t);
    }
  }

  // ----- every step, every run -----

  lemma SubmitOrdered(s: State, t: State)
    requires ColouredInv(s) && Ordered(s) && (t == SubmitSorted(s) || t == SubmitFront(s, false) || exists k :: t == SubmitBack(s, k))
    ensures Ordered(t)
  {
    OrderedFrame(s, t);
  }

  lemma StepOrdered(s: State, a: Action, t: State)
    requires OrderedInv(s) && !Flagged(a) && Enabled(s, a) && t == Apply(s, a)
    ensures OrderedInv(t)
  {
    hide Inv, Coloured, Progress, Complete, Peek, Fetch;
    StepColoured(s, a, t);
    DrainsMatch(s);
    StepProgress(s, a, t);
    match a
    case AddSort => SubmitOrdered(s, t);
    case AddBack(k) => SubmitOrdered(s, t);
    case AddFront(hard) => SubmitOrdered(s, t);
    case Dispatch(r, p) => OrderedFrame(s, t);
    case PeekHead => PeekOrdered(s, Peek(s));
    case FetchHead => FetchOrdered(s, t);
    case End(r, e) => CompleteOrdered(s, r, e, t);
    case PutBack(r) => OrderedFrame(s, t);
    case BarError(e) => OrderedFrame(s, t);
  }

  lemma {:induction false} RunOrdered(s: State, acts: seq<Action>, t: State)
    requires OrderedInv(s) && Runs(s, acts, t) && Unflagged(acts)
    ensures OrderedInv(t)
    decreases |acts|
  {
    hide OrderedInv, Apply, Enabled;
    if acts != [] {
      StepOrdered(s, acts[0], Apply(s, acts[0]));
      RunOrdered(Apply(s, acts[0]), acts[1..], t);
    }
  }
}
