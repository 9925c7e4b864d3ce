/** What the colours of requests stand for, in every ordering mode, as long as only filesystem
    requests carry REQ_HARDBARRIER. */
module BarrierColours {
  import opened Barrier
  import opened BarrierInvariants

  /** No plain request of an epoch above the ceiling has ever been issued. */
  ghost function Ceiling(s: State): int { if Running(s) && s.ordered.byDrain then s.begun - 1 else s.begun }

  /** Colours alternate with barriers; barriers are never handed out themselves; what is not yet
      issued belongs to an epoch whose barrier has not begun. */
  ghost predicate ColourOk(s: State, r: int)
    requires |s.color| == |s.kind| == |s.epoch|
  {
    IsTicket(s, r) ==>
      && s.color[r] == (s.epoch[r] % 2 == 1) && s.kind[r] != Special(true)
      && (IsBarrier(s, r) ==> r !in s.started && r !in s.issued && (Queued(s, r) <==> s.begun <= s.epoch[r]))
      && (r in s.sorted ==> s.epoch[r] == |s.barriers|)
      && (IsPlain(s, r) && r !in s.issued ==> s.begun <= s.epoch[r])
      && (IsPlain(s, r) && r in s.issued ==> s.epoch[r] <= Ceiling(s) && (Queued(s, r) ==> r in s.soft))
  }

  ghost predicate IsFsTicket(s: State, r: int) { IsPlain(s, r) || IsBarrier(s, r) }

  /** Where a filesystem request stands in the dispatch queue: what was requeued first, then epoch by
      epoch, each closed by its barrier. */
  ghost function Place(s: State, r: int): int
    requires |s.kind| == |s.epoch|
  {
    if !IsFsTicket(s, r) || r in s.issued then -1 else 2 * s.epoch[r] + if IsBarrier(s, r) then 1 else 0
  }

  /** A proxy, or a request put back after it was issued. */
  ghost predicate Staged(s: State, r: int) { IsProxy(r) || (IsPlain(s, r) && r in s.issued) }

  /** `a` may stand before `b`: by their places, and while a sequence runs by their stages. */
  ghost predicate InPlace(s: State, a: int, b: int)
    requires |s.kind| == |s.epoch|
  {
    && (IsFsTicket(s, a) && IsFsTicket(s, b) ==> Place(s, a) <= Place(s, b))
    && (Running(s) && Staged(s, a) && Staged(s, b) ==> Bit(ReqSeq(s, a)) <= Bit(ReqSeq(s, b)))
  }

  ghost predicate Placed(s: State)
    requires |s.kind| == |s.epoch|
  {
    forall i, j :: 0 <= i < j < |s.queue| ==> InPlace(s, s.queue[i], s.queue[j])
  }

  ghost predicate AllColoured(s: State) {
    && |s.color| == |s.kind| == |s.epoch|
    && s.ordcolor == (|s.barriers| % 2 == 1)
    && s.begun <= |s.barriers|
    && (Running(s) ==> 0 < s.begun && s.orig == s.barriers[s.begun - 1])
    && (forall r :: ColourOk(s, r))
    && Placed(s)
  }

  /** Stated as an equation so that the verifier treats the invariant as one fact. */
  ghost predicate Coloured(s: State) { AllColoured(s) == true }

  ghost predicate ColouredInv(s: State) { Inv(s) && Coloured(s) }

  lemma InitColoured(m: Mode)
    requires Supported(m)
    ensures ColouredInv(Init(m))
  {
  }

  // ----- what unchanged parts keep -----

  ghost predicate SameLog(s: State, t: State) {
    && t.kind == s.kind && t.color == s.color && t.epoch == s.epoch && t.barriers == s.barriers
    && t.ordcolor == s.ordcolor
  }

  /** Nothing but the driver, the sequence's stages and the results changes. */
  lemma ColouredFrame(s: State, t: State)
    requires Coloured(s) && SameLog(s, t) && t.begun == s.begun && Ceiling(s) <= Ceiling(t)
    requires t.queue == s.queue && t.sorted == s.sorted && t.soft == s.soft && t.issued == s.issued
    requires t.started == s.started && (Running(t) ==> Running(s) && t.orig == s.orig)
    ensures Coloured(t)
  {
    forall r ensures ColourOk(t, r) { assert ColourOk(s, r); }
    forall i, j | 0 <= i < j < |t.queue| ensures InPlace(t, t.queue[i], t.queue[j]) {
      assert InPlace(s, s.queue[i], s.queue[j]);
    }
  }

  lemma StageFrame(s: State, t: State, r: int)
    requires t.kind == s.kind && t.color == s.color && t.orig == s.orig
    ensures ReqSeq(t, r) == ReqSeq(s, r)
  {
  }

  lemma InsertPlaced(s: State, t: State, p: nat, x: int)
    requires p <= |s.queue| && t.queue == InsertAt(s.queue, p, x) && |t.kind| == |t.epoch|
    requires forall i, j :: 0 <= i < j < |s.queue| ==> InPlace(t, s.queue[i], s.queue[j])
    requires forall i :: 0 <= i < p ==> InPlace(t, s.queue[i], x)
    requires forall i :: p <= i < |s.queue| ==> InPlace(t, x, s.queue[i])
    ensures Placed(t)
  {
    forall i, j | 0 <= i < j < |t.queue| ensures InPlace(t, t.queue[i], t.queue[j]) {
      var i' := if i < p then i else i - 1;
      var j' := if j < p then j else j - 1;
      assert i != p ==> t.queue[i] == s.queue[i'];
      assert j != p ==> t.queue[j] == s.queue[j'];
    }
  }

  // ----- the queue -----

  /** Barrier number `e`, not yet begun, is queued. */
  lemma BarrierQueued(s: State, e: nat) returns (j: nat)
    requires ColouredInv(s) && s.begun <= e < |s.barriers|
    ensures j < |s.queue| && IsBarrier(s, s.queue[j]) && s.queue[j] == s.barriers[e] && s.epoch[s.queue[j]] == e
    ensures s.queue[j] in s.soft && Place(s, s.queue[j]) == 2 * e + 1
  {
    assert BarrierOk(s, e);
    var b := s.barriers[e];
    assert RequestOk(s, {}, b) && ColourOk(s, b);
    assert b in multiset(s.queue);
    j :| 0 <= j < |s.queue| && s.queue[j] == b;
  }

  /** Of two queued filesystem requests the one of lower place stands first. */
  lemma PlaceOrder(s: State, i: int, j: int)
    requires Coloured(s) && 0 <= i < |s.queue| && 0 <= j < |s.queue|
    requires IsFsTicket(s, s.queue[i]) && IsFsTicket(s, s.queue[j])
    ensures Place(s, s.queue[i]) < Place(s, s.queue[j]) ==> i < j
  {
    if j < i { assert InPlace(s, s.queue[j], s.queue[i]); }
  }

  lemma PlaceBound(s: State, r: int)
    requires ColouredInv(s)
    ensures Place(s, r) <= 2 * |s.barriers|
  {
    assert TicketOk(s, r);
  }

  /** Filesystem requests still to be issued are of the current epoch or a later one. */
  lemma WaitingEpoch(s: State, i: int)
    requires ColouredInv(s) && 0 <= i < |s.queue| && IsFsTicket(s, s.queue[i]) && s.queue[i] !in s.issued
    ensures s.begun <= s.epoch[s.queue[i]] <= |s.barriers|
  {
    assert s.queue[i] in multiset(s.queue);
    assert ColourOk(s, s.queue[i]) && TicketOk(s, s.queue[i]);
  }

  /** The first filesystem request still to be issued is of the current epoch. */
  lemma FirstWaiting(s: State, i: nat) returns (j: nat)
    requires ColouredInv(s) && i < |s.queue| && IsFsTicket(s, s.queue[i]) && s.queue[i] !in s.issued
    ensures j <= i && IsFsTicket(s, s.queue[j]) && s.queue[j] !in s.issued && s.epoch[s.queue[j]] == s.begun
  {
    WaitingEpoch(s, i);
    if s.epoch[s.queue[i]] == s.begun {
      j := i;
    } else {
      j := BarrierQueued(s, s.begun);
      assert ColourOk(s, s.queue[j]);
      PlaceOrder(s, j, i);
    }
  }

  /** The barrier at the head of the queue is the next one in submission order. */
  lemma HeadBarrier(s: State)
    requires ColouredInv(s) && s.queue != [] && IsBarrier(s, s.queue[0])
    ensures s.begun < |s.barriers| && s.queue[0] == s.barriers[s.begun] && s.epoch[s.queue[0]] == s.begun
  {
    assert ColourOk(s, s.queue[0]) && TicketOk(s, s.queue[0]);
    var j := FirstWaiting(s, 0);
  }

  /** Relative to the running barrier, a request still to be issued shows the other colour only if it
      is of the epoch after the barrier. */
  lemma StageOfEpoch(s: State, r: int)
    requires ColouredInv(s) && Running(s) && IsFsTicket(s, r)
    ensures s.epoch[r] == s.begun - 1 ==> ReqSeq(s, r) == DRAIN
    ensures s.epoch[r] == s.begun ==> ReqSeq(s, r) == DONE
  {
    assert BarrierOk(s, s.begun - 1);
    assert ColourOk(s, r) && ColourOk(s, s.orig);
  }

  /** What is let through while a sequence drains was issued before. */
  lemma DrainHeadIssued(s: State)
    requires ColouredInv(s) && Running(s) && s.queue != [] && IsFsTicket(s, s.queue[0]) && ReqSeq(s, s.queue[0]) != DONE
    ensures IsPlain(s, s.queue[0]) && s.queue[0] in s.issued && s.queue[0] in s.soft
  {
    assert s.queue[0] in multiset(s.queue);
    assert ColourOk(s, s.queue[0]);
    if s.queue[0] !in s.issued {
      var j := FirstWaiting(s, 0);
      StageOfEpoch(s, s.queue[0]);
    }
  }

  // ----- submission and dispatch -----

  lemma NotYetSubmitted(s: State)
    requires Inv(s)
    ensures |s.kind| !in s.issued && |s.kind| !in s.started && |s.kind| !in s.sorted && |s.kind| !in s.queue
  {
    assert RequestOk(s, {}, |s.kind|);
    assert |s.kind| in s.queue ==> |s.kind| in multiset(s.queue);
  }

  /** Submitting does not change the stage of what is queued or with the driver. */
  lemma SubmitStage(s: State, k: Kind, r: int)
    requires Inv(s) && (IsTicket(s, r) || IsProxy(r))
    ensures ReqSeq(Submit(s, k), r) == ReqSeq(s, r)
  {
  }

  lemma SubmitPlaces(s: State, k: Kind, i: int, j: int)
    requires ColouredInv(s) && 0 <= i < j < |s.queue|
    ensures InPlace(Submit(s, k), s.queue[i], s.queue[j])
  {
    QueuedIsKnown(s, i); QueuedIsKnown(s, j);
    hide Inv, ColourOk, ReqSeq;
    assert InPlace(s, s.queue[i], s.queue[j]);
    SubmitStage(s, k, s.queue[i]);
    SubmitStage(s, k, s.queue[j]);
  }

  lemma SubmitSortedColoured(s: State, t: State)
    requires ColouredInv(s) && t == SubmitSorted(s)
    ensures Coloured(t)
  {
    NotYetSubmitted(s);
    forall r ensures ColourOk(t, r) { assert ColourOk(s, r); }
    forall i, j | 0 <= i < j < |t.queue| ensures InPlace(t, t.queue[i], t.queue[j]) { SubmitPlaces(s, Plain, i, j); }
  }

  lemma SubmitBackColour(s: State, k: Kind, r: int)
    requires ColouredInv(s) && s.sorted == {} && k != Special(true)
    ensures ColourOk(SubmitBack(s, k), r)
  {
    NotYetSubmitted(s);
    assert ColourOk(s, r);
  }

  /** The scheduler is drained first, so everything submitted earlier is already in the queue. */
  lemma SubmitBackColoured(s: State, k: Kind, t: State)
    requires ColouredInv(s) && s.sorted == {} && k != Special(true) && t == SubmitBack(s, k)
    ensures Coloured(t)
  {
    hide Inv, ColourOk;
    forall r ensures ColourOk(t, r) { SubmitBackColour(s, k, r); }
    forall i, j | 0 <= i < j < |t.queue| ensures InPlace(t, t.queue[i], t.queue[j]) {
      NotYetSubmitted(s);
      QueuedIsKnown(s, i);
      if j < |s.queue| { SubmitPlaces(s, k, i, j); } else { PlaceBound(s, s.queue[i]); }
    }
  }

  lemma SubmitFrontColour(s: State, r: int)
    requires ColouredInv(s)
    ensures ColourOk(SubmitFront(s, false), r)
  {
    NotYetSubmitted(s);
    InsertCounts(s.queue, 0, |s.kind|);
    assert SubmitFront(s, false).queue == InsertAt(s.queue, 0, |s.kind|);
    assert ColourOk(s, r);
  }

  lemma SubmitFrontColoured(s: State, t: State)
    requires ColouredInv(s) && t == SubmitFront(s, false)
    ensures Coloured(t)
  {
    hide ColourOk;
    assert t.queue == InsertAt(s.queue, 0, |s.kind|);
    forall r ensures ColourOk(t, r) { SubmitFrontColour(s, r); }
    forall i, j | 0 <= i < j < |t.queue| ensures InPlace(t, t.queue[i], t.queue[j]) {
      if 0 < i { SubmitPlaces(s, Special(false), i - 1, j - 1); }
    }
  }

  /** What the scheduler may place a request in front of is of the current epoch. */
  lemma BehindTheFlags(s: State, r: int, p: nat, i: int)
    requires ColouredInv(s) && MayMove(s, r, p) && p <= i < |s.queue|
    ensures IsPlain(s, s.queue[i]) && s.queue[i] !in s.issued && s.epoch[s.queue[i]] == |s.barriers|
  {
    var x := s.queue[i];
    assert x in multiset(s.queue);
    assert RequestOk(s, {}, x) && ColourOk(s, x);
    WaitingEpoch(s, i);
    if s.epoch[x] < |s.barriers| {
      var j := BarrierQueued(s, s.epoch[x]);
      PlaceOrder(s, i, j);
    }
  }

  lemma MovePlaced(s: State, r: int, p: nat, t: State)
    requires ColouredInv(s) && MayMove(s, r, p) && t == MoveToQueue(s, r, p)
    ensures Placed(t)
  {
    assert ColourOk(s, r) && RequestOk(s, {}, r);
    forall i | p <= i < |s.queue| ensures InPlace(t, r, s.queue[i]) { BehindTheFlags(s, r, p, i); }
    forall i | 0 <= i < p ensures InPlace(t, s.queue[i], r) { PlaceBound(s, s.queue[i]); }
    forall i, j | 0 <= i < j < |s.queue| ensures InPlace(t, s.queue[i], s.queue[j]) {
      assert InPlace(s, s.queue[i], s.queue[j]);
    }
    InsertPlaced(s, t, p, r);
  }

  lemma MoveColour(s: State, r: int, p: nat, x: int)
    requires ColouredInv(s) && MayMove(s, r, p)
    ensures ColourOk(MoveToQueue(s, r, p), x)
  {
    InsertCounts(s.queue, p, r);
    assert RequestOk(s, {}, r) && ColourOk(s, x);
  }

  lemma MoveColoured(s: State, r: int, p: nat, t: State)
    requires ColouredInv(s) && MayMove(s, r, p) && t == MoveToQueue(s, r, p)
    ensures Coloured(t)
  {
    hide Inv, ColourOk, Placed;
    forall x ensures ColourOk(t, x) { MoveColour(s, r, p, x); }
    MovePlaced(s, r, p, t);
  }

  // ----- the sequence -----

  /** With the next barrier at the head, everything submitted before it has been issued. */
  lemma IssuedBefore(s: State, r: int)
    requires ColouredInv(s) && AtBarrier(s) && IsPlain(s, r) && r !in s.issued
    ensures s.begun < s.epoch[r]
  {
    HeadBarrier(s);
    assert RequestOk(s, {}, r) && ColourOk(s, r) && ColourOk(s, s.queue[0]);
    if Queued(s, r) {
      assert r in multiset(s.queue);
      var i :| 0 <= i < |s.queue| && s.queue[i] == r;
      assert 0 < i ==> InPlace(s, s.queue[0], s.queue[i]);
    }
  }

  lemma DequeueColour(s: State, t: State, r: int)
    requires ColouredInv(s) && AtBarrier(s) && SameLog(s, t) && t.begun == s.begun + 1
    requires t.queue == s.queue[1..] && t.sorted == s.sorted && t.soft == s.soft && t.issued == s.issued
    requires t.started == s.started
    ensures ColourOk(t, r)
  {
    HeadBarrier(s);
    TailCounts(s.queue);
    assert ColourOk(s, r) && RequestOk(s, {}, s.queue[0]) && TicketOk(s, r);
    if IsPlain(s, r) && r !in s.issued { IssuedBefore(s, r); }
  }

  /** The head barrier leaves the queue, whether its sequence starts or it is refused. */
  lemma DequeueBarrier(s: State, t: State)
    requires ColouredInv(s) && AtBarrier(s) && SameLog(s, t) && t.begun == s.begun + 1
    requires t.queue == s.queue[1..] && t.sorted == s.sorted && t.soft == s.soft && t.issued == s.issued
    requires t.started == s.started && (Running(t) ==> t.orig == s.queue[0])
    ensures Coloured(t) && forall i :: 0 <= i < |t.queue| ==> !Staged(t, t.queue[i])
  {
    hide ColourOk;
    HeadBarrier(s);
    forall r ensures ColourOk(t, r) { DequeueColour(s, t, r); }
    forall i | 0 <= i < |t.queue| ensures !Staged(t, t.queue[i]) { NothingStaged(s, i + 1); }
    forall i, j | 0 <= i < j < |t.queue| ensures InPlace(t, t.queue[i], t.queue[j]) {
      assert InPlace(s, s.queue[i + 1], s.queue[j + 1]);
    }
  }

  /** Nothing that was put back stands behind a barrier. */
  lemma NothingStaged(s: State, i: nat)
    requires ColouredInv(s) && AtBarrier(s) && 0 < i < |s.queue|
    ensures !Staged(s, s.queue[i])
  {
    assert s.queue[i] in multiset(s.queue);
    assert RequestOk(s, {}, s.queue[i]) && ColourOk(s, s.queue[0]);
    assert InPlace(s, s.queue[0], s.queue[i]);
  }

  /** Of what has a stage only proxies after `p` are queued. */
  ghost predicate StagedAfter(s: State, p: int) {
    forall i :: 0 <= i < |s.queue| && Staged(s, s.queue[i]) ==> p < s.queue[i] <= POST
  }

  lemma PushColour(s: State, p: int, r: int)
    requires Coloured(s) && IsProxy(p)
    ensures ColourOk(PushFront(s, p), r)
  {
    InsertCounts(s.queue, 0, p);
    assert PushFront(s, p).queue == InsertAt(s.queue, 0, p);
    assert ColourOk(s, r);
  }

  lemma PushPlace(s: State, p: int, x: int, t: State)
    requires IsProxy(p) && t == PushFront(s, p) && |s.kind| == |s.epoch| && (Staged(s, x) ==> p < x <= POST)
    ensures InPlace(t, p, x)
  {
  }

  lemma PushKeepsPlace(s: State, p: int, a: int, b: int)
    requires |s.kind| == |s.epoch| && InPlace(s, a, b)
    ensures InPlace(PushFront(s, p), a, b)
  {
  }

  lemma PushIfColoured(s: State, p: int, on: bool)
    requires Coloured(s) && IsProxy(p) && StagedAfter(s, p)
    ensures Coloured(PushIf(s, p, on)) && StagedAfter(PushIf(s, p, on), p - 1)
  {
    hide ColourOk, ReqSeq;
    var t := PushIf(s, p, on);
    if on {
      assert t.queue == InsertAt(s.queue, 0, p);
      forall r ensures ColourOk(t, r) { PushColour(s, p, r); }
      forall i | 0 <= i < |s.queue| ensures InPlace(t, p, s.queue[i]) { PushPlace(s, p, s.queue[i], t); }
      forall i, j | 0 <= i < j < |s.queue| ensures InPlace(t, s.queue[i], s.queue[j]) {
        assert InPlace(s, s.queue[i], s.queue[j]);
        PushKeepsPlace(s, p, s.queue[i], s.queue[j]);
      }
      InsertPlaced(s, t, 0, p);
    }
  }

  lemma CloseColoured(s: State, c: set<Stage>, e: int)
    requires Coloured(s) && Running(s)
    ensures Coloured(CompleteSeq(s, c, e))
  {
    ColouredFrame(s, CompleteSeq(s, c, e));
  }

  lemma QueueSequenceColoured(s: State, u: State)
    requires ColouredInv(s) && AtBarrier(s) && u == QueueSequence(s, s.queue[0])
    ensures Coloured(u)
  {
    hide Coloured, PushIf, Staged;
    var s0 := StashBarrier(s, s.queue[0]);
    DequeueBarrier(s, s0);
    PushIfColoured(s0, POST, s0.ordered.doPost);
    var s1 := PushIf(s0, POST, s0.ordered.doPost);
    PushIfColoured(s1, BARRQ, s0.ordered.doBar);
    PushIfColoured(PushIf(s1, BARRQ, s0.ordered.doBar), PRE, s0.ordered.doPre);
  }

  lemma StartColoured(s: State, t: State)
    requires ColouredInv(s) && AtBarrier(s) && t == StartOrdered(s, s.queue[0]).st
    ensures Coloured(t)
  {
    hide Coloured, CompleteSeq;
    var u := QueueSequence(s, s.queue[0]);
    QueueSequenceColoured(s, u);
    StartOrderedShape(s, u);
    QueueSequenceShape(s);
    CloseColoured(u, Skipped(u.ordered, u.ordered.byDrain && u.inFlight != 0), 0);
  }

  // ----- taking the head -----

  lemma DoOrderedColoured(s: State, t: State)
    requires ColouredInv(s) && s.queue != [] && t == DoOrdered(s).st
    ensures Coloured(t)
  {
    if !Running(s) && IsBarrier(s, s.queue[0]) {
      if s.nextOrdered != ORDERED_NONE { StartColoured(s, t); } else { DequeueBarrier(s, t); }
    } else {
      ColouredFrame(s, t);
    }
  }

  /** What is offered is not a barrier itself, and nothing of an epoch above the ceiling. */
  ghost predicate MayOffer(s: State, r: int)
    requires |s.kind| == |s.epoch|
  {
    !IsBarrier(s, r) && (IsPlain(s, r) ==> s.epoch[r] <= Ceiling(s))
  }

  lemma OfferedInSequence(s: State)
    requires ColouredInv(s) && s.queue != [] && Running(s)
    ensures var v := DoOrdered(s); v.pick != NOREQ ==> v.st.kind == s.kind && v.st.epoch == s.epoch && MayOffer(v.st, v.pick)
  {
    var r := s.queue[0];
    assert ColourOk(s, r);
    if IsFsTicket(s, r) && r !in s.issued {
      var j := FirstWaiting(s, 0);
      StageOfEpoch(s, r);
    }
  }

  lemma OfferedWhenIdle(s: State)
    requires ColouredInv(s) && s.queue != [] && !Running(s) && !IsBarrier(s, s.queue[0])
    ensures MayOffer(s, s.queue[0])
  {
    var r := s.queue[0];
    assert ColourOk(s, r);
    if IsPlain(s, r) && r !in s.issued { var j := FirstWaiting(s, 0); }
  }

  lemma OfferedAtStart(s: State)
    requires AtBarrier(s)
    ensures var v := StartOrdered(s, s.queue[0]); v.pick != NOREQ ==> IsProxy(v.pick)
    ensures var v := StartOrdered(s, s.queue[0]); v.st.kind == s.kind && v.st.epoch == s.epoch
  {
    QueueSequenceShape(s);
  }

  lemma Offered(s: State)
    requires ColouredInv(s) && s.queue != []
    ensures var v := DoOrdered(s);
            v.go && v.pick != NOREQ ==> v.st.kind == s.kind && v.st.epoch == s.epoch && MayOffer(v.st, v.pick)
  {
    if Running(s) { OfferedInSequence(s); }
    else if IsBarrier(s, s.queue[0]) { OfferedAtStart(s); }
    else { OfferedWhenIdle(s); }
  }

  lemma MarkStartedColoured(s: State, r: int)
    requires Coloured(s) && !IsBarrier(s, r)
    ensures Coloured(MarkStarted(s, r))
  {
    var t := MarkStarted(s, r);
    forall x ensures ColourOk(t, x) { assert ColourOk(s, x); }
    forall i, j | 0 <= i < j < |t.queue| ensures InPlace(t, t.queue[i], t.queue[j]) {
      assert InPlace(s, s.queue[i], s.queue[j]);
    }
  }

  lemma PeekColoured(s: State, v: Verdict)
    requires ColouredInv(s) && s.queue != [] && v == Peek(s)
    ensures ColouredInv(v.st)
    ensures v.go && v.pick != NOREQ ==> MayOffer(v.st, v.pick)
  {
    var w := DoOrdered(s);
    DoOrderedColoured(s, w.st);
    PeekInv(s);
    Offered(s);
    if w.go && w.pick != NOREQ { MarkStartedColoured(w.st, w.pick); }
  }

  lemma IssueColour(s: State, r: int, x: int)
    requires ColouredInv(s) && MayIssue(s, r) && MayOffer(s, r)
    ensures ColourOk(Issue(s, r), x)
  {
    TailCounts(s.queue);
    assert r in multiset(s.queue);
    assert RequestOk(s, {}, r) && ColourOk(s, x);
  }

  lemma IssueColoured(s: State, r: int, t: State)
    requires ColouredInv(s) && MayIssue(s, r) && MayOffer(s, r) && t == Issue(s, r)
    ensures Coloured(t)
  {
    hide ColourOk, ReqSeq;
    assert r !in multiset(s.queue[1..]) by {
      TailCounts(s.queue);
      assert RequestOk(s, {}, r);
    }
    forall x ensures ColourOk(t, x) { IssueColour(s, r, x); }
    forall i, j | 0 <= i < j < |t.queue| ensures InPlace(t, t.queue[i], t.queue[j]) {
      assert InPlace(s, s.queue[i + 1], s.queue[j + 1]);
      assert s.queue[i + 1] in multiset(s.queue[1..]) && s.queue[j + 1] in multiset(s.queue[1..]);
      assert ReqSeq(t, t.queue[i]) == ReqSeq(s, t.queue[i]) && ReqSeq(t, t.queue[j]) == ReqSeq(s, t.queue[j]) by {
        StageFrame(s, t, t.queue[i]);
        StageFrame(s, t, t.queue[j]);
      }
    }
  }

  lemma FetchColoured(s: State, t: State)
    requires ColouredInv(s) && s.queue != [] && t == Fetch(s)
    ensures Coloured(t)
  {
    var v := Peek(s);
    PeekColoured(s, v);
    PeekInv(s);
    if v.go && v.pick != NOREQ { IssueColoured(v.st, v.pick, t); }
  }

  // ----- completion and requeueing -----

  lemma CompleteColoured(s: State, r: int, e: int, t: State)
    requires ColouredInv(s) && r in s.driver && t == Complete(s, r, e)
    ensures Coloured(t)
  {
    hide CompleteSeq;
    var u := Release(s, r, e);
    ColouredFrame(s, u);
    if IsProxy(r) {
      ProxyClosesOwnStage(s, r, e);
      CloseColoured(u, {ProxyStage(r)}, e);
    } else {
      CompleteShape(s, r, e);
      if Running(u) { CloseColoured(u, {DRAIN}, 0); }
    }
  }

  /** Only what was requeued before stands ahead of a requeued plain request. */
  lemma RequeuedAhead(s: State, r: int, i: nat)
    requires ColouredInv(s) && r in s.driver && i < RequeueAt(s, r) && IsFsTicket(s, s.queue[i])
    requires !IsProxy(r)
    ensures s.queue[i] in s.issued
  {
    RequeuePosSplits(s, ReqSeq(s, r), 0);
    if s.queue[i] !in s.issued {
      var j := FirstWaiting(s, i);
      StageOfEpoch(s, s.queue[j]);
    }
  }

  lemma RequeuePlacedAhead(s: State, r: int, i: nat, t: State)
    requires ColouredInv(s) && r in s.driver && i < RequeueAt(s, r) && t == TakeBack(s, r).(queue := t.queue)
    ensures InPlace(t, s.queue[i], r)
  {
    assert RequestOk(s, {}, r);
    if IsFsTicket(s, s.queue[i]) && !IsProxy(r) { RequeuedAhead(s, r, i); }
    RequeuePosSplits(s, ReqSeq(s, r), 0);
  }

  lemma RequeuePlacedBehind(s: State, r: int, i: nat, t: State)
    requires ColouredInv(s) && r in s.driver && RequeueAt(s, r) <= i < |s.queue| && t == TakeBack(s, r).(queue := t.queue)
    ensures InPlace(t, r, s.queue[i])
  {
    var p := RequeueAt(s, r);
    assert RequestOk(s, {}, r) && TicketOk(s, s.queue[i]);
    if Running(s) && Staged(s, s.queue[i]) { StagedBehind(s, r, i); }
  }

  /** Behind the insertion point of a requeued request stands nothing of an earlier stage. */
  lemma StagedBehind(s: State, r: int, i: nat)
    requires ColouredInv(s) && Running(s) && RequeueAt(s, r) <= i < |s.queue| && Staged(s, s.queue[i])
    ensures Bit(ReqSeq(s, r)) <= Bit(ReqSeq(s, s.queue[i]))
  {
    var p := RequeueAt(s, r);
    RequeuePosSplits(s, ReqSeq(s, r), 0);
    QueuedIsKnown(s, p);
    if p < i { assert InPlace(s, s.queue[p], s.queue[i]) && Before(s, s.queue[p], s.queue[i]) && ColourOk(s, s.queue[p]); }
  }

  lemma RequeuePlaced(s: State, r: int, t: State)
    requires ColouredInv(s) && r in s.driver && t == TakeBack(s, r).(queue := InsertAt(s.queue, RequeueAt(s, r), r))
    ensures Placed(t)
  {
    var p := RequeueAt(s, r);
    forall i | 0 <= i < p ensures InPlace(t, s.queue[i], r) { RequeuePlacedAhead(s, r, i, t); }
    forall i | p <= i < |s.queue| ensures InPlace(t, r, s.queue[i]) { RequeuePlacedBehind(s, r, i, t); }
    forall i, j | 0 <= i < j < |s.queue| ensures InPlace(t, s.queue[i], s.queue[j]) {
      assert InPlace(s, s.queue[i], s.queue[j]);
    }
    InsertPlaced(s, t, p, r);
  }

  lemma RequeueColour(s: State, r: int, p: nat, x: int)
    requires ColouredInv(s) && r in s.driver && p <= |s.queue|
    ensures ColourOk(TakeBack(s, r).(queue := InsertAt(s.queue, p, r)), x)
  {
    InsertCounts(s.queue, p, r);
    assert ColourOk(s, x) && ColourOk(s, r) && RequestOk(s, {}, r);
  }

  lemma RequeueColoured(s: State, r: int, t: State)
    requires ColouredInv(s) && r in s.driver && t == Requeue(s, r)
    ensures Coloured(t)
  {
    RequeueShape(s, r);
    forall x ensures ColourOk(t, x) { RequeueColour(s, r, RequeueAt(s, r), x); }
    RequeuePlaced(s, r, t);
  }

  // ----- every step, every run -----

  lemma StepColoured(s: State, a: Action, t: State)
    requires ColouredInv(s) && !Flagged(a) && Enabled(s, a) && t == Apply(s, a)
    ensures ColouredInv(t)
  {
    hide Inv, Coloured;
    StepInv(s, a);
    match a
    case AddSort => SubmitSortedColoured(s, t);
    case AddBack(k) => SubmitBackColoured(s, k, t);
    case AddFront(hard) => SubmitFrontColoured(s, t);
    case Dispatch(r, p) => MoveColoured(s, r, p, t);
    case PeekHead => PeekColoured(s, Peek(s));
    case FetchHead => FetchColoured(s, t);
    case End(r, e) => CompleteColoured(s, r, e, t);
    case PutBack(r) => RequeueColoured(s, r, t);
    case BarError(e) => ColouredFrame(s, t);
  }

  lemma {:induction false} RunColoured(s: State, acts: seq<Action>, t: State)
    requires ColouredInv(s) && Runs(s, acts, t) && Unflagged(acts)
    ensures ColouredInv(t)
    decreases |acts|
  {
    if acts != [] {
      StepColoured(s, acts[0], Apply(s, acts[0]));
      RunColoured(Apply(s, acts[0]), acts[1..], t);
    }
  }
}
