/** What every step of the barrier protocol keeps, in every ordering mode and whatever is submitted. */
module BarrierInvariants {
  import opened Barrier

  ghost predicate Running(s: State) { s.ordseq != {} }

  /** One entry of the submission log. */
  ghost predicate TicketOk(s: State, t: int)
    requires |s.color| == |s.kind| == |s.epoch|
  {
    0 <= t < |s.kind| ==>
      && s.epoch[t] <= |s.barriers|
      && (s.kind[t].Barrier? ==> s.epoch[t] < |s.barriers| && s.barriers[s.epoch[t]] == t)
  }

  /** Barrier number `e`: the requests submitted before it are those of its epoch or an earlier one. */
  ghost predicate BarrierOk(s: State, e: int)
    requires |s.color| == |s.kind| == |s.epoch|
  {
    0 <= e < |s.barriers| ==>
      && s.barriers[e] < |s.kind| && s.kind[s.barriers[e]].Barrier? && s.epoch[s.barriers[e]] == e
      && (forall t :: 0 <= t < |s.kind| ==> (s.epoch[t] <= e <==> t <= s.barriers[e]))
  }

  ghost predicate Log(s: State) {
    && |s.color| == |s.kind| == |s.epoch|
    && (forall t :: TicketOk(s, t))
    && (forall e :: BarrierOk(s, e))
  }

  ghost predicate Queued(s: State, r: int) { multiset(s.queue)[r] > 0 }

  /** How many places hold request `r`. */
  ghost function Holders(s: State, r: int): nat {
    multiset(s.queue)[r] + (if r in s.driver then 1 else 0) + (if r in s.sorted then 1 else 0) +
    s.ended[r] + (if r == s.orig && r != NOREQ then 1 else 0)
  }

  /** A submitted request is always in exactly one place; a proxy is queued or with the driver
      exactly while its stage of the running sequence is open.  `closing` holds stages about to
      be marked finished. */
  ghost function Expected(s: State, closing: set<Stage>, r: int): nat {
    if IsTicket(s, r) then 1
    else if IsProxy(r) && Running(s) && ProxyStage(r) !in s.ordseq && ProxyStage(r) !in closing then 1
    else 0
  }

  ghost predicate RequestOk(s: State, closing: set<Stage>, r: int)
    requires |s.kind| == |s.epoch|
  {
    && Holders(s, r) == Expected(s, closing, r)
    && (IsProxy(r) && r in s.driver ==> DRAIN in s.ordseq)
    && (r in s.results <==> r in s.ended)
    && (r in s.ended ==> IsTicket(s, r) && (IsPlain(s, r) ==> r in s.issued))
    && (r in s.driver ==> r in s.started && r in s.issued)
    && (r in s.sorted ==> IsPlain(s, r) && r !in s.started && r !in s.soft && r !in s.issued)
    && (r in s.started || r in s.issued || r in s.soft ==> IsTicket(s, r) || IsProxy(r))
    && (Queued(s, r) && !IsPlain(s, r) ==> r in s.soft)
  }

  /** The requests at the driver that queue_in_flight counts. */
  ghost function Accounted(s: State): set<int> { set r | r in s.driver && IsFs(s, r) }

  /** The running sequence belongs to a stashed barrier, in the mode its kind asks for.  A barrier that
      had been offered before its sequence began stays counted as in flight. */
  ghost predicate Sequence(s: State, closing: set<Stage>) {
    && !s.bug
    && Supported(s.nextOrdered)
    && s.orderr == FirstError(s.errs)
    && s.inFlight == |Accounted(s)| + Account(s, s.orig)
    && if Running(s) then
         && STARTED in s.ordseq && DONE !in s.ordseq && CurSeq(s.ordseq) != DONE
         && IsBarrier(s, s.orig) && s.nextOrdered != ORDERED_NONE
         && s.ordered == EffectiveMode(s.nextOrdered, s.kind[s.orig].empty)
         && (s.ordered.byDrain || DRAIN in s.ordseq || DRAIN in closing)
       else
         s.orig == NOREQ
  }

  /** `a` may stand before `b` in the dispatch queue: what stands before a proxy belongs to an
      earlier stage. */
  ghost predicate Before(s: State, a: int, b: int) {
    IsProxy(b) ==> Bit(ReqSeq(s, a)) < Bit(ReqSeq(s, b))
  }

  ghost predicate QueueOrder(s: State) {
    forall i, j :: 0 <= i < j < |s.queue| ==> Before(s, s.queue[i], s.queue[j])
  }

  ghost predicate AllOk(s: State, closing: set<Stage>) {
    && Log(s)
    && (forall r :: RequestOk(s, closing, r))
    && Sequence(s, closing)
    && QueueOrder(s)
  }

  /** Stated as an equation so that the verifier treats the invariant as one fact. */
  ghost predicate InvBut(s: State, closing: set<Stage>) { AllOk(s, closing) == true }

  ghost predicate Inv(s: State) { InvBut(s, {}) }

  lemma InitInv(m: Mode)
    requires Supported(m)
    ensures Inv(Init(m))
  {
  }

  lemma InsertCounts(q: seq<int>, p: nat, x: int)
    requires p <= |q|
    ensures multiset(InsertAt(q, p, x)) == multiset(q) + multiset{x}
  {
    assert q == q[..p] + q[p..];
  }

  lemma TailCounts(q: seq<int>)
    requires q != []
    ensures multiset(q) == multiset{q[0]} + multiset(q[1..])
  {
    assert q == [q[0]] + q[1..];
  }

  // ----- what unchanged parts keep -----

  lemma LogFrame(s: State, t: State)
    requires Log(s)
    requires t.kind == s.kind && t.color == s.color && t.epoch == s.epoch && t.barriers == s.barriers
    ensures Log(t)
  {
    forall x ensures TicketOk(t, x) { assert TicketOk(s, x); }
    forall e ensures BarrierOk(t, e) { assert BarrierOk(s, e); }
  }

  lemma QueueFrame(s: State, t: State)
    requires Log(s) && QueueOrder(s)
    requires t.queue == s.queue && t.kind == s.kind && t.color == s.color && t.epoch == s.epoch && t.orig == s.orig
    ensures QueueOrder(t)
  {
    forall i, j | 0 <= i < j < |t.queue| ensures Before(t, t.queue[i], t.queue[j]) {
      assert Before(s, s.queue[i], s.queue[j]);
    }
  }

  lemma AccountedFrame(s: State, t: State)
    requires Inv(s) && t.driver == s.driver && s.kind <= t.kind
    ensures Accounted(t) == Accounted(s)
  {
    forall r | r in s.driver ensures IsFs(s, r) == IsFs(t, r) { assert RequestOk(s, {}, r); }
  }

  lemma QueuedIsKnown(s: State, i: int)
    requires Inv(s) && 0 <= i < |s.queue|
    ensures IsTicket(s, s.queue[i]) || IsProxy(s.queue[i])
    ensures s.queue[i] !in s.driver && s.queue[i] !in s.sorted && s.queue[i] !in s.ended && s.queue[i] != s.orig
  {
    assert s.queue[i] in multiset(s.queue);
    assert RequestOk(s, {}, s.queue[i]);
  }

  /** Inserting one request keeps the order if the request fits with both sides. */
  lemma InsertOrder(s: State, t: State, p: nat, x: int)
    requires Log(s) && QueueOrder(s) && p <= |s.queue| && t.queue == InsertAt(s.queue, p, x)
    requires |t.kind| == |t.epoch|
    requires forall i, j :: 0 <= i < j < |s.queue| ==> Before(t, s.queue[i], s.queue[j])
    requires forall i :: 0 <= i < p ==> Before(t, s.queue[i], x)
    requires forall i :: p <= i < |s.queue| ==> Before(t, x, s.queue[i])
    ensures QueueOrder(t)
  {
    forall i, j | 0 <= i < j < |t.queue| ensures Before(t, t.queue[i], t.queue[j]) {
      var i' := if i < p then i else i - 1;
      var j' := if j < p then j else j - 1;
      assert i != p ==> t.queue[i] == s.queue[i'];
      assert j != p ==> t.queue[j] == s.queue[j'];
    }
  }

  // ----- submission -----

  lemma SubmitLog(s: State, k: Kind)
    requires Log(s)
    ensures Log(Submit(s, k))
  {
    var t := Submit(s, k);
    forall x ensures TicketOk(t, x) { assert TicketOk(s, x); }
    forall e ensures BarrierOk(t, e) {
      assert BarrierOk(s, e);
      forall x | 0 <= x < |t.kind| && 0 <= e < |t.barriers| ensures (t.epoch[x] <= e <==> x <= t.barriers[e]) {
        assert TicketOk(s, x);
      }
    }
  }

  /** Submitting changes nothing about how the requests already queued relate. */
  lemma SubmitBefore(s: State, k: Kind, i: int, j: int)
    requires Inv(s) && 0 <= i < j < |s.queue|
    ensures Before(Submit(s, k), s.queue[i], s.queue[j])
  {
    QueuedIsKnown(s, i); QueuedIsKnown(s, j);
    assert Before(s, s.queue[i], s.queue[j]);
  }

  lemma SubmitRequest(s: State, k: Kind, r: int)
    requires Log(s) && RequestOk(s, {}, r) && r != |s.kind|
    ensures RequestOk(Submit(s, k), {}, r)
  {
  }

  lemma SubmitSortedInv(s: State)
    requires Inv(s)
    ensures Inv(SubmitSorted(s))
  {
    var t := SubmitSorted(s);
    SubmitLog(s, Plain);
    LogFrame(Submit(s, Plain), t);
    forall r ensures RequestOk(t, {}, r) {
      assert RequestOk(s, {}, r);
      if r != |s.kind| { SubmitRequest(s, Plain, r); }
    }
    forall i, j | 0 <= i < j < |t.queue| ensures Before(t, t.queue[i], t.queue[j]) { SubmitBefore(s, Plain, i, j); }
    AccountedFrame(s, t);
  }

  lemma SubmitBackQueue(s: State, k: Kind)
    requires Inv(s)
    ensures QueueOrder(SubmitBack(s, k))
  {
    var t := SubmitBack(s, k);
    forall i, j | 0 <= i < j < |t.queue| ensures Before(t, t.queue[i], t.queue[j]) {
      QueuedIsKnown(s, i);
      if j < |s.queue| { SubmitBefore(s, k, i, j); }
    }
  }

  lemma SubmitBackRequest(s: State, k: Kind, r: int)
    requires Log(s) && RequestOk(s, {}, r)
    ensures RequestOk(SubmitBack(s, k), {}, r)
  {
    if r != |s.kind| { SubmitRequest(s, k, r); }
  }

  lemma SubmitBackInv(s: State, k: Kind)
    requires Inv(s)
    ensures Inv(SubmitBack(s, k))
  {
    var t := SubmitBack(s, k);
    SubmitLog(s, k);
    LogFrame(Submit(s, k), t);
    forall r ensures RequestOk(t, {}, r) { assert RequestOk(s, {}, r); SubmitBackRequest(s, k, r); }
    SubmitBackQueue(s, k);
    AccountedFrame(s, t);
  }

  lemma SubmitFrontQueue(s: State, hard: bool)
    requires Inv(s)
    ensures QueueOrder(SubmitFront(s, hard))
  {
    var t, x := SubmitFront(s, hard), |s.kind|;
    forall i, j | 0 <= i < j < |s.queue| ensures Before(t, s.queue[i], s.queue[j]) {
      SubmitBefore(s, Special(hard), i, j);
    }
    assert t.queue == InsertAt(s.queue, 0, x);
    InsertOrder(s, t, 0, x);
  }

  lemma SubmitFrontRequest(s: State, hard: bool, r: int)
    requires Log(s) && RequestOk(s, {}, r)
    ensures RequestOk(SubmitFront(s, hard), {}, r)
  {
    if r != |s.kind| { SubmitRequest(s, Special(hard), r); }
  }

  lemma SubmitFrontInv(s: State, hard: bool)
    requires Inv(s)
    ensures Inv(SubmitFront(s, hard))
  {
    var t := SubmitFront(s, hard);
    SubmitLog(s, Special(hard));
    LogFrame(Submit(s, Special(hard)), t);
    forall r ensures RequestOk(t, {}, r) { assert RequestOk(s, {}, r); SubmitFrontRequest(s, hard, r); }
    SubmitFrontQueue(s, hard);
    AccountedFrame(s, t);
  }

  lemma MoveRequest(s: State, r: int, p: nat, x: int)
    requires Log(s) && MayMove(s, r, p) && RequestOk(s, {}, x)
    ensures RequestOk(MoveToQueue(s, r, p), {}, x)
  {
    InsertCounts(s.queue, p, r);
  }

  lemma MoveQueue(s: State, r: int, p: nat)
    requires Inv(s) && MayMove(s, r, p)
    ensures QueueOrder(MoveToQueue(s, r, p))
  {
    var t := MoveToQueue(s, r, p);
    assert RequestOk(s, {}, r);
    forall i | p <= i < |s.queue| ensures Before(t, r, s.queue[i]) {
      QueuedIsKnown(s, i);
      assert RequestOk(s, {}, s.queue[i]);
    }
    forall i, j | 0 <= i < j < |s.queue| ensures Before(t, s.queue[i], s.queue[j]) {
      assert Before(s, s.queue[i], s.queue[j]);
    }
    InsertOrder(s, t, p, r);
  }

  lemma MoveInv(s: State, r: int, p: nat)
    requires Inv(s) && MayMove(s, r, p)
    ensures Inv(MoveToQueue(s, r, p))
  {
    var t := MoveToQueue(s, r, p);
    LogFrame(s, t);
    forall x ensures RequestOk(t, {}, x) { assert RequestOk(s, {}, x); MoveRequest(s, r, p, x); }
    MoveQueue(s, r, p);
    AccountedFrame(s, t);
  }

  // ----- the sequence -----

  lemma FirstErrorAppend(errs: seq<int>, e: int)
    ensures FirstError(errs + [e]) == if FirstError(errs) != 0 then FirstError(errs) else e
  {
    assert (errs + [e])[..|errs|] == errs;
  }

  lemma NoteErrorInv(s: State, c: set<Stage>, e: int)
    requires InvBut(s, c)
    ensures InvBut(NoteError(s, e), c)
  {
    var t := NoteError(s, e);
    FirstErrorAppend(s.errs, e);
    LogFrame(s, t);
    forall r ensures RequestOk(t, c, r) { assert RequestOk(s, c, r); }
    QueueFrame(s, t);
    assert Accounted(t) == Accounted(s);
  }

  /** Marking open stages finished, when the last of them is not the last of the sequence. */
  lemma MarkStagesInv(s: State, c: set<Stage>)
    requires InvBut(s, c) && Running(s) && DONE !in c && CurSeq(s.ordseq + c) != DONE
    ensures InvBut(s.(ordseq := s.ordseq + c), {})
  {
    var t := s.(ordseq := s.ordseq + c);
    LogFrame(s, t);
    forall r ensures RequestOk(t, {}, r) { assert RequestOk(s, c, r); }
    QueueFrame(s, t);
    assert Accounted(t) == Accounted(s);
  }

  /** Ending the sequence: the original request leaves its last place for `ended`. */
  lemma FinishRequest(s: State, c: set<Stage>, r: int)
    requires InvBut(s, c) && Running(s) && CurSeq(s.ordseq + c) == DONE
    ensures RequestOk(EndSequence(s), {}, r)
  {
    assert RequestOk(s, c, r);
    assert RequestOk(s, c, s.orig);
  }

  lemma FinishInv(s: State, c: set<Stage>)
    requires InvBut(s, c) && Running(s) && CurSeq(s.ordseq + c) == DONE
    ensures InvBut(EndSequence(s), {})
  {
    var t := EndSequence(s);
    LogFrame(s, t);
    forall r ensures RequestOk(t, {}, r) { FinishRequest(s, c, r); }
    forall i, j | 0 <= i < j < |t.queue| ensures Before(t, t.queue[i], t.queue[j]) {
      assert t.queue[j] in multiset(t.queue);
      assert RequestOk(t, {}, t.queue[j]);
      assert Before(s, s.queue[i], s.queue[j]);
    }
    assert Accounted(t) == Accounted(s);
  }

  /** Closing stages moves no request. */
  lemma CompleteSeqFrame(s: State, c: set<Stage>, e: int, t: State)
    requires t == CompleteSeq(s, c, e)
    ensures t.queue == s.queue && t.driver == s.driver && t.kind == s.kind && t.color == s.color && t.begun == s.begun
    ensures t.barriers == s.barriers && t.started == s.started && t.nextOrdered == s.nextOrdered
    ensures Running(t) ==> t.orig == s.orig && t.ordseq == s.ordseq + c
  {
  }

  /** blk_ordered_complete_seq: its BUG_ON never fires when the stages it is given are open. */
  lemma CompleteSeqInv(s: State, c: set<Stage>, e: int)
    requires InvBut(s, c) && Running(s) && c !! s.ordseq && DONE !in c
    ensures Inv(CompleteSeq(s, c, e))
  {
    hide InvBut;
    NoteErrorInv(s, c, e);
    var s1 := NoteError(s, e);
    assert s1.ordseq * c == {};
    NoBug(s1, c);
    assert MarkStages(s1, c) == s1.(ordseq := s1.ordseq + c);
    if CurSeq(s1.ordseq + c) != DONE {
      MarkStagesInv(s1, c);
    } else {
      FinishInv(s1, c);
    }
  }

  lemma NoBug(s: State, c: set<Stage>)
    requires InvBut(s, c)
    ensures !s.bug
  {
  }

  const ALL: set<Stage> := {DRAIN, PREFLUSH, BAR, POSTFLUSH}

  lemma StashRequest(s: State, r: int)
    requires Inv(s) && !Running(s) && s.queue != [] && IsBarrier(s, s.queue[0])
    ensures RequestOk(StashBarrier(s, s.queue[0]), ALL, r)
  {
    TailCounts(s.queue);
    assert RequestOk(s, {}, r) && TicketOk(s, r);
    assert RequestOk(s, {}, s.queue[0]);
  }

  lemma StashQueue(s: State)
    requires Inv(s) && !Running(s) && s.queue != [] && IsBarrier(s, s.queue[0])
    ensures QueueOrder(StashBarrier(s, s.queue[0]))
  {
    var t := StashBarrier(s, s.queue[0]);
    forall i, j | 0 <= i < j < |t.queue| ensures Before(t, t.queue[i], t.queue[j]) {
      assert s.queue[j + 1] in multiset(s.queue);
      assert RequestOk(s, {}, s.queue[j + 1]);
      assert Before(s, s.queue[i + 1], s.queue[j + 1]);
    }
  }

  lemma StashInv(s: State)
    requires Inv(s) && s.nextOrdered != ORDERED_NONE && !Running(s) && s.queue != [] && IsBarrier(s, s.queue[0])
    ensures InvBut(StashBarrier(s, s.queue[0]), ALL)
  {
    var t := StashBarrier(s, s.queue[0]);
    LogFrame(s, t);
    forall r ensures RequestOk(t, ALL, r) { StashRequest(s, r); }
    StashQueue(s);
    assert RequestOk(s, {}, s.queue[0]);
    assert Accounted(t) == Accounted(s);
  }

  ghost predicate MayPush(s: State, c: set<Stage>, p: int) {
    && Running(s) && IsProxy(p) && ProxyStage(p) in c && ProxyStage(p) !in s.ordseq
    && forall x :: IsProxy(x) && Queued(s, x) ==> p < x
  }

  lemma PushRequest(s: State, c: set<Stage>, p: int, r: int)
    requires InvBut(s, c) && MayPush(s, c, p)
    ensures RequestOk(PushFront(s, p), c - {ProxyStage(p)}, r)
  {
    InsertCounts(s.queue, 0, p);
    assert PushFront(s, p).queue == InsertAt(s.queue, 0, p);
    assert RequestOk(s, c, p) && RequestOk(s, c, r);
  }

  lemma PushQueue(s: State, c: set<Stage>, p: int)
    requires InvBut(s, c) && MayPush(s, c, p)
    ensures QueueOrder(PushFront(s, p))
  {
    var t := PushFront(s, p);
    assert t.queue == InsertAt(s.queue, 0, p);
    forall i | 0 <= i < |s.queue| ensures Before(t, p, s.queue[i]) { assert s.queue[i] in multiset(s.queue); }
    forall i, j | 0 <= i < j < |s.queue| ensures Before(t, s.queue[i], s.queue[j]) {
      assert Before(s, s.queue[i], s.queue[j]);
    }
    InsertOrder(s, t, 0, p);
  }

  /** Queueing a proxy in front opens its stage. */
  lemma PushInv(s: State, c: set<Stage>, p: int)
    requires InvBut(s, c) && MayPush(s, c, p)
    ensures InvBut(PushFront(s, p), c - {ProxyStage(p)})
  {
    var t := PushFront(s, p);
    LogFrame(s, t);
    forall r ensures RequestOk(t, c - {ProxyStage(p)}, r) { PushRequest(s, c, p, r); }
    PushQueue(s, c, p);
    assert Accounted(t) == Accounted(s);
  }

  /** The stages of the proxies from `p` down are all in `c`. */
  ghost predicate UpTo(c: set<Stage>, p: int) {
    (PRE <= p ==> PREFLUSH in c) && (BARRQ <= p ==> BAR in c) && (POST <= p ==> POSTFLUSH in c)
  }

  /** The proxies still to be queued can be: nothing at or before them is queued yet. */
  lemma NothingQueued(s: State, c: set<Stage>, p: int)
    requires InvBut(s, c) && IsProxy(p) && UpTo(c, p)
    ensures forall x :: IsProxy(x) && Queued(s, x) ==> p < x
  {
    forall x | IsProxy(x) && Queued(s, x) ensures p < x { assert RequestOk(s, c, x); }
  }

  ghost predicate AtBarrier(s: State) { Inv(s) && !Running(s) && s.queue != [] && IsBarrier(s, s.queue[0]) }

  ghost predicate Wants(m: Mode, p: int) { if p == PRE then m.doPre else if p == BARRQ then m.doBar else m.doPost }

  /** The stages still without a queued proxy once the proxies from `p` down have been queued. */
  ghost function Unqueued(c: set<Stage>, m: Mode, p: int): set<Stage>
    decreases p - PRE
  {
    if p < PRE then c else Unqueued(if Wants(m, p) then c - {ProxyStage(p)} else c, m, p - 1)
  }

  ghost function PushFrom(s: State, p: int): State
    decreases p - PRE
  {
    if p < PRE then s else PushFrom(PushIf(s, p, Wants(s.ordered, p)), p - 1)
  }

  lemma PushIfInv(s: State, c: set<Stage>, p: int, on: bool)
    requires InvBut(s, c) && s.ordseq == {STARTED} && IsProxy(p) && UpTo(c, p)
    ensures InvBut(PushIf(s, p, on), if on then c - {ProxyStage(p)} else c)
  {
    if on {
      NothingQueued(s, c, p);
      PushInv(s, c, p);
    }
  }

  lemma {:induction false} PushFromInv(s: State, c: set<Stage>, p: int)
    requires InvBut(s, c) && s.ordseq == {STARTED} && PRE - 1 <= p <= POST
    requires UpTo(c, p)
    ensures InvBut(PushFrom(s, p), Unqueued(c, s.ordered, p))
    decreases p - PRE
  {
    hide InvBut;
    if PRE <= p {
      var on := Wants(s.ordered, p);
      PushIfInv(s, c, p, on);
      PushFromInv(PushIf(s, p, on), if on then c - {ProxyStage(p)} else c, p - 1);
    }
  }

  /** DRAIN has no proxy: only the sequence bookkeeping can tell whether it is about to close. */
  lemma RelaxDrain(s: State, c: set<Stage>, d: set<Stage>)
    requires InvBut(s, c) && (s.ordered.byDrain || DRAIN in d)
    requires forall st :: st != DRAIN ==> (st in c <==> st in d)
    ensures InvBut(s, d)
  {
    forall r ensures RequestOk(s, d, r) { assert RequestOk(s, c, r); }
  }

  lemma QueueSequenceShape(s: State)
    requires s.queue != [] && IsBarrier(s, s.queue[0])
    ensures QueueSequence(s, s.queue[0]) == PushFrom(StashBarrier(s, s.queue[0]), POST)
    ensures QueueSequence(s, s.queue[0]).ordseq == s.ordseq + {STARTED}
    ensures QueueSequence(s, s.queue[0]).ordered == StashBarrier(s, s.queue[0]).ordered
    ensures QueueSequence(s, s.queue[0]).kind == s.kind && QueueSequence(s, s.queue[0]).epoch == s.epoch
    ensures QueueSequence(s, s.queue[0]).color == s.color && QueueSequence(s, s.queue[0]).begun == s.begun + 1
    ensures QueueSequence(s, s.queue[0]).barriers == s.barriers && QueueSequence(s, s.queue[0]).warned == s.warned
    ensures QueueSequence(s, s.queue[0]).nextOrdered == s.nextOrdered
    ensures QueueSequence(s, s.queue[0]).ended == s.ended && QueueSequence(s, s.queue[0]).results == s.results
    ensures QueueSequence(s, s.queue[0]).orig == s.queue[0] && QueueSequence(s, s.queue[0]).errs == []
    ensures QueueSequence(s, s.queue[0]).driver == s.driver
  {
    var s0 := StashBarrier(s, s.queue[0]);
    var s1 := PushIf(s0, POST, s0.ordered.doPost);
    var s2 := PushIf(s1, BARRQ, s1.ordered.doBar);
    var s3 := PushIf(s2, PRE, s2.ordered.doPre);
    assert PushFrom(s3, PRE - 1) == s3;
    assert PushFrom(s2, PRE) == s3;
    assert PushFrom(s1, BARRQ) == s3;
  }

  lemma UnqueuedShape(m: Mode)
    ensures Unqueued(ALL, m, POST) == Skipped(m, false)
  {
    var c1 := if m.doPost then ALL - {POSTFLUSH} else ALL;
    var c2 := if m.doBar then c1 - {BAR} else c1;
    var c3 := if m.doPre then c2 - {PREFLUSH} else c2;
    assert Unqueued(c3, m, PRE - 1) == c3;
    assert Unqueued(c2, m, PRE) == c3;
    assert Unqueued(c1, m, BARRQ) == c3;
  }

  lemma QueueSequenceInv(s: State, mustDrain: bool)
    requires AtBarrier(s) && s.nextOrdered != ORDERED_NONE
    ensures var u := QueueSequence(s, s.queue[0]);
            u.ordered.byDrain || !mustDrain ==> InvBut(u, Skipped(u.ordered, mustDrain))
  {
    var s0, u := StashBarrier(s, s.queue[0]), QueueSequence(s, s.queue[0]);
    StashInv(s);
    PushFromInv(s0, ALL, POST);
    QueueSequenceShape(s);
    UnqueuedShape(s0.ordered);
    if u.ordered.byDrain || !mustDrain { RelaxDrain(u, Skipped(u.ordered, false), Skipped(u.ordered, mustDrain)); }
  }

  lemma SkippedStages(m: Mode, mustDrain: bool)
    ensures Skipped(m, mustDrain) <= ALL && Skipped(m, mustDrain) !! {STARTED} && DONE !in Skipped(m, mustDrain)
  {
  }

  lemma StartOrderedShape(s: State, u: State)
    requires s.queue != [] && IsBarrier(s, s.queue[0]) && u == QueueSequence(s, s.queue[0])
    ensures StartOrdered(s, s.queue[0]).st == CompleteSeq(u, Skipped(u.ordered, u.ordered.byDrain && u.inFlight != 0), 0)
  {
  }

  lemma StartOrderedInv(s: State, u: State, t: State)
    requires AtBarrier(s) && s.nextOrdered != ORDERED_NONE && u == QueueSequence(s, s.queue[0])
    requires t == StartOrdered(s, s.queue[0]).st
    ensures Inv(t)
  {
    var mustDrain := u.ordered.byDrain && u.inFlight != 0;
    QueueSequenceInv(s, mustDrain);
    QueueSequenceShape(s);
    StartOrderedShape(s, u);
    SkippedStages(u.ordered, mustDrain);
    CompleteSeqInv(u, Skipped(u.ordered, mustDrain), 0);
  }

  // ----- looking at and taking the head -----

  /** The state when a barrier is refused because the queue does not support ordering. */
  function Refuse(s: State): State
    requires s.queue != []
  {
    EndRequest(s.(queue := s.queue[1..], begun := s.begun + 1), s.queue[0], EOPNOTSUPP)
  }

  lemma RefuseRequest(s: State, r: int)
    requires AtBarrier(s)
    ensures RequestOk(Refuse(s), {}, r)
  {
    TailCounts(s.queue);
    assert RequestOk(s, {}, r) && TicketOk(s, r) && RequestOk(s, {}, s.queue[0]);
  }

  lemma TailOrder(s: State, t: State)
    requires Log(s) && QueueOrder(s) && s.queue != [] && t.queue == s.queue[1..]
    requires t.kind == s.kind && t.color == s.color && t.epoch == s.epoch && t.orig == s.orig
    ensures QueueOrder(t)
  {
    forall i, j | 0 <= i < j < |t.queue| ensures Before(t, t.queue[i], t.queue[j]) {
      assert Before(s, s.queue[i + 1], s.queue[j + 1]);
    }
  }

  lemma RefuseInv(s: State)
    requires AtBarrier(s)
    ensures Inv(Refuse(s))
  {
    var t := Refuse(s);
    LogFrame(s, t);
    forall r ensures RequestOk(t, {}, r) { RefuseRequest(s, r); }
    TailOrder(s, t);
    assert Accounted(t) == Accounted(s);
  }

  lemma WarnInv(s: State, w: bool)
    requires Inv(s)
    ensures Inv(s.(warned := w))
  {
    var t := s.(warned := w);
    LogFrame(s, t);
    forall r ensures RequestOk(t, {}, r) { assert RequestOk(s, {}, r); }
    QueueFrame(s, t);
    assert Accounted(t) == Accounted(s);
  }

  lemma MarkStartedInv(s: State, r: int)
    requires Inv(s) && Queued(s, r)
    ensures Inv(MarkStarted(s, r))
  {
    var t := MarkStarted(s, r);
    LogFrame(s, t);
    assert RequestOk(s, {}, r);
    forall x ensures RequestOk(t, {}, x) { assert RequestOk(s, {}, x); }
    QueueFrame(s, t);
    assert Accounted(t) == Accounted(s);
  }

  lemma DoOrderedInv(s: State)
    requires Inv(s) && s.queue != []
    ensures Inv(DoOrdered(s).st)
  {
    if !Running(s) && IsBarrier(s, s.queue[0]) {
      if s.nextOrdered != ORDERED_NONE {
        StartOrderedInv(s, QueueSequence(s, s.queue[0]), StartOrdered(s, s.queue[0]).st);
      } else {
        RefuseInv(s);
      }
    }
    WarnInv(s, true);
  }

  /** What may be handed to the driver: the head of the queue, a proxy only once the queue is drained. */
  ghost predicate MayIssue(s: State, r: int) {
    s.queue != [] && s.queue[0] == r && (IsProxy(r) ==> DRAIN in s.ordseq)
  }

  lemma PickAtStart(s: State)
    requires AtBarrier(s)
    ensures var v := StartOrdered(s, s.queue[0]); v.go && v.pick != NOREQ ==> MayIssue(v.st, v.pick)
  {
  }

  lemma PickInSequence(s: State)
    requires Inv(s) && s.queue != [] && Running(s)
    ensures var v := DoOrdered(s); v.go && v.pick != NOREQ ==> MayIssue(v.st, v.pick)
  {
    assert s.queue[0] in multiset(s.queue);
  }

  lemma PickIsHead(s: State)
    requires Inv(s) && s.queue != []
    ensures var v := DoOrdered(s); v.go && v.pick != NOREQ ==> MayIssue(v.st, v.pick)
  {
    if Running(s) { PickInSequence(s); }
    else if IsBarrier(s, s.queue[0]) { PickAtStart(s); }
    else {
      assert s.queue[0] in multiset(s.queue);
      assert RequestOk(s, {}, s.queue[0]);
    }
  }

  lemma PeekInv(s: State)
    requires Inv(s) && s.queue != []
    ensures Inv(Peek(s).st)
    ensures var v := Peek(s); v.go && v.pick != NOREQ ==> MayIssue(v.st, v.pick) && v.pick in v.st.started
  {
    DoOrderedInv(s);
    PickIsHead(s);
    var v := DoOrdered(s);
    if v.go && v.pick != NOREQ {
      assert v.st.queue[0] in multiset(v.st.queue);
      MarkStartedInv(v.st, v.pick);
    }
  }

  lemma IssueRequest(s: State, r: int, x: int)
    requires Inv(s) && MayIssue(s, r) && r in s.started
    ensures RequestOk(Issue(s, r), {}, x)
  {
    TailCounts(s.queue);
    assert RequestOk(s, {}, r) && RequestOk(s, {}, x);
  }

  lemma QueuedNotHeld(s: State, r: int)
    requires Inv(s) && MayIssue(s, r)
    ensures r !in s.driver
  {
    assert r in multiset(s.queue);
    assert RequestOk(s, {}, r);
  }

  lemma IssueAccounted(s: State, r: int)
    requires s.queue != [] && r in s.started && r !in s.driver
    ensures Accounted(Issue(s, r)) == if IsFs(s, r) then Accounted(s) + {r} else Accounted(s)
    ensures Issue(s, r).inFlight == s.inFlight + (if IsFs(s, r) then 1 else 0) && r !in Accounted(s)
  {
  }

  lemma IssueInv(s: State, r: int)
    requires Inv(s) && MayIssue(s, r) && r in s.started
    ensures Inv(Issue(s, r))
  {
    hide RequestOk, TicketOk, BarrierOk, Before;
    var t := Issue(s, r);
    LogFrame(s, t);
    forall x ensures RequestOk(t, {}, x) { IssueRequest(s, r, x); }
    TailOrder(s, t);
    QueuedNotHeld(s, r);
    IssueAccounted(s, r);
  }

  lemma FetchInv(s: State)
    requires Inv(s) && s.queue != []
    ensures Inv(Fetch(s))
  {
    PeekInv(s);
    var v := Peek(s);
    if v.go && v.pick != NOREQ { IssueInv(v.st, v.pick); }
  }

  // ----- completion and requeueing -----

  /** The driver lets go of `r`; if it is a proxy its stage is about to close. */
  function Release(s: State, r: int, error: int): State {
    var s1 := s.(driver := s.driver - {r}, inFlight := s.inFlight - Account(s, r));
    if IsProxy(r) then s1 else EndRequest(s1, r, error)
  }

  function ClosedBy(r: int): set<Stage> { if IsProxy(r) then {ProxyStage(r)} else {} }

  lemma ReleaseRequest(s: State, r: int, e: int, x: int)
    requires Inv(s) && r in s.driver
    ensures RequestOk(Release(s, r, e), ClosedBy(r), x)
  {
    assert RequestOk(s, {}, r) && RequestOk(s, {}, x);
  }

  lemma HeldIsNotOrig(s: State, r: int)
    requires Inv(s) && r in s.driver
    ensures r != s.orig
  {
    assert RequestOk(s, {}, r);
  }

  lemma ReleaseAccounted(s: State, r: int, t: State)
    requires Inv(s) && r in s.driver && t.driver == s.driver - {r} && t.kind == s.kind
    ensures |Accounted(t)| == |Accounted(s)| - Account(s, r)
  {
    assert RequestOk(s, {}, r);
    if IsFs(s, r) {
      assert r in Accounted(s);
      assert Accounted(t) == Accounted(s) - {r};
    } else {
      assert Accounted(t) == Accounted(s);
    }
  }

  lemma ReleaseInv(s: State, r: int, e: int)
    requires Inv(s) && r in s.driver
    ensures InvBut(Release(s, r, e), ClosedBy(r))
  {
    hide RequestOk, TicketOk, BarrierOk, Before;
    var t := Release(s, r, e);
    LogFrame(s, t);
    forall x ensures RequestOk(t, ClosedBy(r), x) { ReleaseRequest(s, r, e, x); }
    QueueFrame(s, t);
    ReleaseAccounted(s, r, t);
  }

  lemma CheckDrainedInv(s: State)
    requires Inv(s)
    ensures Inv(CheckDrained(s))
  {
    if Running(s) && DRAIN !in s.ordseq {
      RelaxDrain(s, {}, {DRAIN});
      CompleteSeqInv(s, {DRAIN}, 0);
    }
  }

  /** A proxy is with the driver only after the drain stage, so its completion closes its own
      stage and nothing else. */
  lemma ProxyClosesOwnStage(s: State, r: int, e: int)
    requires Inv(s) && r in s.driver && IsProxy(r)
    ensures Complete(s, r, e) == CompleteSeq(Release(s, r, e), {ProxyStage(r)}, e)
    ensures Running(s) && ProxyStage(r) !in s.ordseq && DRAIN in s.ordseq
  {
    hide CompleteSeq, TicketOk, BarrierOk, Before;
    assert RequestOk(s, {}, r);
  }

  lemma CompleteInv(s: State, r: int, e: int)
    requires Inv(s) && r in s.driver
    ensures Inv(Complete(s, r, e))
  {
    ReleaseInv(s, r, e);
    if IsProxy(r) {
      ProxyClosesOwnStage(s, r, e);
      CompleteSeqInv(Release(s, r, e), {ProxyStage(r)}, e);
    } else {
      CheckDrainedInv(Release(s, r, e));
      CompleteShape(s, r, e);
    }
  }

  lemma CompleteShape(s: State, r: int, e: int)
    requires !IsProxy(r)
    ensures Complete(s, r, e) == CheckDrained(Release(s, r, e))
  {
    hide CheckDrained;
  }

  /** The request is taken back from the driver, before it is inserted. */
  function TakeBack(s: State, r: int): State {
    s.(driver := s.driver - {r}, inFlight := s.inFlight - Account(s, r),
       started := s.started - {r}, soft := s.soft + {r})
  }

  lemma RequeuePosSplits(s: State, st: Stage, i: nat)
    requires i <= |s.queue|
    ensures forall k :: i <= k < RequeuePos(s, st, i) ==> Bit(ReqSeq(s, s.queue[k])) < Bit(st)
    ensures RequeuePos(s, st, i) < |s.queue| ==> Bit(st) <= Bit(ReqSeq(s, s.queue[RequeuePos(s, st, i)]))
    decreases |s.queue| - i
  {
  }

  ghost function RequeueAt(s: State, r: int): (p: nat)
    ensures p <= |s.queue|
  {
    if s.ordseq == {} then 0 else RequeuePos(s, ReqSeq(s, r), 0)
  }

  /** A proxy behind the insertion point belongs to a later stage. */
  lemma RequeueBehind(s: State, r: int, i: nat)
    requires Inv(s) && r in s.driver && RequeueAt(s, r) <= i < |s.queue| && IsProxy(s.queue[i])
    ensures Bit(ReqSeq(s, r)) < Bit(ReqSeq(s, s.queue[i]))
  {
    var p := RequeueAt(s, r);
    RequeuePosSplits(s, ReqSeq(s, r), 0);
    assert s.queue[i] in multiset(s.queue);
    assert RequestOk(s, {}, s.queue[i]) && RequestOk(s, {}, r);
    assert p < i ==> Before(s, s.queue[p], s.queue[i]);
    assert s.queue[i] != r;
  }

  lemma RequeueFits(s: State, r: int, t: State, i: nat)
    requires Inv(s) && r in s.driver && i < |s.queue|
    requires t.kind == s.kind && t.color == s.color && t.epoch == s.epoch && t.orig == s.orig
    ensures i < RequeueAt(s, r) ==> Before(t, s.queue[i], r)
    ensures RequeueAt(s, r) <= i ==> Before(t, r, s.queue[i])
  {
    RequeuePosSplits(s, ReqSeq(s, r), 0);
    assert RequestOk(s, {}, r);
    if RequeueAt(s, r) <= i && IsProxy(s.queue[i]) { RequeueBehind(s, r, i); }
  }

  lemma RequeueShape(s: State, r: int)
    ensures Requeue(s, r) == TakeBack(s, r).(queue := InsertAt(s.queue, RequeueAt(s, r), r))
  {
    RequeuePosSame(s, TakeBack(s, r), ReqSeq(s, r), 0);
  }

  lemma RequeuePosSame(s: State, t: State, st: Stage, i: nat)
    requires i <= |s.queue| && t.queue == s.queue && t.kind == s.kind && t.color == s.color && t.orig == s.orig
    ensures RequeuePos(s, st, i) == RequeuePos(t, st, i)
    decreases |s.queue| - i
  {
  }

  lemma RequeueRequest(s: State, r: int, p: nat, x: int)
    requires Inv(s) && r in s.driver && p <= |s.queue|
    ensures RequestOk(TakeBack(s, r).(queue := InsertAt(s.queue, p, r)), {}, x)
  {
    InsertCounts(s.queue, p, r);
    assert RequestOk(s, {}, r) && RequestOk(s, {}, x);
  }

  lemma RequeueQueue(s: State, r: int, t: State)
    requires Inv(s) && r in s.driver && t == TakeBack(s, r).(queue := InsertAt(s.queue, RequeueAt(s, r), r))
    ensures QueueOrder(t)
  {
    var p := RequeueAt(s, r);
    forall i, j | 0 <= i < j < |s.queue| ensures Before(t, s.queue[i], s.queue[j]) {
      assert Before(s, s.queue[i], s.queue[j]);
    }
    forall i | 0 <= i < p ensures Before(t, s.queue[i], r) { RequeueFits(s, r, t, i); }
    forall i | p <= i < |s.queue| ensures Before(t, r, s.queue[i]) { RequeueFits(s, r, t, i); }
    InsertOrder(s, t, p, r);
  }

  lemma RequeueSequence(s: State, r: int, t: State)
    requires Inv(s) && r in s.driver && t == TakeBack(s, r).(queue := t.queue)
    ensures Sequence(t, {})
  {
    hide RequestOk, TicketOk, BarrierOk, Before;
    ReleaseAccounted(s, r, t);
    HeldIsNotOrig(s, r);
  }

  lemma RequeueInv(s: State, r: int)
    requires Inv(s) && r in s.driver
    ensures Inv(Requeue(s, r))
  {
    var t := TakeBack(s, r).(queue := InsertAt(s.queue, RequeueAt(s, r), r));
    RequeueShape(s, r);
    LogFrame(s, t);
    forall x ensures RequestOk(t, {}, x) { RequeueRequest(s, r, RequeueAt(s, r), x); }
    RequeueQueue(s, r, t);
    RequeueSequence(s, r, t);
  }

  // ----- every step, every run -----

  lemma StepInv(s: State, a: Action)
    requires Inv(s) && Enabled(s, a)
    ensures Inv(Apply(s, a))
  {
    match a
    case AddSort => SubmitSortedInv(s);
    case AddBack(k) => SubmitBackInv(s, k);
    case AddFront(hard) => SubmitFrontInv(s, hard);
    case Dispatch(r, p) => MoveInv(s, r, p);
    case PeekHead => PeekInv(s);
    case FetchHead => FetchInv(s);
    case End(r, e) => CompleteInv(s, r, e);
    case PutBack(r) => RequeueInv(s, r);
    case BarError(e) => NoteErrorInv(s, {}, e);
  }

  lemma {:induction false} RunInv(s: State, acts: seq<Action>, t: State)
    requires Inv(s) && Runs(s, acts, t)
    ensures Inv(t)
    decreases |acts|
  {
    if acts != [] {
      StepInv(s, acts[0]);
      RunInv(Apply(s, acts[0]), acts[1..], t);
    }
  }

  lemma {:induction false} RunsAppend(s: State, acts: seq<Action>, t: State, a: Action)
    requires Runs(s, acts, t) && Enabled(t, a)
    ensures Runs(s, acts + [a], Apply(t, a))
    decreases |acts|
  {
    hide Apply, Enabled;
    if acts == [] {
      assert [a][1..] == [] && acts + [a] == [a];
    } else {
      RunsAppend(Apply(s, acts[0]), acts[1..], t, a);
      assert (acts + [a])[1..] == acts[1..] + [a];
    }
  }
}
