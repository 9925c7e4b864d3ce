/**
  * The sorted part of the dispatch queue.  elv_dispatch_sort walks from the tail and keeps requests
  * in ascending order from the boundary sector on, then from zero; peeking at the head moves the
  * boundary to the head's end.
  */
module DispatchSort {
  import opened Lists

  /** A request of the queue's one direction. */
  datatype Rq = Rq(id: nat, pos: nat, len: nat) {
    function End(): nat { pos + len }
  }

  /** `started` tells whether the head has been seen by the driver. */
  datatype Queue = Queue(rqs: seq<Rq>, end: nat, started: bool)

  // ----- the order -----

  /** `a` may stand before `b` when the sweep starts at `from`. */
  predicate Before(a: Rq, b: Rq, from: nat) {
    if a.pos >= from then b.pos < from || a.pos <= b.pos else b.pos < from && a.pos <= b.pos
  }

  ghost predicate Cyclic(q: seq<Rq>, from: nat) { forall i, j :: 0 <= i < j < |q| ==> Before(q[i], q[j], from) }

  /** The part that new requests may be sorted into. */
  function Rest(s: Queue): seq<Rq> { if s.started && s.rqs != [] then s.rqs[1..] else s.rqs }

  ghost predicate Apart(a: Rq, b: Rq) { a.End() <= b.pos || b.End() <= a.pos }

  ghost predicate Disjoint(q: seq<Rq>) {
    && (forall i :: 0 <= i < |q| ==> q[i].len > 0)
    && (forall i, j :: 0 <= i < j < |q| ==> Apart(q[i], q[j]))
  }

  ghost predicate Inv(s: Queue) {
    && (s.started ==> s.rqs != [] && s.end == s.rqs[0].End())
    && Cyclic(Rest(s), s.end) && Disjoint(s.rqs)
  }

  lemma BeforeTotal(a: Rq, b: Rq, from: nat)
    ensures Before(a, b, from) || Before(b, a, from)
  {
  }

  lemma BeforeTransitive(a: Rq, b: Rq, c: Rq, from: nat)
    requires Before(a, b, from) && Before(b, c, from)
    ensures Before(a, c, from)
  {
  }

  // ----- insertion -----

  /** The walk from the tail: past every request that must come later, but never past a started one. */
  function Spot(q: seq<Rq>, low: nat, rq: Rq, from: nat, n: nat): (k: nat)
    requires low <= n <= |q|
    ensures low <= k <= n
    ensures (k > low ==> Before(q[k-1], rq, from)) && forall i :: k <= i < n ==> !Before(q[i], rq, from)
    decreases n
  {
    if n == low || Before(q[n-1], rq, from) then n else Spot(q, low, rq, from, n - 1)
  }

  function Low(s: Queue): nat { if s.started && s.rqs != [] then 1 else 0 }

  /** elv_dispatch_sort */
  function Sort(s: Queue, rq: Rq): Queue {
    s.(rqs := Insert(s.rqs, Spot(s.rqs, Low(s), rq, s.end, |s.rqs|), rq))
  }

  lemma InsertCyclic(q: seq<Rq>, k: nat, rq: Rq, from: nat)
    requires Cyclic(q, from) && k <= |q| && (k > 0 ==> Before(q[k-1], rq, from)) && forall i :: k <= i < |q| ==> !Before(q[i], rq, from)
    ensures Cyclic(Insert(q, k, rq), from)
  {
    var r := Insert(q, k, rq);
    hide Insert;
    forall i | 0 <= i < k ensures Before(q[i], rq, from) {
      if i < k - 1 { BeforeTransitive(q[i], q[k-1], rq, from); }
    }
    forall i | k <= i < |q| ensures Before(rq, q[i], from) { BeforeTotal(q[i], rq, from); }
    hide Before;
    forall i, j | 0 <= i < j < |r| ensures Before(r[i], r[j], from) {
      assert r[i] == if i < k then q[i] else if i == k then rq else q[i-1];
      assert r[j] == if j < k then q[j] else if j == k then rq else q[j-1];
    }
  }

  lemma InsertDisjoint(q: seq<Rq>, k: nat, rq: Rq)
    requires Disjoint(q) && k <= |q| && rq.len > 0 && forall i :: 0 <= i < |q| ==> Apart(q[i], rq)
    ensures Disjoint(Insert(q, k, rq))
  {
    var r := Insert(q, k, rq);
    hide Insert;
    forall i | 0 <= i < |r| ensures r[i].len > 0 { assert i > k ==> r[i] == q[i-1]; }
    forall i, j | 0 <= i < j < |r| ensures Apart(r[i], r[j]) {
      assert r[i] == if i < k then q[i] else if i == k then rq else q[i-1];
      assert r[j] == if j < k then q[j] else if j == k then rq else q[j-1];
    }
  }

  lemma InsertTail(q: seq<Rq>, k: nat, rq: Rq)
    requires 1 <= k <= |q|
    ensures Insert(q, k, rq)[0] == q[0] && Insert(q, k, rq)[1..] == Insert(q[1..], k - 1, rq)
  {
    assert q[..k][1..] == q[1..][..k-1] && q[k..] == q[1..][k-1..];
  }

  /** The part behind the started head. */
  lemma SortRest(q: seq<Rq>, k: nat, rq: Rq, from: nat)
    requires 1 <= k <= |q| && Cyclic(q[1..], from)
    requires (k > 1 ==> Before(q[k-1], rq, from)) && forall i :: k <= i < |q| ==> !Before(q[i], rq, from)
    ensures Cyclic(Insert(q, k, rq)[1..], from)
  {
    InsertTail(q, k, rq);
    hide Insert, Before;
    var r := q[1..];
    assert k > 1 ==> r[(k-1)-1] == q[k-1];
    assert forall i :: 0 <= i < |r| ==> r[i] == q[i+1];
    InsertCyclic(r, k - 1, rq, from);
  }

  /** An insertion keeps the cyclic order, loses nothing, and leaves a started head where it is. */
  lemma SortKeeps(s: Queue, rq: Rq)
    requires Inv(s) && rq.len > 0 && forall i :: 0 <= i < |s.rqs| ==> Apart(s.rqs[i], rq)
    ensures Inv(Sort(s, rq)) && multiset(Sort(s, rq).rqs) == multiset(s.rqs) + multiset{rq}
    ensures s.started ==> Sort(s, rq).rqs[0] == s.rqs[0]
  {
    var k := Spot(s.rqs, Low(s), rq, s.end, |s.rqs|);
    assert (k > Low(s) ==> Before(s.rqs[k-1], rq, s.end)) && forall i :: k <= i < |s.rqs| ==> !Before(s.rqs[i], rq, s.end);
    hide Spot, Disjoint, Before, Insert, Cyclic;
    InsertDisjoint(s.rqs, k, rq);
    InsertElems(s.rqs, k, rq);
    if s.started {
      InsertTail(s.rqs, k, rq);
      SortRest(s.rqs, k, rq, s.end);
    } else {
      InsertCyclic(s.rqs, k, rq, s.end);
    }
  }

  // ----- peeking -----

  /** A request that starts inside the head. */
  predicate Inside(h: Rq, r: Rq) { h.pos <= r.pos < h.End() }

  /** blk_peek_request on a queue with a head: the head counts as started and the boundary moves behind it. */
  function Peek(s: Queue): Queue
    requires s.rqs != []
  {
    Queue(s.rqs, s.rqs[0].End(), true)
  }

  ghost predicate NoneInside(h: Rq, q: seq<Rq>) { forall i :: 0 <= i < |q| ==> !Inside(h, q[i]) }

  ghost predicate AllInside(h: Rq, q: seq<Rq>) { forall i :: 0 <= i < |q| ==> Inside(h, q[i]) }

  /** Moving the boundary past the head keeps a pair in order unless exactly one of the two, or the
      wrong one, starts inside the head. */
  lemma PairKept(h: Rq, a: Rq, b: Rq, from: nat)
    requires h.len > 0 && Before(h, a, from) && Before(h, b, from) && Before(a, b, from)
    ensures Before(a, b, h.End()) <==> (!Inside(h, a) || Inside(h, b))
  {
  }

  lemma InsideFirst(h: Rq, a: Rq, b: Rq, from: nat)
    requires h.len > 0 && Before(h, a, from) && Before(h, b, from) && Before(a, b, from) && Inside(h, b)
    ensures Inside(h, a)
  {
  }

  /** The exact condition: the rest of the queue stays in cyclic order if and only if no other
      request starts inside the head, or all of them do. */
  lemma PeekKeepsIff(h: Rq, q: seq<Rq>, from: nat)
    requires h.len > 0 && Cyclic([h] + q, from)
    ensures Cyclic(q, h.End()) <==> NoneInside(h, q) || AllInside(h, q)
  {
    var all := [h] + q;
    forall i | 0 <= i < |q| ensures Before(h, q[i], from) { assert all[i+1] == q[i] && all[0] == h; }
    forall i, j | 0 <= i < j < |q| ensures Before(q[i], q[j], from) { assert all[i+1] == q[i] && all[j+1] == q[j]; }
    forall i, j | 0 <= i < j < |q|
      ensures Before(q[i], q[j], h.End()) <==> (!Inside(h, q[i]) || Inside(h, q[j]))
      ensures Inside(h, q[j]) ==> Inside(h, q[i])
    {
      PairKept(h, q[i], q[j], from);
      if Inside(h, q[j]) { InsideFirst(h, q[i], q[j], from); }
    }
    hide Before, Inside;
    if NoneInside(h, q) || AllInside(h, q) {
      assert Cyclic(q, h.End());
    } else {
      var i :| 0 <= i < |q| && Inside(h, q[i]);
      var j :| 0 <= j < |q| && !Inside(h, q[j]);
      assert i < j;
      assert !Before(q[i], q[j], h.End());
    }
  }

  lemma ApartNotInside(h: Rq, r: Rq)
    requires h.len > 0 && r.len > 0 && Apart(h, r)
    ensures !Inside(h, r)
  {
  }

  /** Peeking keeps the order of a queue of requests that do not overlap. */
  lemma PeekKeeps(s: Queue)
    requires Inv(s) && s.rqs != []
    ensures Inv(Peek(s)) && Peek(s).rqs == s.rqs
  {
    if !s.started {
      var h, q := s.rqs[0], s.rqs[1..];
      assert s.rqs == [h] + q;
      forall i | 0 <= i < |q| ensures !Inside(h, q[i]) {
        assert s.rqs[i+1] == q[i];
        ApartNotInside(h, q[i]);
      }
      PeekKeepsIff(h, q, s.end);
    }
  }

  // ----- taking the head off -----

  /** blk_dequeue_request on a started head. */
  function Dequeue(s: Queue): Queue
    requires s.rqs != []
  {
    Queue(s.rqs[1..], s.end, false)
  }

  lemma DequeueKeeps(s: Queue)
    requires Inv(s) && s.started
    ensures Inv(Dequeue(s)) && multiset(s.rqs) == multiset(Dequeue(s).rqs) + multiset{s.rqs[0]}
  {
    var q := s.rqs[1..];
    assert s.rqs == [s.rqs[0]] + q;
    assert forall i :: 0 <= i < |q| ==> q[i] == s.rqs[i+1];
  }

  /** Overlap can break the order: the head's own extent hides the request that starts inside it. */
  lemma OverlapBreaksOrder()
    ensures var h, a, b := Rq(0, 10, 8), Rq(1, 12, 1), Rq(2, 30, 1);
            Cyclic([h, a, b], 0) && !Cyclic([a, b], h.End())
  {
    var h, a, b := Rq(0, 10, 8), Rq(1, 12, 1), Rq(2, 30, 1);
    var q := [a, b];
    assert !Before(q[0], q[1], h.End());
  }

  // ----- the dispatch queue -----

  class DispatchQueue {
    var rqs: seq<Rq>
    var endSector: nat
    var started: bool

    ghost function State(): Queue
      reads this
    {
      Queue(rqs, endSector, started)
    }

    ghost predicate Valid()
      reads this
    {
      Inv(State())
    }

    constructor ()
      ensures Valid() && rqs == []
    {
      rqs, endSector, started := [], 0, false;
    }

    /** elv_dispatch_sort */
    method DispatchSorted(rq: Rq)
      requires Valid() && rq.len > 0 && forall i :: 0 <= i < |rqs| ==> Apart(rqs[i], rq)
      modifies this`rqs
      ensures State() == Sort(old(State()), rq) && Valid()
      ensures multiset(rqs) == multiset(old(rqs)) + multiset{rq} && (started ==> rqs != [] && rqs[0] == old(rqs)[0])
    {
      ghost var s := State();
      SortKeeps(s, rq);
      assert started ==> rqs != [];
      hide Spot, Inv;
      var k := FindSpot(rqs, started, rq, endSector);
      rqs := rqs[..k] + [rq] + rqs[k..];
    }

    /** blk_peek_request: the head is marked as started. */
    method PeekHead() returns (rq: Rq)
      requires Valid() && rqs != []
      modifies this`started, this`endSector
      ensures State() == Peek(old(State())) && Valid() && rq == rqs[0]
    {
      PeekKeeps(State());
      rq := rqs[0];
      if !started { started := true; }
      endSector := rq.End();
    }

    /** blk_dequeue_request of the head that was peeked at. */
    method TakeHead() returns (rq: Rq)
      requires Valid() && started
      modifies this`rqs, this`started
      ensures State() == Dequeue(old(State())) && Valid() && old(rqs) == [rq] + rqs
    {
      DequeueKeeps(State());
      rq := rqs[0];
      rqs, started := rqs[1..], false;
    }
  }

  /** The list walk of elv_dispatch_sort. */
  method FindSpot(rqs: seq<Rq>, started: bool, rq: Rq, boundary: nat) returns (k: nat)
    requires started ==> rqs != []
    ensures k == Spot(rqs, if started then 1 else 0, rq, boundary, |rqs|)
  {
    hide Spot;
    k := |rqs|;
    ghost var low := if started then 1 else 0;
    while k > 0
      invariant low <= k <= |rqs| && Spot(rqs, low, rq, boundary, k) == Spot(rqs, low, rq, boundary, |rqs|)
    {
      SpotStep(rqs, low, rq, boundary, k);
      if started && k == 1 { return; }
      var pos := rqs[k-1];
      if rq.pos >= boundary {
        if pos.pos < boundary { k := k - 1; continue; }
      } else {
        if pos.pos >= boundary { return; }
      }
      if rq.pos >= pos.pos { return; }
      k := k - 1;
    }
    SpotStep(rqs, low, rq, boundary, 0);
  }

  lemma SpotStep(q: seq<Rq>, low: nat, rq: Rq, from: nat, n: nat)
    requires low <= n <= |q|
    ensures Spot(q, low, rq, from, n) == if n == low || Before(q[n-1], rq, from) then n else Spot(q, low, rq, from, n - 1)
  {
  }
}
