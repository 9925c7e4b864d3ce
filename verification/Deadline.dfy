/**
  * The deadline scheduler.  Every pending request is on two indexes of its direction, a tree
  * sorted by sector and a FIFO of expiry times.  Batches follow the tree; a new batch looks at the
  * FIFO and at how often reads have already passed waiting writes.
  */
module Deadline {
  import opened Lists

  type Id = nat

  /** Position, direction and expiry time. */
  datatype Info = Info(pos: nat, write: bool, expire: int)

  /** One direction: the tree in sector order, the FIFO, and next_rq. */
  datatype Side = Side(tree: seq<Id>, fifo: seq<Id>, next: Maybe)

  /** `queue` is the dispatch queue, to which requests are only added here. */
  datatype Dl = Dl(info: map<Id, Info>, rd: Side, wr: Side, batching: nat, starved: nat, queue: seq<Id>, nrSorted: int) {
    function On(w: bool): Side { if w then wr else rd }
    function With(w: bool, x: Side): Dl { if w then this.(wr := x) else this.(rd := x) }
  }

  datatype Tunables = Tunables(fifoBatch: nat, writesStarved: nat)

  const EMPTY := Dl(map[], Side([], [], None), Side([], [], None), 0, 0, [], 0)

  // ----- the two indexes -----

  ghost predicate Known(info: map<Id, Info>, t: seq<Id>, w: bool) {
    forall i :: 0 <= i < |t| ==> t[i] in info && info[t[i]].write == w
  }

  ghost predicate Sorted(info: map<Id, Info>, t: seq<Id>)
    requires forall i :: 0 <= i < |t| ==> t[i] in info
  {
    forall i, j :: 0 <= i < j < |t| ==> info[t[i]].pos < info[t[j]].pos
  }

  /** A FIFO in order of expiry. */
  ghost predicate InOrder(info: map<Id, Info>, f: seq<Id>) {
    forall i, j :: 0 <= i < j < |f| ==> NotLater(info, f[i], f[j])
  }

  /** `a` expires no later than `b`. */
  ghost predicate NotLater(info: map<Id, Info>, a: Id, b: Id) { a in info && b in info && info[a].expire <= info[b].expire }

  /** Both indexes hold the same requests, each once; the requests in `h` are just being moved in
      the tree and are on the FIFO only. */
  ghost predicate SideOk(info: map<Id, Info>, x: Side, w: bool, h: set<Id>) {
    && Known(info, x.tree, w) && Known(info, x.fifo, w)
    && Sorted(info, x.tree) && NoDup(x.fifo)
    && (forall r :: r in x.tree <==> r in x.fifo && r !in h)
    && (x.next.Some? ==> x.next.value in x.fifo)
  }

  ghost predicate QueueOk(s: Dl) {
    NoDup(s.queue) && forall r :: r in s.queue ==> r in s.info && r !in s.rd.fifo && r !in s.wr.fifo
  }

  ghost predicate Indexed(s: Dl, h: set<Id>) {
    && SideOk(s.info, s.rd, false, h) && SideOk(s.info, s.wr, true, h)
    && !(s.rd.next.Some? && s.wr.next.Some?)
    && QueueOk(s)
  }

  ghost predicate Inv(s: Dl) { Indexed(s, {}) && s.nrSorted == |s.rd.fifo| + |s.wr.fifo| }

  ghost predicate Pending(s: Dl, r: Id) { r in s.rd.fifo || r in s.wr.fifo }

  /** The place of sector `p` in a tree. */
  function Place(info: map<Id, Info>, t: seq<Id>, p: nat): (k: nat)
    requires forall i :: 0 <= i < |t| ==> t[i] in info
    ensures k <= |t| && (forall i :: 0 <= i < k ==> info[t[i]].pos < p) && (k < |t| ==> info[t[k]].pos >= p)
  {
    if t == [] || info[t[0]].pos >= p then 0 else 1 + Place(info, t[1..], p)
  }

  /** The request after `r` in sector order. */
  function Latter(t: seq<Id>, r: Id): Maybe
    requires r in t
  {
    var k := IndexOf(t, r) + 1;
    if k < |t| then Some(t[k]) else None
  }

  // ----- steps -----

  /** deadline_move_request */
  function Move(s: Dl, r: Id): Dl
    requires r in s.info && r in s.On(s.info[r].write).tree
  {
    var w := s.info[r].write;
    var x := s.On(w);
    var y := Side(Without(x.tree, r), Without(x.fifo, r), Latter(x.tree, r));
    var other := s.On(!w).(next := None);
    s.With(w, y).With(!w, other).(queue := s.queue + [r], nrSorted := s.nrSorted - 1)
  }

  /** The request that stands in the way of sector `p`. */
  function Alias(s: Dl, w: bool, p: nat): Maybe
    requires Known(s.info, s.On(w).tree, w)
  {
    var t := s.On(w).tree;
    var k := Place(s.info, t, p);
    if k < |t| && s.info[t[k]].pos == p then Some(t[k]) else None
  }

  function Cleared(s: Dl, w: bool, p: nat): Dl
    requires Known(s.info, s.On(w).tree, w)
  {
    var a := Alias(s, w, p);
    if a.Some? then Move(s, a.value) else s
  }

  function Linked(info: map<Id, Info>, t: seq<Id>, r: Id): seq<Id>
    requires r in info && forall i :: 0 <= i < |t| ==> t[i] in info
  {
    Insert(t, Place(info, t, info[r].pos), r)
  }

  // ----- facts about the indexes -----

  /** What holds of all pairs in order still holds with one taken out. */
  lemma WithoutOrder(info: map<Id, Info>, t: seq<Id>, r: Id)
    requires forall i :: 0 <= i < |t| ==> t[i] in info
    ensures forall i :: 0 <= i < |Without(t, r)| ==> Without(t, r)[i] in info
    ensures Sorted(info, t) ==> Sorted(info, Without(t, r))
  {
    hide Remove, IndexOf;
  }

  lemma SortedNoDup(info: map<Id, Info>, t: seq<Id>)
    requires (forall i :: 0 <= i < |t| ==> t[i] in info) && Sorted(info, t)
    ensures NoDup(t)
  {
  }

  lemma LatterIn(t: seq<Id>, r: Id)
    requires NoDup(t) && r in t
    ensures Latter(t, r).Some? ==> Latter(t, r).value in t && Latter(t, r).value != r
  {
    hide IndexOf;
  }

  lemma InsertSorted(info: map<Id, Info>, t: seq<Id>, k: nat, r: Id)
    requires r in info && (forall i :: 0 <= i < |t| ==> t[i] in info) && Sorted(info, t) && k <= |t|
    requires (forall i :: 0 <= i < k ==> info[t[i]].pos < info[r].pos) && (k < |t| ==> info[t[k]].pos > info[r].pos)
    ensures (forall i :: 0 <= i < |Insert(t, k, r)| ==> Insert(t, k, r)[i] in info) && Sorted(info, Insert(t, k, r))
  {
    forall i | k <= i < |t| ensures info[t[i]].pos > info[r].pos {}
    var u := Insert(t, k, r);
    hide Insert;
    forall i | 0 <= i < |u| ensures u[i] in info {
      assert i > k ==> u[i] == t[i-1];
    }
    forall i, j | 0 <= i < j < |u| ensures info[u[i]].pos < info[u[j]].pos {
      assert i > k ==> u[i] == t[i-1];
      assert j > k ==> u[j] == t[j-1];
    }
  }

  lemma LinkedSorted(info: map<Id, Info>, t: seq<Id>, r: Id)
    requires r in info && (forall i :: 0 <= i < |t| ==> t[i] in info) && Sorted(info, t)
    requires forall x :: x in t ==> info[x].pos != info[r].pos
    ensures (forall x :: x in Linked(info, t, r) <==> x in t || x == r)
    ensures (forall i :: 0 <= i < |Linked(info, t, r)| ==> Linked(info, t, r)[i] in info) && Sorted(info, Linked(info, t, r))
  {
    hide Insert, Sorted, Place;
    var k := Place(info, t, info[r].pos);
    assert k < |t| ==> t[k] in t;
    InsertElems(t, k, r);
    InsertSorted(info, t, k, r);
  }

  // ----- moving a request to the dispatch queue -----

  lemma MovedSide(info: map<Id, Info>, x: Side, w: bool, h: set<Id>, r: Id)
    requires SideOk(info, x, w, h) && r in x.tree
    ensures SideOk(info, Side(Without(x.tree, r), Without(x.fifo, r), Latter(x.tree, r)), w, h)
    ensures |Without(x.fifo, r)| == |x.fifo| - 1 && (forall q :: q in Without(x.fifo, r) <==> q in x.fifo && q != r)
  {
    SortedNoDup(info, x.tree);
    hide Without, Latter, Sorted, NoDup;
    WithoutFacts(x.tree, r);
    WithoutFacts(x.fifo, r);
    WithoutOrder(info, x.tree, r);
    WithoutOrder(info, x.fifo, r);
    LatterIn(x.tree, r);
    KnownPart(info, x.tree, Without(x.tree, r), w);
    KnownPart(info, x.fifo, Without(x.fifo, r), w);
  }

  lemma KnownPart(info: map<Id, Info>, t: seq<Id>, u: seq<Id>, w: bool)
    requires Known(info, t, w) && forall x :: x in u ==> x in t
    ensures Known(info, u, w)
  {
    forall i | 0 <= i < |u| ensures u[i] in info && info[u[i]].write == w { assert u[i] in t; }
  }

  lemma KnownIn(info: map<Id, Info>, t: seq<Id>, w: bool, r: Id)
    requires Known(info, t, w) && r in t
    ensures r in info && info[r].write == w
  {
  }

  /** The sides after a request of direction `w` has been moved. */
  lemma MoveShape(s: Dl, r: Id, w: bool)
    requires r in s.info && s.info[r].write == w && r in s.On(w).tree
    ensures var x, t := s.On(w), Move(s, r);
            && t.On(w) == Side(Without(x.tree, r), Without(x.fifo, r), Latter(x.tree, r))
            && t.On(!w) == s.On(!w).(next := None) && t.info == s.info
            && t.queue == s.queue + [r] && t.nrSorted == s.nrSorted - 1 && t.batching == s.batching && t.starved == s.starved
  {
    hide Without, Latter;
  }

  lemma MoveIndexed(s: Dl, r: Id, h: set<Id>)
    requires Indexed(s, h) && r in s.info && r in s.On(s.info[r].write).tree
    ensures Indexed(Move(s, r), h)
    ensures var w, t := s.info[r].write, Move(s, r);
            && |t.On(w).fifo| == |s.On(w).fifo| - 1 && t.On(!w).fifo == s.On(!w).fifo
            && forall q :: q in t.On(w).fifo <==> q in s.On(w).fifo && q != r
  {
    var w, t := s.info[r].write, Move(s, r);
    MoveShape(s, r, w);
    hide Move, Without, Latter, Known, Sorted, NoDup;
    MovedSide(s.info, s.On(w), w, h, r);
    assert r in s.On(w).fifo;
    NoDupSnoc(s.queue, r);
    assert forall q :: q in t.queue <==> q in s.queue || q == r;
    OneSide(s, r, w);
  }

  lemma OneSide(s: Dl, r: Id, w: bool)
    requires Known(s.info, s.rd.fifo, false) && Known(s.info, s.wr.fifo, true) && r in s.On(w).fifo
    ensures r !in s.On(!w).fifo
  {
    KnownIn(s.info, s.On(w).fifo, w, r);
    if r in s.On(!w).fifo {
      KnownIn(s.info, s.On(!w).fifo, !w, r);
    }
  }

  /** deadline_move_request keeps the indexes in step. */
  lemma MoveInv(s: Dl, r: Id)
    requires Inv(s) && r in s.info && r in s.On(s.info[r].write).tree
    ensures Inv(Move(s, r))
  {
    MoveShape(s, r, s.info[r].write);
    hide Move, Indexed;
    MoveIndexed(s, r, {});
  }

  // ----- adding to the tree -----

  /** No request of the tree is at the sector any more. */
  ghost predicate Free(info: map<Id, Info>, t: seq<Id>, p: nat) { forall x :: x in t ==> x in info && info[x].pos != p }

  lemma NoAliasFree(info: map<Id, Info>, t: seq<Id>, w: bool, p: nat)
    requires Known(info, t, w) && Sorted(info, t)
    requires var k := Place(info, t, p); k < |t| ==> info[t[k]].pos != p
    ensures Free(info, t, p)
  {
    var k := Place(info, t, p);
    hide Place;
    forall i | 0 <= i < |t| ensures info[t[i]].pos != p {
      assert i > k ==> info[t[k]].pos < info[t[i]].pos;
    }
    hide Sorted;
    forall x | x in t ensures x in info && info[x].pos != p {
      var i :| 0 <= i < |t| && t[i] == x;
    }
  }

  lemma AliasGoneFree(info: map<Id, Info>, t: seq<Id>, w: bool, p: nat, a: Id)
    requires Known(info, t, w) && Sorted(info, t) && a in t && a in info && info[a].pos == p
    ensures Free(info, Without(t, a), p)
  {
    SortedNoDup(info, t);
    WithoutFacts(t, a);
    hide Without;
    forall x | x in Without(t, a) ensures x in info && info[x].pos != p {
      var i :| 0 <= i < |t| && t[i] == x;
      var j :| 0 <= j < |t| && t[j] == a;
    }
  }

  lemma AliasIs(s: Dl, w: bool, p: nat)
    requires Known(s.info, s.On(w).tree, w)
    ensures var a := Alias(s, w, p); a.Some? ==> a.value in s.info && a.value in s.On(w).tree && s.info[a.value].pos == p && s.info[a.value].write == w
  {
    hide Place;
  }

  /** The while loop of deadline_add_rq_rb needs its body at most once: after it no request is in the way. */
  lemma ClearedIndexed(s: Dl, w: bool, p: nat, h: set<Id>, t: Dl)
    requires Indexed(s, h) && t == Cleared(s, w, p)
    ensures Indexed(t, h) && Free(t.info, t.On(w).tree, p) && t.info == s.info && t.On(!w).fifo == s.On(!w).fifo
    ensures |t.On(w).fifo| - t.nrSorted == |s.On(w).fifo| - s.nrSorted && t.batching == s.batching && t.starved == s.starved
    ensures forall q :: q in t.On(w).fifo ==> q in s.On(w).fifo
    ensures forall q :: q in s.On(w).fifo ==> q in t.On(w).fifo || Alias(s, w, p) == Some(q)
    ensures t.queue == s.queue + if Alias(s, w, p).Some? then [Alias(s, w, p).value] else []
  {
    AliasIs(s, w, p);
    var a := Alias(s, w, p);
    if a.Some? {
      hide Alias, Move, Known, Sorted, Without, Latter;
      MoveShape(s, a.value, w);
      MoveIndexed(s, a.value, h);
      AliasGoneFree(s.info, s.On(w).tree, w, p, a.value);
    } else {
      hide Move, Known, Sorted, Place;
      NoAliasFree(s.info, s.On(w).tree, w, p);
    }
  }

  function Relinked(s: Dl, w: bool, r: Id): Dl
    requires r in s.info && forall i :: 0 <= i < |s.On(w).tree| ==> s.On(w).tree[i] in s.info
  {
    s.With(w, s.On(w).(tree := Linked(s.info, s.On(w).tree, r)))
  }

  lemma RelinkSide(info: map<Id, Info>, x: Side, w: bool, r: Id)
    requires SideOk(info, x, w, {r}) && r in x.fifo && r in info && Free(info, x.tree, info[r].pos)
    ensures SideOk(info, x.(tree := Linked(info, x.tree, r)), w, {})
  {
    hide Linked, Sorted, NoDup;
    LinkedSorted(info, x.tree, r);
    KnownIn(info, x.fifo, w, r);
    forall i | 0 <= i < |Linked(info, x.tree, r)| ensures info[Linked(info, x.tree, r)[i]].write == w {
      var y := Linked(info, x.tree, r)[i];
      assert y in Linked(info, x.tree, r);
      if y != r { KnownIn(info, x.tree, w, y); }
    }
  }

  lemma OtherSide(info: map<Id, Info>, x: Side, w: bool, r: Id)
    requires SideOk(info, x, w, {r}) && r !in x.fifo
    ensures SideOk(info, x, w, {})
  {
  }

  lemma RelinkIndexed(s: Dl, w: bool, r: Id)
    requires Indexed(s, {r}) && r in s.On(w).fifo && r in s.info && Free(s.info, s.On(w).tree, s.info[r].pos)
    ensures Indexed(Relinked(s, w, r), {})
  {
    OneSide(s, r, w);
    hide SideOk, Linked, NoDup;
    RelinkSide(s.info, s.On(w), w, r);
    OtherSide(s.info, s.On(!w), !w, r);
  }

  /** deadline_add_request, called for a sorted insertion. */
  function Add(s: Dl, r: Id, f: Info): Dl
    requires Indexed(s, {}) && r !in s.info
  {
    var s1 := s.(info := s.info[r := f], nrSorted := s.nrSorted + 1);
    var s2 := Cleared(s1, f.write, f.pos);
    AddReady(s, r, f);
    var x := s2.On(f.write);
    s2.With(f.write, x.(tree := Linked(s2.info, x.tree, r), fifo := x.fifo + [r]))
  }

  lemma SideMoreInfo(info: map<Id, Info>, x: Side, w: bool, h: set<Id>, r: Id, f: Info)
    requires SideOk(info, x, w, h) && r !in info
    ensures SideOk(info[r := f], x, w, h) && r !in x.fifo
  {
    assert r !in x.fifo by { if r in x.fifo { KnownIn(info, x.fifo, w, r); } }
  }

  lemma AddReady(s: Dl, r: Id, f: Info)
    requires Indexed(s, {}) && r !in s.info
    ensures var s1 := s.(info := s.info[r := f], nrSorted := s.nrSorted + 1);
            Indexed(s1, {}) && Known(s1.info, Cleared(s1, f.write, f.pos).On(f.write).tree, f.write)
            && Cleared(s1, f.write, f.pos).info == s1.info && r !in s.rd.fifo && r !in s.wr.fifo && r !in s.queue
  {
    hide SideOk, NoDup;
    SideMoreInfo(s.info, s.rd, false, {}, r, f);
    SideMoreInfo(s.info, s.wr, true, {}, r, f);
    var s1 := s.(info := s.info[r := f], nrSorted := s.nrSorted + 1);
    assert Indexed(s1, {});
    AddCleared(s1, f);
  }

  lemma AddCleared(s1: Dl, f: Info)
    requires Indexed(s1, {})
    ensures Known(s1.info, s1.On(f.write).tree, f.write)
    ensures Known(s1.info, Cleared(s1, f.write, f.pos).On(f.write).tree, f.write) && Cleared(s1, f.write, f.pos).info == s1.info
  {
    ClearedIndexed(s1, f.write, f.pos, {}, Cleared(s1, f.write, f.pos));
  }

  lemma Enlist(info: map<Id, Info>, x: Side, w: bool, r: Id)
    requires SideOk(info, x, w, {}) && r in info && info[r].write == w && r !in x.fifo
    ensures SideOk(info, x.(fifo := x.fifo + [r]), w, {r})
  {
    NoDupSnoc(x.fifo, r);
  }

  lemma WithHole(info: map<Id, Info>, x: Side, w: bool, r: Id)
    requires SideOk(info, x, w, {}) && r !in x.fifo
    ensures SideOk(info, x, w, {r})
  {
  }

  lemma EnlistIndexed(s: Dl, w: bool, r: Id)
    requires Indexed(s, {}) && r in s.info && s.info[r].write == w && r !in s.rd.fifo && r !in s.wr.fifo && r !in s.queue
    ensures Indexed(s.With(w, s.On(w).(fifo := s.On(w).fifo + [r])), {r})
  {
    hide SideOk, NoDup;
    Enlist(s.info, s.On(w), w, r);
    WithHole(s.info, s.On(!w), !w, r);
  }

  /** The state with the new request on the FIFO but not yet in the tree. */
  ghost function Enlisted(s: Dl, r: Id, f: Info): Dl
    requires Indexed(s, {}) && r !in s.info
  {
    AddReady(s, r, f);
    var s2 := Cleared(s.(info := s.info[r := f], nrSorted := s.nrSorted + 1), f.write, f.pos);
    s2.With(f.write, s2.On(f.write).(fifo := s2.On(f.write).fifo + [r]))
  }

  lemma EnlistedIndexed(s: Dl, r: Id, f: Info, t: Dl)
    requires Indexed(s, {}) && r !in s.info && t == Enlisted(s, r, f)
    ensures Indexed(t, {r}) && r in t.On(f.write).fifo && r in t.info && t.info[r] == f && Free(t.info, t.On(f.write).tree, f.pos)
    ensures t.batching == s.batching && t.starved == s.starved
    ensures |t.rd.fifo| + |t.wr.fifo| - t.nrSorted == |s.rd.fifo| + |s.wr.fifo| - s.nrSorted
    ensures forall q :: Pending(s, q) || q == r ==> Pending(t, q) || q in t.queue
  {
    hide SideOk, Alias, Cleared, QueueOk, Known;
    AddReady(s, r, f);
    var s1 := s.(info := s.info[r := f], nrSorted := s.nrSorted + 1);
    IndexedKnown(s1, {}, f.write);
    var s2 := Cleared(s1, f.write, f.pos);
    ClearedIndexed(s1, f.write, f.pos, {}, s2);
    StillOut(s1, s2, f.write, r, f.pos);
    EnlistIndexed(s2, f.write, r);
  }

  lemma AddIs(s: Dl, r: Id, f: Info)
    requires Indexed(s, {}) && r !in s.info && Known(Enlisted(s, r, f).info, Enlisted(s, r, f).On(f.write).tree, f.write)
    requires r in Enlisted(s, r, f).info
    ensures Add(s, r, f) == Relinked(Enlisted(s, r, f), f.write, r)
  {
    hide Cleared, Linked, Indexed;
    AddReady(s, r, f);
  }

  lemma AddIndexed(s: Dl, r: Id, f: Info, t: Dl)
    requires Indexed(s, {}) && r !in s.info && t == Add(s, r, f)
    ensures Indexed(t, {})
    ensures |t.rd.fifo| + |t.wr.fifo| - t.nrSorted == |s.rd.fifo| + |s.wr.fifo| - s.nrSorted
    ensures t.batching == s.batching && t.starved == s.starved
    ensures forall q :: Pending(s, q) || q == r ==> Pending(t, q) || q in t.queue
  {
    hide Add, Enlisted, SideOk, Linked, QueueOk;
    var u := Enlisted(s, r, f);
    EnlistedIndexed(s, r, f, u);
    IndexedKnown(u, {r}, f.write);
    AddIs(s, r, f);
    RelinkIndexed(u, f.write, r);
  }

  lemma IndexedKnown(s: Dl, h: set<Id>, w: bool)
    requires Indexed(s, h)
    ensures Known(s.info, s.On(w).tree, w)
  {
  }

  lemma StillOut(s1: Dl, s2: Dl, w: bool, r: Id, p: nat)
    requires Indexed(s1, {}) && s2 == Cleared(s1, w, p) && r !in s1.rd.fifo && r !in s1.wr.fifo && r !in s1.queue
    ensures r !in s2.rd.fifo && r !in s2.wr.fifo && r !in s2.queue
  {
    AliasIs(s1, w, p);
    ClearedIndexed(s1, w, p, {}, s2);
    hide Cleared, Alias, Known, Sorted, NoDup;
  }

  lemma AddInv(s: Dl, r: Id, f: Info)
    requires Inv(s) && r !in s.info
    ensures Inv(Add(s, r, f))
  {
    hide Indexed, Add;
    AddIndexed(s, r, f, Add(s, r, f));
  }

  // ----- merges -----

  /** The request taken from the tree and given its new position, as deadline_merged_request finds it. */
  function Unlinked(s: Dl, r: Id, p: nat): Dl
    requires r in s.info
  {
    var w := s.info[r].write;
    s.With(w, s.On(w).(tree := Without(s.On(w).tree, r))).(info := s.info[r := s.info[r].(pos := p)])
  }

  lemma UnlinkSide(info: map<Id, Info>, x: Side, w: bool, r: Id, p: nat)
    requires SideOk(info, x, w, {}) && r in info && info[r].write == w && r in x.tree
    ensures SideOk(info[r := info[r].(pos := p)], x.(tree := Without(x.tree, r)), w, {r})
  {
    hide Without, NoDup;
    SortedNoDup(info, x.tree);
    WithoutFacts(x.tree, r);
    WithoutOrder(info, x.tree, r);
    KnownPart(info, x.tree, Without(x.tree, r), w);
    hide Known, Sorted;
    Repositioned(info, Without(x.tree, r), w, r, p);
    SameSides(info, x.fifo, w, r, p);
  }

  /** Positions of the others are untouched. */
  lemma Repositioned(info: map<Id, Info>, u: seq<Id>, w: bool, r: Id, p: nat)
    requires Known(info, u, w) && Sorted(info, u) && r in info && r !in u
    ensures Known(info[r := info[r].(pos := p)], u, w) && Sorted(info[r := info[r].(pos := p)], u)
  {
    assert forall i :: 0 <= i < |u| ==> u[i] in u;
  }

  lemma SameSides(info: map<Id, Info>, f: seq<Id>, w: bool, r: Id, p: nat)
    requires Known(info, f, w) && r in info
    ensures Known(info[r := info[r].(pos := p)], f, w)
  {
  }

  lemma UntouchedSide(info: map<Id, Info>, x: Side, w: bool, r: Id, f: Info)
    requires SideOk(info, x, w, {}) && r !in x.fifo
    ensures SideOk(info[r := f], x, w, {r})
  {
    assert forall i :: 0 <= i < |x.tree| ==> x.tree[i] in x.tree;
    assert forall i :: 0 <= i < |x.fifo| ==> x.fifo[i] in x.fifo;
  }

  lemma UnlinkIndexed(s: Dl, r: Id, p: nat)
    requires Indexed(s, {}) && r in s.info && r in s.On(s.info[r].write).tree
    ensures Indexed(Unlinked(s, r, p), {r})
    ensures Known(Unlinked(s, r, p).info, Unlinked(s, r, p).On(s.info[r].write).tree, s.info[r].write)
  {
    var w := s.info[r].write;
    OneSide(s, r, w);
    UnlinkSide(s.info, s.On(w), w, r, p);
    UntouchedSide(s.info, s.On(!w), !w, r, s.info[r].(pos := p));
    hide Without, Sorted, NoDup;
  }

  /** deadline_merged_request after a front merge has moved the start of `r` to `p`. */
  function FrontMerge(s: Dl, r: Id, p: nat): Dl
    requires Indexed(s, {}) && r in s.info && r in s.On(s.info[r].write).tree
  {
    UnlinkIndexed(s, r, p);
    var w, s1 := s.info[r].write, Unlinked(s, r, p);
    ClearedIndexed(s1, w, p, {r}, Cleared(s1, w, p));
    Relinked(Cleared(s1, w, p), w, r)
  }

  lemma FrontMergeIndexed(s: Dl, r: Id, p: nat, t: Dl)
    requires Indexed(s, {}) && r in s.info && r in s.On(s.info[r].write).tree && t == FrontMerge(s, r, p)
    ensures Indexed(t, {}) && t.batching == s.batching && t.starved == s.starved
    ensures |t.rd.fifo| + |t.wr.fifo| - t.nrSorted == |s.rd.fifo| + |s.wr.fifo| - s.nrSorted
    ensures forall q :: Pending(s, q) ==> Pending(t, q) || q in t.queue
  {
    UnlinkIndexed(s, r, p);
    var w, s1 := s.info[r].write, Unlinked(s, r, p);
    var s2 := Cleared(s1, w, p);
    ClearedIndexed(s1, w, p, {r}, s2);
    AliasIs(s1, w, p);
    hide Cleared, Alias, Linked, Without, SideOk, QueueOk;
    RNotAlias(s1, w, p, r);
    RelinkIndexed(s2, w, r);
  }

  lemma RNotAlias(s1: Dl, w: bool, p: nat, r: Id)
    requires Indexed(s1, {r})
    ensures Known(s1.info, s1.On(w).tree, w) && Alias(s1, w, p) != Some(r)
  {
    AliasIs(s1, w, p);
  }

  lemma FrontMergeInv(s: Dl, r: Id, p: nat)
    requires Inv(s) && r in s.info && r in s.On(s.info[r].write).tree
    ensures Inv(FrontMerge(s, r, p))
  {
    hide Indexed, FrontMerge;
    FrontMergeIndexed(s, r, p, FrontMerge(s, r, p));
  }
}
