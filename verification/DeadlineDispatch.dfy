/** Request merges, dispatching and the promises of the deadline scheduler. */
module DeadlineDispatch {
  import opened Deadline
  import opened Lists

  // ----- merging two requests -----

  /** `r` takes the place of `n` in the FIFO. */
  function Takeover(f: seq<Id>, r: Id, n: Id): seq<Id>
    requires n in Without(f, r)
  {
    Without(f, r)[IndexOf(Without(f, r), n) := r]
  }

  /** The FIFO and the expiry times after deadline_merged_requests. */
  function MergedFifo(info: map<Id, Info>, f: seq<Id>, r: Id, n: Id): seq<Id>
    requires r in info && n in info && n in Without(f, r)
  {
    if info[n].expire < info[r].expire then Takeover(f, r, n) else Without(f, n)
  }

  function MergedInfo(info: map<Id, Info>, r: Id, n: Id): map<Id, Info>
    requires r in info && n in info
  {
    if info[n].expire < info[r].expire then info[r := info[r].(expire := info[n].expire)] else info
  }

  /** deadline_merged_requests: `n` has been merged into `r` and disappears. */
  function Merge(s: Dl, r: Id, n: Id): Dl
    requires r in s.info && n in s.info && var x := s.On(s.info[r].write); n in x.tree && n in Without(x.fifo, r)
  {
    var w := s.info[r].write;
    var x := s.On(w);
    var next := if x.next == Some(n) then Latter(x.tree, n) else x.next;
    s.With(w, Side(Without(x.tree, n), MergedFifo(s.info, x.fifo, r, n), next))
     .(info := MergedInfo(s.info, r, n), nrSorted := s.nrSorted - 1)
  }

  lemma TakeoverElems(f: seq<Id>, r: Id, n: Id)
    requires NoDup(f) && r in f && n in f && r != n
    ensures n in Without(f, r) && NoDup(Takeover(f, r, n)) && |Takeover(f, r, n)| == |f| - 1
    ensures forall x :: x in Takeover(f, r, n) <==> x in f && x != n
  {
    WithoutFacts(f, r);
    hide Without;
    var u := Without(f, r);
    var k := IndexOf(u, n);
    hide IndexOf;
    var g := u[k := r];
    forall x | x in f && x != n ensures x in g {
      if x == r {
        assert g[k] == r;
      } else {
        var i :| 0 <= i < |u| && u[i] == x;
        assert g[i] == x;
      }
    }
    forall i | 0 <= i < |g| ensures g[i] in f && g[i] != n { assert u[i] in u; }
  }

  lemma KnownInfo(info: map<Id, Info>, t: seq<Id>, w: bool, r: Id, e: int)
    requires Known(info, t, w) && r in info
    ensures Known(info[r := info[r].(expire := e)], t, w)
    ensures Sorted(info, t) ==> Sorted(info[r := info[r].(expire := e)], t)
  {
  }

  /** `n` leaves both indexes. */
  lemma LateSide(info: map<Id, Info>, x: Side, w: bool, n: Id)
    requires SideOk(info, x, w, {}) && n in x.tree
    ensures SideOk(info, Side(Without(x.tree, n), Without(x.fifo, n), if x.next == Some(n) then Latter(x.tree, n) else x.next), w, {})
  {
    SortedNoDup(info, x.tree);
    hide Without, Latter, Sorted, NoDup;
    WithoutFacts(x.fifo, n);
    LatterIn(x.tree, n);
    MovedSide(info, x, w, {}, n);
  }

  /** `n` leaves both indexes and `r` takes its place in the FIFO. */
  lemma EarlySide(info: map<Id, Info>, x: Side, y: Side, w: bool, r: Id, n: Id)
    requires SideOk(info, x, w, {}) && r in x.tree && n in x.tree && r != n && r in info && n in info
    requires y.tree == Without(x.tree, n) && n in Without(x.fifo, r) && y.fifo == Takeover(x.fifo, r, n)
    requires y.next == if x.next == Some(n) then Latter(x.tree, n) else x.next
    ensures SideOk(info[r := info[r].(expire := info[n].expire)], y, w, {})
  {
    LateSide(info, x, w, n);
    WithoutFacts(x.fifo, n);
    hide Without, Latter, Takeover, Sorted, NoDup;
    TakeoverElems(x.fifo, r, n);
    KnownPart(info, x.fifo, y.fifo, w);
    KnownInfo(info, y.tree, w, r, info[n].expire);
    KnownInfo(info, y.fifo, w, r, info[n].expire);
  }

  lemma MergedSide(info: map<Id, Info>, x: Side, w: bool, r: Id, n: Id)
    requires SideOk(info, x, w, {}) && r in x.tree && n in x.tree && r != n && r in info && n in info
    ensures n in Without(x.fifo, r)
    ensures var next := if x.next == Some(n) then Latter(x.tree, n) else x.next;
            SideOk(MergedInfo(info, r, n), Side(Without(x.tree, n), MergedFifo(info, x.fifo, r, n), next), w, {})
    ensures |MergedFifo(info, x.fifo, r, n)| == |x.fifo| - 1
    ensures forall q :: q in MergedFifo(info, x.fifo, r, n) <==> q in x.fifo && q != n
  {
    hide Without, Latter, Takeover, Known, Sorted, NoDup;
    TakeoverElems(x.fifo, r, n);
    WithoutFacts(x.fifo, n);
    var next := if x.next == Some(n) then Latter(x.tree, n) else x.next;
    if info[n].expire < info[r].expire {
      EarlySide(info, x, Side(Without(x.tree, n), Takeover(x.fifo, r, n), next), w, r, n);
    } else {
      LateSide(info, x, w, n);
    }
  }

  lemma OtherInfo(info: map<Id, Info>, x: Side, w: bool, r: Id, e: int)
    requires SideOk(info, x, w, {}) && r !in x.fifo && r in info
    ensures SideOk(info[r := info[r].(expire := e)], x, w, {})
  {
    assert forall i :: 0 <= i < |x.tree| ==> x.tree[i] in x.tree;
    assert forall i :: 0 <= i < |x.fifo| ==> x.fifo[i] in x.fifo;
  }

  lemma MergeInv(s: Dl, r: Id, n: Id)
    requires Inv(s) && r in s.info && r != n && r in s.On(s.info[r].write).tree && n in s.On(s.info[r].write).tree
    ensures n in s.info && n in Without(s.On(s.info[r].write).fifo, r) && Inv(Merge(s, r, n))
    ensures forall q :: Pending(Merge(s, r, n), q) <==> Pending(s, q) && q != n
    ensures Merge(s, r, n).batching == s.batching && Merge(s, r, n).starved == s.starved && Merge(s, r, n).queue == s.queue
  {
    hide Without, Latter, MergedFifo, Known, Sorted, NoDup;
    var w := s.info[r].write;
    KnownIn(s.info, s.On(w).tree, w, n);
    OneSide(s, r, w);
    OneSide(s, n, w);
    MergedSide(s.info, s.On(w), w, r, n);
    OtherInfo(s.info, s.On(!w), !w, r, s.info[n].expire);
    hide SideOk;
  }

  // ----- dispatching -----

  datatype Outcome = Outcome(s: Dl, chosen: Maybe)

  /** A batch that is continued, as next_rq says. */
  function Ahead(s: Dl): Maybe { if s.wr.next.Some? then s.wr.next else s.rd.next }

  /** The first request of a new batch. */
  function First(x: Side, info: map<Id, Info>, now: int): Id
    requires x.fifo != [] && x.fifo[0] in info
  {
    if now > info[x.fifo[0]].expire || x.next == None then x.fifo[0] else x.next.value
  }

  /** The direction of a new batch and the count of times reads have gone first. */
  function Direction(s: Dl, tun: Tunables): (bool, nat) {
    if s.rd.fifo != [] && !(s.wr.fifo != [] && s.starved >= tun.writesStarved)
    then (false, if s.wr.fifo != [] then s.starved + 1 else s.starved)
    else (true, 0)
  }

  /** deadline_dispatch_requests */
  ghost function Dispatch(s: Dl, tun: Tunables, now: int): Outcome
    requires Inv(s)
  {
    if Ahead(s).Some? && s.batching < tun.fifoBatch then
      AheadPending(s);
      Outcome(Move(s.(batching := s.batching + 1), Ahead(s).value), Ahead(s))
    else if s.rd.fifo == [] && s.wr.fifo == [] then Outcome(s, None)
    else
      var (w, starved) := Direction(s, tun);
      FirstPending(s, w, now);
      var r := First(s.On(w), s.info, now);
      Outcome(Move(s.(batching := 1, starved := starved), r), Some(r))
  }

  lemma AheadPending(s: Dl)
    requires Inv(s) && Ahead(s).Some?
    ensures var r := Ahead(s).value; r in s.info && r in s.On(s.info[r].write).tree && s.info[r].write == s.wr.next.Some?
  {
    var w := s.wr.next.Some?;
    KnownIn(s.info, s.On(w).fifo, w, Ahead(s).value);
  }

  lemma FirstPending(s: Dl, w: bool, now: int)
    requires Inv(s) && s.On(w).fifo != []
    ensures s.On(w).fifo[0] in s.info && var r := First(s.On(w), s.info, now);
            r in s.info && r in s.On(w).tree && s.info[r].write == w
  {
    assert s.On(w).fifo[0] in s.On(w).fifo;
    KnownIn(s.info, s.On(w).fifo, w, s.On(w).fifo[0]);
    var r := First(s.On(w), s.info, now);
    assert r in s.On(w).fifo;
    KnownIn(s.info, s.On(w).fifo, w, r);
  }

  lemma TunedInv(s: Dl, batching: nat, starved: nat)
    requires Inv(s)
    ensures Inv(s.(batching := batching, starved := starved))
  {
  }

  lemma MoveTakes(s: Dl, r: Id)
    requires Inv(s) && r in s.info && r in s.On(s.info[r].write).tree
    ensures Inv(Move(s, r)) && Pending(s, r) && Move(s, r).queue == s.queue + [r] && Move(s, r).nrSorted == s.nrSorted - 1
    ensures forall q :: Pending(Move(s, r), q) <==> Pending(s, q) && q != r
    ensures Move(s, r).batching == s.batching && Move(s, r).starved == s.starved && Move(s, r).info == s.info
  {
    MoveInv(s, r);
    OneSide(s, r, s.info[r].write);
    hide Without, Latter, Known, Sorted, NoDup;
    MoveIndexed(s, r, {});
    MoveShape(s, r, s.info[r].write);
  }

  /** One call takes one pending request to the dispatch queue, and none exactly when none is pending. */
  lemma DispatchTakesOne(s: Dl, tun: Tunables, now: int)
    requires Inv(s)
    ensures var d := Dispatch(s, tun, now);
            && Inv(d.s) && d.s.info == s.info
            && (d.chosen == None <==> forall q :: !Pending(s, q))
            && (d.chosen == None ==> d.s == s && s.nrSorted == 0)
            && (d.chosen.Some? ==>
                  && Pending(s, d.chosen.value) && d.s.queue == s.queue + [d.chosen.value] && d.s.nrSorted == s.nrSorted - 1
                  && forall q :: Pending(d.s, q) <==> Pending(s, q) && q != d.chosen.value)
  {
    hide Inv, Move;
    if Ahead(s).Some? && s.batching < tun.fifoBatch {
      AheadPending(s);
      TunedInv(s, s.batching + 1, s.starved);
      MoveTakes(s.(batching := s.batching + 1), Ahead(s).value);
      assert Pending(s, Ahead(s).value);
    } else if s.rd.fifo == [] && s.wr.fifo == [] {
      NoneLeft(s);
    } else {
      var (w, starved) := Direction(s, tun);
      FirstPending(s, w, now);
      TunedInv(s, 1, starved);
      var r := First(s.On(w), s.info, now);
      MoveTakes(s.(batching := 1, starved := starved), r);
      assert Pending(s, r);
    }
  }

  lemma NoneLeft(s: Dl)
    requires Inv(s) && s.rd.fifo == [] && s.wr.fifo == []
    ensures s.nrSorted == 0
  {
  }

  // ----- batches -----

  /** The request after `r` in the tree is the nearest above it, if there is any above it. */
  lemma LatterIsNearest(info: map<Id, Info>, t: seq<Id>, w: bool, r: Id, x: Id)
    requires Known(info, t, w) && Sorted(info, t) && r in t && x in t
    ensures r in info && x in info
    ensures info[x].pos > info[r].pos ==> Latter(t, r).Some?
    ensures Latter(t, r).Some? ==> var q := Latter(t, r).value; q in t && q in info && info[q].pos > info[r].pos
    ensures Latter(t, r).Some? && info[x].pos > info[r].pos ==> info[Latter(t, r).value].pos <= info[x].pos
  {
    var k := IndexOf(t, r);
    hide IndexOf;
    var i :| 0 <= i < |t| && t[i] == x;
    assert i < k ==> info[t[i]].pos < info[t[k]].pos;
  }

  ghost predicate Nearest(s: Dl, w: bool, p: nat, next: Maybe) {
    && (next.Some? ==> next.value in s.On(w).fifo && next.value in s.info && s.info[next.value].pos > p)
    && (forall x :: x in s.On(w).fifo && x in s.info && s.info[x].pos > p ==>
          next.Some? && next.value in s.info && s.info[next.value].pos <= s.info[x].pos)
  }

  lemma MoveSetsNext(s: Dl, r: Id)
    requires Inv(s) && r in s.info && r in s.On(s.info[r].write).tree
    ensures var w, t := s.info[r].write, Move(s, r); t.On(!w).next == None && Nearest(s, w, s.info[r].pos, t.On(w).next)
  {
    var w := s.info[r].write;
    var x := s.On(w);
    MoveShape(s, r, w);
    LatterIsNearest(s.info, x.tree, w, r, r);
    forall q | q in x.fifo && q in s.info && s.info[q].pos > s.info[r].pos
      ensures Latter(x.tree, r).Some? && Latter(x.tree, r).value in s.info && s.info[Latter(x.tree, r).value].pos <= s.info[q].pos
    {
      LatterIsNearest(s.info, x.tree, w, r, q);
    }
    hide Latter, Without, Known, Sorted, NoDup;
  }

  /** A batch runs in sector order: after every dispatch the batch can only go on in the same
      direction, with the nearest request above the one just dispatched. */
  lemma BatchAscends(s: Dl, tun: Tunables, now: int)
    requires Inv(s) && Dispatch(s, tun, now).chosen.Some?
    ensures var d := Dispatch(s, tun, now); var r := d.chosen.value;
            r in s.info && Ahead(d.s) == d.s.On(s.info[r].write).next && Nearest(s, s.info[r].write, s.info[r].pos, Ahead(d.s))
  {
    hide Inv, Move, Nearest;
    if Ahead(s).Some? && s.batching < tun.fifoBatch {
      AheadPending(s);
      TunedInv(s, s.batching + 1, s.starved);
      var s1 := s.(batching := s.batching + 1);
      MoveSetsNext(s1, Ahead(s).value);
      SameNearest(s, s1, Ahead(s).value, Move(s1, Ahead(s).value));
    } else {
      var (w, starved) := Direction(s, tun);
      FirstPending(s, w, now);
      TunedInv(s, 1, starved);
      var s1, r := s.(batching := 1, starved := starved), First(s.On(w), s.info, now);
      MoveSetsNext(s1, r);
      SameNearest(s, s1, r, Move(s1, r));
    }
  }

  lemma SameNearest(s: Dl, s1: Dl, r: Id, t: Dl)
    requires s1.info == s.info && s1.rd == s.rd && s1.wr == s.wr && r in s.info
    requires Nearest(s1, s.info[r].write, s.info[r].pos, t.On(s.info[r].write).next)
    ensures Nearest(s, s.info[r].write, s.info[r].pos, t.On(s.info[r].write).next)
  {
  }

  // ----- runs -----

  /** Arrivals, front merges to a new start sector, request merges, and calls for dispatch. */
  datatype Action = Arrive(r: Id, f: Info) | Front(r: Id, p: nat) | Combine(r: Id, n: Id) | Serve(now: int)

  ghost predicate Queued(s: Dl, r: Id) { r in s.info && r in s.On(s.info[r].write).tree }

  ghost predicate Enabled(s: Dl, a: Action) {
    match a
    case Arrive(r, f) => r !in s.info
    case Front(r, p) => Queued(s, r)
    case Combine(r, n) => Queued(s, r) && n in s.On(s.info[r].write).tree && r != n
    case Serve(_) => true
  }

  ghost function Apply(s: Dl, tun: Tunables, a: Action): Dl
    requires Inv(s) && Enabled(s, a)
  {
    match a
    case Arrive(r, f) => Add(s, r, f)
    case Front(r, p) => FrontMerge(s, r, p)
    case Combine(r, n) => MergeInv(s, r, n); Merge(s, r, n)
    case Serve(now) => Dispatch(s, tun, now).s
  }

  lemma StepInv(s: Dl, tun: Tunables, a: Action)
    requires Inv(s) && Enabled(s, a)
    ensures Inv(Apply(s, tun, a))
  {
    hide Inv, Add, FrontMerge, Merge, Dispatch;
    match a
    case Arrive(r, f) => AddInv(s, r, f);
    case Front(r, p) => FrontMergeInv(s, r, p);
    case Combine(r, n) => MergeInv(s, r, n);
    case Serve(now) => DispatchTakesOne(s, tun, now);
  }

  ghost predicate Runs(s: Dl, tun: Tunables, actions: seq<Action>, t: Dl)
    decreases |actions|
  {
    if actions == [] then s == t
    else Inv(s) && Enabled(s, actions[0]) && Runs(Apply(s, tun, actions[0]), tun, actions[1..], t)
  }

  /** In every reachable state both indexes agree and the count of sorted requests is right. */
  lemma {:induction false} RunInv(s: Dl, tun: Tunables, actions: seq<Action>, t: Dl)
    requires Inv(s) && Runs(s, tun, actions, t)
    ensures Inv(t)
    decreases |actions|
  {
    if actions != [] {
      hide Inv, Enabled, Apply;
      StepInv(s, tun, actions[0]);
      RunInv(Apply(s, tun, actions[0]), tun, actions[1..], t);
    }
  }

  lemma EmptyInv()
    ensures Inv(EMPTY)
  {
  }

  // ----- starvation -----

  function Least(tun: Tunables): nat { if tun.fifoBatch == 0 then 1 else tun.fifoBatch }

  function Left(limit: nat, used: nat): nat { if limit > used then limit - used else 0 }

  /** How many reads may still go ahead of the writes. */
  function Credit(s: Dl, tun: Tunables): nat {
    Left(tun.fifoBatch, s.batching) + Left(tun.writesStarved, s.starved) * Least(tun)
  }

  lemma Times(a: nat, b: nat, m: nat)
    ensures a <= b ==> a * m <= b * m
    ensures (a + 1) * m == a * m + m
  {
    if a <= b {
      assert (b - a) * m >= 0;
      assert b * m == a * m + (b - a) * m;
    }
  }

  /** The credit is bounded by the tunables alone. */
  lemma CreditBound(s: Dl, tun: Tunables)
    ensures Credit(s, tun) <= (tun.writesStarved + 1) * Least(tun)
  {
    Times(Left(tun.writesStarved, s.starved), tun.writesStarved, Least(tun));
    Times(tun.writesStarved, 0, Least(tun));
  }

  /** A read dispatched while a write waits costs at least one. */
  lemma ReadCosts(s: Dl, tun: Tunables, now: int)
    requires Inv(s) && s.wr.fifo != []
    requires var c := Dispatch(s, tun, now).chosen; c.Some? && c.value in s.info && !s.info[c.value].write
    ensures Credit(Dispatch(s, tun, now).s, tun) < Credit(s, tun)
  {
    hide Inv, Move;
    if Ahead(s).Some? && s.batching < tun.fifoBatch {
      AheadPending(s);
      TunedInv(s, s.batching + 1, s.starved);
      MoveTakes(s.(batching := s.batching + 1), Ahead(s).value);
    } else {
      var (w, starved) := Direction(s, tun);
      FirstPending(s, w, now);
      TunedInv(s, 1, starved);
      MoveTakes(s.(batching := 1, starved := starved), First(s.On(w), s.info, now));
      Times(Left(tun.writesStarved, s.starved + 1), 0, Least(tun));
    }
  }

  lemma OthersFree(s: Dl, tun: Tunables, a: Action)
    requires Inv(s) && Enabled(s, a) && !a.Serve?
    ensures Credit(Apply(s, tun, a), tun) == Credit(s, tun)
  {
    hide Indexed, Add, FrontMerge, Merge, Credit;
    match a
    case Arrive(r, f) => AddIndexed(s, r, f, Add(s, r, f)); SameCredit(s, Add(s, r, f), tun);
    case Front(r, p) => FrontMergeIndexed(s, r, p, FrontMerge(s, r, p)); SameCredit(s, FrontMerge(s, r, p), tun);
    case Combine(r, n) => MergeInv(s, r, n); SameCredit(s, Merge(s, r, n), tun);
  }

  lemma SameCredit(s: Dl, t: Dl, tun: Tunables)
    requires t.batching == s.batching && t.starved == s.starved
    ensures Credit(t, tun) == Credit(s, tun)
  {
  }

  /** A write is waiting at every call for dispatch, and every call chooses a read. */
  ghost predicate ReadsOnly(s: Dl, tun: Tunables, actions: seq<Action>)
    requires Inv(s)
    decreases |actions|
  {
    if actions == [] then true
    else
      var a := actions[0];
      && Enabled(s, a)
      && (a.Serve? ==> s.wr.fifo != [] && var c := Dispatch(s, tun, a.now).chosen; c.Some? && c.value in s.info && !s.info[c.value].write)
      && (StepInv(s, tun, a); ReadsOnly(Apply(s, tun, a), tun, actions[1..]))
  }

  function Serves(actions: seq<Action>): nat {
    if actions == [] then 0 else (if actions[0].Serve? then 1 else 0) + Serves(actions[1..])
  }

  lemma {:induction false} CreditSpent(s: Dl, tun: Tunables, actions: seq<Action>)
    requires Inv(s) && ReadsOnly(s, tun, actions)
    ensures Serves(actions) <= Credit(s, tun)
    decreases |actions|
  {
    if actions != [] {
      hide Inv, Credit, Dispatch;
      var a := actions[0];
      StepInv(s, tun, a);
      CreditSpent(Apply(s, tun, a), tun, actions[1..]);
      if a.Serve? { ReadCosts(s, tun, a.now); } else { OthersFree(s, tun, a); }
    }
  }

  /** While a write waits, at most (writes_starved + 1) * max(fifo_batch, 1) calls in a row choose
      reads, whatever arrives and is merged in between. */
  lemma WritesNotStarved(s: Dl, tun: Tunables, actions: seq<Action>)
    requires Inv(s) && ReadsOnly(s, tun, actions)
    ensures Serves(actions) <= (tun.writesStarved + 1) * Least(tun)
  {
    CreditSpent(s, tun, actions);
    CreditBound(s, tun);
  }

  // ----- draining -----

  /** elv_drain_elevator: dispatching until nothing is chosen.  Call number `i` reads the clock for
      itself. */
  ghost function Drain(s: Dl, tun: Tunables, clock: nat -> int, i: nat): Dl
    requires Inv(s)
    decreases s.nrSorted
  {
    var d := Dispatch(s, tun, clock(i));
    DispatchTakesOne(s, tun, clock(i));
    CountNat(d.s);
    if d.chosen == None then s else Drain(d.s, tun, clock, i + 1)
  }

  lemma CountNat(s: Dl)
    requires Inv(s)
    ensures s.nrSorted >= 0
  {
  }

  /** Draining leaves nothing behind: the count is zero, and what was pending has gone to the
      dispatch queue in some order, each request once, whatever the clock does meanwhile. */
  lemma {:induction false} DrainEmpties(s: Dl, tun: Tunables, clock: nat -> int, i: nat)
    requires Inv(s)
    ensures var t := Drain(s, tun, clock, i);
            && Inv(t) && t.nrSorted == 0 && (forall q :: !Pending(t, q))
            && s.queue <= t.queue && |t.queue| == |s.queue| + s.nrSorted
            && forall q :: q in t.queue <==> q in s.queue || Pending(s, q)
    decreases s.nrSorted
  {
    hide Inv, Dispatch, Pending;
    var d := Dispatch(s, tun, clock(i));
    DispatchTakesOne(s, tun, clock(i));
    CountNat(d.s);
    if d.chosen.Some? {
      DrainEmpties(d.s, tun, clock, i + 1);
    }
  }

  // ----- expiry -----

  /** Both FIFOs are in order of expiry. */
  ghost predicate Expiring(s: Dl) { InOrder(s.info, s.rd.fifo) && InOrder(s.info, s.wr.fifo) }

  /** A new request expires no earlier than those already waiting in its direction, as it is when
      time does not go back and the expiry settings stay. */
  ghost predicate Timely(s: Dl, a: Action) {
    a.Arrive? ==> forall q :: q in s.On(a.f.write).fifo ==> q in s.info && s.info[q].expire <= a.f.expire
  }

  lemma SwapInOrder(info: map<Id, Info>, u: seq<Id>, k: nat, r: Id, n: Id)
    requires InOrder(info, u) && k < |u| && u[k] == n && r in info && n in info && r !in u
    ensures InOrder(info[r := info[r].(expire := info[n].expire)], u[k := r])
  {
    var i2, g := info[r := info[r].(expire := info[n].expire)], u[k := r];
    assert forall i :: 0 <= i < |u| ==> u[i] in u;
  }

  lemma TakeoverOrder(info: map<Id, Info>, f: seq<Id>, r: Id, n: Id)
    requires NoDup(f) && r in f && n in f && r != n && r in info && n in info && InOrder(info, f)
    ensures n in Without(f, r) && InOrder(info[r := info[r].(expire := info[n].expire)], Takeover(f, r, n))
  {
    WithoutFacts(f, r);
    WithoutTimes(info, f, r);
    hide Without, IndexOf, InOrder;
    var u := Without(f, r);
    SwapInOrder(info, u, IndexOf(u, n), r, n);
  }

  lemma WithoutTimes(info: map<Id, Info>, f: seq<Id>, r: Id)
    requires InOrder(info, f)
    ensures InOrder(info, Without(f, r))
  {
    hide IndexOf;
  }

  lemma AppendTimes(info: map<Id, Info>, f: seq<Id>, r: Id)
    requires InOrder(info, f) && r in info && forall q :: q in f ==> q in info && info[q].expire <= info[r].expire
    ensures InOrder(info, f + [r])
  {
    var g := f + [r];
    forall i, j | 0 <= i < j < |g| ensures NotLater(info, g[i], g[j]) {
      assert g[i] in f;
      assert j < |f| ==> g[j] in f;
    }
  }

  /** Times of others do not matter. */
  lemma SameTimes(info: map<Id, Info>, i2: map<Id, Info>, f: seq<Id>)
    requires InOrder(info, f) && forall q :: q in f && q in info ==> q in i2 && i2[q].expire == info[q].expire
    ensures InOrder(i2, f)
  {
    forall i, j | 0 <= i < j < |f| ensures NotLater(i2, f[i], f[j]) {
      assert f[i] in f && f[j] in f && NotLater(info, f[i], f[j]);
    }
  }

  lemma MoveExpiring(s: Dl, r: Id)
    requires Expiring(s) && r in s.info && r in s.On(s.info[r].write).tree
    ensures Expiring(Move(s, r))
  {
    hide Without, Latter, InOrder;
    var w := s.info[r].write;
    MoveShape(s, r, w);
    WithoutTimes(s.info, s.On(w).fifo, r);
  }

  lemma ClearedExpiring(s: Dl, w: bool, p: nat, h: set<Id>)
    requires Indexed(s, h) && Expiring(s) && Known(s.info, s.On(w).tree, w)
    ensures Expiring(Cleared(s, w, p))
  {
    hide Move, Expiring, Indexed;
    AliasIs(s, w, p);
    var a := Alias(s, w, p);
    if a.Some? { MoveExpiring(s, a.value); }
  }

  lemma AddExpiring(s: Dl, r: Id, f: Info)
    requires Indexed(s, {}) && Expiring(s) && r !in s.info && Timely(s, Arrive(r, f))
    ensures Expiring(Add(s, r, f))
  {
    AddReady(s, r, f);
    var s1 := s.(info := s.info[r := f], nrSorted := s.nrSorted + 1);
    SameTimes(s.info, s1.info, s.rd.fifo);
    SameTimes(s.info, s1.info, s.wr.fifo);
    hide Cleared, Linked, InOrder;
    ClearedExpiring(s1, f.write, f.pos, {});
    var s2 := Cleared(s1, f.write, f.pos);
    ClearedIndexed(s1, f.write, f.pos, {}, s2);
    AppendTimes(s2.info, s2.On(f.write).fifo, r);
  }

  lemma FrontMergeExpiring(s: Dl, r: Id, p: nat)
    requires Indexed(s, {}) && Expiring(s) && Queued(s, r)
    ensures Expiring(FrontMerge(s, r, p))
  {
    UnlinkIndexed(s, r, p);
    hide Indexed, Cleared, Without, Linked;
    var w, s1 := s.info[r].write, Unlinked(s, r, p);
    SameTimes(s.info, s1.info, s.rd.fifo);
    SameTimes(s.info, s1.info, s.wr.fifo);
    hide InOrder;
    ClearedExpiring(s1, w, p, {r});
  }

  lemma MergeExpiring(s: Dl, r: Id, n: Id)
    requires Inv(s) && Expiring(s) && Queued(s, r) && n in s.On(s.info[r].write).tree && r != n
    ensures n in s.info && n in Without(s.On(s.info[r].write).fifo, r) && Expiring(Merge(s, r, n))
  {
    MergeInv(s, r, n);
    var w := s.info[r].write;
    OneSide(s, r, w);
    assert r in s.On(w).fifo && n in s.On(w).fifo;
    hide Without, Latter, Takeover, Indexed;
    SameTimes(s.info, MergedInfo(s.info, r, n), s.On(!w).fifo);
    hide InOrder;
    if s.info[n].expire < s.info[r].expire {
      FifoNoDup(s, w);
      TakeoverOrder(s.info, s.On(w).fifo, r, n);
    } else {
      WithoutTimes(s.info, s.On(w).fifo, n);
    }
  }

  lemma FifoNoDup(s: Dl, w: bool)
    requires Inv(s)
    ensures NoDup(s.On(w).fifo)
  {
  }

  lemma DispatchExpiring(s: Dl, tun: Tunables, now: int)
    requires Inv(s) && Expiring(s)
    ensures Expiring(Dispatch(s, tun, now).s)
  {
    hide Inv, Move, InOrder;
    if Ahead(s).Some? && s.batching < tun.fifoBatch {
      AheadPending(s);
      MoveExpiring(s.(batching := s.batching + 1), Ahead(s).value);
    } else if s.rd.fifo != [] || s.wr.fifo != [] {
      var (w, starved) := Direction(s, tun);
      FirstPending(s, w, now);
      MoveExpiring(s.(batching := 1, starved := starved), First(s.On(w), s.info, now));
    }
  }

  lemma StepExpiring(s: Dl, tun: Tunables, a: Action)
    requires Inv(s) && Expiring(s) && Enabled(s, a) && Timely(s, a)
    ensures Expiring(Apply(s, tun, a))
  {
    hide Indexed, Expiring, Add, FrontMerge, Merge, Dispatch;
    match a
    case Arrive(r, f) => AddExpiring(s, r, f);
    case Front(r, p) => FrontMergeExpiring(s, r, p);
    case Combine(r, n) => MergeExpiring(s, r, n);
    case Serve(now) => DispatchExpiring(s, tun, now);
  }

  /** A run in which arrivals are timely. */
  ghost predicate RunsTimely(s: Dl, tun: Tunables, actions: seq<Action>, t: Dl)
    decreases |actions|
  {
    if actions == [] then s == t
    else Inv(s) && Enabled(s, actions[0]) && Timely(s, actions[0]) && RunsTimely(Apply(s, tun, actions[0]), tun, actions[1..], t)
  }

  /** In such a run the FIFOs stay in order of expiry. */
  lemma {:induction false} RunExpiring(s: Dl, tun: Tunables, actions: seq<Action>, t: Dl)
    requires Inv(s) && Expiring(s) && RunsTimely(s, tun, actions, t)
    ensures Inv(t) && Expiring(t)
    decreases |actions|
  {
    if actions != [] {
      hide Inv, Expiring, Enabled, Timely, Apply;
      StepInv(s, tun, actions[0]);
      StepExpiring(s, tun, actions[0]);
      RunExpiring(Apply(s, tun, actions[0]), tun, actions[1..], t);
    }
  }

  /** The head of a FIFO expires first, so looking at it alone tells whether anything has expired. */
  lemma HeadExpiresFirst(s: Dl, w: bool, now: int)
    requires Inv(s) && Expiring(s) && s.On(w).fifo != []
    ensures s.On(w).fifo[0] in s.info && forall q :: q in s.On(w).fifo ==> q in s.info && s.info[s.On(w).fifo[0]].expire <= s.info[q].expire
    ensures now > s.info[s.On(w).fifo[0]].expire <==> exists q :: q in s.On(w).fifo && q in s.info && s.info[q].expire < now
  {
    var f := s.On(w).fifo;
    forall q | q in f ensures q in s.info && s.info[f[0]].expire <= s.info[q].expire {
      var i :| 0 <= i < |f| && f[i] == q;
    }
    assert f[0] in f;
  }

  /** A new batch in a direction where a request has expired starts with the one that expired first. */
  lemma ExpiredGoesFirst(s: Dl, tun: Tunables, now: int, q: Id)
    requires Inv(s) && Expiring(s) && Pending(s, q) && !(Ahead(s).Some? && s.batching < tun.fifoBatch)
    requires var w := Direction(s, tun).0; q in s.On(w).fifo && q in s.info && s.info[q].expire < now
    ensures var r := Dispatch(s, tun, now).chosen; r.Some? && r.value in s.info && s.info[r.value].expire <= s.info[q].expire < now
  {
    var w := Direction(s, tun).0;
    FirstPending(s, w, now);
    HeadExpiresFirst(s, w, now);
    hide Move, Indexed;
  }

}
