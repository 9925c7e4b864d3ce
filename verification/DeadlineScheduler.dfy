/** deadline_data and its operations, in place. */
module DeadlineScheduler {
  import opened Deadline
  import opened Lists
  import opened D = DeadlineDispatch

  class DeadlineData {
    var info: map<Id, Info>
    var rd: Side
    var wr: Side
    var batching: nat
    var starved: nat
    var queue: seq<Id>
    var nrSorted: int
    const tun: Tunables

    ghost function State(): Dl
      reads this
    {
      Dl(info, rd, wr, batching, starved, queue, nrSorted)
    }

    ghost predicate Valid()
      reads this
    {
      Inv(State())
    }

    /** deadline_init_queue */
    constructor (t: Tunables)
      ensures Valid() && State() == EMPTY && tun == t
    {
      tun := t;
      info, rd, wr := map[], Side([], [], None), Side([], [], None);
      batching, starved, queue, nrSorted := 0, 0, [], 0;
      new;
      EmptyInv();
    }

    function On(w: bool): Side
      reads this
    {
      if w then wr else rd
    }

    method SetSide(w: bool, x: Side)
      modifies this`rd, this`wr
      ensures State() == old(State()).With(w, x)
    {
      if w { wr := x; } else { rd := x; }
    }

    /** elv_rb_add: the request already at that sector, or none and the request is linked in. */
    method RbAdd(r: Id, w: bool) returns (alias: Maybe)
      requires r in info && Known(info, On(w).tree, w)
      modifies this`rd, this`wr
      ensures alias == Alias(old(State()), w, info[r].pos)
      ensures State() == if alias == None then Relinked(old(State()), w, r) else old(State())
    {
      var t, p := On(w).tree, info[r].pos;
      var k := 0;
      while k < |t| && info[t[k]].pos < p
        invariant k <= |t| && forall i :: 0 <= i < k ==> info[t[i]].pos < p
      {
        k := k + 1;
      }
      PlaceIs(info, t, p, k);
      if k < |t| && info[t[k]].pos == p { return Some(t[k]); }
      SetSide(w, On(w).(tree := Insert(t, k, r)));
      alias := None;
    }

    /** deadline_move_request */
    method MoveRequest(r: Id)
      requires r in info && r in On(info[r].write).tree
      modifies this`rd, this`wr, this`queue, this`nrSorted
      ensures State() == Move(old(State()), r)
    {
      var w := info[r].write;
      var x := On(w);
      var latter := Latter(x.tree, r);
      SetSide(!w, On(!w).(next := None));
      SetSide(w, Side(Without(x.tree, r), Without(x.fifo, r), latter));
      queue := queue + [r];
      nrSorted := nrSorted - 1;
    }

    /** deadline_add_rq_rb */
    method AddRqRb(r: Id, w: bool, ghost h: set<Id>)
      requires Indexed(State(), h) && r in info && info[r].write == w
      modifies this`rd, this`wr, this`queue, this`nrSorted
      ensures Known(info, old(State()).On(w).tree, w) && var c := Cleared(old(State()), w, info[r].pos);
              c.info == info && Known(info, c.On(w).tree, w) && State() == Relinked(c, w, r)
    {
      hide Indexed, Cleared, Alias, Relinked, Move;
      ghost var s, p := State(), info[r].pos;
      IndexedKnown(s, h, w);
      ghost var c := Cleared(s, w, p);
      ClearedIndexed(s, w, p, h, c);
      IndexedKnown(c, h, w);
      ClearedIs(s, w, p);
      FreeNoAlias(c, w, p);
      AliasIs(s, w, p);
      var alias := RbAdd(r, w);
      while alias.Some?
        invariant alias.Some? ==> State() == s && alias == Alias(s, w, p)
        invariant alias == None ==> State() == Relinked(c, w, r)
        invariant info == s.info
        decreases alias.Some?
      {
        MoveRequest(alias.value);
        alias := RbAdd(r, w);
      }
    }

    /** deadline_add_request, after elv_insert has counted the request. */
    method AddRequest(r: Id, f: Info)
      requires Valid() && r !in info
      modifies this
      ensures Inv(old(State())) && State() == Add(old(State()), r, f) && Valid()
    {
      hide Indexed, Cleared, Add, Linked;
      ghost var s := State();
      AddReady(s, r, f);
      AddInv(s, r, f);
      info := info[r := f];
      nrSorted := nrSorted + 1;
      AddRqRb(r, f.write, {});
      AddIsAppend(s, r, f, State());
      SetSide(f.write, On(f.write).(fifo := On(f.write).fifo + [r]));
    }

    /** deadline_merged_request for a front merge; the caller has moved the start of the request. */
    method MergedRequest(r: Id, p: nat)
      requires Valid() && r in info && r in On(info[r].write).tree
      modifies this
      ensures Inv(old(State())) && State() == FrontMerge(old(State()), r, p) && Valid()
    {
      hide Indexed, Cleared, Without, Relinked, Linked;
      ghost var s := State();
      FrontMergeInv(s, r, p);
      UnlinkIndexed(s, r, p);
      var w := info[r].write;
      info := info[r := info[r].(pos := p)];
      SetSide(w, On(w).(tree := Without(On(w).tree, r)));
      AddRqRb(r, w, {r});
    }

    /** deadline_merged_requests */
    method MergedRequests(r: Id, n: Id)
      requires Valid() && r in info && r != n && r in On(info[r].write).tree && n in On(info[r].write).tree
      modifies this
      ensures Inv(old(State())) && n in old(info) && n in Without(old(State()).On(old(info)[r].write).fifo, r)
      ensures State() == Merge(old(State()), r, n) && Valid()
    {
      hide Indexed, Without, Latter, Insert, IndexOf;
      ghost var s := State();
      MergeInv(s, r, n);
      var w := info[r].write;
      var x := On(w);
      if info[n].expire < info[r].expire {
        var f := Without(x.fifo, r);
        FifoFacts(s, r, w);
        MovedBehind(f, r, n);
        var k := IndexOf(f, n);
        x := x.(fifo := Insert(f, k + 1, r));
        info := info[r := info[r].(expire := info[n].expire)];
      }
      if x.next == Some(n) { x := x.(next := Latter(x.tree, n)); }
      SetSide(w, x.(tree := Without(x.tree, n), fifo := Without(x.fifo, n)));
      nrSorted := nrSorted - 1;
    }

    /** deadline_dispatch_requests */
    method DispatchRequests(now: int) returns (chosen: Maybe)
      requires Valid()
      modifies this
      ensures Inv(old(State())) && Dispatch(old(State()), tun, now) == Outcome(State(), chosen) && Valid()
    {
      hide Inv, Move;
      ghost var s := State();
      DispatchTakesOne(s, tun, now);
      var anyReads, anyWrites := rd.fifo != [], wr.fifo != [];
      chosen := if wr.next.Some? then wr.next else rd.next;
      if chosen.Some? && batching < tun.fifoBatch {
        AheadPending(s);
        batching := batching + 1;
        MoveRequest(chosen.value);
        return;
      }
      if !anyReads && !anyWrites { return None; }
      var w := !anyReads;
      if anyReads && anyWrites {
        w := starved >= tun.writesStarved;
        starved := starved + 1;
      }
      if w { starved := 0; }
      FirstPending(s, w, now);
      var x := On(w);
      chosen := if now > info[x.fifo[0]].expire || x.next == None then Some(x.fifo[0]) else x.next;
      batching := 0;
      batching := batching + 1;
      MoveRequest(chosen.value);
    }

    /** elv_drain_elevator: the warning about broken forced dispatching is never due.  Every call reads
        the clock for itself. */
    method DrainElevator(clock: nat -> int)
      requires Valid()
      modifies this
      ensures Inv(old(State())) && State() == Drain(old(State()), tun, clock, 0)
      ensures Valid() && nrSorted == 0 && rd.fifo == [] && wr.fifo == []
    {
      hide Inv, Dispatch, Drain;
      ghost var s := State();
      var calls: nat := 0;
      DrainUnfold(State(), tun, clock, calls);
      var chosen := DispatchRequests(clock(calls));
      CountNat(State());
      while chosen.Some?
        invariant Valid() && Inv(s)
        invariant Drain(s, tun, clock, 0) == (if chosen.Some? then Drain(State(), tun, clock, calls + 1) else State())
        invariant nrSorted >= 0
        decreases if chosen.Some? then nrSorted + 1 else 0
      {
        calls := calls + 1;
        DispatchTakesOne(State(), tun, clock(calls));
        DrainUnfold(State(), tun, clock, calls);
        chosen := DispatchRequests(clock(calls));
        CountNat(State());
      }
      DrainEmpties(s, tun, clock, 0);
      assert rd.fifo != [] ==> Pending(State(), rd.fifo[0]);
      assert wr.fifo != [] ==> Pending(State(), wr.fifo[0]);
    }
  }

  // ----- what the methods rely on -----

  lemma {:induction false} PlaceIs(info: map<Id, Info>, t: seq<Id>, p: nat, k: nat)
    requires (forall i :: 0 <= i < |t| ==> t[i] in info) && k <= |t|
    requires (forall i :: 0 <= i < k ==> info[t[i]].pos < p) && (k < |t| ==> info[t[k]].pos >= p)
    ensures Place(info, t, p) == k
  {
    if k > 0 { PlaceIs(info, t[1..], p, k - 1); }
  }

  lemma ClearedIs(s: Dl, w: bool, p: nat)
    requires Known(s.info, s.On(w).tree, w)
    ensures Alias(s, w, p).Some? ==> var a := Alias(s, w, p).value; a in s.info && a in s.On(s.info[a].write).tree && Cleared(s, w, p) == Move(s, a)
    ensures Alias(s, w, p) == None ==> Cleared(s, w, p) == s
  {
    hide Move;
    AliasIs(s, w, p);
  }

  lemma FreeNoAlias(s: Dl, w: bool, p: nat)
    requires Known(s.info, s.On(w).tree, w) && Free(s.info, s.On(w).tree, p)
    ensures Alias(s, w, p) == None
  {
    AliasIs(s, w, p);
  }

  lemma AddIsAppend(s: Dl, r: Id, f: Info, u: Dl)
    requires Indexed(s, {}) && r !in s.info
    requires var s1 := s.(info := s.info[r := f], nrSorted := s.nrSorted + 1);
             Known(s1.info, s1.On(f.write).tree, f.write) && var c := Cleared(s1, f.write, f.pos);
             c.info == s1.info && Known(s1.info, c.On(f.write).tree, f.write) && u == Relinked(c, f.write, r)
    ensures Add(s, r, f) == u.With(f.write, u.On(f.write).(fifo := u.On(f.write).fifo + [r]))
  {
    hide Cleared, Linked, Indexed;
    AddReady(s, r, f);
  }

  lemma FifoFacts(s: Dl, r: Id, w: bool)
    requires Inv(s)
    ensures NoDup(Without(s.On(w).fifo, r)) && r !in Without(s.On(w).fifo, r)
  {
    WithoutFacts(s.On(w).fifo, r);
  }

  lemma FirstAt(g: seq<Id>, n: Id, k: nat)
    requires k < |g| && g[k] == n && forall i :: 0 <= i < |g| && i != k ==> g[i] != n
    ensures n in g && IndexOf(g, n) == k
  {
    hide IndexOf;
    assert g[k] in g;
  }

  lemma BehindOnce(f: seq<Id>, k: nat, r: Id)
    requires NoDup(f) && k < |f| && r !in f
    ensures var g := Insert(f, k + 1, r); g[k] == f[k] && forall i :: 0 <= i < |g| && i != k ==> g[i] != f[k]
  {
    var g := Insert(f, k + 1, r);
    hide Insert;
    assert f[k] in f;
    forall i | 0 <= i < |g| && i != k ensures g[i] != f[k] {
      assert i <= k ==> g[i] == f[i];
      assert i > k + 1 ==> g[i] == f[i-1];
    }
  }

  /** Moving `r` right behind `n` and taking `n` out puts `r` in its place. */
  lemma MovedBehind(f: seq<Id>, r: Id, n: Id)
    requires NoDup(f) && n in f && r !in f
    ensures Without(Insert(f, IndexOf(f, n) + 1, r), n) == f[IndexOf(f, n) := r]
  {
    var k := IndexOf(f, n);
    BehindOnce(f, k, r);
    FirstAt(Insert(f, k + 1, r), n, k);
    hide IndexOf, Insert, Remove, NoDup;
    BehindAt(f, k, r);
  }

  lemma BehindAt(f: seq<Id>, k: nat, r: Id)
    requires k < |f|
    ensures k < |Insert(f, k + 1, r)| && Remove(Insert(f, k + 1, r), k) == f[k := r]
  {
    var g := Insert(f, k + 1, r);
    var u := Remove(g, k);
    hide Insert, Remove;
    forall i | 0 <= i < |u| ensures u[i] == f[k := r][i] {
      assert i >= k ==> u[i] == g[i+1];
      assert i > k ==> g[i+1] == f[i];
    }
  }

  lemma DrainUnfold(s: Dl, tun: Tunables, clock: nat -> int, i: nat)
    requires Inv(s)
    ensures var d := Dispatch(s, tun, clock(i));
            Inv(d.s) && Drain(s, tun, clock, i) == if d.chosen == None then s else Drain(d.s, tun, clock, i + 1)
    ensures Dispatch(s, tun, clock(i)).chosen == None ==> Dispatch(s, tun, clock(i)).s == s
  {
    hide Inv, Dispatch;
    DispatchTakesOne(s, tun, clock(i));
  }
}
