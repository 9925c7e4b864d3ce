/**
  * The hash of end sectors by which the elevator finds a request a bio may be appended to, and the
  * one-entry cache in front of it.
  */
module MergeHash {
  import opened Lists

  type Id = nat

  /** A request in the scheduler; `mergeable` is lost when a merge has been refused. */
  datatype Rq = Rq(pos: nat, sectors: nat, mergeable: bool) {
    function End(): nat { pos + sectors }
  }

  const ENTRIES := 64

  /** hash_long is some function of the sector's block; nothing here depends on which. */
  function Bucket(h: nat -> nat, sector: nat): (b: nat)
    ensures b < ENTRIES
  {
    h(sector / 8) % ENTRIES
  }

  /** Requests in the scheduler, the hash lists with the list each hashed request is linked in, and last_merge. */
  datatype Elv = Elv(rqs: map<Id, Rq>, lists: seq<seq<Id>>, at: map<Id, nat>, last: Maybe)

  // ----- operations -----

  function Add(e: Elv, h: nat -> nat, r: Id): Elv
    requires r in e.rqs && |e.lists| == ENTRIES
  {
    var b := Bucket(h, e.rqs[r].End());
    e.(lists := e.lists[b := [r] + e.lists[b]], at := e.at[r := b])
  }

  function Del(e: Elv, r: Id): Elv {
    if r in e.at && e.at[r] < |e.lists|
    then e.(lists := e.lists[e.at[r] := Without(e.lists[e.at[r]], r)], at := e.at - {r})
    else e
  }

  /** elv_rqhash_reposition */
  function Reposition(e: Elv, h: nat -> nat, r: Id): Elv
    requires r in e.rqs && |e.lists| == ENTRIES
  {
    Add(Del(e, r), h, r)
  }

  /** The sorted insertion of elv_insert. */
  function Enter(e: Elv, h: nat -> nat, r: Id, rq: Rq): Elv
    requires |e.lists| == ENTRIES
  {
    var e1 := e.(rqs := e.rqs[r := rq]);
    if !rq.mergeable then e1
    else Add(e1, h, r).(last := if e.last == None then Some(r) else e.last)
  }

  /** What elv_dispatch_sort and elv_dispatch_add_tail do to the hash and the cache. */
  function Leave(e: Elv, r: Id): Elv {
    Del(e, r).(rqs := e.rqs - {r}, last := if e.last == Some(r) then None else e.last)
  }

  /** A bio of n sectors has been appended. */
  function BackMerge(e: Elv, h: nat -> nat, r: Id, n: nat): Elv
    requires r in e.rqs && |e.lists| == ENTRIES
  {
    var q := e.rqs[r];
    Reposition(e.(rqs := e.rqs[r := q.(sectors := q.sectors + n)]), h, r).(last := Some(r))
  }

  /** A bio of n sectors has been put in front: the end stays, and so does the place in the hash. */
  function FrontMerge(e: Elv, r: Id, n: nat): Elv
    requires r in e.rqs && n <= e.rqs[r].pos
  {
    var q := e.rqs[r];
    e.(rqs := e.rqs[r := q.(pos := q.pos - n, sectors := q.sectors + n)], last := Some(r))
  }

  /** The next request has been merged into `r`. */
  function Absorb(e: Elv, h: nat -> nat, r: Id, next: Id): Elv
    requires r in e.rqs && next in e.rqs && r != next && |e.lists| == ENTRIES
  {
    var q := e.rqs[r];
    var e1 := e.(rqs := e.rqs[r := q.(sectors := q.sectors + e.rqs[next].sectors)]);
    var e2 := Del(Reposition(e1, h, r), next);
    e2.(rqs := e2.rqs - {next}, last := Some(r))
  }

  /** A merge has been refused: REQ_NOMERGE is set, the cache forgets the request and the hash
      learns of it at the next lookup. */
  function Refuse(e: Elv, r: Id): Elv
    requires r in e.rqs
  {
    e.(rqs := e.rqs[r := e.rqs[r].(mergeable := false)], last := if e.last == Some(r) then None else e.last)
  }

  datatype Scanned = Scanned(keep: seq<Id>, found: Maybe)

  /** The walk along one list: requests that cannot be merged are taken off on the way. */
  function Scan(rqs: map<Id, Rq>, f: seq<Id>, offset: nat): Scanned
    requires forall i :: 0 <= i < |f| ==> f[i] in rqs
  {
    if f == [] then Scanned([], None)
    else if !rqs[f[0]].mergeable then Scan(rqs, f[1..], offset)
    else if rqs[f[0]].End() == offset then Scanned(f, Some(f[0]))
    else
      var rest := Scan(rqs, f[1..], offset);
      Scanned([f[0]] + rest.keep, rest.found)
  }

  function Dropped(f: seq<Id>, keep: seq<Id>): set<Id> { (set r | r in f) - (set r | r in keep) }

  /** elv_rqhash_find: the state it leaves. */
  function Searched(e: Elv, h: nat -> nat, offset: nat): Elv
    requires |e.lists| == ENTRIES && forall i :: 0 <= i < |e.lists[Bucket(h, offset)]| ==> e.lists[Bucket(h, offset)][i] in e.rqs
  {
    var b := Bucket(h, offset);
    var keep := Scan(e.rqs, e.lists[b], offset).keep;
    e.(lists := e.lists[b := keep], at := e.at - Dropped(e.lists[b], keep))
  }

  // ----- the invariant -----

  /** Lists and link fields agree. */
  ghost predicate Linked(e: Elv) {
    && |e.lists| == ENTRIES
    && (forall b :: 0 <= b < ENTRIES ==> NoDup(e.lists[b]))
    && (forall b, r :: 0 <= b < ENTRIES ==> (r in e.lists[b] <==> r in e.at && e.at[r] == b))
    && (forall r :: r in e.at ==> e.at[r] < ENTRIES && r in e.rqs)
  }

  /** A hashed request is in the list of its end sector. */
  ghost predicate Placed(e: Elv, h: nat -> nat, r: Id) { r in e.at && r in e.rqs ==> e.at[r] == Bucket(h, e.rqs[r].End()) }

  /** A request that may be merged is hashed. */
  ghost predicate Findable(e: Elv, r: Id) { r in e.rqs && e.rqs[r].mergeable ==> r in e.at }

  ghost predicate Inv(e: Elv, h: nat -> nat) {
    && Linked(e) && (forall r :: Placed(e, h, r)) && (forall r :: Findable(e, r))
    && (e.last.Some? ==> e.last.value in e.rqs)
  }

  const EMPTY := Elv(map[], seq(ENTRIES, i => []), map[], None)

  lemma EmptyInv(h: nat -> nat)
    ensures Inv(EMPTY, h)
  {
  }

  lemma AddLinked(e: Elv, h: nat -> nat, r: Id)
    requires Linked(e) && r in e.rqs && r !in e.at
    ensures Linked(Add(e, h, r))
  {
    var b := Bucket(h, e.rqs[r].End());
    hide Bucket;
    assert r !in e.lists[b];
    NoDupCons(r, e.lists[b]);
    assert forall x :: x in [r] + e.lists[b] <==> x == r || x in e.lists[b];
  }

  lemma DelLinked(e: Elv, r: Id)
    requires Linked(e)
    ensures Linked(Del(e, r)) && Del(e, r).at == e.at - {r} && Del(e, r).rqs == e.rqs && Del(e, r).last == e.last
  {
    hide Without;
    if r in e.at {
      WithoutFacts(e.lists[e.at[r]], r);
    } else {
      assert e.at - {r} == e.at;
    }
  }

  lemma AddInv(e: Elv, h: nat -> nat, r: Id)
    requires Linked(e) && r in e.rqs && r !in e.at && (e.last.Some? ==> e.last.value in e.rqs)
    requires forall x :: x != r ==> Placed(e, h, x) && Findable(e, x)
    ensures Inv(Add(e, h, r), h)
  {
    AddLinked(e, h, r);
    hide Bucket, Linked;
    var t := Add(e, h, r);
    forall x ensures Placed(t, h, x) && Findable(t, x) { assert x != r ==> Placed(e, h, x) && Findable(e, x); }
  }

  lemma EnterInv(e: Elv, h: nat -> nat, r: Id, rq: Rq)
    requires Inv(e, h) && r !in e.rqs
    ensures Inv(Enter(e, h, r, rq), h)
  {
    hide Bucket;
    var e1 := e.(rqs := e.rqs[r := rq]);
    assert r !in e.at;
    forall x | x != r ensures Placed(e1, h, x) && Findable(e1, x) { assert Placed(e, h, x) && Findable(e, x); }
    LinkedSame(e, e1);
    hide Linked;
    if rq.mergeable {
      AddInv(e1, h, r);
      if e.last == None { LastInv(Add(e1, h, r), h, r); }
    } else {
      forall x ensures Placed(e1, h, x) && Findable(e1, x) { assert x == r ==> Placed(e1, h, x); }
    }
  }

  /** What elv_rqhash_find, the merges and dispatching keep for a request taken off the hash. */
  lemma LeaveInv(e: Elv, h: nat -> nat, r: Id)
    requires Inv(e, h)
    ensures Inv(Leave(e, r), h)
  {
    hide Bucket, Del, Linked;
    DelLinked(e, r);
    var t := Leave(e, r);
    LinkedLess(Del(e, r), r);
    LinkedSame(Del(e, r).(rqs := e.rqs - {r}), t);
    forall x ensures Placed(t, h, x) && Findable(t, x) { assert Placed(e, h, x) && Findable(e, x); }
  }

  lemma LinkedLess(e: Elv, r: Id)
    requires Linked(e) && r !in e.at
    ensures Linked(e.(rqs := e.rqs - {r}))
  {
  }

  lemma LinkedSame(e: Elv, t: Elv)
    requires Linked(e) && t.lists == e.lists && t.at == e.at && e.rqs.Keys <= t.rqs.Keys
    ensures Linked(t)
  {
  }

  lemma RepositionInv(e: Elv, h: nat -> nat, r: Id)
    requires Linked(e) && r in e.rqs && (e.last.Some? ==> e.last.value in e.rqs)
    requires forall x :: x != r ==> Placed(e, h, x) && Findable(e, x)
    ensures |e.lists| == ENTRIES && Inv(Reposition(e, h, r), h) && Reposition(e, h, r).rqs == e.rqs
  {
    hide Bucket, Del;
    DelLinked(e, r);
    var d := Del(e, r);
    forall x | x != r ensures Placed(d, h, x) && Findable(d, x) { assert Placed(e, h, x) && Findable(e, x); }
    AddInv(d, h, r);
  }

  lemma BackMergeInv(e: Elv, h: nat -> nat, r: Id, n: nat)
    requires Inv(e, h) && r in e.rqs
    ensures Inv(BackMerge(e, h, r, n), h)
  {
    hide Bucket, Del, Add, Linked;
    var q := e.rqs[r];
    var e1 := e.(rqs := e.rqs[r := q.(sectors := q.sectors + n)]);
    LinkedSame(e, e1);
    forall x | x != r ensures Placed(e1, h, x) && Findable(e1, x) { assert Placed(e, h, x) && Findable(e, x); }
    RepositionInv(e1, h, r);
    LastInv(Reposition(e1, h, r), h, r);
  }

  lemma LastInv(e: Elv, h: nat -> nat, r: Id)
    requires Inv(e, h) && r in e.rqs
    ensures Inv(e.(last := Some(r)), h)
  {
    hide Bucket;
    var t := e.(last := Some(r));
    LinkedSame(e, t);
    forall x ensures Placed(t, h, x) && Findable(t, x) { assert Placed(e, h, x) && Findable(e, x); }
  }

  lemma FrontMergeInv(e: Elv, h: nat -> nat, r: Id, n: nat)
    requires Inv(e, h) && r in e.rqs && n <= e.rqs[r].pos
    ensures Inv(FrontMerge(e, r, n), h)
  {
    hide Bucket, Linked;
    var t := FrontMerge(e, r, n);
    LinkedSame(e, t);
    forall x ensures Placed(t, h, x) && Findable(t, x) { assert Placed(e, h, x) && Findable(e, x); }
  }

  lemma RefuseInv(e: Elv, h: nat -> nat, r: Id)
    requires Inv(e, h) && r in e.rqs
    ensures Inv(Refuse(e, r), h)
  {
    hide Bucket, Linked;
    var t := Refuse(e, r);
    LinkedSame(e, t);
    forall x ensures Placed(t, h, x) && Findable(t, x) { assert Placed(e, h, x) && Findable(e, x); }
  }

  lemma AbsorbInv(e: Elv, h: nat -> nat, r: Id, next: Id)
    requires Inv(e, h) && r in e.rqs && next in e.rqs && r != next
    ensures Inv(Absorb(e, h, r, next), h)
  {
    assert |e.lists| == ENTRIES;
    hide Bucket, Del, Add, Linked;
    BackMergeInv(e, h, r, e.rqs[next].sectors);
    var b := BackMerge(e, h, r, e.rqs[next].sectors);
    LeaveInv(b, h, next);
    AbsorbIs(e, h, r, next);
  }

  lemma AbsorbIs(e: Elv, h: nat -> nat, r: Id, next: Id)
    requires r in e.rqs && next in e.rqs && r != next && |e.lists| == ENTRIES
    ensures Absorb(e, h, r, next) == Leave(BackMerge(e, h, r, e.rqs[next].sectors), next)
  {
    hide Bucket, Without;
  }

  // ----- finding -----

  lemma {:induction false} ScanIs(rqs: map<Id, Rq>, f: seq<Id>, offset: nat)
    requires (forall i :: 0 <= i < |f| ==> f[i] in rqs) && NoDup(f)
    ensures var s := Scan(rqs, f, offset);
            && NoDup(s.keep) && (forall x :: x in s.keep ==> x in f)
            && (forall x :: x in f && x !in s.keep ==> !rqs[x].mergeable)
            && (s.found.Some? ==> s.found.value in s.keep && rqs[s.found.value].mergeable && rqs[s.found.value].End() == offset)
            && (s.found == None ==> forall x :: x in f ==> !(rqs[x].mergeable && rqs[x].End() == offset))
  {
    if f != [] {
      NoDupTail(f);
      assert f == [f[0]] + f[1..];
      ScanIs(rqs, f[1..], offset);
      var rest := Scan(rqs, f[1..], offset);
      if rqs[f[0]].mergeable && rqs[f[0]].End() != offset { NoDupCons(f[0], rest.keep); }
    }
  }

  lemma SearchReady(e: Elv, h: nat -> nat, offset: nat)
    requires Linked(e)
    ensures var f := e.lists[Bucket(h, offset)]; NoDup(f) && forall i :: 0 <= i < |f| ==> f[i] in e.rqs
  {
    var b := Bucket(h, offset);
    hide Bucket;
    forall i | 0 <= i < |e.lists[b]| ensures e.lists[b][i] in e.rqs { assert e.lists[b][i] in e.at; }
  }

  lemma KeepLinked(e: Elv, b: nat, keep: seq<Id>)
    requires Linked(e) && b < ENTRIES && NoDup(keep) && forall x :: x in keep ==> x in e.lists[b]
    ensures Linked(e.(lists := e.lists[b := keep], at := e.at - Dropped(e.lists[b], keep)))
  {
  }

  /** A request of the scheduler that may be merged and ends at the sector. */
  predicate EndsAt(rqs: map<Id, Rq>, r: Id, offset: nat) { r in rqs && rqs[r].mergeable && rqs[r].End() == offset }

  /** The hash agrees with a plain scan of the scheduler: a request is found exactly when some
      request that may be merged ends at the sector, and a lookup changes nothing that matters. */
  lemma FindAgrees(e: Elv, h: nat -> nat, offset: nat)
    requires Inv(e, h)
    ensures var f := e.lists[Bucket(h, offset)];
            (forall i :: 0 <= i < |f| ==> f[i] in e.rqs) && var found := Scan(e.rqs, f, offset).found;
            (found.Some? <==> exists r :: EndsAt(e.rqs, r, offset)) && (found.Some? ==> EndsAt(e.rqs, found.value, offset))
    ensures Inv(Searched(e, h, offset), h)
  {
    SearchReady(e, h, offset);
    hide Bucket, Scan;
    var b := Bucket(h, offset);
    var f := e.lists[b];
    ScanIs(e.rqs, f, offset);
    forall r | EndsAt(e.rqs, r, offset) ensures r in f {
      assert Placed(e, h, r) && Findable(e, r);
    }
    var found := Scan(e.rqs, f, offset).found;
    if found.Some? {
      assert found.value in f && found.value in e.at;
      assert EndsAt(e.rqs, found.value, offset);
    }
    KeepLinked(e, b, Scan(e.rqs, f, offset).keep);
    var t := Searched(e, h, offset);
    hide Linked;
    forall x ensures Placed(t, h, x) && Findable(t, x) { assert Placed(e, h, x) && Findable(e, x); }
  }

  // ----- the elevator -----

  class Elevator {
    const h: nat -> nat
    var rqs: map<Id, Rq>
    var lists: seq<seq<Id>>
    var at: map<Id, nat>
    var last: Maybe

    ghost function State(): Elv
      reads this
    {
      Elv(rqs, lists, at, last)
    }

    ghost predicate Valid()
      reads this
    {
      Inv(State(), h)
    }

    constructor (hash: nat -> nat)
      ensures Valid() && State() == EMPTY && h == hash
    {
      h := hash;
      rqs, lists, at, last := map[], seq(ENTRIES, i => []), map[], None;
      new;
      EmptyInv(hash);
    }

    /** elv_rqhash_del */
    method HashDel(r: Id)
      requires |lists| == ENTRIES && (r in at ==> at[r] < ENTRIES)
      modifies this`lists, this`at
      ensures State() == Del(old(State()), r)
    {
      if r in at {
        lists := lists[at[r] := Without(lists[at[r]], r)];
        at := at - {r};
      }
    }

    /** elv_rqhash_add; its BUG_ON is the second precondition. */
    method HashAdd(r: Id)
      requires r in rqs && |lists| == ENTRIES
      requires r !in at
      modifies this`lists, this`at
      ensures State() == Add(old(State()), h, r)
    {
      var b := Bucket(h, rqs[r].End());
      lists := lists[b := [r] + lists[b]];
      at := at[r := b];
    }

    /** The sorted insertion of elv_insert. */
    method InsertSorted(r: Id, rq: Rq)
      requires Valid() && r !in rqs
      modifies this
      ensures |old(lists)| == ENTRIES && State() == Enter(old(State()), h, r, rq) && Valid()
    {
      hide Bucket, Add;
      EnterInv(State(), h, r, rq);
      rqs := rqs[r := rq];
      if rq.mergeable {
        HashAdd(r);
        if last == None { last := Some(r); }
      }
    }

    /** The hash part of elv_dispatch_sort and elv_dispatch_add_tail. */
    method DispatchRequest(r: Id)
      requires Valid()
      modifies this
      ensures State() == Leave(old(State()), r) && Valid()
    {
      hide Bucket, Without;
      LeaveInv(State(), h, r);
      if last == Some(r) { last := None; }
      HashDel(r);
      rqs := rqs - {r};
    }

    /** elv_merged_request after a back merge. */
    method MergedBack(r: Id, n: nat)
      requires Valid() && r in rqs
      modifies this
      ensures |old(lists)| == ENTRIES && State() == BackMerge(old(State()), h, r, n) && Valid()
    {
      hide Bucket, Add;
      BackMergeInv(State(), h, r, n);
      rqs := rqs[r := rqs[r].(sectors := rqs[r].sectors + n)];
      HashDel(r);
      HashAdd(r);
      last := Some(r);
    }

    /** elv_merged_request after a front merge. */
    method MergedFront(r: Id, n: nat)
      requires Valid() && r in rqs && n <= rqs[r].pos
      modifies this`rqs, this`last
      ensures State() == FrontMerge(old(State()), r, n) && Valid()
    {
      FrontMergeInv(State(), h, r, n);
      rqs := rqs[r := rqs[r].(pos := rqs[r].pos - n, sectors := rqs[r].sectors + n)];
      last := Some(r);
    }

    /** elv_merge_requests */
    method MergeRequests(r: Id, next: Id)
      requires Valid() && r in rqs && next in rqs && r != next
      modifies this
      ensures |old(lists)| == ENTRIES && State() == Absorb(old(State()), h, r, next) && Valid()
    {
      hide Bucket, Add, Without;
      AbsorbInv(State(), h, r, next);
      DelLinked(State(), r);
      rqs := rqs[r := rqs[r].(sectors := rqs[r].sectors + rqs[next].sectors)];
      HashDel(r);
      HashAdd(r);
      HashDel(next);
      rqs := rqs - {next};
      last := Some(r);
    }

    /** A merge is refused for good. */
    method SetNoMerge(r: Id)
      requires Valid() && r in rqs
      modifies this`rqs, this`last
      ensures State() == Refuse(old(State()), r) && Valid()
    {
      RefuseInv(State(), h, r);
      rqs := rqs[r := rqs[r].(mergeable := false)];
      if last == Some(r) { last := None; }
    }

    /** elv_rqhash_find */
    method Find(offset: nat) returns (found: Maybe)
      requires Valid()
      modifies this`lists, this`at
      ensures found.Some? <==> exists r :: EndsAt(rqs, r, offset)
      ensures found.Some? ==> EndsAt(rqs, found.value, offset)
      ensures Valid()
    {
      ghost var e := State();
      FindAgrees(e, h, offset);
      SearchReady(e, h, offset);
      assert |lists| == ENTRIES;
      var b := Bucket(h, offset);
      hide Bucket, Inv, Scan, EndsAt;
      var f := lists[b];
      var keep;
      keep, found := Walk(rqs, f, offset);
      lists := lists[b := keep];
      at := at - Dropped(f, keep);
    }
  }

  /** The loop of elv_rqhash_find. */
  method Walk(rqs: map<Id, Rq>, f: seq<Id>, offset: nat) returns (keep: seq<Id>, found: Maybe)
    requires forall i :: 0 <= i < |f| ==> f[i] in rqs
    ensures Scanned(keep, found) == Scan(rqs, f, offset)
  {
    keep, found := [], None;
    var i := 0;
    assert f[0..] == f;
    while i < |f|
      invariant i <= |f| && found == None && keep + Scan(rqs, f[i..], offset).keep == Scan(rqs, f, offset).keep
      invariant Scan(rqs, f[i..], offset).found == Scan(rqs, f, offset).found
    {
      assert f[i..][1..] == f[i+1..];
      var r := f[i];
      if rqs[r].mergeable {
        if rqs[r].End() == offset { return keep + f[i..], Some(r); }
        Snoc(keep, r, Scan(rqs, f[i+1..], offset).keep);
        keep := keep + [r];
      }
      i := i + 1;
    }
  }

  lemma Snoc(a: seq<Id>, r: Id, b: seq<Id>)
    ensures a + ([r] + b) == (a + [r]) + b
  {
  }
}
