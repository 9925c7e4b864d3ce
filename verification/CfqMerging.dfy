/**
  * Reference counts of cooperating CFQ queues.  A queue that is to be merged into another links to
  * it; the processes that use it follow the link one by one.  The count of a queue is the number
  * of its requests plus the number of io contexts whose chain of links passes through it, and that
  * is what keeps every queue on a chain alive until the chain has been walked.
  */
module CfqMerging {

  type Qid = nat
  type Cic = nat
  type Rid = nat

  datatype Link = None | To(q: Qid)

  /** ref, allocated[READ], allocated[WRITE] and new_cfqq */
  datatype Queue = Queue(ref: nat, rds: nat, wrs: nat, next: Link)

  /** The queue a request was charged to, and its direction. */
  datatype Held = Held(q: Qid, write: bool)

  /** The live sync queues, the sync queue of each io context that has one, and the requests. */
  datatype Cfq = Cfq(queues: map<Qid, Queue>, ctx: map<Cic, Qid>, rqs: map<Rid, Held>)

  // ----- chains -----

  /** `p` follows the links from `q` through live queues to one without a link. */
  ghost predicate IsChain(qs: map<Qid, Queue>, q: Qid, p: seq<Qid>) {
    && p != [] && p[0] == q
    && (forall i :: 0 <= i < |p| ==> p[i] in qs)
    && (forall i :: 0 < i < |p| ==> qs[p[i-1]].next == To(p[i]))
    && qs[p[|p|-1]].next == None
  }

  ghost function ChainOf(qs: map<Qid, Queue>, q: Qid): seq<Qid> {
    if exists p :: IsChain(qs, q, p) then var p :| IsChain(qs, q, p); p else []
  }

  lemma {:induction false} ChainUnique(qs: map<Qid, Queue>, q: Qid, p: seq<Qid>, r: seq<Qid>)
    requires IsChain(qs, q, p) && IsChain(qs, q, r)
    ensures p == r
    decreases |p|
  {
    assert |p| > 1 ==> qs[p[0]].next == To(p[1]);
    assert |r| > 1 ==> qs[r[0]].next == To(r[1]);
    if |p| > 1 && |r| > 1 {
      ChainTail(qs, q, p, 1);
      ChainTail(qs, q, r, 1);
      ChainUnique(qs, p[1], p[1..], r[1..]);
      assert p == [q] + p[1..] && r == [q] + r[1..];
    }
  }

  lemma ChainTail(qs: map<Qid, Queue>, q: Qid, p: seq<Qid>, i: nat)
    requires IsChain(qs, q, p) && i < |p|
    ensures IsChain(qs, p[i], p[i..])
  {
  }

  lemma ChainIs(qs: map<Qid, Queue>, q: Qid, p: seq<Qid>)
    requires IsChain(qs, q, p)
    ensures ChainOf(qs, q) == p
  {
    ChainUnique(qs, q, ChainOf(qs, q), p);
  }

  /** A chain that ends never comes back to a queue. */
  lemma ChainDistinct(qs: map<Qid, Queue>, q: Qid, p: seq<Qid>, i: nat, j: nat)
    requires IsChain(qs, q, p) && i < j < |p|
    ensures p[i] != p[j]
  {
    if p[i] == p[j] {
      ChainTail(qs, q, p, i);
      ChainTail(qs, q, p, j);
      ChainUnique(qs, p[i], p[i..], p[j..]);
      assert false;
    }
  }

  // ----- steps -----

  function ProcessRefs(x: Queue): int { x.ref - x.rds - x.wrs }

  /** Each queue in `d` loses one reference, and is freed with the last. */
  function Released(qs: map<Qid, Queue>, d: set<Qid>): map<Qid, Queue> {
    map q | q in qs && !(q in d && qs[q].ref <= 1) :: if q in d then qs[q].(ref := qs[q].ref - 1) else qs[q]
  }

  ghost function Elems(p: seq<Qid>): set<Qid> { set q | q in p }

  /** cfq_exit_cfqq, and split_cfqq when other processes share the queue: the context gives up its
      queue and the rest of the chain. */
  ghost function Leave(s: Cfq, c: Cic): Cfq
    requires c in s.ctx
  {
    s.(queues := Released(s.queues, Elems(ChainOf(s.queues, s.ctx[c]))), ctx := s.ctx - {c})
  }

  /** cfq_merge_cfqqs: the context moves one link on. */
  function MoveOn(s: Cfq, c: Cic): Cfq
    requires c in s.ctx && s.ctx[c] in s.queues && s.queues[s.ctx[c]].next != None
  {
    s.(queues := Released(s.queues, {s.ctx[c]}), ctx := s.ctx[c := s.queues[s.ctx[c]].next.q])
  }

  /** cfq_get_queue for a sync request. */
  function Obtain(s: Cfq, c: Cic, q: Qid): Cfq {
    s.(queues := s.queues[q := Queue(1, 0, 0, None)], ctx := s.ctx[c := q])
  }

  function Charged(x: Queue, write: bool): Queue {
    x.(ref := x.ref + 1, rds := x.rds + (if write then 0 else 1), wrs := x.wrs + (if write then 1 else 0))
  }

  function Charge(s: Cfq, c: Cic, r: Rid, write: bool): Cfq
    requires c in s.ctx && s.ctx[c] in s.queues
  {
    var q := s.ctx[c];
    s.(queues := s.queues[q := Charged(s.queues[q], write)], rqs := s.rqs[r := Held(q, write)])
  }

  /** The queue of the context is ready to be charged: a new one if the context has none or is
      split off, the next of the chain if a merge is due.  `split` stands for the two flags of a
      queue that has been seeky for too long, `q` for a queue not in use. */
  ghost function Prepare(s: Cfq, c: Cic, split: bool, q: Qid): Cfq
    requires c in s.ctx ==> s.ctx[c] in s.queues
  {
    if c !in s.ctx then Obtain(s, c, q)
    else if split && ProcessRefs(s.queues[s.ctx[c]]) != 1 then Obtain(Leave(s, c), c, q)
    else if s.queues[s.ctx[c]].next != None then MoveOn(s, c)
    else s
  }

  function Uncharged(x: Queue, write: bool): Queue
    requires if write then x.wrs > 0 else x.rds > 0
  {
    if write then x.(wrs := x.wrs - 1) else x.(rds := x.rds - 1)
  }

  predicate Accounted(s: Cfq, r: Rid)
    requires r in s.rqs
  {
    var h := s.rqs[r];
    h.q in s.queues && if h.write then s.queues[h.q].wrs > 0 else s.queues[h.q].rds > 0
  }

  /** cfq_put_request */
  function PutRequest(s: Cfq, r: Rid): Cfq
    requires r in s.rqs && Accounted(s, r)
  {
    var q := s.rqs[r].q;
    s.(queues := Released(s.queues[q := Uncharged(s.queues[q], s.rqs[r].write)], {q}), rqs := s.rqs - {r})
  }

  function Join(qs: map<Qid, Queue>, a: Qid, b: Qid): map<Qid, Queue>
    requires a in qs && b in qs && ProcessRefs(qs[a]) >= 0
  {
    var qa := qs[a := qs[a].(next := To(b))];
    qa[b := qa[b].(ref := qa[b].ref + ProcessRefs(qs[a]))]
  }

  /** cfq_setup_merge: the queue with fewer processes links to the other, taken at its chain's end. */
  ghost function SetupMerge(s: Cfq, q: Qid, other: Qid): Cfq
    requires q in s.queues && other in s.queues
    requires forall x :: x in s.queues ==> ProcessRefs(s.queues[x]) >= 0
  {
    var p := ChainOf(s.queues, other);
    if ProcessRefs(s.queues[other]) == 0 || p == [] || p[|p|-1] !in s.queues || q in p[1..] then s
    else
      var e := p[|p|-1];
      var mine, theirs := ProcessRefs(s.queues[q]), ProcessRefs(s.queues[e]);
      if mine == 0 || theirs == 0 then s
      else s.(queues := if theirs >= mine then Join(s.queues, q, e) else Join(s.queues, e, q))
  }

  // ----- the invariant -----

  /** The contexts whose chain passes through `q`. */
  function Sharing(paths: map<Cic, seq<Qid>>, q: Qid): set<Cic> { set c | c in paths && q in paths[c] }

  function HeldBy(rqs: map<Rid, Held>, q: Qid, write: bool): set<Rid> { set r | r in rqs && rqs[r] == Held(q, write) }

  ghost predicate QueueOk(x: Queue, rqs: map<Rid, Held>, paths: map<Cic, seq<Qid>>, q: Qid) {
    && x.rds == |HeldBy(rqs, q, false)| && x.wrs == |HeldBy(rqs, q, true)|
    && x.ref == x.rds + x.wrs + |Sharing(paths, q)| && x.ref > 0
  }

  ghost predicate Counted(s: Cfq, paths: map<Cic, seq<Qid>>) {
    && (forall q :: q in s.queues ==> QueueOk(s.queues[q], s.rqs, paths, q))
    && (forall r :: r in s.rqs ==> s.rqs[r].q in s.queues)
  }

  ghost predicate Pathed(s: Cfq, paths: map<Cic, seq<Qid>>) {
    && paths.Keys == s.ctx.Keys
    && (forall c :: c in paths ==> IsChain(s.queues, s.ctx[c], paths[c]))
  }

  ghost predicate Inv(s: Cfq, paths: map<Cic, seq<Qid>>) { Counted(s, paths) && Pathed(s, paths) }

  // ----- giving up part of a chain -----

  /** The context gives up the queues in `d` and nothing else of its chain. */
  ghost predicate GivesUp(paths: map<Cic, seq<Qid>>, after: map<Cic, seq<Qid>>, c: Cic, d: set<Qid>) {
    && c in paths && (forall x :: x in d ==> x in paths[c])
    && (forall x :: x != c ==> (x in after <==> x in paths) && (x in paths ==> after[x] == paths[x]))
    && (forall x :: (c in after && x in after[c]) <==> (x in paths[c] && x !in d))
  }

  lemma SharingDrop(paths: map<Cic, seq<Qid>>, after: map<Cic, seq<Qid>>, c: Cic, d: set<Qid>, q: Qid)
    requires GivesUp(paths, after, c, d)
    ensures Sharing(after, q) == if q in d then Sharing(paths, q) - {c} else Sharing(paths, q)
    ensures |Sharing(after, q)| == if q in d then |Sharing(paths, q)| - 1 else |Sharing(paths, q)|
  {
    assert Sharing(after, q) == if q in d then Sharing(paths, q) - {c} else Sharing(paths, q);
  }

  /** Releasing the queues a context no longer reaches keeps the counts and frees no queue that
      another context still reaches. */
  lemma ReleaseCounted(s: Cfq, paths: map<Cic, seq<Qid>>, after: map<Cic, seq<Qid>>, c: Cic, d: set<Qid>, t: Cfq)
    requires Counted(s, paths) && GivesUp(paths, after, c, d)
    requires t.queues == Released(s.queues, d) && t.rqs == s.rqs
    ensures Counted(t, after)
    ensures forall q, x :: q in s.queues && x in after && q in after[x] ==> q in t.queues
  {
    hide Sharing, HeldBy;
    forall q | q in s.queues
      ensures q in t.queues <==> s.queues[q].ref > 1 || q !in d
      ensures q in t.queues ==> QueueOk(t.queues[q], t.rqs, after, q)
      ensures |HeldBy(s.rqs, q, false)| + |HeldBy(s.rqs, q, true)| + |Sharing(after, q)| > 0 ==> q in t.queues
    {
      SharingDrop(paths, after, c, d, q);
      assert QueueOk(s.queues[q], s.rqs, paths, q);
    }
    forall r | r in t.rqs ensures t.rqs[r].q in t.queues {
      HeldMember(s.rqs, r);
    }
    forall q, x | q in s.queues && x in after && q in after[x] ensures q in t.queues {
      SharingMember(after, x, q);
    }
  }

  lemma HeldMember(rqs: map<Rid, Held>, r: Rid)
    requires r in rqs
    ensures r in HeldBy(rqs, rqs[r].q, rqs[r].write) && |HeldBy(rqs, rqs[r].q, rqs[r].write)| > 0
  {
    assert r in HeldBy(rqs, rqs[r].q, rqs[r].write);
  }

  lemma SharingMember(paths: map<Cic, seq<Qid>>, c: Cic, q: Qid)
    requires c in paths && q in paths[c]
    ensures c in Sharing(paths, q) && |Sharing(paths, q)| > 0
  {
    assert c in Sharing(paths, q);
  }

  /** Releasing references moves no link. */
  lemma ReleaseChain(qs: map<Qid, Queue>, d: set<Qid>, q: Qid, p: seq<Qid>)
    requires IsChain(qs, q, p) && forall x :: x in p ==> x in Released(qs, d)
    ensures IsChain(Released(qs, d), q, p)
  {
    assert forall i :: 0 <= i < |p| ==> p[i] in p;
  }

  lemma ReleaseInv(s: Cfq, paths: map<Cic, seq<Qid>>, after: map<Cic, seq<Qid>>, c: Cic, d: set<Qid>, t: Cfq)
    requires Counted(s, paths) && GivesUp(paths, after, c, d)
    requires t.queues == Released(s.queues, d) && t.rqs == s.rqs && after.Keys == t.ctx.Keys
    requires forall x :: x in after ==> IsChain(s.queues, t.ctx[x], after[x])
    ensures Inv(t, after)
  {
    ReleaseCounted(s, paths, after, c, d, t);
    forall x | x in after ensures IsChain(t.queues, t.ctx[x], after[x]) {
      forall q | q in after[x] ensures q in t.queues { InChain(s.queues, t.ctx[x], after[x], q); }
      ReleaseChain(s.queues, d, t.ctx[x], after[x]);
    }
  }

  lemma InChain(qs: map<Qid, Queue>, q: Qid, p: seq<Qid>, x: Qid)
    requires IsChain(qs, q, p) && x in p
    ensures x in qs
  {
  }

  lemma LeaveInv(s: Cfq, paths: map<Cic, seq<Qid>>, c: Cic)
    requires Inv(s, paths) && c in s.ctx
    ensures Inv(Leave(s, c), paths - {c})
  {
    hide Counted, IsChain, Released, ChainOf;
    ChainIs(s.queues, s.ctx[c], paths[c]);
    ReleaseInv(s, paths, paths - {c}, c, Elems(paths[c]), Leave(s, c));
  }

  lemma MoveOnPath(s: Cfq, p: seq<Qid>, q: Qid)
    requires IsChain(s.queues, q, p) && s.queues[q].next != None
    ensures |p| > 1 && s.queues[q].next.q == p[1] && IsChain(s.queues, p[1], p[1..])
    ensures forall x :: x in p[1..] <==> x in p && x != q
  {
    assert |p| > 1 ==> s.queues[p[0]].next == To(p[1]);
    ChainTail(s.queues, q, p, 1);
    forall i | 0 < i < |p| ensures p[i] != q { ChainDistinct(s.queues, q, p, 0, i); }
    assert p == [q] + p[1..];
  }

  lemma MoveOnInv(s: Cfq, paths: map<Cic, seq<Qid>>, c: Cic)
    requires Inv(s, paths) && c in s.ctx && s.ctx[c] in s.queues && s.queues[s.ctx[c]].next != None
    ensures c in paths && |paths[c]| > 1 && Inv(MoveOn(s, c), paths[c := paths[c][1..]])
  {
    hide Counted, IsChain, Released;
    var q := s.ctx[c];
    MoveOnPath(s, paths[c], q);
    assert q in paths[c] by { ChainStarts(s.queues, q, paths[c]); }
    ReleaseInv(s, paths, paths[c := paths[c][1..]], c, {q}, MoveOn(s, c));
  }

  lemma ChainStarts(qs: map<Qid, Queue>, q: Qid, p: seq<Qid>)
    requires IsChain(qs, q, p)
    ensures q in p && q in qs && p[|p|-1] in p && p[|p|-1] in qs && qs[p[|p|-1]].next == None
  {
  }

  // ----- the other steps -----

  /** Requests held of the other queues and of the other direction are the same. */
  lemma HeldAdd(rqs: map<Rid, Held>, r: Rid, h: Held, q: Qid, w: bool)
    requires r !in rqs
    ensures |HeldBy(rqs[r := h], q, w)| == |HeldBy(rqs, q, w)| + if h == Held(q, w) then 1 else 0
  {
    assert HeldBy(rqs[r := h], q, w) == if h == Held(q, w) then HeldBy(rqs, q, w) + {r} else HeldBy(rqs, q, w);
  }

  lemma HeldRemove(rqs: map<Rid, Held>, r: Rid, q: Qid, w: bool)
    requires r in rqs
    ensures |HeldBy(rqs - {r}, q, w)| == |HeldBy(rqs, q, w)| - if rqs[r] == Held(q, w) then 1 else 0
  {
    assert HeldBy(rqs - {r}, q, w) == if rqs[r] == Held(q, w) then HeldBy(rqs, q, w) - {r} else HeldBy(rqs, q, w);
  }

  /** Chains do not depend on counts. */
  lemma SameLinks(qs: map<Qid, Queue>, rs: map<Qid, Queue>, q: Qid, p: seq<Qid>)
    requires IsChain(qs, q, p) && forall x :: x in p ==> x in rs && (x in qs ==> rs[x].next == qs[x].next)
    ensures IsChain(rs, q, p)
  {
    assert forall i :: 0 <= i < |p| ==> p[i] in p;
  }

  lemma ChargeInv(s: Cfq, paths: map<Cic, seq<Qid>>, c: Cic, r: Rid, write: bool, t: Cfq)
    requires Inv(s, paths) && c in s.ctx && s.ctx[c] in s.queues && r !in s.rqs && t == Charge(s, c, r, write)
    ensures Inv(t, paths)
  {
    hide HeldBy, Sharing, IsChain;
    forall q | q in t.queues ensures QueueOk(t.queues[q], t.rqs, paths, q) {
      assert QueueOk(s.queues[q], s.rqs, paths, q);
      HeldAdd(s.rqs, r, Held(s.ctx[c], write), q, false);
      HeldAdd(s.rqs, r, Held(s.ctx[c], write), q, true);
    }
    forall x | x in paths ensures IsChain(t.queues, t.ctx[x], paths[x]) {
      forall y | y in paths[x] ensures y in s.queues { InChain(s.queues, s.ctx[x], paths[x], y); }
      SameLinks(s.queues, t.queues, s.ctx[x], paths[x]);
    }
  }

  lemma NotYet(s: Cfq, paths: map<Cic, seq<Qid>>, q: Qid)
    requires Inv(s, paths) && q !in s.queues
    ensures Sharing(paths, q) == {} && HeldBy(s.rqs, q, false) == {} && HeldBy(s.rqs, q, true) == {}
  {
    forall c | c in paths ensures q !in paths[c] {
      assert IsChain(s.queues, s.ctx[c], paths[c]);
    }
  }

  lemma SharingAdd(paths: map<Cic, seq<Qid>>, c: Cic, q: Qid, x: Qid)
    requires c !in paths
    ensures |Sharing(paths[c := [q]], x)| == |Sharing(paths, x)| + if x == q then 1 else 0
  {
    assert Sharing(paths[c := [q]], x) == if x == q then Sharing(paths, x) + {c} else Sharing(paths, x);
  }

  lemma ObtainCounted(s: Cfq, paths: map<Cic, seq<Qid>>, c: Cic, q: Qid, t: Cfq)
    requires Inv(s, paths) && c !in s.ctx && q !in s.queues && t == Obtain(s, c, q)
    ensures Counted(t, paths[c := [q]])
  {
    hide HeldBy, Sharing, IsChain;
    NotYet(s, paths, q);
    forall x | x in t.queues ensures QueueOk(t.queues[x], t.rqs, paths[c := [q]], x) {
      assert x in s.queues ==> QueueOk(s.queues[x], s.rqs, paths, x);
      SharingAdd(paths, c, q, x);
    }
  }

  lemma ObtainChain(s: Cfq, paths: map<Cic, seq<Qid>>, c: Cic, q: Qid, t: Cfq, x: Cic)
    requires Pathed(s, paths) && c !in s.ctx && q !in s.queues && t == Obtain(s, c, q) && x in paths
    ensures IsChain(t.queues, t.ctx[x], paths[x])
  {
    hide IsChain;
    forall y | y in paths[x] ensures y in s.queues { InChain(s.queues, s.ctx[x], paths[x], y); }
    SameLinks(s.queues, t.queues, s.ctx[x], paths[x]);
  }

  lemma ObtainInv(s: Cfq, paths: map<Cic, seq<Qid>>, c: Cic, q: Qid, t: Cfq)
    requires Inv(s, paths) && c !in s.ctx && q !in s.queues && t == Obtain(s, c, q)
    ensures Inv(t, paths[c := [q]])
  {
    hide Counted, IsChain;
    ObtainCounted(s, paths, c, q, t);
    OneChain(t.queues, q);
    forall x | x in paths[c := [q]] ensures IsChain(t.queues, t.ctx[x], paths[c := [q]][x]) {
      if x != c { ObtainChain(s, paths, c, q, t, x); }
    }
  }

  lemma OneChain(qs: map<Qid, Queue>, q: Qid)
    requires q in qs && qs[q].next == None
    ensures IsChain(qs, q, [q])
  {
  }

  lemma PutRequestInv(s: Cfq, paths: map<Cic, seq<Qid>>, r: Rid)
    requires Inv(s, paths) && r in s.rqs
    ensures Accounted(s, r)
    ensures Inv(PutRequest(s, r), paths)
  {
    hide HeldBy, Sharing, IsChain;
    var h := s.rqs[r];
    assert QueueOk(s.queues[h.q], s.rqs, paths, h.q);
    HeldMember(s.rqs, r);
    var t := PutRequest(s, r);
    forall q | q in s.queues
      ensures q in t.queues ==> QueueOk(t.queues[q], t.rqs, paths, q)
      ensures |HeldBy(t.rqs, q, false)| + |HeldBy(t.rqs, q, true)| + |Sharing(paths, q)| > 0 ==> q in t.queues
    {
      assert QueueOk(s.queues[q], s.rqs, paths, q);
      HeldRemove(s.rqs, r, q, false);
      HeldRemove(s.rqs, r, q, true);
    }
    forall x | x in t.rqs ensures t.rqs[x].q in t.queues { HeldMember(t.rqs, x); }
    forall x | x in paths ensures IsChain(t.queues, t.ctx[x], paths[x]) {
      forall y | y in paths[x] ensures y in t.queues {
        InChain(s.queues, s.ctx[x], paths[x], y);
        SharingMember(paths, x, y);
      }
      SameLinks(s.queues, t.queues, s.ctx[x], paths[x]);
    }
  }

  // ----- setting up a merge -----

  lemma SetNonEmpty<T>(a: set<T>)
    ensures |a| > 0 ==> exists x :: x in a
  {
    if a == {} { assert |a| == 0; }
  }

  /** A queue with process references lies on a live chain. */
  lemma SharedHasChain(s: Cfq, paths: map<Cic, seq<Qid>>, q: Qid) returns (c: Cic, i: nat)
    requires Inv(s, paths) && q in s.queues && ProcessRefs(s.queues[q]) > 0
    ensures c in paths && i < |paths[c]| && paths[c][i] == q && IsChain(s.queues, q, paths[c][i..])
    ensures ChainOf(s.queues, q) == paths[c][i..]
  {
    assert QueueOk(s.queues[q], s.rqs, paths, q);
    SetNonEmpty(Sharing(paths, q));
    c :| c in Sharing(paths, q);
    i :| 0 <= i < |paths[c]| && paths[c][i] == q;
    ChainTail(s.queues, s.ctx[c], paths[c], i);
    ChainIs(s.queues, q, paths[c][i..]);
  }

  /** The chains once the end `a` links to the end `b`. */
  ghost function Lengthened(paths: map<Cic, seq<Qid>>, a: Qid, b: Qid): map<Cic, seq<Qid>> {
    map c | c in paths :: if a in paths[c] then paths[c] + [b] else paths[c]
  }

  /** Only the last queue of a chain has no link. */
  lemma EndIsLast(qs: map<Qid, Queue>, q: Qid, p: seq<Qid>, a: Qid)
    requires IsChain(qs, q, p) && a in p && qs[a].next == None
    ensures a == p[|p|-1]
  {
    forall i | 0 <= i < |p| ensures i == |p|-1 || qs[p[i]].next != None {
      var j := i + 1;
      assert j < |p| ==> qs[p[j-1]].next == To(p[j]);
    }
  }

  lemma JoinSharing(s: Cfq, paths: map<Cic, seq<Qid>>, a: Qid, b: Qid, q: Qid)
    requires Pathed(s, paths) && a in s.queues && b in s.queues && a != b
    requires s.queues[a].next == None && s.queues[b].next == None
    ensures |Sharing(Lengthened(paths, a, b), q)| == |Sharing(paths, q)| + if q == b then |Sharing(paths, a)| else 0
  {
    forall c | c in paths ensures !(a in paths[c] && b in paths[c]) {
      if a in paths[c] && b in paths[c] {
        EndIsLast(s.queues, s.ctx[c], paths[c], a);
        EndIsLast(s.queues, s.ctx[c], paths[c], b);
        assert false;
      }
    }
    hide Pathed, IsChain;
    assert Sharing(paths, a) !! Sharing(paths, b);
    assert Sharing(Lengthened(paths, a, b), q) == if q == b then Sharing(paths, q) + Sharing(paths, a) else Sharing(paths, q);
  }

  lemma JoinChain(qs: map<Qid, Queue>, a: Qid, b: Qid, q: Qid, p: seq<Qid>)
    requires IsChain(qs, q, p) && a in qs && b in qs && a != b && qs[a].next == None && qs[b].next == None
    requires ProcessRefs(qs[a]) >= 0
    ensures IsChain(Join(qs, a, b), q, if a in p then p + [b] else p)
  {
    var rs := Join(qs, a, b);
    if a in p {
      EndIsLast(qs, q, p, a);
      var r := p + [b];
      forall i | 0 < i < |r| ensures rs[r[i-1]].next == To(r[i]) {
        if i < |p| { assert r[i-1] == p[i-1] && qs[p[i-1]].next == To(p[i]); }
      }
    } else {
      SameLinks(qs, rs, q, p);
    }
  }

  lemma JoinCounted(s: Cfq, paths: map<Cic, seq<Qid>>, a: Qid, b: Qid, t: Cfq)
    requires Inv(s, paths) && a in s.queues && b in s.queues && a != b && ProcessRefs(s.queues[a]) >= 0
    requires s.queues[a].next == None && s.queues[b].next == None && t == s.(queues := Join(s.queues, a, b))
    ensures Counted(t, Lengthened(paths, a, b))
  {
    hide HeldBy, Sharing, IsChain, Lengthened;
    assert QueueOk(s.queues[a], s.rqs, paths, a);
    forall q | q in t.queues ensures QueueOk(t.queues[q], t.rqs, Lengthened(paths, a, b), q) {
      assert QueueOk(s.queues[q], s.rqs, paths, q);
      JoinSharing(s, paths, a, b, q);
    }
  }

  lemma JoinInv(s: Cfq, paths: map<Cic, seq<Qid>>, a: Qid, b: Qid, t: Cfq)
    requires Inv(s, paths) && a in s.queues && b in s.queues && a != b && ProcessRefs(s.queues[a]) >= 0
    requires s.queues[a].next == None && s.queues[b].next == None && t == s.(queues := Join(s.queues, a, b))
    ensures Inv(t, Lengthened(paths, a, b))
  {
    hide Counted, IsChain, Join;
    JoinCounted(s, paths, a, b, t);
    forall c | c in paths ensures IsChain(t.queues, t.ctx[c], Lengthened(paths, a, b)[c]) {
      JoinChain(s.queues, a, b, s.ctx[c], paths[c]);
    }
  }

  lemma RefsNat(s: Cfq, paths: map<Cic, seq<Qid>>)
    requires Inv(s, paths)
    ensures forall q :: q in s.queues ==> ProcessRefs(s.queues[q]) >= 0 && ProcessRefs(s.queues[q]) == |Sharing(paths, q)|
  {
    forall q | q in s.queues ensures ProcessRefs(s.queues[q]) >= 0 && ProcessRefs(s.queues[q]) == |Sharing(paths, q)| {
      assert QueueOk(s.queues[q], s.rqs, paths, q);
    }
  }

  /** The chains after cfq_setup_merge. */
  ghost function MergedPaths(s: Cfq, paths: map<Cic, seq<Qid>>, q: Qid, other: Qid): map<Cic, seq<Qid>>
    requires Inv(s, paths) && q in s.queues && other in s.queues
  {
    RefsNat(s, paths);
    var t, p := SetupMerge(s, q, other), ChainOf(s.queues, other);
    if t == s then paths
    else if t.queues[q].next != None then Lengthened(paths, q, p[|p|-1])
    else Lengthened(paths, p[|p|-1], q)
  }

  /** If a link is made, it joins `q` and the end of the other chain, which are two queues without a link. */
  lemma MergeEnds(s: Cfq, paths: map<Cic, seq<Qid>>, q: Qid, other: Qid) returns (e: Qid)
    requires Inv(s, paths) && q in s.queues && other in s.queues && q != other && s.queues[q].next == None
    requires forall x :: x in s.queues ==> ProcessRefs(s.queues[x]) >= 0
    requires SetupMerge(s, q, other) != s
    ensures var p := ChainOf(s.queues, other); p != [] && e == p[|p|-1]
    ensures e in s.queues && e != q && s.queues[e].next == None
    ensures SetupMerge(s, q, other).queues ==
            if ProcessRefs(s.queues[e]) >= ProcessRefs(s.queues[q]) then Join(s.queues, q, e) else Join(s.queues, e, q)
  {
    hide Inv, ChainOf, IsChain, Join;
    var c, i := SharedHasChain(s, paths, other);
    var p := ChainOf(s.queues, other);
    ChainStarts(s.queues, other, p);
    e := p[|p|-1];
    assert |p| > 1 ==> e in p[1..];
  }

  lemma SetupMergeInv(s: Cfq, paths: map<Cic, seq<Qid>>, q: Qid, other: Qid)
    requires Inv(s, paths) && q in s.queues && other in s.queues && q != other && s.queues[q].next == None
    requires forall x :: x in s.queues ==> ProcessRefs(s.queues[x]) >= 0
    ensures Inv(SetupMerge(s, q, other), MergedPaths(s, paths, q, other))
  {
    hide Inv, IsChain, ChainOf, Lengthened;
    var t := SetupMerge(s, q, other);
    if t != s {
      var e := MergeEnds(s, paths, q, other);
      if ProcessRefs(s.queues[e]) >= ProcessRefs(s.queues[q]) {
        JoinInv(s, paths, q, e, t);
      } else {
        JoinInv(s, paths, e, q, t);
      }
    }
  }

  /** A new link leads from the queue with fewer processes to the other chain's end, or back. */
  lemma LinksToBusier(s: Cfq, paths: map<Cic, seq<Qid>>, q: Qid, other: Qid) returns (a: Qid, b: Qid)
    requires Inv(s, paths) && q in s.queues && other in s.queues && q != other && s.queues[q].next == None
    requires forall x :: x in s.queues ==> ProcessRefs(s.queues[x]) >= 0
    requires SetupMerge(s, q, other) != s
    ensures a in s.queues && b in s.queues && s.queues[a].next == None && (a == q || b == q)
    ensures SetupMerge(s, q, other) == s.(queues := Join(s.queues, a, b))
    ensures 0 < ProcessRefs(s.queues[a]) <= ProcessRefs(s.queues[b])
  {
    hide Inv, IsChain, ChainOf, Join;
    var e := MergeEnds(s, paths, q, other);
    if ProcessRefs(s.queues[e]) >= ProcessRefs(s.queues[q]) { a, b := q, e; } else { a, b := e, q; }
  }

  // ----- runs -----

  /** The counts and the chains agree. */
  ghost predicate Sound(s: Cfq) { exists paths :: Inv(s, paths) }

  datatype Action =
    | SetRequest(c: Cic, r: Rid, write: bool, split: bool, q: Qid)
    | DropRequest(r: Rid)
    | Cooperate(q: Qid, other: Qid)
    | Exit(c: Cic)

  /** What the callers guarantee: new requests and queues are new, a merge is only set up for a
      queue without a link and with another queue. */
  predicate Enabled(s: Cfq, a: Action) {
    match a
    case SetRequest(c, r, _, _, q) => r !in s.rqs && q !in s.queues
    case DropRequest(r) => r in s.rqs
    case Cooperate(q, other) => q in s.queues && other in s.queues && q != other && s.queues[q].next == None
    case Exit(c) => c in s.ctx
  }

  /** What the steps rely on. */
  lemma SoundReady(s: Cfq)
    requires Sound(s)
    ensures forall c :: c in s.ctx ==> s.ctx[c] in s.queues
    ensures forall q :: q in s.queues ==> ProcessRefs(s.queues[q]) >= 0 && s.queues[q].ref > 0
    ensures forall r :: r in s.rqs ==> Accounted(s, r)
  {
    var paths :| Inv(s, paths);
    hide IsChain;
    forall c | c in s.ctx ensures s.ctx[c] in s.queues { ChainStarts(s.queues, s.ctx[c], paths[c]); }
    forall q | q in s.queues ensures ProcessRefs(s.queues[q]) >= 0 && s.queues[q].ref > 0 {
      assert QueueOk(s.queues[q], s.rqs, paths, q);
    }
    forall r | r in s.rqs ensures Accounted(s, r) {
      HeldMember(s.rqs, r);
      assert QueueOk(s.queues[s.rqs[r].q], s.rqs, paths, s.rqs[r].q);
    }
  }

  lemma PrepareSound(s: Cfq, c: Cic, split: bool, q: Qid)
    requires Sound(s) && q !in s.queues && (c in s.ctx ==> s.ctx[c] in s.queues)
    ensures var t := Prepare(s, c, split, q); Sound(t) && c in t.ctx && t.ctx[c] in t.queues && t.rqs == s.rqs
  {
    hide Inv, Released, ChainOf;
    var paths :| Inv(s, paths);
    var t := Prepare(s, c, split, q);
    if c !in s.ctx {
      ObtainInv(s, paths, c, q, t);
      assert Inv(t, paths[c := [q]]);
    } else if split && ProcessRefs(s.queues[s.ctx[c]]) != 1 {
      LeaveInv(s, paths, c);
      LeaveKeys(s, c, q);
      ObtainInv(Leave(s, c), paths - {c}, c, q, t);
      assert Inv(t, (paths - {c})[c := [q]]);
    } else if s.queues[s.ctx[c]].next != None {
      MoveOnInv(s, paths, c);
      assert Inv(t, paths[c := paths[c][1..]]);
    } else {
      assert Inv(t, paths);
    }
    SoundReady(t);
  }

  lemma LeaveKeys(s: Cfq, c: Cic, q: Qid)
    requires c in s.ctx && q !in s.queues
    ensures q !in Leave(s, c).queues
  {
  }

  ghost function Apply(s: Cfq, a: Action): Cfq
    requires Sound(s) && Enabled(s, a)
  {
    SoundReady(s);
    match a
    case SetRequest(c, r, write, split, q) =>
      PrepareSound(s, c, split, q);
      Charge(Prepare(s, c, split, q), c, r, write)
    case DropRequest(r) => PutRequest(s, r)
    case Cooperate(q, other) => SetupMerge(s, q, other)
    case Exit(c) => Leave(s, c)
  }

  lemma StepSound(s: Cfq, a: Action)
    requires Sound(s) && Enabled(s, a)
    ensures Sound(Apply(s, a))
  {
    hide Inv, Released, ChainOf, Charge, PutRequest, SetupMerge, Leave, Prepare;
    SoundReady(s);
    match a
    case SetRequest(c, r, write, split, q) =>
      PrepareSound(s, c, split, q);
      var t := Prepare(s, c, split, q);
      var paths :| Inv(t, paths);
      ChargeInv(t, paths, c, r, write, Charge(t, c, r, write));
    case DropRequest(r) =>
      var paths :| Inv(s, paths);
      PutRequestInv(s, paths, r);
    case Cooperate(q, other) =>
      var paths :| Inv(s, paths);
      SetupMergeInv(s, paths, q, other);
    case Exit(c) =>
      var paths :| Inv(s, paths);
      LeaveInv(s, paths, c);
  }

  const EMPTY := Cfq(map[], map[], map[])

  ghost predicate Runs(s: Cfq, actions: seq<Action>, t: Cfq)
    decreases |actions|
  {
    if actions == [] then s == t
    else Sound(s) && Enabled(s, actions[0]) && Runs(Apply(s, actions[0]), actions[1..], t)
  }

  lemma {:induction false} RunSound(s: Cfq, actions: seq<Action>, t: Cfq)
    requires Sound(s) && Runs(s, actions, t)
    ensures Sound(t)
    decreases |actions|
  {
    if actions != [] {
      StepSound(s, actions[0]);
      RunSound(Apply(s, actions[0]), actions[1..], t);
    }
  }

  ghost predicate Reachable(s: Cfq) { exists actions :: Runs(EMPTY, actions, s) }

  lemma ReachableSound(s: Cfq)
    requires Reachable(s)
    ensures Sound(s)
  {
    var actions :| Runs(EMPTY, actions, s);
    assert Inv(EMPTY, map[]);
    RunSound(EMPTY, actions, s);
  }

  /** In every reachable state a queue's count is its requests plus the io contexts whose chain of
      links passes through it. */
  lemma RefsAreUsers(s: Cfq, q: Qid)
    requires Reachable(s) && q in s.queues
    ensures s.queues[q].ref == |HeldBy(s.rqs, q, false)| + |HeldBy(s.rqs, q, true)|
                             + |set c | c in s.ctx && q in ChainOf(s.queues, s.ctx[c])|
    ensures s.queues[q].ref > 0
  {
    hide HeldBy, Sharing, IsChain, ChainOf;
    ReachableSound(s);
    var paths :| Inv(s, paths);
    assert QueueOk(s.queues[q], s.rqs, paths, q);
    SharingIsChains(s, paths, q);
  }

  lemma SharingIsChains(s: Cfq, paths: map<Cic, seq<Qid>>, q: Qid)
    requires Pathed(s, paths)
    ensures Sharing(paths, q) == set c | c in s.ctx && q in ChainOf(s.queues, s.ctx[c])
  {
    hide IsChain, ChainOf;
    forall c | c in s.ctx ensures ChainOf(s.queues, s.ctx[c]) == paths[c] { ChainIs(s.queues, s.ctx[c], paths[c]); }
  }

  /** Every queue a context can walk to is live, the walk ends and never comes back. */
  lemma WalksAreSafe(s: Cfq, c: Cic)
    requires Reachable(s) && c in s.ctx
    ensures var p := ChainOf(s.queues, s.ctx[c]);
            && IsChain(s.queues, s.ctx[c], p)
            && forall i, j :: 0 <= i < j < |p| ==> p[i] != p[j]
  {
    ReachableSound(s);
    var paths :| Inv(s, paths);
    var p := paths[c];
    ChainIs(s.queues, s.ctx[c], p);
    forall i, j | 0 <= i < j < |p| ensures p[i] != p[j] { ChainDistinct(s.queues, s.ctx[c], p, i, j); }
  }

  /** The walk of cfq_setup_merge from a queue that has process references is safe too. */
  lemma CooperatorWalkIsSafe(s: Cfq, q: Qid)
    requires Reachable(s) && q in s.queues && ProcessRefs(s.queues[q]) > 0
    ensures IsChain(s.queues, q, ChainOf(s.queues, q))
  {
    ReachableSound(s);
    var paths :| Inv(s, paths);
    var c, i := SharedHasChain(s, paths, q);
  }

  /** Merging a queue with itself would make a loop that no walk leaves. */
  lemma SelfMergeLoops(s: Cfq, q: Qid)
    requires q in s.queues && s.queues[q].next == None && ProcessRefs(s.queues[q]) > 0
    requires forall x :: x in s.queues ==> ProcessRefs(s.queues[x]) >= 0
    ensures SetupMerge(s, q, q).queues[q].next == To(q)
    ensures forall p :: !IsChain(SetupMerge(s, q, q).queues, q, p)
  {
    OneChain(s.queues, q);
    ChainIs(s.queues, q, [q]);
    var t := SetupMerge(s, q, q);
    forall p ensures !IsChain(t.queues, q, p) { LoopHasNoEnd(t.queues, q, p); }
  }

  lemma {:induction false} LoopHasNoEnd(qs: map<Qid, Queue>, q: Qid, p: seq<Qid>)
    requires q in qs && qs[q].next == To(q)
    ensures !IsChain(qs, q, p)
  {
    if IsChain(qs, q, p) {
      AlwaysThere(qs, q, p, |p|-1);
    }
  }

  lemma {:induction false} AlwaysThere(qs: map<Qid, Queue>, q: Qid, p: seq<Qid>, i: nat)
    requires IsChain(qs, q, p) && qs[q].next == To(q) && i < |p|
    ensures p[i] == q
  {
    if i > 0 {
      AlwaysThere(qs, q, p, i-1);
      assert qs[p[i-1]].next == To(p[i]);
    }
  }

  // ----- a stale link -----

  lemma {:induction false} RunSnoc(s: Cfq, actions: seq<Action>, t: Cfq, a: Action)
    requires Sound(s) && Runs(s, actions, t) && Sound(t) && Enabled(t, a)
    ensures Runs(s, actions + [a], Apply(t, a))
    decreases |actions|
  {
    hide Apply, Enabled;
    if actions == [] {
      assert [a][1..] == [];
      assert actions + [a] == [a];
    } else {
      StepSound(s, actions[0]);
      RunSnoc(Apply(s, actions[0]), actions[1..], t, a);
      assert (actions + [a])[1..] == actions[1..] + [a];
    }
  }

  lemma EmptySound()
    ensures Sound(EMPTY)
  {
    assert Inv(EMPTY, map[]);
  }

  lemma ReachableStep(s: Cfq, a: Action)
    requires Reachable(s) && Enabled(s, a)
    ensures Sound(s) && Reachable(Apply(s, a))
  {
    hide Apply, Enabled, Sound, Runs;
    ReachableSound(s);
    EmptySound();
    var actions :| Runs(EMPTY, actions, s);
    RunSnoc(EMPTY, actions, s, a);
  }

  // Two processes with a request each; the first queue is merged into the second, which both
  // processes then use; and all but the first request and its queue goes away.
  const ONE := Cfq(map[0 := Queue(2, 1, 0, None)], map[0 := 0], map[0 := Held(0, false)])

  const TWO := Cfq(map[0 := Queue(2, 1, 0, None), 1 := Queue(2, 1, 0, None)], map[0 := 0, 1 := 1],
                   map[0 := Held(0, false), 1 := Held(1, false)])

  const LINKED := TWO.(queues := map[0 := Queue(2, 1, 0, To(1)), 1 := Queue(3, 1, 0, None)])

  const MERGED := Cfq(map[0 := Queue(1, 1, 0, To(1)), 1 := Queue(4, 2, 0, None)], map[0 := 1, 1 := 1],
                      map[0 := Held(0, false), 1 := Held(1, false), 2 := Held(1, false)])

  const DROPPED := Cfq(map[0 := Queue(1, 1, 0, To(1)), 1 := Queue(3, 1, 0, None)], map[0 := 1, 1 := 1],
                       map[0 := Held(0, false), 2 := Held(1, false)])

  const UNUSED := Cfq(map[0 := Queue(1, 1, 0, To(1)), 1 := Queue(2, 0, 0, None)], map[0 := 1, 1 := 1], map[0 := Held(0, false)])

  const LEFT := Cfq(map[0 := Queue(1, 1, 0, To(1)), 1 := Queue(1, 0, 0, None)], map[1 := 1], map[0 := Held(0, false)])

  const STALE := Cfq(map[0 := Queue(1, 1, 0, To(1))], map[], map[0 := Held(0, false)])

  lemma CoopStep()
    ensures 0 in TWO.queues && 1 in TWO.queues && forall x :: x in TWO.queues ==> ProcessRefs(TWO.queues[x]) >= 0
    ensures SetupMerge(TWO, 0, 1) == LINKED
  {
    OneChain(TWO.queues, 1);
    ChainIs(TWO.queues, 1, [1]);
  }

  lemma LeaveSteps()
    ensures Leave(UNUSED, 0) == LEFT && Leave(LEFT, 1) == STALE
  {
    OneChain(UNUSED.queues, 1);
    ChainIs(UNUSED.queues, 1, [1]);
    OneChain(LEFT.queues, 1);
    ChainIs(LEFT.queues, 1, [1]);
    hide IsChain, ChainOf;
    assert Elems([1]) == {1};
  }

  lemma EmptyReachable()
    ensures Reachable(EMPTY)
  {
    assert Runs(EMPTY, [], EMPTY);
  }

  lemma ReachTwo()
    ensures Reachable(TWO)
  {
    hide Reachable, Sound, Leave, MoveOn, SetupMerge;
    EmptyReachable();
    ReachableStep(EMPTY, SetRequest(0, 0, false, false, 0));
    assert Apply(EMPTY, SetRequest(0, 0, false, false, 0)) == ONE;
    ReachableStep(ONE, SetRequest(1, 1, false, false, 1));
    assert Apply(ONE, SetRequest(1, 1, false, false, 1)) == TWO;
  }

  lemma MoveStep()
    ensures MoveOn(LINKED, 0) == LINKED.(queues := map[0 := Queue(1, 1, 0, To(1)), 1 := Queue(3, 1, 0, None)], ctx := map[0 := 1, 1 := 1])
  {
    assert Released(LINKED.queues, {0}) == map[0 := Queue(1, 1, 0, To(1)), 1 := Queue(3, 1, 0, None)];
    assert LINKED.ctx[0 := 1] == map[0 := 1, 1 := 1];
  }

  lemma ReachMerged()
    ensures Reachable(MERGED)
  {
    hide Reachable, Sound, Leave, SetupMerge, MoveOn;
    ReachTwo();
    CoopStep();
    MoveStep();
    ReachableStep(TWO, Cooperate(0, 1));
    ReachableStep(LINKED, SetRequest(0, 2, false, false, 2));
    assert Apply(LINKED, SetRequest(0, 2, false, false, 2)) == MERGED;
  }

  lemma ReachUnused()
    ensures Reachable(UNUSED)
  {
    hide Reachable, Sound, Apply;
    ReachMerged();
    ReachableSound(MERGED);
    DropSteps1();
    ReachableStep(MERGED, DropRequest(1));
    ReachableSound(DROPPED);
    DropSteps2();
    ReachableStep(DROPPED, DropRequest(2));
  }

  lemma DropSteps1()
    requires Sound(MERGED)
    ensures Enabled(MERGED, DropRequest(1)) && Apply(MERGED, DropRequest(1)) == DROPPED
  {
    hide Sound, Released;
    var qs := MERGED.queues[1 := Queue(4, 1, 0, None)];
    OneReleased(qs, 1, Queue(3, 1, 0, None));
    assert qs[1 := Queue(3, 1, 0, None)] == DROPPED.queues;
    assert MERGED.rqs - {1} == DROPPED.rqs;
  }

  lemma DropSteps2()
    requires Sound(DROPPED)
    ensures Enabled(DROPPED, DropRequest(2)) && Apply(DROPPED, DropRequest(2)) == UNUSED
  {
    hide Sound, Released;
    var qs := DROPPED.queues[1 := Queue(3, 0, 0, None)];
    OneReleased(qs, 1, Queue(2, 0, 0, None));
    assert qs[1 := Queue(2, 0, 0, None)] == UNUSED.queues;
    assert DROPPED.rqs - {2} == UNUSED.rqs;
  }

  lemma OneReleased(qs: map<Qid, Queue>, q: Qid, after: Queue)
    requires q in qs && qs[q].ref > 1 && after == qs[q].(ref := qs[q].ref - 1)
    ensures Released(qs, {q}) == qs[q := after]
  {
  }

  /** A queue without process references may keep a link to a queue that has been freed. */
  lemma StaleLinkHappens()
    ensures Reachable(STALE) && STALE.queues[0].next == To(1) && 1 !in STALE.queues
  {
    hide Reachable, Sound, Leave;
    ReachUnused();
    LeaveSteps();
    ReachableStep(UNUSED, Exit(0));
    ReachableStep(LEFT, Exit(1));
  }
}
