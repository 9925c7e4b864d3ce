/** The reference-taking parts of cfq-iosched.c, with their walks along the links. */
module CfqScheduler {
  import opened M = CfqMerging

  /** Dropping one reference each from the queues of `p`, one after the other. */
  lemma ReleasedMore(qs: map<Qid, Queue>, d: set<Qid>, q: Qid)
    requires q in qs && q !in d
    ensures q in Released(qs, d) && Released(qs, d)[q] == qs[q]
    ensures Released(Released(qs, d), {q}) == Released(qs, d + {q})
  {
  }

  class CfqData {
    var queues: map<Qid, Queue>
    var ctx: map<Cic, Qid>
    var rqs: map<Rid, Held>

    ghost function State(): Cfq
      reads this
    {
      Cfq(queues, ctx, rqs)
    }

    ghost predicate Valid()
      reads this
    {
      Sound(State())
    }

    constructor ()
      ensures Valid() && State() == EMPTY
    {
      queues, ctx, rqs := map[], map[], map[];
      new;
      EmptySound();
    }

    /** cfq_put_queue: the preconditions are its BUG_ONs. */
    method PutQueue(q: Qid)
      requires q in queues && queues[q].ref > 0 && (queues[q].ref == 1 ==> queues[q].rds + queues[q].wrs == 0)
      modifies this`queues
      ensures queues == Released(old(queues), {q})
    {
      if queues[q].ref == 1 {
        queues := queues - {q};
      } else {
        queues := queues[q := queues[q].(ref := queues[q].ref - 1)];
      }
    }

    /** cfq_put_cooperator: the queues after `q` on its chain `p`. */
    method PutCooperator(q: Qid, ghost p: seq<Qid>)
      requires IsChain(queues, q, p)
      requires forall i :: 0 <= i < |p| ==> Droppable(queues[p[i]])
      modifies this`queues
      ensures queues == Released(old(queues), Elems(p[1..]))
    {
      hide Released;
      ghost var qs, i := queues, 1;
      var x := queues[q].next;
      NextIs(qs, q, p, 0);
      ReleasedNothing(qs);
      assert Elems(p[1..1]) == {};
      while x != None
        invariant 1 <= i <= |p| && x == (if i < |p| then To(p[i]) else None)
        invariant queues == Released(qs, Elems(p[1..i]))
        decreases |p| - i
      {
        ChainDistinct(qs, q, p, 0, i);
        assert x.q != q;  // no loop to warn of
        NotBefore(qs, q, p, i);
        ReleasedMore(qs, Elems(p[1..i]), p[i]);
        NextIs(qs, q, p, i);
        var next := queues[x.q].next;
        PutQueue(x.q);
        assert Elems(p[1..i+1]) == Elems(p[1..i]) + {p[i]} by { assert p[1..i+1] == p[1..i] + [p[i]]; }
        x := next;
        i := i + 1;
      }
      assert p[1..i] == p[1..];
    }

    /** cfq_exit_cfqq for the queue of a context; also what split_cfqq does when it gives the queue up. */
    method LeaveQueue(c: Cic)
      requires Valid() && c in ctx
      modifies this`queues, this`ctx
      ensures State() == Leave(old(State()), c) && Valid()
    {
      hide Released, Leave, Inv, IsChain, ChainOf;
      ghost var s := State();
      ghost var p := LeaveReady(s, c);
      var q := ctx[c];
      PutCooperator(q, p);
      ReleasedMore(s.queues, Elems(p[1..]), q);
      PutQueue(q);
      ctx := ctx - {c};
      StepSound(s, Exit(c));
    }

    /** cfq_setup_merge, called for a queue without a link. */
    method SetupMerge(q: Qid, other: Qid)
      requires Valid() && q in queues && other in queues && q != other && queues[q].next == None
      modifies this`queues
      ensures (forall x :: x in old(queues) ==> ProcessRefs(old(queues)[x]) >= 0)
           && State() == M.SetupMerge(old(State()), q, other) && Valid()
    {
      hide Inv, IsChain, ChainOf, Sound, Join, M.SetupMerge;
      ghost var s := State();
      SoundReady(s);
      StepSound(s, Cooperate(q, other));
      if ProcessRefs(queues[other]) == 0 {
        NoMerge(s, q, other);
        return;
      }
      ghost var p := CooperatorChain(s, other);
      ghost var i := 0;
      var e := other;
      while queues[e].next != None
        invariant i < |p| && e == p[i] && q !in p[1..i+1]
        invariant e in queues && queues == s.queues
        decreases |p| - i
      {
        var n := queues[e].next.q;
        NextIs(queues, other, p, i);
        NextLive(queues, other, p, i);
        if n == q {
          assert q in p[1..] by { assert p[1..][i] == p[i+1]; }
          NoMerge(s, q, other);
          return;
        }
        e := n;
        i := i + 1;
        assert p[1..i+1] == p[1..i] + [p[i]];
      }
      NextIs(queues, other, p, i);
      assert p[1..i+1] == p[1..];
      var mine, theirs := ProcessRefs(queues[q]), ProcessRefs(queues[e]);
      MergeIs(s, q, other, p);
      if mine == 0 || theirs == 0 { return; }
      if theirs >= mine {
        queues := Join(queues, q, e);
      } else {
        queues := Join(queues, e, q);
      }
    }

    /** The part of cfq_set_request before the request is charged. */
    method PrepareQueue(c: Cic, split: bool, spare: Qid)
      requires Valid() && spare !in queues
      modifies this`queues, this`ctx
      ensures (c in old(ctx) ==> old(ctx)[c] in old(queues)) && State() == Prepare(old(State()), c, split, spare)
      ensures Valid() && c in ctx && ctx[c] in queues
    {
      hide Sound, Released, Leave;
      ghost var s := State();
      SoundReady(s);
      PrepareSound(s, c, split, spare);
      if c in ctx && !(split && ProcessRefs(queues[ctx[c]]) != 1) {
        if queues[ctx[c]].next != None {
          var q := ctx[c];
          ctx := ctx[c := queues[q].next.q];
          MoveReady(s, c);
          PutQueue(q);
        }
      } else {
        if c in ctx { LeaveQueue(c); }
        queues := queues[spare := Queue(1, 0, 0, None)];
        ctx := ctx[c := spare];
      }
    }

    /** cfq_set_request for a sync request. */
    method SetRequest(c: Cic, r: Rid, write: bool, split: bool, spare: Qid)
      requires Valid() && r !in rqs && spare !in queues
      modifies this
      ensures State() == Apply(old(State()), Action.SetRequest(c, r, write, split, spare)) && Valid()
    {
      hide Sound, Prepare;
      ghost var s := State();
      StepSound(s, Action.SetRequest(c, r, write, split, spare));
      PrepareQueue(c, split, spare);
      var q := ctx[c];
      queues := queues[q := Charged(queues[q], write)];
      rqs := rqs[r := Held(q, write)];
    }

    /** cfq_put_request */
    method PutRequest(r: Rid)
      requires Valid() && r in rqs
      modifies this`queues, this`rqs
      ensures State() == Apply(old(State()), DropRequest(r)) && Valid()
    {
      hide Sound, Released;
      ghost var s := State();
      SoundReady(s);
      StepSound(s, DropRequest(r));
      var h := rqs[r];
      queues := queues[h.q := Uncharged(queues[h.q], h.write)];
      rqs := rqs - {r};
      PutQueue(h.q);
    }
  }

  // ----- what the methods rely on -----

  ghost predicate Droppable(x: Queue) { x.ref > 0 && (x.ref == 1 ==> x.rds + x.wrs == 0) }

  lemma ReleasedNothing(qs: map<Qid, Queue>)
    ensures Released(qs, {}) == qs
  {
  }

  lemma NextIs(qs: map<Qid, Queue>, q: Qid, p: seq<Qid>, i: nat)
    requires IsChain(qs, q, p) && i < |p|
    ensures p[i] in qs && qs[p[i]].next == if i + 1 < |p| then To(p[i+1]) else None
  {
    var j := i + 1;
    assert j < |p| ==> qs[p[j-1]].next == To(p[j]);
  }

  lemma NextLive(qs: map<Qid, Queue>, q: Qid, p: seq<Qid>, i: nat)
    requires IsChain(qs, q, p) && i + 1 < |p|
    ensures p[i+1] in qs
  {
  }

  lemma NotBefore(qs: map<Qid, Queue>, q: Qid, p: seq<Qid>, i: nat)
    requires IsChain(qs, q, p) && 1 <= i < |p|
    ensures p[i] !in Elems(p[1..i])
  {
    forall j | 1 <= j < i ensures p[j] != p[i] { ChainDistinct(qs, q, p, j, i); }
  }

  lemma LeaveReady(s: Cfq, c: Cic) returns (p: seq<Qid>)
    requires Sound(s) && c in s.ctx
    ensures p != [] && s.ctx[c] in s.queues && IsChain(s.queues, s.ctx[c], p)
    ensures forall i :: 0 <= i < |p| ==> p[i] in s.queues && Droppable(s.queues[p[i]])
    ensures s.ctx[c] !in Elems(p[1..]) && Droppable(s.queues[s.ctx[c]])
    ensures Leave(s, c) == s.(queues := Released(s.queues, Elems(p[1..]) + {s.ctx[c]}), ctx := s.ctx - {c})
  {
    hide HeldBy, Sharing, Released, ChainOf, IsChain, Elems;
    var paths :| Inv(s, paths);
    p := paths[c];
    ChainIs(s.queues, s.ctx[c], p);
    ChainHead(s.queues, s.ctx[c], p);
    forall i | 0 <= i < |p| ensures p[i] in s.queues && Droppable(s.queues[p[i]]) {
      InChain(s.queues, s.ctx[c], p, p[i]);
      SharingMember(paths, c, p[i]);
      assert QueueOk(s.queues[p[i]], s.rqs, paths, p[i]);
    }
  }

  lemma ChainHead(qs: map<Qid, Queue>, q: Qid, p: seq<Qid>)
    requires IsChain(qs, q, p)
    ensures p != [] && p[0] == q && q !in Elems(p[1..]) && Elems(p) == Elems(p[1..]) + {q}
  {
    forall i | 1 <= i < |p| ensures p[i] != q { ChainDistinct(qs, q, p, 0, i); }
    assert p == [q] + p[1..];
  }

  lemma MoveReady(s: Cfq, c: Cic)
    requires Sound(s) && c in s.ctx && s.ctx[c] in s.queues
    ensures Droppable(s.queues[s.ctx[c]])
  {
    var p := LeaveReady(s, c);
  }

  lemma CooperatorChain(s: Cfq, q: Qid) returns (p: seq<Qid>)
    requires Sound(s) && q in s.queues && ProcessRefs(s.queues[q]) > 0
    ensures IsChain(s.queues, q, p) && ChainOf(s.queues, q) == p
    ensures p != [] && p[0] == q
  {
    hide ChainOf;
    var paths :| Inv(s, paths);
    var c, i := SharedHasChain(s, paths, q);
    p := paths[c][i..];
  }

  lemma NoMerge(s: Cfq, q: Qid, other: Qid)
    requires q in s.queues && other in s.queues
    requires forall x :: x in s.queues ==> ProcessRefs(s.queues[x]) >= 0
    requires ProcessRefs(s.queues[other]) == 0 || (var p := ChainOf(s.queues, other); p != [] && q in p[1..])
    ensures M.SetupMerge(s, q, other) == s
  {
    hide ChainOf;
  }

  lemma MergeIs(s: Cfq, q: Qid, other: Qid, p: seq<Qid>)
    requires q in s.queues && other in s.queues && ProcessRefs(s.queues[other]) > 0
    requires forall x :: x in s.queues ==> ProcessRefs(s.queues[x]) >= 0
    requires p == ChainOf(s.queues, other) && p != [] && p[|p|-1] in s.queues && q !in p[1..]
    ensures var e := p[|p|-1];
            var mine, theirs := ProcessRefs(s.queues[q]), ProcessRefs(s.queues[e]);
            M.SetupMerge(s, q, other) ==
              if mine == 0 || theirs == 0 then s
              else s.(queues := if theirs >= mine then Join(s.queues, q, e) else Join(s.queues, e, q))
  {
    hide ChainOf, Join;
  }
}
