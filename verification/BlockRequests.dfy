/** Requests as the block layer handles them: loops over bios and vectors, fields updated in place. */
module BlockRequests {
  import opened Segments
  import opened Requests
  import opened Completion

  // ----- loops over a chain -----

  /** One bio's turn in __blk_recalc_rq_segments. */
  method CountBio(l: Limits, t0: Tally, prev0: Vec, vecs: seq<Vec>, ghost before: seq<Vec>) returns (t: Tally, prev: Vec)
    requires l.Valid() && t0 == Recount(l, before) && (before != [] ==> prev0 == before[|before|-1])
    ensures t == Recount(l, before + vecs) && (before + vecs != [] ==> prev == (before + vecs)[|before + vecs|-1])
  {
    t, prev := t0, prev0;
    ghost var done := before;
    assert before + vecs[..0] == before;
    for i := 0 to |vecs|
      invariant done == before + vecs[..i] && t == Recount(l, done) && (done != [] ==> prev == done[|done|-1])
    {
      var v := vecs[i];
      RecountSnoc(l, done, v);
      if !High(l, v) && !t.highPrev && l.cluster && t.size + v.len <= l.maxSize && Glue(l, prev, v) {
        t := t.(size := t.size + v.len);
      } else {
        t := Tally(t.segs + 1, v.len, if t.segs == 1 then t.size else t.first, High(l, v));
      }
      assert done + [v] == before + vecs[..i+1];
      done, prev := done + [v], v;
    }
    assert vecs[..|vecs|] == vecs;
  }

  /** __blk_recalc_rq_segments: one pass over all vectors of all bios. */
  method CountSegments(l: Limits, bios: seq<Bio>) returns (t: Tally)
    requires l.Valid()
    ensures t == Recount(l, AllVecs(bios))
  {
    t := Tally(0, 0, 0, true);
    var prev := Vec(0, 0);
    for k := 0 to |bios|
      invariant var done := AllVecs(bios[..k]); t == Recount(l, done) && (done != [] ==> prev == done[|done|-1])
    {
      assert bios[..k+1][..k] == bios[..k];
      t, prev := CountBio(l, t, prev, bios[k].vecs, AllVecs(bios[..k]));
    }
    assert bios[..|bios|] == bios;
  }

  /** blk_rq_map_sg: the entries before the drain buffer. */
  method MapScatterlist(l: Limits, vs: seq<Vec>) returns (sg: seq<Vec>)
    requires l.Valid()
    ensures sg == MapSg(l, vs, |vs|)
    ensures Bytes(sg) == Bytes(vs)
  {
    sg := [];
    for i := 0 to |vs|
      invariant sg == MapSg(l, vs, i)
    {
      var v := vs[i];
      if i > 0 && l.cluster && sg[|sg|-1].len + v.len <= l.maxSize && Glue(l, vs[i-1], v) {
        sg := sg[|sg|-1 := Vec(sg[|sg|-1].addr, sg[|sg|-1].len + v.len)];
      } else {
        sg := sg + [v];
      }
    }
    MapSgKeepsBytes(l, vs, |vs|);
    assert vs[..|vs|] == vs;
  }

  /** blk_rq_err_bytes */
  method CountErrBytes(rq: Rq) returns (bytes: nat)
    ensures bytes == ErrBytes(rq)
  {
    if !rq.mixed { return rq.dataLen; }
    bytes := 0;
    var i := 0;
    while i < |rq.bios| && rq.ff <= rq.bios[i].ff
      invariant i <= |rq.bios| && bytes + LeadBytes(rq.bios[i..], rq.ff) == LeadBytes(rq.bios, rq.ff)
      decreases |rq.bios| - i
    {
      assert rq.bios[i..][1..] == rq.bios[i+1..];
      bytes := bytes + rq.bios[i].size;
      i := i + 1;
    }
  }

  /** The bio loop of blk_rq_set_mixed_merge. */
  method SpreadFailFast(bios: seq<Bio>, ff: set<FailFast>) returns (r: seq<Bio>)
    ensures |r| == |bios| && forall i :: 0 <= i < |bios| ==> r[i] == bios[i].(ff := bios[i].ff + ff)
  {
    r := bios;
    for k := 0 to |bios|
      invariant |r| == |bios|
      invariant forall i :: 0 <= i < k ==> r[i] == bios[i].(ff := bios[i].ff + ff)
      invariant forall i :: k <= i < |bios| ==> r[i] == bios[i]
    {
      r := r[k := r[k].(ff := r[k].ff + ff)];
    }
  }

  // ----- the loop of blk_update_request -----

  /** Bios whose sizes agree with their vectors. */
  ghost predicate Sized(b: Bio) { b.size > 0 && Positive(b.vecs) && b.size <= Total(b.vecs) }

  /** Whole vectors and part of the next one. */
  lemma {:induction false} DropAt(vs: seq<Vec>, k: nat, r: nat)
    requires Positive(vs) && k <= |vs| && (r > 0 ==> k < |vs| && r < vs[k].len)
    ensures DropBytes(vs, Total(vs[..k]) + r) ==
            if r == 0 then vs[k..] else [Vec(vs[k].addr + r, vs[k].len - r)] + vs[k+1..]
    decreases k
  {
    if k == 0 {
      assert vs[..0] == [];
    } else {
      var rest := vs[1..];
      TotalCons(vs[..k]);
      assert vs[..k][1..] == rest[..k-1] && vs[..k][0] == vs[0];
      DropFirst(vs, Total(vs[..k]) + r);
      DropAt(rest, k - 1, r);
      assert rest[k-1..] == vs[k..] && (r > 0 ==> rest[k-1] == vs[k] && rest[k..] == vs[k+1..]);
    }
  }

  lemma DropFirst(vs: seq<Vec>, n: nat)
    requires Positive(vs) && vs != [] && vs[0].len <= n
    ensures DropBytes(vs, n) == DropBytes(vs[1..], n - vs[0].len) && Positive(vs[1..])
  {
  }

  lemma TotalPrefix(vs: seq<Vec>, k: nat)
    requires k < |vs|
    ensures Total(vs[..k+1]) == Total(vs[..k]) + vs[k].len
  {
    assert vs[..k+1][..k] == vs[..k];
  }

  /** A vector is left to look at while the bio is not covered. */
  lemma VecLeft(b: Bio, k: nat, nr: nat)
    requires Sized(b) && k <= |b.vecs| && nr + Total(b.vecs[..k]) < b.size
    ensures k < |b.vecs|
  {
    assert b.vecs[..|b.vecs|] == b.vecs;
  }

  /** The bio that is left when part of it has been completed. */
  method TrimBio(b: Bio, nextIdx: nat, part: nat, bytes: nat, bar: bool) returns (r: Bio)
    requires Positive(b.vecs) && nextIdx <= |b.vecs| && bytes == Total(b.vecs[..nextIdx]) + part && bytes <= b.size
    requires part > 0 ==> nextIdx < |b.vecs| && part < b.vecs[nextIdx].len
    ensures r == Trim(b, bytes, bar)
  {
    DropAt(b.vecs, nextIdx, part);
    var vecs := b.vecs[nextIdx..];
    if part > 0 {
      vecs := vecs[0 := Vec(vecs[0].addr + part, vecs[0].len - part)];
      assert vecs == [Vec(b.vecs[nextIdx].addr + part, b.vecs[nextIdx].len - part)] + b.vecs[nextIdx+1..];
    }
    assert vecs == DropBytes(b.vecs, bytes);
    r := b.(vecs := vecs);
    if !bar { r := r.(size := b.size - bytes, sector := b.sector + bytes / SECTOR); }
  }

  lemma AdvanceFirst(bios: seq<Bio>, n: nat, bar: bool)
    requires bios != [] && 0 < bios[0].size <= n
    ensures Advance(bios, n, bar) == Advance(bios[1..], n - bios[0].size, bar)
    ensures EndedBy(bios, n) == [bios[0].id] + EndedBy(bios[1..], n - bios[0].size)
  {
  }

  lemma AdvanceLast(bios: seq<Bio>, n: nat, bar: bool)
    requires bios == [] || n == 0 || n < bios[0].size
    ensures EndedBy(bios, n) == []
    ensures Advance(bios, n, bar) == if bios == [] || n == 0 then bios else [Trim(bios[0], n, bar)] + bios[1..]
  {
  }

  /** The walk over the chain: bios that are covered end and leave it, whole vectors of the next one
      are skipped, and the last vector may be split. */
  method AdvanceChain(bios: seq<Bio>, n: nat, bar: bool) returns (rest: seq<Bio>, ended: seq<nat>, total: nat)
    requires forall i :: 0 <= i < |bios| ==> Sized(bios[i])
    ensures rest == Advance(bios, n, bar) && ended == EndedBy(bios, n) && (rest != [] ==> total == n)
  {
    hide Advance, EndedBy, Trim;
    rest, ended, total := bios, [], 0;
    var nr: nat, nextIdx: nat, bioBytes: nat, part: nat := n, 0, 0, 0;
    var more := true;
    ghost var rem: nat := n;  // bytes to complete, counted from the start of the first bio left
    while rest != [] && more
      invariant forall i :: 0 <= i < |rest| ==> Sized(rest[i])
      invariant rest != [] ==> nextIdx <= |rest[0].vecs| && bioBytes == Total(rest[0].vecs[..nextIdx]) + part
      invariant more ==> part == 0 && rem == nr + bioBytes && (rest == [] || nextIdx > 0 ==> bioBytes == 0 || nr > 0)
      invariant rest != [] && (!more || nextIdx > 0) ==> rem < rest[0].size
      invariant !more ==> rest != [] && rem == bioBytes
      invariant rest != [] ==> total + (if more then nr else 0) == n
      invariant part > 0 ==> rest != [] && nextIdx < |rest[0].vecs| && part < rest[0].vecs[nextIdx].len
      invariant Advance(bios, n, bar) == Advance(rest, rem, bar) && EndedBy(bios, n) == ended + EndedBy(rest, rem)
      decreases |rest|, more, if rest != [] then |rest[0].vecs| - nextIdx else 0
    {
      var b := rest[0];
      if nr >= b.size {
        assert nextIdx == 0 && b.vecs[..0] == [];
        AdvanceFirst(rest, rem, bar);
        Assoc(ended, [b.id], EndedBy(rest[1..], rem - b.size));
        ended, rest := ended + [b.id], rest[1..];
        total, nr := total + b.size, nr - b.size;
        rem := nr;
        if rest != [] {
          assert rest[0].vecs[..0] == [];
          if nr <= 0 { more := false; }
        }
      } else {
        if nextIdx == 0 { assert b.vecs[..0] == []; }
        VecLeft(b, nextIdx, nr);
        TotalPrefix(b.vecs, nextIdx);
        var nbytes := b.vecs[nextIdx].len;
        if nbytes > nr {
          part, bioBytes, total := nr, bioBytes + nr, total + nr;
          more := false;
        } else {
          nextIdx, bioBytes := nextIdx + 1, bioBytes + nbytes;
          total, nr := total + nbytes, nr - nbytes;
          if nr <= 0 { more := false; }
        }
      }
    }
    AdvanceLast(rest, rem, bar);
    if rest != [] && bioBytes > 0 {
      var b := TrimBio(rest[0], nextIdx, part, bioBytes, bar);
      rest := [b] + rest[1..];
    }
  }

  // ----- the request object -----

  ghost function Marked(rq: Rq, mix: bool): Rq { if mix then SetMixed(rq) else rq }

  ghost function Absorbed(rq: Rq, next: Rq, mix: bool): Rq {
    var a := Marked(rq, mix);
    a.(bios := a.bios + Marked(next, mix).bios, dataLen := a.dataLen + next.dataLen)
  }

  ghost function Emptied(next: Rq, mix: bool): Rq { Marked(next, mix).(bios := []) }

  /** The two size hints, as the code updates them. */
  lemma NotedAt(l: Limits, bios: seq<Bio>, t: Tally, r: seq<Bio>)
    requires l.Valid() && bios != [] && t == Recount(l, AllVecs(bios))
    requires var b1 := if t.First() > bios[0].front then bios[0 := bios[0].(front := t.First())] else bios;
             r == if t.size > b1[|b1|-1].back then b1[|b1|-1 := b1[|b1|-1].(back := t.size)] else b1
    ensures r == Noted(l, bios)
  {
    hide Recount, AllVecs;
  }

  class Request {
    var bios: seq<Bio>
    var sector: nat
    var dataLen: nat
    var segs: nat
    var ff: set<FailFast>
    var mixed: bool
    var nomerge: bool
    const bar: bool

    ghost function Model(): Rq
      reads this
    {
      Rq(bios, sector, dataLen, segs, ff, mixed, nomerge, bar)
    }

    /** init_request_from_bio */
    constructor (l: Limits, b: Bio)
      requires l.Valid()
      ensures Model() == FromBio(l, b)
    {
      bios, sector, dataLen, segs := [Counted(l, b)], b.sector, b.size, Counted(l, b).segs;
      ff, mixed, nomerge, bar := if b.ahead then FF_MASK else b.ff, false, false, false;
    }

    /** blk_recalc_rq_segments */
    method RecalcSegments(l: Limits)
      requires l.Valid()
      modifies this`segs, this`bios
      ensures Model() == Recalc(l, old(Model()))
    {
      hide Noted, Recount, AllVecs;
      if bios == [] {
        segs := 0;
      } else {
        var t := CountSegments(l, bios);
        segs := t.segs;
        if t.First() > bios[0].front { bios := bios[0 := bios[0].(front := t.First())]; }
        var last := |bios| - 1;
        if t.size > bios[last].back { bios := bios[last := bios[last].(back := t.size)]; }
        assert bios == Noted(l, old(bios)) by { NotedAt(l, old(bios), t, bios); }
      }
    }

    /** blk_rq_set_mixed_merge */
    method MarkMixed()
      modifies this`bios, this`mixed
      ensures Model() == SetMixed(old(Model()))
    {
      if !mixed {
        bios := SpreadFailFast(bios, ff);
        mixed := true;
        assert bios == SetMixed(old(Model())).bios;
      }
    }

    /** The segment count of one bio, taken again unless it is known. */
    method CountAt(l: Limits, i: nat)
      requires l.Valid() && i < |bios|
      modifies this`bios
      ensures Model() == WithCounted(l, old(Model()), i)
    {
      if !bios[i].segValid { bios := bios[i := Counted(l, bios[i])]; }
      assert bios == WithCounted(l, old(Model()), i).bios;
    }

    method Append(b: Bio)
      modifies this`bios, this`mixed, this`dataLen, this`segs
      ensures Model() == AddBack(old(Model()), b)
    {
      if ff != b.ff { MarkMixed(); }
      bios, dataLen, segs := bios + [b], dataLen + b.size, segs + b.segs;
    }

    method Prepend(b: Bio)
      modifies this`bios, this`mixed, this`dataLen, this`segs, this`ff, this`sector
      ensures Model() == AddFront(old(Model()), b)
    {
      if ff != b.ff { MarkMixed(); ff := b.ff; }
      bios, sector, dataLen, segs := [b] + bios, b.sector, dataLen + b.size, segs + b.segs;
    }

    /** ll_back_merge_fn and the back merge of __make_request. */
    method MergeBack(l: Limits, b: Bio) returns (ok: bool)
      requires l.Valid() && bios != []
      modifies this
      ensures Merge(ok, Model()) == BackMerge(l, old(Model()), b)
    {
      if dataLen / SECTOR + b.size / SECTOR > l.maxSectors {
        nomerge := true;
        return false;
      }
      CountAt(l, |bios| - 1);
      var c := Counted(l, b);
      ok := segs + c.segs <= l.maxSegments;
      if ok { Append(c); } else { nomerge := true; }
    }

    /** ll_front_merge_fn and the front merge of __make_request. */
    method MergeFront(l: Limits, b: Bio) returns (ok: bool)
      requires l.Valid() && bios != []
      modifies this
      ensures Merge(ok, Model()) == FrontMerge(l, old(Model()), b)
    {
      if dataLen / SECTOR + b.size / SECTOR > l.maxSectors {
        nomerge := true;
        return false;
      }
      CountAt(l, 0);
      var c := Counted(l, b);
      ok := segs + c.segs <= l.maxSegments;
      if ok { Prepend(c); } else { nomerge := true; }
    }

    /** ll_merge_requests_fn: the size hints are updated even if the merge is then refused. */
    method PairWith(l: Limits, next: Request) returns (ok: bool)
      requires l.Valid() && next != this && Mergeable(Model()) && Mergeable(next.Model())
      modifies this`bios, this`segs, next`bios
      ensures Pairing(ok, Model(), next.Model()) == PairUp(l, old(Model()), old(next.Model()))
    {
      var last, end := |bios| - 1, |next.bios| - 1;
      var size := bios[last].back + next.bios[0].front;
      if dataLen / SECTOR + next.dataLen / SECTOR > l.maxSectors { return false; }
      var total := segs + next.segs;
      if ContigSegment(l, bios[last], next.bios[0]) {
        if segs == 1 { bios := bios[0 := bios[0].(front := size)]; }
        if next.segs == 1 { next.bios := next.bios[end := next.bios[end].(back := size)]; }
        total := total - 1;
      }
      if total > l.maxSegments { return false; }
      segs := total;
      ok := true;
    }

    /** The chains are joined; a request that cannot name one fail-fast mask for all marks every bio first. */
    method Absorb(next: Request, mix: bool)
      requires next != this
      modifies this`bios, this`mixed, this`dataLen, next`bios, next`mixed
      ensures Model() == Absorbed(old(Model()), old(next.Model()), mix)
      ensures next.Model() == Emptied(old(next.Model()), mix)
    {
      if mix {
        MarkMixed();
        next.MarkMixed();
      }
      bios, dataLen := bios + next.bios, dataLen + next.dataLen;
      next.bios := [];
    }

    /** attempt_merge of two mergeable neighbours of one direction. */
    method MergeWith(l: Limits, next: Request) returns (ok: bool)
      requires l.Valid() && next != this && Mergeable(Model()) && Mergeable(next.Model())
      modifies this, next
      ensures Pairing(ok, Model(), next.Model()) == AttemptMerge(l, old(Model()), old(next.Model()))
    {
      var mix := mixed || next.mixed || ff != next.ff;
      ok := PairWith(l, next);
      if ok { Absorb(next, mix); }
    }

    /** blk_update_request */
    method Complete(l: Limits, n: nat) returns (more: bool, ended: seq<nat>)
      requires l.Valid() && n < WORD && dataLen < WORD && forall i :: 0 <= i < |bios| ==> Sized(bios[i])
      modifies this
      ensures Update(more, Model(), ended) == UpdateRequest(l, old(Model()), n)
    {
      hide Recalc, Advance, EndedBy, Total, Sub32;
      if bios == [] { return false, []; }
      var rest, gone, total := AdvanceChain(bios, n, bar);
      ended := if bar then [] else gone;
      bios := rest;
      if bios == [] {
        dataLen := 0;
        return false, ended;
      }
      dataLen := Sub32(dataLen, total);
      sector := sector + total / SECTOR;
      if mixed { ff := bios[0].ff; }
      if dataLen < CurBytes(Rq(bios, sector, dataLen, segs, ff, mixed, nomerge, bar)) { dataLen := bios[0].vecs[0].len; }
      assert Model() == Remainder(old(Model()), rest, n);
      RecalcSegments(l);
      more := true;
    }
  }
}
