/** Requests as chains of bios: merging, segment accounting and failfast attributes. */
module Requests {
  import opened Segments

  const SECTOR := 512

  datatype FailFast = FF_DEV | FF_TRANSPORT | FF_DRIVER

  const FF_MASK: set<FailFast> := {FF_DEV, FF_TRANSPORT, FF_DRIVER}

  /** A bio: `vecs` are its vectors from bi_idx on, `front` and `back` are bi_seg_front_size and
      bi_seg_back_size, `segs` is bi_phys_segments, meaningful when `segValid` is set. */
  datatype Bio = Bio(id: nat, sector: nat, size: nat, vecs: seq<Vec>, ff: set<FailFast>, ahead: bool,
                     front: nat, back: nat, segs: nat, segValid: bool)

  /** A request; `bar` marks the barrier proxy, whose bio belongs to the original barrier request. */
  datatype Rq = Rq(bios: seq<Bio>, sector: nat, dataLen: nat, segs: nat, ff: set<FailFast>, mixed: bool,
                   nomerge: bool, bar: bool)

  function AllVecs(bios: seq<Bio>): seq<Vec> {
    if bios == [] then [] else AllVecs(bios[..|bios|-1]) + bios[|bios|-1].vecs
  }

  function SumSize(bios: seq<Bio>): nat {
    if bios == [] then 0 else SumSize(bios[..|bios|-1]) + bios[|bios|-1].size
  }

  function Max(a: nat, b: nat): nat { if a < b then b else a }

  // ----- segment counts -----

  /** __blk_recalc_rq_segments on a chain: the count, and the first and last bio with the sizes of
      the first and last segment noted. */
  function Noted(l: Limits, bios: seq<Bio>): (r: seq<Bio>)
    requires l.Valid() && bios != []
    ensures |r| == |bios|
  {
    var t := Recount(l, AllVecs(bios));
    var b1 := bios[0 := bios[0].(front := Max(bios[0].front, t.First()))];
    b1[|b1|-1 := b1[|b1|-1].(back := Max(b1[|b1|-1].back, t.size))]
  }

  /** bio_phys_segments: the bio, recounted on its own if its count is not valid. */
  function Counted(l: Limits, b: Bio): Bio
    requires l.Valid()
  {
    if b.segValid then b
    else
      var t := Recount(l, b.vecs);
      b.(segs := t.segs, segValid := true, front := Max(b.front, t.First()), back := Max(b.back, t.size))
  }

  /** blk_recalc_rq_segments */
  function Recalc(l: Limits, rq: Rq): Rq
    requires l.Valid()
  {
    if rq.bios == [] then rq.(segs := 0)
    else rq.(segs := Recount(l, AllVecs(rq.bios)).segs, bios := Noted(l, rq.bios))
  }

  // ----- building and merging -----

  /** init_request_from_bio */
  function FromBio(l: Limits, b: Bio): Rq
    requires l.Valid()
  {
    var b1 := Counted(l, b);
    Rq([b1], b.sector, b.size, b1.segs, if b.ahead then FF_MASK else b.ff, false, false, false)
  }

  /** blk_rq_set_mixed_merge */
  function SetMixed(rq: Rq): (r: Rq)
    ensures |r.bios| == |rq.bios|
  {
    if rq.mixed then rq
    else rq.(bios := seq(|rq.bios|, i requires 0 <= i < |rq.bios| => rq.bios[i].(ff := rq.bios[i].ff + rq.ff)), mixed := true)
  }

  datatype Merge = Merge(ok: bool, rq: Rq)

  /** The request with one of its bios recounted if that bio's count is not valid. */
  function WithCounted(l: Limits, rq: Rq, i: nat): Rq
    requires l.Valid() && i < |rq.bios|
  {
    rq.(bios := rq.bios[i := Counted(l, rq.bios[i])])
  }

  /** The ELEVATOR_BACK_MERGE case of __make_request: `b` joins the chain at the end. */
  function AddBack(rq: Rq, b: Bio): Rq {
    var r := if rq.ff != b.ff then SetMixed(rq) else rq;
    r.(bios := r.bios + [b], dataLen := rq.dataLen + b.size, segs := rq.segs + b.segs)
  }

  /** The ELEVATOR_FRONT_MERGE case: `b` becomes the first bio and gives the request its attributes. */
  function AddFront(rq: Rq, b: Bio): Rq {
    var r := if rq.ff != b.ff then SetMixed(rq).(ff := b.ff) else rq;
    r.(bios := [b] + r.bios, sector := b.sector, dataLen := rq.dataLen + b.size, segs := rq.segs + b.segs)
  }

  predicate TooLarge(l: Limits, rq: Rq, bytes: nat) { rq.dataLen / SECTOR + bytes / SECTOR > l.maxSectors }

  /** ll_back_merge_fn and what __make_request does on its success. */
  function BackMerge(l: Limits, rq: Rq, b: Bio): Merge
    requires l.Valid() && rq.bios != []
  {
    if TooLarge(l, rq, b.size) then Merge(false, rq.(nomerge := true))
    else
      var rq1 := WithCounted(l, rq, |rq.bios| - 1);
      if rq1.segs + Counted(l, b).segs > l.maxSegments then Merge(false, rq1.(nomerge := true))
      else Merge(true, AddBack(rq1, Counted(l, b)))
  }

  /** ll_front_merge_fn and what __make_request does on its success. */
  function FrontMerge(l: Limits, rq: Rq, b: Bio): Merge
    requires l.Valid() && rq.bios != []
  {
    if TooLarge(l, rq, b.size) then Merge(false, rq.(nomerge := true))
    else
      var rq1 := WithCounted(l, rq, 0);
      if rq1.segs + Counted(l, b).segs > l.maxSegments then Merge(false, rq1.(nomerge := true))
      else Merge(true, AddFront(rq1, Counted(l, b)))
  }

  /** blk_phys_contig_segment of data-carrying bios. */
  predicate ContigSegment(l: Limits, a: Bio, b: Bio)
    requires l.Valid() && a.vecs != [] && b.vecs != []
  {
    l.cluster && a.back + b.front <= l.maxSize && Glue(l, a.vecs[|a.vecs|-1], b.vecs[0])
  }

  /** A request with data. */
  predicate Mergeable(rq: Rq) {
    rq.bios != [] && rq.bios[0].vecs != [] && rq.bios[|rq.bios|-1].vecs != [] && rq.segs > 0
  }

  /** ll_merge_requests_fn: the two requests after it, and whether they may be merged. */
  datatype Pairing = Pairing(ok: bool, rq: Rq, next: Rq)

  function NoteFront(rq: Rq, size: nat, on: bool): Rq
    requires rq.bios != []
  {
    if on then rq.(bios := rq.bios[0 := rq.bios[0].(front := size)]) else rq
  }

  function NoteBack(rq: Rq, size: nat, on: bool): Rq
    requires rq.bios != []
  {
    if on then rq.(bios := rq.bios[|rq.bios|-1 := rq.bios[|rq.bios|-1].(back := size)]) else rq
  }

  function PairUp(l: Limits, rq: Rq, next: Rq): Pairing
    requires l.Valid() && Mergeable(rq) && Mergeable(next)
  {
    var size := rq.bios[|rq.bios|-1].back + next.bios[0].front;
    if TooLarge(l, rq, next.dataLen) then Pairing(false, rq, next)
    else
      var glued := ContigSegment(l, rq.bios[|rq.bios|-1], next.bios[0]);
      var total := rq.segs + next.segs - if glued then 1 else 0;
      var rq1 := NoteFront(rq, size, glued && rq.segs == 1);
      var next1 := NoteBack(next, size, glued && next.segs == 1);
      if total > l.maxSegments then Pairing(false, rq1, next1)
      else Pairing(true, rq1.(segs := total), next1)
  }

  /** attempt_merge, once the requests are known to be mergeable neighbours of one direction. */
  function AttemptMerge(l: Limits, rq: Rq, next: Rq): Pairing
    requires l.Valid() && Mergeable(rq) && Mergeable(next)
  {
    var p := PairUp(l, rq, next);
    if !p.ok then p
    else
      var mix := rq.mixed || next.mixed || rq.ff != next.ff;
      var a := if mix then SetMixed(p.rq) else p.rq;
      var b := if mix then SetMixed(p.next) else p.next;
      Pairing(true, a.(bios := a.bios + b.bios, dataLen := a.dataLen + b.dataLen), b.(bios := []))
  }

  // ----- invariants -----

  /** A bio that carries whole sectors of data. */
  ghost predicate BioOk(b: Bio) {
    && b.vecs != [] && b.size == Total(b.vecs) && b.size % SECTOR == 0
    && forall i :: 0 <= i < |b.vecs| ==> b.vecs[i].len > 0
  }

  /** The bio's own count, where valid, is that of a legal partition within the noted sizes. */
  ghost predicate CountOk(l: Limits, b: Bio)
    requires l.Valid()
  {
    b.segValid ==> exists parts, f: nat, g: nat :: Splits(l, b.vecs, parts, f, g) && |parts| == b.segs && f <= b.front && g <= b.back
  }

  /** The request's count is that of a legal partition whose first and last segment are within the
      sizes noted in the first and last bio. */
  ghost predicate SegOk(l: Limits, rq: Rq, parts: seq<seq<Vec>>, f: nat, g: nat)
    requires l.Valid()
  {
    && rq.bios != []
    && Splits(l, AllVecs(rq.bios), parts, f, g) && |parts| == rq.segs
    && f <= rq.bios[0].front && g <= rq.bios[|rq.bios|-1].back
  }

  ghost predicate SegInv(l: Limits, rq: Rq)
    requires l.Valid()
  {
    exists parts, f: nat, g: nat :: SegOk(l, rq, parts, f, g)
  }

  /** A mixed request has the failfast bits of its first bio; in any other no bio has a bit the
      request lacks. */
  ghost predicate FailFastInv(rq: Rq) {
    if rq.mixed then rq.bios != [] ==> rq.ff == rq.bios[0].ff
    else forall i :: 0 <= i < |rq.bios| ==> rq.bios[i].ff <= rq.ff
  }

  ghost predicate DataInv(rq: Rq) {
    && rq.bios != []
    && (forall i :: 0 <= i < |rq.bios| ==> BioOk(rq.bios[i]))
    && rq.dataLen == SumSize(rq.bios)
    && rq.sector == rq.bios[0].sector
    && (forall i :: 0 < i < |rq.bios| ==> rq.bios[i].sector == rq.bios[i-1].sector + rq.bios[i-1].size / SECTOR)
  }

  ghost predicate AllInv(l: Limits, rq: Rq)
    requires l.Valid()
  {
    DataInv(rq) && FailFastInv(rq) && SegInv(l, rq)
  }

  /** Everything a request keeps through merges and partial completions. */
  ghost predicate RqInv(l: Limits, rq: Rq)
    requires l.Valid()
  {
    AllInv(l, rq) == true
  }

  /** The count bounds what the scatterlist builder emits. */
  lemma SegmentsSuffice(l: Limits, rq: Rq)
    requires l.Valid() && SegInv(l, rq)
    ensures |MapSg(l, AllVecs(rq.bios), |AllVecs(rq.bios)|)| <= rq.segs
  {
    var parts, f: nat, g: nat :| SegOk(l, rq, parts, f, g);
    var vs := AllVecs(rq.bios);
    assert vs[..|vs|] == vs;
    GreedyMinimal(l, vs, |vs|, parts);
  }

  // ----- chains -----

  lemma {:induction false} VecsConcat(a: seq<Bio>, b: seq<Bio>)
    ensures AllVecs(a + b) == AllVecs(a) + AllVecs(b)
  {
    if b == [] {
      assert a + b == a;
    } else {
      VecsConcat(a, b[..|b|-1]);
      assert (a + b)[..|a + b|-1] == a + b[..|b|-1];
      Assoc(AllVecs(a), AllVecs(b[..|b|-1]), b[|b|-1].vecs);
    }
  }

  lemma {:induction false} SizesConcat(a: seq<Bio>, b: seq<Bio>)
    ensures SumSize(a + b) == SumSize(a) + SumSize(b)
  {
    if b == [] {
      assert a + b == a;
    } else {
      SizesConcat(a, b[..|b|-1]);
      assert (a + b)[..|a + b|-1] == a + b[..|b|-1];
    }
  }

  lemma ChainConcat(a: seq<Bio>, b: seq<Bio>)
    ensures AllVecs(a + b) == AllVecs(a) + AllVecs(b) && SumSize(a + b) == SumSize(a) + SumSize(b)
  {
    VecsConcat(a, b);
    SizesConcat(a, b);
  }

  lemma ChainOne(b: Bio)
    ensures AllVecs([b]) == b.vecs && SumSize([b]) == b.size
  {
    assert [b][..0] == [];
  }

  /** The two chains carry the same data in the same place. */
  ghost predicate SameData(a: seq<Bio>, b: seq<Bio>) {
    |a| == |b| && forall i :: 0 <= i < |a| ==> a[i].vecs == b[i].vecs && a[i].size == b[i].size && a[i].sector == b[i].sector
  }

  lemma {:induction false} SameDataChain(a: seq<Bio>, b: seq<Bio>)
    requires SameData(a, b)
    ensures AllVecs(a) == AllVecs(b) && SumSize(a) == SumSize(b)
    decreases |a|
  {
    if a != [] { SameDataChain(a[..|a|-1], b[..|b|-1]); }
  }

  lemma SameDataInv(rq: Rq, r: Rq)
    requires DataInv(rq) && SameData(rq.bios, r.bios) && r.dataLen == rq.dataLen && r.sector == rq.sector
    ensures DataInv(r)
  {
    SameDataChain(rq.bios, r.bios);
  }

  // ----- segment counts are kept -----

  /** Noted sizes may grow. */
  lemma SegGrow(l: Limits, rq: Rq, r: Rq)
    requires l.Valid() && SegInv(l, rq) && SameData(rq.bios, r.bios) && r.segs == rq.segs
    requires rq.bios[0].front <= r.bios[0].front && rq.bios[|rq.bios|-1].back <= r.bios[|r.bios|-1].back
    ensures SegInv(l, r)
  {
    var parts, f: nat, g: nat :| SegOk(l, rq, parts, f, g);
    SameDataChain(rq.bios, r.bios);
    assert SegOk(l, r, parts, f, g);
  }

  lemma CountedOk(l: Limits, b: Bio) returns (parts: seq<seq<Vec>>, f: nat, g: nat)
    requires l.Valid() && BioOk(b) && CountOk(l, b)
    ensures var c := Counted(l, b);
            Splits(l, b.vecs, parts, f, g) && |parts| == c.segs && f <= c.front && g <= c.back
  {
    if b.segValid {
      parts, f, g :| Splits(l, b.vecs, parts, f, g) && |parts| == b.segs && f <= b.front && g <= b.back;
    } else {
      parts := RecountSplits(l, b.vecs);
      f, g := Recount(l, b.vecs).First(), Recount(l, b.vecs).size;
    }
  }

  lemma FromBioSeg(l: Limits, b: Bio)
    requires l.Valid() && BioOk(b) && CountOk(l, b)
    ensures SegInv(l, FromBio(l, b))
  {
    var parts, f, g := CountedOk(l, b);
    ChainOne(Counted(l, b));
    assert SegOk(l, FromBio(l, b), parts, f, g);
  }

  lemma VecsNonempty(rq: Rq)
    requires DataInv(rq)
    ensures AllVecs(rq.bios) != []
  {
    var last := |rq.bios| - 1;
    assert BioOk(rq.bios[last]);
  }

  /** Two requests' chains one after the other. */
  lemma SegAppend(l: Limits, a: Rq, b: Rq, r: Rq)
    requires l.Valid() && SegInv(l, a) && SegInv(l, b) && a.bios != [] && b.bios != []
    requires SameData(a.bios + b.bios, r.bios) && r.segs == a.segs + b.segs
    requires a.bios[0].front <= r.bios[0].front && b.bios[|b.bios|-1].back <= r.bios[|r.bios|-1].back
    ensures SegInv(l, r)
  {
    var pa, fa: nat, la: nat :| SegOk(l, a, pa, fa, la);
    var pb, fb: nat, lb: nat :| SegOk(l, b, pb, fb, lb);
    SplitConcat(l, AllVecs(a.bios), pa, fa, la, AllVecs(b.bios), pb, fb, lb);
    ChainConcat(a.bios, b.bios);
    SameDataChain(a.bios + b.bios, r.bios);
    assert SegOk(l, r, pa + pb, fa, lb);
  }

  lemma RecalcSeg(l: Limits, rq: Rq)
    requires l.Valid() && DataInv(rq)
    ensures SegInv(l, Recalc(l, rq)) && SameData(rq.bios, Recalc(l, rq).bios)
  {
    var r := Recalc(l, rq);
    VecsNonempty(rq);
    SameDataChain(rq.bios, r.bios);
    var parts := RecountSplits(l, AllVecs(rq.bios));
    var t := Recount(l, AllVecs(rq.bios));
    assert SegOk(l, r, parts, t.First(), t.size);
  }

  /** The last vector of a chain is the last of its last bio, the first the first of its first. */
  lemma {:induction false} ChainEnds(bios: seq<Bio>)
    requires bios != [] && forall i :: 0 <= i < |bios| ==> bios[i].vecs != []
    ensures var vs := AllVecs(bios);
            vs != [] && vs[|vs|-1] == bios[|bios|-1].vecs[|bios[|bios|-1].vecs|-1] && vs[0] == bios[0].vecs[0]
    decreases |bios|
  {
    if |bios| == 1 { assert bios == [bios[0]]; ChainOne(bios[0]); }
    else { ChainEnds(bios[..|bios|-1]); }
  }

  // ----- bio merges -----

  /** The same data, and the noted sizes of the ends as given or larger. */
  ghost predicate Extends(a: seq<Bio>, front: nat, back: nat, r: Rq) {
    a != [] && SameData(a, r.bios) && front <= r.bios[0].front && back <= r.bios[|r.bios|-1].back
  }

  /** The bio continues the request on disk. */
  predicate Follows(rq: Rq, b: Bio) { b.sector == rq.sector + rq.dataLen / SECTOR }

  ghost predicate GoodBio(l: Limits, b: Bio)
    requires l.Valid()
  {
    BioOk(b) && CountOk(l, b)
  }

  lemma SetMixedShape(rq: Rq)
    ensures SameData(rq.bios, SetMixed(rq).bios)
    ensures forall i :: 0 <= i < |rq.bios| ==>
              SetMixed(rq).bios[i].front == rq.bios[i].front && SetMixed(rq).bios[i].back == rq.bios[i].back
    ensures SetMixed(rq) == rq.(bios := SetMixed(rq).bios, mixed := true)
  {
  }

  /** Replacing a bio by one with the same data. */
  lemma ReplaceShape(bios: seq<Bio>, i: nat, b: Bio, r: seq<Bio>)
    requires i < |bios| && r == bios[i := b]
    requires b.vecs == bios[i].vecs && b.size == bios[i].size && b.sector == bios[i].sector
    ensures SameData(bios, r)
  {
  }

  lemma CountedShape(l: Limits, b: Bio, c: Bio)
    requires l.Valid() && c == Counted(l, b)
    ensures c.vecs == b.vecs && c.size == b.size && c.sector == b.sector && c.ff == b.ff
    ensures b.front <= c.front && b.back <= c.back
  {
  }

  lemma SameDataTrans(a: seq<Bio>, b: seq<Bio>, c: seq<Bio>)
    requires SameData(a, b) && SameData(b, c)
    ensures SameData(a, c)
  {
  }

  lemma SameDataAppend(a: seq<Bio>, b: seq<Bio>, c: seq<Bio>)
    requires SameData(a, b)
    ensures SameData(a + c, b + c) && SameData(c + a, c + b)
  {
  }

  /** The request with one end bio recounted, and made mixed if need be. */
  ghost predicate Reworked(rq: Rq, r: Rq) {
    rq.bios != [] && Extends(rq.bios, rq.bios[0].front, rq.bios[|rq.bios|-1].back, r)
  }

  lemma RecountEnd(l: Limits, rq: Rq, i: nat, r: Rq)
    requires l.Valid() && i < |rq.bios| && r == WithCounted(l, rq, i)
    ensures Reworked(rq, r) && r == rq.(bios := r.bios)
  {
    CountedShape(l, rq.bios[i], Counted(l, rq.bios[i]));
    ReplaceShape(rq.bios, i, Counted(l, rq.bios[i]), r.bios);
  }

  lemma AddBackShape(rq: Rq, s: Rq, b: Bio, r: Rq)
    requires Reworked(rq, s) && r == AddBack(s, b)
    ensures Extends(rq.bios + [b], rq.bios[0].front, b.back, r)
    ensures r.sector == s.sector && r.dataLen == s.dataLen + b.size && r.segs == s.segs + b.segs
  {
    var u := if s.ff != b.ff then SetMixed(s) else s;
    SetMixedShape(s);
    SameDataTrans(rq.bios, s.bios, u.bios);
    SameDataAppend(rq.bios, u.bios, [b]);
  }

  lemma AddFrontShape(rq: Rq, s: Rq, b: Bio, r: Rq)
    requires Reworked(rq, s) && r == AddFront(s, b)
    ensures Extends([b] + rq.bios, b.front, rq.bios[|rq.bios|-1].back, r)
    ensures r.sector == b.sector && r.dataLen == s.dataLen + b.size && r.segs == s.segs + b.segs
  {
    var u := if s.ff != b.ff then SetMixed(s) else s;
    SetMixedShape(s);
    SameDataTrans(rq.bios, s.bios, u.bios);
    SameDataAppend(rq.bios, u.bios, [b]);
  }

  lemma BackMergeShape(l: Limits, rq: Rq, b: Bio, m: Merge)
    requires l.Valid() && rq.bios != [] && m == BackMerge(l, rq, b)
    ensures m.rq.sector == rq.sector
    ensures !m.ok ==> Reworked(rq, m.rq) && m.rq.dataLen == rq.dataLen && m.rq.segs == rq.segs
    ensures m.ok ==> Extends(rq.bios + [Counted(l, b)], rq.bios[0].front, Counted(l, b).back, m.rq) &&
                     m.rq.dataLen == rq.dataLen + b.size && m.rq.segs == rq.segs + Counted(l, b).segs
  {
    var s := WithCounted(l, rq, |rq.bios| - 1);
    RecountEnd(l, rq, |rq.bios| - 1, s);
    AddBackShape(rq, s, Counted(l, b), AddBack(s, Counted(l, b)));
  }

  lemma FrontMergeShape(l: Limits, rq: Rq, b: Bio, m: Merge)
    requires l.Valid() && rq.bios != [] && m == FrontMerge(l, rq, b)
    ensures !m.ok ==> Reworked(rq, m.rq) && m.rq.dataLen == rq.dataLen && m.rq.segs == rq.segs && m.rq.sector == rq.sector
    ensures m.ok ==> Extends([Counted(l, b)] + rq.bios, Counted(l, b).front, rq.bios[|rq.bios|-1].back, m.rq) &&
                     m.rq.dataLen == rq.dataLen + b.size && m.rq.segs == rq.segs + Counted(l, b).segs &&
                     m.rq.sector == b.sector
  {
    var s := WithCounted(l, rq, 0);
    RecountEnd(l, rq, 0, s);
    AddFrontShape(rq, s, Counted(l, b), AddFront(s, Counted(l, b)));
  }

  lemma BackMergeSeg(l: Limits, rq: Rq, b: Bio, m: Merge)
    requires l.Valid() && SegInv(l, rq) && rq.bios != [] && GoodBio(l, b) && m == BackMerge(l, rq, b)
    ensures SegInv(l, m.rq)
  {
    BackMergeShape(l, rq, b, m);
    if m.ok {
      FromBioSeg(l, b);
      SegAppend(l, rq, FromBio(l, b), m.rq);
    } else {
      SegGrow(l, rq, m.rq);
    }
  }

  lemma FrontMergeSeg(l: Limits, rq: Rq, b: Bio, m: Merge)
    requires l.Valid() && SegInv(l, rq) && rq.bios != [] && GoodBio(l, b) && m == FrontMerge(l, rq, b)
    ensures SegInv(l, m.rq)
  {
    FrontMergeShape(l, rq, b, m);
    if m.ok {
      FromBioSeg(l, b);
      SegAppend(l, FromBio(l, b), rq, m.rq);
    } else {
      SegGrow(l, rq, m.rq);
    }
  }

  lemma AddSectors(x: nat, y: nat)
    requires x % SECTOR == 0
    ensures (x + y) / SECTOR == x / SECTOR + y / SECTOR && (x + y) % SECTOR == y % SECTOR
  {
  }

  /** Sectors of a chain are those of its bios laid end to end. */
  lemma {:induction false} ChainSectors(rq: Rq, n: nat)
    requires DataInv(rq) && n < |rq.bios|
    ensures SumSize(rq.bios[..n]) % SECTOR == 0
    ensures rq.bios[n].sector == rq.sector + SumSize(rq.bios[..n]) / SECTOR
  {
    if n > 0 {
      ChainSectors(rq, n - 1);
      assert rq.bios[..n][..n-1] == rq.bios[..n-1];
      assert BioOk(rq.bios[n-1]);
      AddSectors(SumSize(rq.bios[..n-1]), rq.bios[n-1].size);
    }
  }

  lemma EndSector(rq: Rq)
    requires DataInv(rq)
    ensures var b := rq.bios[|rq.bios|-1]; b.sector + b.size / SECTOR == rq.sector + rq.dataLen / SECTOR
    ensures rq.dataLen % SECTOR == 0
  {
    var n := |rq.bios| - 1;
    ChainSectors(rq, n);
    assert BioOk(rq.bios[n]);
    AddSectors(SumSize(rq.bios[..n]), rq.bios[n].size);
  }

  lemma DataAppend(a: Rq, b: Rq, r: Rq)
    requires DataInv(a) && DataInv(b) && b.sector == a.sector + a.dataLen / SECTOR
    requires SameData(a.bios + b.bios, r.bios) && r.dataLen == a.dataLen + b.dataLen && r.sector == a.sector
    ensures DataInv(r)
  {
    var n := |a.bios|;
    EndSector(a);
    ChainConcat(a.bios, b.bios);
    SameDataChain(a.bios + b.bios, r.bios);
    forall i | 0 <= i < |r.bios| ensures BioOk(r.bios[i]) {
      assert BioOk(if i < n then a.bios[i] else b.bios[i - n]);
    }
    forall i | 0 < i < |r.bios| ensures r.bios[i].sector == r.bios[i-1].sector + r.bios[i-1].size / SECTOR {
      if i > n { assert b.bios[i-n].sector == b.bios[i-n-1].sector + b.bios[i-n-1].size / SECTOR; }
    }
  }

  lemma FromBioData(l: Limits, b: Bio)
    requires l.Valid() && BioOk(b)
    ensures DataInv(FromBio(l, b))
  {
    ChainOne(Counted(l, b));
  }

  lemma BackMergeData(l: Limits, rq: Rq, b: Bio, m: Merge)
    requires l.Valid() && DataInv(rq) && BioOk(b) && Follows(rq, b) && m == BackMerge(l, rq, b)
    ensures DataInv(m.rq)
  {
    BackMergeShape(l, rq, b, m);
    if m.ok {
      FromBioData(l, b);
      DataAppend(rq, FromBio(l, b), m.rq);
    } else {
      SameDataInv(rq, m.rq);
    }
  }

  lemma FrontMergeData(l: Limits, rq: Rq, b: Bio, m: Merge)
    requires l.Valid() && DataInv(rq) && BioOk(b) && b.sector + b.size / SECTOR == rq.sector && m == FrontMerge(l, rq, b)
    ensures DataInv(m.rq)
  {
    FrontMergeShape(l, rq, b, m);
    if m.ok {
      FromBioData(l, b);
      DataAppend(FromBio(l, b), rq, m.rq);
    } else {
      SameDataInv(rq, m.rq);
    }
  }

  /** Distributing the request's attributes to its bios makes it track its first bio. */
  lemma SetMixedFailFast(rq: Rq, r: Rq)
    requires FailFastInv(rq) && rq.bios != [] && r == SetMixed(rq)
    ensures r.mixed && r.ff == rq.ff && r.bios[0].ff == rq.ff
  {
    if !rq.mixed { assert rq.bios[0].ff + rq.ff == rq.ff; }
  }

  lemma BackMergeFailFast(l: Limits, rq: Rq, b: Bio, m: Merge)
    requires l.Valid() && FailFastInv(rq) && rq.bios != [] && m == BackMerge(l, rq, b)
    ensures FailFastInv(m.rq)
  {
    var r := WithCounted(l, rq, |rq.bios| - 1);
    assert FailFastInv(r);
    SetMixedFailFast(r, SetMixed(r));
  }

  lemma FrontMergeFailFast(l: Limits, rq: Rq, b: Bio, m: Merge)
    requires l.Valid() && FailFastInv(rq) && rq.bios != [] && m == FrontMerge(l, rq, b)
    ensures FailFastInv(m.rq)
  {
    var r := WithCounted(l, rq, 0);
    assert FailFastInv(r);
    SetMixedFailFast(r, SetMixed(r));
  }

  // ----- request merges -----

  /** Requests with data have at least one segment. */
  lemma SegPositive(l: Limits, rq: Rq)
    requires l.Valid() && RqInv(l, rq)
    ensures Mergeable(rq)
  {
    var parts, f: nat, g: nat :| SegOk(l, rq, parts, f, g);
    assert BioOk(rq.bios[0]) && BioOk(rq.bios[|rq.bios|-1]);
  }

  /** What ll_merge_requests_fn may do to the first bio of the first request. */
  ghost predicate FrontNoted(rq: Rq, r: Rq, size: nat) {
    && rq.bios != [] && SameData(rq.bios, r.bios) && r == rq.(bios := r.bios, segs := r.segs)
    && (r.bios[0].front == rq.bios[0].front || (rq.segs == 1 && r.bios[0].front == size))
    && r.bios[|rq.bios|-1].back == rq.bios[|rq.bios|-1].back
    && forall i :: 0 <= i < |rq.bios| ==> r.bios[i].ff == rq.bios[i].ff
  }

  /** ... and to the last bio of the second. */
  ghost predicate BackNoted(rq: Rq, r: Rq, size: nat) {
    && rq.bios != [] && SameData(rq.bios, r.bios) && r == rq.(bios := r.bios)
    && (r.bios[|rq.bios|-1].back == rq.bios[|rq.bios|-1].back || (rq.segs == 1 && r.bios[|rq.bios|-1].back == size))
    && r.bios[0].front == rq.bios[0].front
    && forall i :: 0 <= i < |rq.bios| ==> r.bios[i].ff == rq.bios[i].ff
  }

  lemma NoteFrontShape(rq: Rq, size: nat, on: bool, segs: nat)
    requires rq.bios != [] && (on ==> rq.segs == 1)
    ensures FrontNoted(rq, NoteFront(rq, size, on).(segs := segs), size)
  {
  }

  lemma NoteBackShape(rq: Rq, size: nat, on: bool)
    requires rq.bios != [] && (on ==> rq.segs == 1)
    ensures BackNoted(rq, NoteBack(rq, size, on), size)
  {
  }

  lemma PairUpShape(l: Limits, rq: Rq, next: Rq, p: Pairing)
    requires l.Valid() && Mergeable(rq) && Mergeable(next) && p == PairUp(l, rq, next)
    ensures var size := rq.bios[|rq.bios|-1].back + next.bios[0].front;
            FrontNoted(rq, p.rq, size) == true && BackNoted(next, p.next, size) == true
  {
    var size := rq.bios[|rq.bios|-1].back + next.bios[0].front;
    var on := !TooLarge(l, rq, next.dataLen) && ContigSegment(l, rq.bios[|rq.bios|-1], next.bios[0]);
    var a, b := NoteFront(rq, size, on && rq.segs == 1).(segs := p.rq.segs), NoteBack(next, size, on && next.segs == 1);
    assert p.rq == a && p.next == b;
    NoteFrontShape(rq, size, on && rq.segs == 1, p.rq.segs);
    NoteBackShape(next, size, on && next.segs == 1);
  }

  lemma PairUpCounts(l: Limits, rq: Rq, next: Rq, p: Pairing)
    requires l.Valid() && Mergeable(rq) && Mergeable(next) && p == PairUp(l, rq, next)
    ensures var glued := ContigSegment(l, rq.bios[|rq.bios|-1], next.bios[0]);
            var size := rq.bios[|rq.bios|-1].back + next.bios[0].front;
            && |p.rq.bios| == |rq.bios| && |p.next.bios| == |next.bios|
            && (if p.ok then p.rq.segs == rq.segs + next.segs - (if glued then 1 else 0) else p.rq.segs == rq.segs)
            && (p.ok && glued && rq.segs == 1 ==> p.rq.bios[0].front == size)
            && (p.ok && glued && next.segs == 1 ==> p.next.bios[|next.bios|-1].back == size)
            && (!glued ==> p.rq.bios == rq.bios && p.next == next)
  {
  }

  lemma {:induction false} PairUpFailed(l: Limits, rq: Rq, next: Rq, p: Pairing)
    requires l.Valid() && SegInv(l, rq) && SegInv(l, next)
    requires Mergeable(rq) && Mergeable(next) && p == PairUp(l, rq, next) && !p.ok
    ensures SegInv(l, p.rq) && SegInv(l, p.next)
  {
    PairUpShape(l, rq, next, p);
    PairUpCounts(l, rq, next, p);
    var pa, fa: nat, la: nat :| SegOk(l, rq, pa, fa, la);
    var pb, fb: nat, lb: nat :| SegOk(l, next, pb, fb, lb);
    SameDataChain(rq.bios, p.rq.bios);
    SameDataChain(next.bios, p.next.bios);
    assert SegOk(l, p.rq, pa, fa, la);
    assert SegOk(l, p.next, pb, fb, lb);
  }

  lemma JoinSeg(l: Limits, a: Rq, b: Rq, r: Rq)
    requires l.Valid() && RqInv(l, a) && RqInv(l, b) && SameData(a.bios + b.bios, r.bios)
    requires var p, q := a.bios[|a.bios|-1], b.bios[0]; p.vecs != [] && q.vecs != [] && ContigSegment(l, p, q)
    requires r.segs == a.segs + b.segs - 1
    requires var size := a.bios[|a.bios|-1].back + b.bios[0].front;
             && (if a.segs == 1 then size else a.bios[0].front) <= r.bios[0].front
             && (if b.segs == 1 then size else b.bios[|b.bios|-1].back) <= r.bios[|r.bios|-1].back
    ensures SegInv(l, r)
  {
    var pa, fa: nat, la: nat :| SegOk(l, a, pa, fa, la);
    var pb, fb: nat, lb: nat :| SegOk(l, b, pb, fb, lb);
    ChainVecs(a);
    ChainVecs(b);
    SplitJoin(l, AllVecs(a.bios), pa, fa, la, AllVecs(b.bios), pb, fb, lb);
    ChainConcat(a.bios, b.bios);
    SameDataChain(a.bios + b.bios, r.bios);
    assert SegOk(l, r, Joined(pa, pb), if |pa| == 1 then la + fb else fa, if |pb| == 1 then la + fb else lb);
  }

  lemma ChainVecs(rq: Rq)
    requires DataInv(rq)
    ensures var vs := AllVecs(rq.bios);
            var b := rq.bios[|rq.bios|-1];
            && vs != [] && b.vecs != [] && rq.bios[0].vecs != []
            && vs[|vs|-1] == b.vecs[|b.vecs|-1] && vs[0] == rq.bios[0].vecs[0]
  {
    forall i | 0 <= i < |rq.bios| ensures rq.bios[i].vecs != [] { assert BioOk(rq.bios[i]); }
    ChainEnds(rq.bios);
  }

  /** A successful merge joins the chains; the noted sizes are those of the pairing. */
  lemma AttemptShape(l: Limits, rq: Rq, next: Rq, p: Pairing, r: Rq)
    requires l.Valid() && Mergeable(rq) && Mergeable(next) && p == PairUp(l, rq, next) && p.ok
    requires r == AttemptMerge(l, rq, next).rq
    ensures SameData(rq.bios + next.bios, r.bios) && r.dataLen == rq.dataLen + next.dataLen
    ensures r.sector == rq.sector && r.segs == p.rq.segs && r.bar == rq.bar
    ensures r.bios[0].front == p.rq.bios[0].front && r.bios[|r.bios|-1].back == p.next.bios[|next.bios|-1].back
  {
    PairUpShape(l, rq, next, p);
    SetMixedShape(p.rq);
    SetMixedShape(p.next);
    hide PairUp, SetMixed, SameData, Mergeable;
    var a, b := SetMixed(p.rq), SetMixed(p.next);
    SameDataTrans(rq.bios, p.rq.bios, a.bios);
    SameDataTrans(next.bios, p.next.bios, b.bios);
    SameDataConcat(rq.bios, p.rq.bios, next.bios, p.next.bios);
    SameDataConcat(rq.bios, a.bios, next.bios, b.bios);
  }

  lemma SameDataConcat(a: seq<Bio>, a': seq<Bio>, b: seq<Bio>, b': seq<Bio>)
    requires SameData(a, a') && SameData(b, b')
    ensures SameData(a + b, a' + b')
  {
  }

  lemma AttemptFailFast(l: Limits, rq: Rq, next: Rq, r: Rq)
    requires l.Valid() && FailFastInv(rq) && FailFastInv(next) && Mergeable(rq) && Mergeable(next)
    requires AttemptMerge(l, rq, next).ok && r == AttemptMerge(l, rq, next).rq
    ensures FailFastInv(r)
  {
    var p := PairUp(l, rq, next);
    PairUpShape(l, rq, next, p);
    assert FailFastInv(p.rq) && FailFastInv(p.next);
    SetMixedFailFast(p.rq, SetMixed(p.rq));
  }

  lemma AttemptSeg(l: Limits, rq: Rq, next: Rq, p: Pairing, r: Rq)
    requires l.Valid() && RqInv(l, rq) && RqInv(l, next) && Mergeable(rq) && Mergeable(next)
    requires p == PairUp(l, rq, next) && p.ok && r == AttemptMerge(l, rq, next).rq
    ensures SegInv(l, r)
  {
    PairUpShape(l, rq, next, p);
    PairUpCounts(l, rq, next, p);
    AttemptShape(l, rq, next, p, r);
    if ContigSegment(l, rq.bios[|rq.bios|-1], next.bios[0]) { JoinSeg(l, rq, next, r); }
    else { SegAppend(l, rq, next, r); }
  }

  lemma AttemptOk(l: Limits, rq: Rq, next: Rq, p: Pairing, r: Rq)
    requires l.Valid() && RqInv(l, rq) && RqInv(l, next) && next.sector == rq.sector + rq.dataLen / SECTOR
    requires Mergeable(rq) && Mergeable(next) && p == PairUp(l, rq, next) && p.ok && r == AttemptMerge(l, rq, next).rq
    ensures RqInv(l, r) && r.bar == rq.bar
  {
    AttemptShape(l, rq, next, p, r);
    DataAppend(rq, next, r);
    AttemptSeg(l, rq, next, p, r);
    AttemptFailFast(l, rq, next, r);
  }

  lemma PairUpFailedInv(l: Limits, rq: Rq, next: Rq, p: Pairing)
    requires l.Valid() && RqInv(l, rq) && RqInv(l, next) && Mergeable(rq) && Mergeable(next)
    requires p == PairUp(l, rq, next) && !p.ok
    ensures RqInv(l, p.rq) && p.rq.bar == rq.bar && RqInv(l, p.next) && p.next.bar == next.bar
  {
    PairUpShape(l, rq, next, p);
    hide PairUp, SegInv, DataInv, SegOk;
    PairUpFailed(l, rq, next, p);
    SameDataInv(rq, p.rq);
    SameDataInv(next, p.next);
  }

  /** Merging two neighbouring requests keeps every invariant, whether or not it succeeds. */
  lemma AttemptMergeInv(l: Limits, rq: Rq, next: Rq)
    requires l.Valid() && RqInv(l, rq) && RqInv(l, next) && next.sector == rq.sector + rq.dataLen / SECTOR
    ensures Mergeable(rq) && Mergeable(next)
    ensures var m := AttemptMerge(l, rq, next);
            RqInv(l, m.rq) && m.rq.bar == rq.bar && (!m.ok ==> RqInv(l, m.next) && m.next.bar == next.bar)
  {
    SegPositive(l, rq);
    SegPositive(l, next);
    var p := PairUp(l, rq, next);
    if p.ok { AttemptOk(l, rq, next, p, AttemptMerge(l, rq, next).rq); } else { PairUpFailedInv(l, rq, next, p); }
  }

  // ----- limits -----

  ghost predicate Within(l: Limits, rq: Rq) { rq.dataLen / SECTOR <= l.maxSectors && rq.segs <= l.maxSegments }

  /** A bio is accepted exactly if the request stays within the queue's limits, and a refusal is
      remembered in REQ_NOMERGE. */
  lemma BioLimits(l: Limits, rq: Rq, b: Bio)
    requires l.Valid() && rq.bios != [] && rq.dataLen % SECTOR == 0 && b.size % SECTOR == 0
    ensures BackMerge(l, rq, b).ok <==>
            (rq.dataLen + b.size) / SECTOR <= l.maxSectors && rq.segs + Counted(l, b).segs <= l.maxSegments
    ensures FrontMerge(l, rq, b).ok == BackMerge(l, rq, b).ok
    ensures BackMerge(l, rq, b).ok ==> Within(l, BackMerge(l, rq, b).rq) && Within(l, FrontMerge(l, rq, b).rq)
    ensures !BackMerge(l, rq, b).ok ==> BackMerge(l, rq, b).rq.nomerge && FrontMerge(l, rq, b).rq.nomerge
  {
    AddSectors(rq.dataLen, b.size);
    hide SetMixed, WithCounted;
    SetMixedShape(WithCounted(l, rq, |rq.bios| - 1));
    SetMixedShape(WithCounted(l, rq, 0));
    CountedSize(l, rq, b, |rq.bios| - 1);
    CountedSize(l, rq, b, 0);
  }

  lemma CountedSize(l: Limits, rq: Rq, b: Bio, i: nat)
    requires l.Valid() && i < |rq.bios|
    ensures Counted(l, b).size == b.size
    ensures WithCounted(l, rq, i).dataLen == rq.dataLen && WithCounted(l, rq, i).segs == rq.segs
  {
  }

  /** Two requests are merged exactly if the limits allow it, the touching segments counted once
      when they may be glued. */
  lemma PairLimits(l: Limits, rq: Rq, next: Rq)
    requires l.Valid() && Mergeable(rq) && Mergeable(next) && rq.dataLen % SECTOR == 0 && next.dataLen % SECTOR == 0
    ensures AttemptMerge(l, rq, next).ok <==>
            && (rq.dataLen + next.dataLen) / SECTOR <= l.maxSectors
            && rq.segs + next.segs - (if ContigSegment(l, rq.bios[|rq.bios|-1], next.bios[0]) then 1 else 0) <= l.maxSegments
    ensures AttemptMerge(l, rq, next).ok ==> Within(l, AttemptMerge(l, rq, next).rq)
  {
    AddSectors(rq.dataLen, next.dataLen);
    var p := PairUp(l, rq, next);
    SetMixedShape(p.rq);
    SetMixedShape(p.next);
    hide SetMixed, Glue;
  }
}
