/** Physical segments: how memory vectors are grouped into scatterlist entries, and why a request's
    segment count bounds the number of entries. */
module Segments {

  const PAGE_SIZE := 4096

  /** A bio_vec by its physical address and length. */
  datatype Vec = Vec(addr: nat, len: nat)

  /** The queue limits that govern segments.  `boundary` is one more than the segment boundary
      mask, `bounce` the highest page frame the device reaches. */
  datatype Limits = Limits(cluster: bool, maxSize: nat, boundary: nat, bounce: nat, maxSegments: nat, maxSectors: nat) {
    predicate Valid() { boundary > 0 }
  }

  predicate High(l: Limits, v: Vec) { v.addr / PAGE_SIZE > l.bounce }

  /** BIOVEC_PHYS_MERGEABLE and BIOVEC_SEG_BOUNDARY of two consecutive vectors. */
  predicate Glue(l: Limits, a: Vec, b: Vec)
    requires l.Valid()
  {
    a.addr + a.len == b.addr && a.addr / l.boundary == (b.addr + b.len - 1) / l.boundary
  }

  function Total(vs: seq<Vec>): nat {
    if vs == [] then 0 else Total(vs[..|vs|-1]) + vs[|vs|-1].len
  }

  /** The byte addresses of a list of vectors, in transfer order. */
  function Bytes(vs: seq<Vec>): seq<nat> {
    if vs == [] then [] else Bytes(vs[..|vs|-1]) + Range(vs[|vs|-1].addr, vs[|vs|-1].len)
  }

  function Range(addr: nat, len: nat): (r: seq<nat>)
    ensures |r| == len
  {
    seq(len, i requires 0 <= i => addr + i)
  }

  // ----- partitions into segments -----

  /** A group of vectors that may form one segment. */
  ghost predicate PartOk(l: Limits, p: seq<Vec>)
    requires l.Valid()
  {
    && p != []
    && (|p| > 1 ==> l.cluster && Total(p) <= l.maxSize)
    && forall i :: 0 < i < |p| ==> Glue(l, p[i-1], p[i])
  }

  ghost function Flatten(parts: seq<seq<Vec>>): seq<Vec> {
    if parts == [] then [] else Flatten(parts[..|parts|-1]) + parts[|parts|-1]
  }

  ghost predicate Legal(l: Limits, vs: seq<Vec>, parts: seq<seq<Vec>>)
    requires l.Valid()
  {
    Flatten(parts) == vs && forall k :: 0 <= k < |parts| ==> PartOk(l, parts[k])
  }

  lemma Assoc<T>(a: seq<T>, b: seq<T>, c: seq<T>)
    ensures (a + b) + c == a + (b + c)
  {
  }

  lemma {:induction false} FlattenConcat(a: seq<seq<Vec>>, b: seq<seq<Vec>>)
    ensures Flatten(a + b) == Flatten(a) + Flatten(b)
  {
    if b == [] {
      assert a + b == a;
    } else {
      FlattenConcat(a, b[..|b|-1]);
      assert (a + b)[..|a + b|-1] == a + b[..|b|-1];
      Assoc(Flatten(a), Flatten(b[..|b|-1]), b[|b|-1]);
    }
  }

  lemma {:induction false} TotalConcat(a: seq<Vec>, b: seq<Vec>)
    ensures Total(a + b) == Total(a) + Total(b)
  {
    if b == [] {
      assert a + b == a;
    } else {
      TotalConcat(a, b[..|b|-1]);
      assert (a + b)[..|a + b|-1] == a + b[..|b|-1];
    }
  }

  // ----- the scatterlist builder -----

  /** blk_rq_map_sg: the entries after the first `n` vectors. */
  function MapSg(l: Limits, vs: seq<Vec>, n: nat): (sg: seq<Vec>)
    requires l.Valid() && n <= |vs|
    ensures (sg == []) == (n == 0)
  {
    if n == 0 then []
    else
      var sg := MapSg(l, vs, n - 1);
      var v := vs[n-1];
      if n > 1 && l.cluster && sg[|sg|-1].len + v.len <= l.maxSize && Glue(l, vs[n-2], v)
      then sg[|sg|-1 := Vec(sg[|sg|-1].addr, sg[|sg|-1].len + v.len)]
      else sg + [v]
  }

  lemma BytesSnoc(sg: seq<Vec>, v: Vec)
    ensures Bytes(sg + [v]) == Bytes(sg) + Range(v.addr, v.len)
  {
    assert (sg + [v])[..|sg|] == sg;
  }

  lemma RangeSplit(addr: nat, m: nat, n: nat)
    ensures Range(addr, m + n) == Range(addr, m) + Range(addr + m, n)
  {
  }

  /** Extending the last entry by a vector that follows it in memory adds exactly its bytes. */
  lemma BytesExtend(sg: seq<Vec>, last: Vec, v: Vec)
    requires last.addr + last.len == v.addr
    ensures Bytes(sg + [Vec(last.addr, last.len + v.len)]) == Bytes(sg + [last]) + Range(v.addr, v.len)
  {
    BytesSnoc(sg, last);
    BytesSnoc(sg, Vec(last.addr, last.len + v.len));
    RangeSplit(last.addr, last.len, v.len);
  }

  /** The last entry ends where the last vector ends. */
  lemma {:induction false} MapSgEnd(l: Limits, vs: seq<Vec>, n: nat)
    requires l.Valid() && 0 < n <= |vs|
    ensures var sg := MapSg(l, vs, n); sg[|sg|-1].addr + sg[|sg|-1].len == vs[n-1].addr + vs[n-1].len
  {
    if n > 1 { MapSgEnd(l, vs, n - 1); }
  }

  ghost predicate GrownBy(sg: seq<Vec>, v: Vec, r: seq<Vec>) {
    || r == sg + [v]
    || (sg != [] && sg[|sg|-1].addr + sg[|sg|-1].len == v.addr
        && r == sg[..|sg|-1] + [Vec(sg[|sg|-1].addr, sg[|sg|-1].len + v.len)])
  }

  /** A vector either opens an entry or extends the last one, which ends where it begins. */
  lemma MapSgCases(l: Limits, vs: seq<Vec>, n: nat)
    requires l.Valid() && 0 < n <= |vs|
    ensures GrownBy(MapSg(l, vs, n - 1), vs[n-1], MapSg(l, vs, n))
  {
    if n > 1 { MapSgEnd(l, vs, n - 1); }
  }

  lemma BytesGrow(sg: seq<Vec>, v: Vec, r: seq<Vec>)
    requires GrownBy(sg, v, r)
    ensures Bytes(r) == Bytes(sg) + Range(v.addr, v.len)
  {
    hide Bytes, Range;
    BytesSnoc(sg, v);
    if r != sg + [v] {
      var front, last := sg[..|sg|-1], sg[|sg|-1];
      assert sg == front + [last];
      BytesExtend(front, last, v);
    }
  }

  /** The scatterlist transfers the same bytes in the same order. */
  lemma {:induction false} MapSgKeepsBytes(l: Limits, vs: seq<Vec>, n: nat)
    requires l.Valid() && n <= |vs|
    ensures Bytes(MapSg(l, vs, n)) == Bytes(vs[..n])
  {
    if n > 0 {
      MapSgKeepsBytes(l, vs, n - 1);
      assert vs[..n] == vs[..n-1] + [vs[n-1]];
      hide Bytes, Range, MapSg;
      BytesSnoc(vs[..n-1], vs[n-1]);
      MapSgCases(l, vs, n);
      BytesGrow(MapSg(l, vs, n - 1), vs[n-1], MapSg(l, vs, n));
    }
  }

  /** No entry is larger than the segment size limit, unless it is a single vector. */
  lemma {:induction false} MapSgFits(l: Limits, vs: seq<Vec>, n: nat, k: nat)
    requires l.Valid() && n <= |vs| && k < |MapSg(l, vs, n)|
    ensures MapSg(l, vs, n)[k].len <= l.maxSize || MapSg(l, vs, n)[k] in vs
  {
    var sg := MapSg(l, vs, n - 1);
    if k < |sg| { MapSgFits(l, vs, n - 1, k); }
  }

  /** Inside a legal part the builder opens at most one entry of its own, no larger than the part so far. */
  lemma {:induction false} GreedyInPart(l: Limits, vs: seq<Vec>, at: nat, p: seq<Vec>, j: nat, k: nat)
    requires l.Valid() && PartOk(l, p) && at + |p| <= |vs| && vs[at..at + |p|] == p && 0 < j <= |p|
    requires |MapSg(l, vs, at)| <= k
    ensures var sg := MapSg(l, vs, at + j);
            |sg| <= k || (|sg| == k + 1 && sg[|sg|-1].len <= Total(p[..j]))
  {
    assert p[..j][..j-1] == p[..j-1];
    assert vs[at + j - 1] == p[j-1];
    if j > 1 {
      GreedyInPart(l, vs, at, p, j - 1, k);
      assert vs[at + j - 2] == p[j-2];
      assert p == p[..j] + p[j..];
      TotalConcat(p[..j], p[j..]);
    }
  }

  /** The greedy scatterlist has as few entries as any legal partition. */
  lemma {:induction false} GreedyMinimal(l: Limits, vs: seq<Vec>, n: nat, parts: seq<seq<Vec>>)
    requires l.Valid() && n <= |vs| && Legal(l, vs[..n], parts)
    ensures |MapSg(l, vs, n)| <= |parts|
  {
    if parts == [] {
      assert n == 0;
    } else {
      var front, p := parts[..|parts|-1], parts[|parts|-1];
      var m := |Flatten(front)|;
      assert PartOk(l, p);
      assert vs[..n][..m] == Flatten(front) && vs[..m] == vs[..n][..m] && vs[m..n] == p;
      GreedyMinimal(l, vs, m, front);
      GreedyInPart(l, vs, m, p, |p|, |front|);
    }
  }

  // ----- building partitions -----

  /** The vectors split legally into `count` segments, the first and last of the given sizes. */
  ghost predicate Splits(l: Limits, vs: seq<Vec>, parts: seq<seq<Vec>>, first: nat, last: nat)
    requires l.Valid()
  {
    Legal(l, vs, parts) && parts != [] && Total(parts[0]) == first && Total(parts[|parts|-1]) == last
  }

  /** Segments side by side. */
  lemma SplitConcat(l: Limits, a: seq<Vec>, pa: seq<seq<Vec>>, fa: nat, la: nat,
                    b: seq<Vec>, pb: seq<seq<Vec>>, fb: nat, lb: nat)
    requires l.Valid() && Splits(l, a, pa, fa, la) && Splits(l, b, pb, fb, lb)
    ensures Splits(l, a + b, pa + pb, fa, lb)
  {
    FlattenConcat(pa, pb);
    var parts := pa + pb;
    forall k | 0 <= k < |parts| ensures PartOk(l, parts[k]) {
      assert parts[k] == if k < |pa| then pa[k] else pb[k - |pa|];
    }
    assert parts[0] == pa[0] && parts[|parts|-1] == pb[|pb|-1];
  }

  /** The joined middle part of two partitions. */
  lemma JoinPart(l: Limits, p: seq<Vec>, q: seq<Vec>)
    requires l.Valid() && l.cluster && PartOk(l, p) && PartOk(l, q)
    requires Glue(l, p[|p|-1], q[0]) && Total(p) + Total(q) <= l.maxSize
    ensures PartOk(l, p + q) && Total(p + q) == Total(p) + Total(q)
  {
    TotalConcat(p, q);
  }

  ghost function Joined(pa: seq<seq<Vec>>, pb: seq<seq<Vec>>): seq<seq<Vec>>
    requires pa != [] && pb != []
  {
    pa[..|pa|-1] + [pa[|pa|-1] + pb[0]] + pb[1..]
  }

  lemma FlattenOne(p: seq<Vec>)
    ensures Flatten([p]) == p
  {
    assert [p][..0] == [];
  }

  lemma JoinedFlatten(pa: seq<seq<Vec>>, pb: seq<seq<Vec>>)
    requires pa != [] && pb != []
    ensures Flatten(Joined(pa, pb)) == Flatten(pa) + Flatten(pb)
  {
    var a, p, q, b := pa[..|pa|-1], pa[|pa|-1], pb[0], pb[1..];
    assert pb == [q] + b && pa == a + [p];
    FlattenOne(p);
    FlattenOne(q);
    FlattenOne(p + q);
    hide Flatten;
    FlattenConcat(a, [p]);
    FlattenConcat(a, [p + q]);
    FlattenConcat(a + [p + q], b);
    FlattenConcat([q], b);
    Assoc(Flatten(a), p, q);
    Assoc(Flatten(a) + p, q, Flatten(b));
  }

  /** The last vector of a partitioned list ends its last part, the first starts its first. */
  lemma {:induction false} EndsOfParts(l: Limits, vs: seq<Vec>, parts: seq<seq<Vec>>)
    requires l.Valid() && Legal(l, vs, parts) && parts != []
    ensures vs != [] && vs[|vs|-1] == parts[|parts|-1][|parts[|parts|-1]|-1] && vs[0] == parts[0][0]
    decreases |parts|
  {
    assert PartOk(l, parts[|parts|-1]);
    if |parts| == 1 {
      assert Flatten(parts[..0]) == [];
    } else {
      EndsOfParts(l, Flatten(parts[..|parts|-1]), parts[..|parts|-1]);
    }
  }

  /** Two partitions whose facing segments may be glued make one with a segment less. */
  lemma SplitJoin(l: Limits, a: seq<Vec>, pa: seq<seq<Vec>>, fa: nat, la: nat,
                  b: seq<Vec>, pb: seq<seq<Vec>>, fb: nat, lb: nat)
    requires l.Valid() && l.cluster && Splits(l, a, pa, fa, la) && Splits(l, b, pb, fb, lb)
    requires la + fb <= l.maxSize && a != [] && b != [] && Glue(l, a[|a|-1], b[0])
    ensures Splits(l, a + b, Joined(pa, pb), if |pa| == 1 then la + fb else fa, if |pb| == 1 then la + fb else lb)
    ensures |Joined(pa, pb)| == |pa| + |pb| - 1
  {
    EndsOfParts(l, a, pa);
    EndsOfParts(l, b, pb);
    JoinPart(l, pa[|pa|-1], pb[0]);
    JoinedFlatten(pa, pb);
  }

  // ----- recounting -----

  /** The running values of __blk_recalc_rq_segments: segments so far, size of the open one, size
      of the first once it is closed, and whether the open one started with a high page. */
  datatype Tally = Tally(segs: nat, size: nat, first: nat, highPrev: bool) {
    /** Size of the first segment. */
    function First(): nat { if segs == 1 then size else first }
  }

  function Recount(l: Limits, vs: seq<Vec>): Tally
    requires l.Valid()
  {
    if vs == [] then Tally(0, 0, 0, true)
    else
      var t, v := Recount(l, vs[..|vs|-1]), vs[|vs|-1];
      RecountStep(l, t, if |vs| > 1 then vs[|vs|-2] else v, v)
  }

  function RecountStep(l: Limits, t: Tally, prev: Vec, v: Vec): Tally
    requires l.Valid()
  {
    if !High(l, v) && !t.highPrev && l.cluster && t.size + v.len <= l.maxSize && Glue(l, prev, v)
    then t.(size := t.size + v.len)
    else Tally(t.segs + 1, v.len, if t.segs == 1 then t.size else t.first, High(l, v))
  }

  lemma RecountSnoc(l: Limits, vs: seq<Vec>, v: Vec)
    requires l.Valid()
    ensures Recount(l, vs + [v]) == RecountStep(l, Recount(l, vs), if vs != [] then vs[|vs|-1] else v, v)
  {
    assert (vs + [v])[..|vs|] == vs;
  }

  lemma SplitOne(l: Limits, v: Vec)
    requires l.Valid()
    ensures Splits(l, [v], [[v]], v.len, v.len)
  {
    FlattenOne([v]);
    assert [v][..0] == [];
  }

  /** The recount describes a legal partition: its count, and the sizes of its first and last segment. */
  lemma {:induction false} RecountSplits(l: Limits, vs: seq<Vec>) returns (parts: seq<seq<Vec>>)
    requires l.Valid() && vs != []
    ensures Splits(l, vs, parts, Recount(l, vs).First(), Recount(l, vs).size) && |parts| == Recount(l, vs).segs
    decreases |vs|
  {
    var front, v := vs[..|vs|-1], vs[|vs|-1];
    assert vs == front + [v];
    SplitOne(l, v);
    if front == [] {
      parts := [[v]];
    } else {
      var pf := RecountSplits(l, front);
      var t := Recount(l, front);
      if Recount(l, vs).segs == t.segs {
        SplitJoin(l, front, pf, t.First(), t.size, [v], [[v]], v.len, v.len);
        parts := Joined(pf, [[v]]);
      } else {
        SplitConcat(l, front, pf, t.First(), t.size, [v], [[v]], v.len, v.len);
        parts := pf + [[v]];
      }
    }
  }
}
