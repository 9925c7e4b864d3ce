/** Partial completion of requests, failure boundaries, and what every request keeps. */
module Completion {
  import opened Segments
  import opened Requests

  const WORD := 0x1_0000_0000

  /** Unsigned 32-bit subtraction. */
  function Sub32(a: nat, b: nat): nat { if b <= a then a - b else (a - b) % WORD }

  // ----- bytes -----

  /** The vectors after their first `n` bytes. */
  function DropBytes(vs: seq<Vec>, n: nat): seq<Vec> {
    if vs == [] || n == 0 then vs
    else if n >= vs[0].len then DropBytes(vs[1..], n - vs[0].len)
    else [Vec(vs[0].addr + n, vs[0].len - n)] + vs[1..]
  }

  /** req_bio_endio and the index update on a bio that is not finished.  The bio of the barrier
      proxy keeps its size and sector. */
  function Trim(b: Bio, n: nat, bar: bool): Bio {
    var b1 := b.(vecs := DropBytes(b.vecs, n));
    if bar then b1 else b1.(size := Sub32(b.size, n), sector := b.sector + n / SECTOR)
  }

  /** The chain after its first `n` bytes. */
  function Advance(bios: seq<Bio>, n: nat, bar: bool): seq<Bio> {
    if bios == [] || n == 0 then bios
    else if n >= bios[0].size then Advance(bios[1..], n - bios[0].size, bar)
    else [Trim(bios[0], n, bar)] + bios[1..]
  }

  /** The bios that end when `n` bytes are completed. */
  function EndedBy(bios: seq<Bio>, n: nat): seq<nat> {
    if bios == [] || n == 0 || n < bios[0].size then []
    else [bios[0].id] + EndedBy(bios[1..], n - bios[0].size)
  }

  function Ids(bios: seq<Bio>): seq<nat> {
    if bios == [] then [] else [bios[0].id] + Ids(bios[1..])
  }

  /** What blk_update_request leaves; a barrier proxy ends no bio. */
  datatype Update = Update(more: bool, rq: Rq, ended: seq<nat>)

  function CurBytes(rq: Rq): nat { if rq.bios == [] || rq.bios[0].vecs == [] then 0 else rq.bios[0].vecs[0].len }

  /** The request set up for the next range, before the segments are recounted. */
  function Remainder(rq: Rq, rest: seq<Bio>, n: nat): Rq
    requires rest != []
  {
    var r := rq.(bios := rest, dataLen := Sub32(rq.dataLen, n), sector := rq.sector + n / SECTOR,
                 ff := if rq.mixed then rest[0].ff else rq.ff);
    if r.dataLen < CurBytes(r) then r.(dataLen := CurBytes(r)) else r
  }

  /** The outcome once the chain has been advanced to `rest`. */
  function Settle(l: Limits, rq: Rq, rest: seq<Bio>, n: nat, ended: seq<nat>): Update
    requires l.Valid()
  {
    if rest == [] then Update(false, rq.(bios := [], dataLen := 0), ended)
    else Update(true, Recalc(l, Remainder(rq, rest, n)), ended)
  }

  /** blk_update_request */
  function UpdateRequest(l: Limits, rq: Rq, n: nat): Update
    requires l.Valid()
  {
    if rq.bios == [] then Update(false, rq, [])
    else Settle(l, rq, Advance(rq.bios, n, rq.bar), n, if rq.bar then [] else EndedBy(rq.bios, n))
  }

  // ----- dropping bytes -----

  ghost predicate Positive(vs: seq<Vec>) { forall i :: 0 <= i < |vs| ==> vs[i].len > 0 }

  lemma TotalCons(vs: seq<Vec>)
    requires vs != []
    ensures Total(vs) == vs[0].len + Total(vs[1..])
  {
    TotalConcat([vs[0]], vs[1..]);
    assert vs == [vs[0]] + vs[1..];
    assert [vs[0]][..0] == [];
    assert Total([vs[0]]) == vs[0].len;
  }

  lemma {:induction false} DropInv(vs: seq<Vec>, n: nat)
    requires Positive(vs) && n < Total(vs)
    ensures var r := DropBytes(vs, n); r != [] && Positive(r) && Total(r) == Total(vs) - n
  {
    if n > 0 {
      TotalCons(vs);
      if n >= vs[0].len {
        DropInv(vs[1..], n - vs[0].len);
      } else {
        var r := DropBytes(vs, n);
        TotalCons(r);
        assert r[1..] == vs[1..];
      }
    }
  }

  lemma {:induction false} DropCompose(vs: seq<Vec>, a: nat, b: nat)
    requires Positive(vs) && a + b < Total(vs)
    ensures DropBytes(DropBytes(vs, a), b) == DropBytes(vs, a + b)
  {
    if a > 0 {
      TotalCons(vs);
      if a >= vs[0].len {
        DropCompose(vs[1..], a - vs[0].len, b);
      } else {
        var r := DropBytes(vs, a);
        assert r[1..] == vs[1..] && r[0] == Vec(vs[0].addr + a, vs[0].len - a);
        if b > 0 && b >= r[0].len { assert DropBytes(r, b) == DropBytes(vs[1..], b - r[0].len); }
      }
    }
  }

  // ----- advancing -----

  ghost predicate ChainOk(bios: seq<Bio>) {
    && (forall i :: 0 <= i < |bios| ==> BioOk(bios[i]))
    && (forall i :: 0 < i < |bios| ==> bios[i].sector == bios[i-1].sector + bios[i-1].size / SECTOR)
  }

  lemma SumCons(bios: seq<Bio>)
    requires bios != []
    ensures SumSize(bios) == bios[0].size + SumSize(bios[1..])
  {
    ChainConcat([bios[0]], bios[1..]);
    ChainOne(bios[0]);
    assert bios == [bios[0]] + bios[1..];
  }

  /** A bio with data has a positive size. */
  lemma SizePositive(b: Bio)
    requires BioOk(b)
    ensures b.size > 0 && b.size >= SECTOR
  {
    TotalCons(b.vecs);
  }

  lemma TrimOk(b: Bio, n: nat)
    requires BioOk(b) && n < b.size && n % SECTOR == 0
    ensures BioOk(Trim(b, n, false)) && Trim(b, n, false).size == b.size - n
    ensures var t := Trim(b, n, false); t.sector + t.size / SECTOR == b.sector + b.size / SECTOR
  {
    DropInv(b.vecs, n);
    AddSectors(n, b.size - n);
  }

  ghost predicate Advanced(bios: seq<Bio>, n: nat, r: seq<Bio>) {
    && ChainOk(r) && (r == [] <==> n >= SumSize(bios))
    && (r != [] ==> bios != [] && SumSize(r) == SumSize(bios) - n && r[0].sector == bios[0].sector + n / SECTOR)
  }

  lemma AdvanceInFirst(bios: seq<Bio>, n: nat, r: seq<Bio>)
    requires ChainOk(bios) && bios != [] && n % SECTOR == 0 && 0 < n < bios[0].size && r == Advance(bios, n, false)
    ensures Advanced(bios, n, r)
  {
    TrimOk(bios[0], n);
    SumCons(bios);
    SumCons(r);
    assert r[1..] == bios[1..];
    forall i | 0 <= i < |r| ensures BioOk(r[i]) { assert i > 0 ==> r[i] == bios[i]; }
    forall i | 0 < i < |r| ensures r[i].sector == r[i-1].sector + r[i-1].size / SECTOR {
      assert bios[i].sector == bios[i-1].sector + bios[i-1].size / SECTOR;
    }
  }

  lemma ChainTail(bios: seq<Bio>)
    requires ChainOk(bios) && bios != []
    ensures ChainOk(bios[1..])
  {
    forall i | 0 < i < |bios| - 1 ensures bios[1..][i].sector == bios[1..][i-1].sector + bios[1..][i-1].size / SECTOR {
      assert bios[i+1].sector == bios[i].sector + bios[i].size / SECTOR;
    }
  }

  /** Completing whole sectors leaves a well-formed chain of exactly the remaining bytes, starting
      right after the completed ones. */
  /** Past the first bio. */
  lemma AdvancedWhole(bios: seq<Bio>, n: nat, r: seq<Bio>)
    requires ChainOk(bios) && bios != [] && n % SECTOR == 0 && n >= bios[0].size
    requires Advanced(bios[1..], n - bios[0].size, r)
    ensures Advanced(bios, n, r)
  {
    SumCons(bios);
    SizePositive(bios[0]);
    AddSectors(bios[0].size, n - bios[0].size);
    hide SumSize;
  }

  lemma {:induction false} AdvanceOk(bios: seq<Bio>, n: nat)
    requires ChainOk(bios) && n % SECTOR == 0
    ensures Advanced(bios, n, Advance(bios, n, false))
    decreases |bios|
  {
    if bios != [] {
      SumCons(bios);
      SizePositive(bios[0]);
      if n >= bios[0].size {
        ChainTail(bios);
        AdvanceOk(bios[1..], n - bios[0].size);
        AdvancedWhole(bios, n, Advance(bios, n, false));
      } else if n > 0 {
        AdvanceInFirst(bios, n, Advance(bios, n, false));
      }
    }
  }

  /** Every bio is either ended or still in the chain, in order. */
  lemma {:induction false} EndedOnce(bios: seq<Bio>, n: nat)
    ensures EndedBy(bios, n) + Ids(Advance(bios, n, false)) == Ids(bios)
    decreases |bios|
  {
    if bios != [] && n > 0 {
      if n >= bios[0].size { EndedOnce(bios[1..], n - bios[0].size); }
    }
  }

  /** Completing `a` and then `b` bytes is completing `a + b`. */
  lemma {:induction false} AdvanceCompose(bios: seq<Bio>, a: nat, b: nat)
    requires ChainOk(bios) && a % SECTOR == 0
    ensures Advance(Advance(bios, a, false), b, false) == Advance(bios, a + b, false)
    ensures EndedBy(bios, a) + EndedBy(Advance(bios, a, false), b) == EndedBy(bios, a + b)
    decreases |bios|
  {
    if bios != [] && a > 0 {
      if a >= bios[0].size {
        AdvanceCompose(bios[1..], a - bios[0].size, b);
      } else {
        ComposeInFirst(bios, a, b);
      }
    }
  }

  lemma ComposeInFirst(bios: seq<Bio>, a: nat, b: nat)
    requires ChainOk(bios) && bios != [] && 0 < a < bios[0].size && a % SECTOR == 0
    ensures Advance(Advance(bios, a, false), b, false) == Advance(bios, a + b, false)
    ensures EndedBy(Advance(bios, a, false), b) == EndedBy(bios, a + b)
  {
    var r := Advance(bios, a, false);
    TrimOk(bios[0], a);
    assert r[1..] == bios[1..] && r[0] == Trim(bios[0], a, false);
    if a + b < bios[0].size {
      TrimCompose(bios[0], a, b);
      assert [Trim(r[0], b, false)] + r[1..] == [Trim(bios[0], a + b, false)] + bios[1..];
    }
  }

  lemma TrimCompose(x: Bio, a: nat, b: nat)
    requires BioOk(x) && a + b < x.size && a % SECTOR == 0
    ensures Trim(Trim(x, a, false), b, false) == Trim(x, a + b, false)
  {
    DropCompose(x.vecs, a, b);
    AddSectors(a, b);
  }

  // ----- blk_update_request -----

  lemma RecalcKeeps(l: Limits, rq: Rq)
    requires l.Valid() && rq.bios != []
    ensures var r := Recalc(l, rq);
            && SameData(rq.bios, r.bios) && r.bios[0].ff == rq.bios[0].ff
            && r == rq.(segs := r.segs, bios := r.bios)
            && forall i :: 0 <= i < |rq.bios| ==> r.bios[i].ff == rq.bios[i].ff && r.bios[i].id == rq.bios[i].id
  {
  }

  ghost predicate AllWithin(bios: seq<Bio>, ff: set<FailFast>) { forall i :: 0 <= i < |bios| ==> bios[i].ff <= ff }

  /** Advancing does not add failfast bits to any bio. */
  lemma {:induction false} AdvanceFailFast(bios: seq<Bio>, n: nat, bar: bool, ff: set<FailFast>)
    requires AllWithin(bios, ff)
    ensures AllWithin(Advance(bios, n, bar), ff)
    decreases |bios|
  {
    if bios != [] && n > 0 {
      if n >= bios[0].size {
        AdvanceFailFast(bios[1..], n - bios[0].size, bar, ff);
      } else {
        var r := Advance(bios, n, bar);
        assert forall i :: 0 <= i < |r| ==> r[i].ff == bios[i].ff;
      }
    }
  }

  lemma RemainderFailFast(rq: Rq, n: nat, rest: seq<Bio>)
    requires FailFastInv(rq) && rest == Advance(rq.bios, n, rq.bar) && rest != []
    ensures FailFastInv(Remainder(rq, rest, n))
  {
    if !rq.mixed { AdvanceFailFast(rq.bios, n, rq.bar, rq.ff); }
  }

  lemma RecalcFailFast(l: Limits, rq: Rq)
    requires l.Valid() && FailFastInv(rq) && rq.bios != []
    ensures FailFastInv(Recalc(l, rq))
  {
    RecalcKeeps(l, rq);
  }

  lemma {:induction false} FirstVecFits(vs: seq<Vec>)
    requires vs != []
    ensures vs[0].len <= Total(vs)
  {
    TotalCons(vs);
  }

  /** The "request botched" repair is never taken, and the remainder is a well-formed request. */
  lemma RemainderData(rq: Rq, n: nat, rest: seq<Bio>)
    requires DataInv(rq) && n % SECTOR == 0 && !rq.bar && rest == Advance(rq.bios, n, false) && rest != []
    ensures DataInv(Remainder(rq, rest, n)) && Remainder(rq, rest, n).dataLen == rq.dataLen - n
  {
    AdvanceOk(rq.bios, n);
    assert BioOk(rest[0]);
    FirstVecFits(rest[0].vecs);
    SumCons(rest);
  }

  lemma UpdateKeeps(l: Limits, rq: Rq, n: nat, rest: seq<Bio>, r: Rq)
    requires l.Valid() && RqInv(l, rq) && !rq.bar && n % SECTOR == 0 && rest == Advance(rq.bios, n, false) && rest != []
    requires r == Recalc(l, Remainder(rq, rest, n))
    ensures RqInv(l, r) && r.dataLen == rq.dataLen - n && r.sector == rq.sector + n / SECTOR && !r.bar
    ensures Ids(r.bios) == Ids(rest)
  {
    var s := Remainder(rq, rest, n);
    RemainderData(rq, n, rest);
    RemainderFailFast(rq, n, rest);
    RecalcSeg(l, s);
    RecalcKeeps(l, s);
    SameDataInv(s, r);
    RecalcFailFast(l, s);
    SameIds(rest, r.bios);
  }

  /** Completing `n` bytes, a multiple of the sector size, of a request that is not the barrier proxy:
      there is more exactly if not all bytes are covered, the length is what remains, every
      invariant is kept and every bio is ended or still there. */
  lemma UpdateInv(l: Limits, rq: Rq, n: nat, u: Update)
    requires l.Valid() && RqInv(l, rq) && !rq.bar && n % SECTOR == 0 && u == UpdateRequest(l, rq, n)
    ensures u.more <==> n < rq.dataLen
    ensures u.more ==> RqInv(l, u.rq) && u.rq.dataLen == rq.dataLen - n && u.rq.sector == rq.sector + n / SECTOR && !u.rq.bar
    ensures u.ended + Ids(u.rq.bios) == Ids(rq.bios)
  {
    var rest := Advance(rq.bios, n, false);
    AdvanceOk(rq.bios, n);
    EndedOnce(rq.bios, n);
    if rest != [] { UpdateKeeps(l, rq, n, rest, u.rq); }
  }

  lemma {:induction false} SameIds(a: seq<Bio>, b: seq<Bio>)
    requires |a| == |b| && forall i :: 0 <= i < |a| ==> a[i].id == b[i].id
    ensures Ids(a) == Ids(b)
  {
    if a != [] { SameIds(a[1..], b[1..]); }
  }

  // ----- completing in pieces -----

  /** The chain without the size hints of bi_seg_front_size and bi_seg_back_size, which only grow. */
  function Erase(bios: seq<Bio>): (r: seq<Bio>)
    ensures |r| == |bios|
  {
    seq(|bios|, i requires 0 <= i < |bios| => bios[i].(front := 0, back := 0))
  }

  ghost predicate SameBut(a: Rq, b: Rq) { Erase(a.bios) == Erase(b.bios) && a == b.(bios := a.bios) }

  lemma {:induction false} AdvanceErase(bios: seq<Bio>, n: nat, bar: bool)
    ensures Erase(Advance(bios, n, bar)) == Advance(Erase(bios), n, bar) && EndedBy(Erase(bios), n) == EndedBy(bios, n)
    decreases |bios|
  {
    if bios != [] && n > 0 {
      var e := Erase(bios);
      assert e[1..] == Erase(bios[1..]);
      if n >= bios[0].size {
        AdvanceErase(bios[1..], n - bios[0].size, bar);
      } else {
        assert Erase([Trim(bios[0], n, bar)] + bios[1..]) == [Trim(e[0], n, bar)] + e[1..];
      }
    }
  }

  lemma {:induction false} EraseVecs(a: seq<Bio>, b: seq<Bio>)
    requires Erase(a) == Erase(b)
    ensures AllVecs(a) == AllVecs(b)
    decreases |a|
  {
    forall i | 0 <= i < |a| ensures a[i].vecs == b[i].vecs { assert Erase(a)[i] == Erase(b)[i]; }
    VecsOnly(a, b);
  }

  lemma {:induction false} VecsOnly(a: seq<Bio>, b: seq<Bio>)
    requires |a| == |b| && forall i :: 0 <= i < |a| ==> a[i].vecs == b[i].vecs
    ensures AllVecs(a) == AllVecs(b)
    decreases |a|
  {
    if a != [] { VecsOnly(a[..|a|-1], b[..|b|-1]); }
  }

  lemma RecalcErase(l: Limits, rq: Rq)
    requires l.Valid() && rq.bios != []
    ensures Erase(Recalc(l, rq).bios) == Erase(rq.bios)
  {
  }

  /** Remainders of the same bytes differ only in the size hints. */
  lemma RemaindersMeet(l: Limits, p: Rq, x: seq<Bio>, n: nat, q: Rq, y: seq<Bio>, m: nat)
    requires l.Valid() && Erase(x) == Erase(y) && x != [] && y != [] && n <= p.dataLen && m <= q.dataLen
    requires p.dataLen - n == q.dataLen - m && p.sector + n / SECTOR == q.sector + m / SECTOR
    requires p.mixed == q.mixed && p.nomerge == q.nomerge && p.bar == q.bar && (!p.mixed ==> p.ff == q.ff)
    ensures SameBut(Recalc(l, Remainder(p, x, n)), Recalc(l, Remainder(q, y, m)))
  {
    assert Erase(x)[0] == Erase(y)[0];
    var r, s := Remainder(p, x, n), Remainder(q, y, m);
    assert r == s.(bios := x, segs := r.segs);
    EraseVecs(x, y);
    RecalcErase(l, r);
    RecalcErase(l, s);
  }

  /** The chains left by the two ways of completing `a + b` bytes. */
  lemma AdvanceMeet(bios: seq<Bio>, mid: seq<Bio>, a: nat, b: nat)
    requires ChainOk(bios) && a % SECTOR == 0 && Erase(mid) == Erase(Advance(bios, a, false))
    ensures Erase(Advance(mid, b, false)) == Erase(Advance(bios, a + b, false))
    ensures EndedBy(bios, a) + EndedBy(mid, b) == EndedBy(bios, a + b)
  {
    var rest := Advance(bios, a, false);
    AdvanceCompose(bios, a, b);
    AdvanceErase(mid, b, false);
    AdvanceErase(rest, b, false);
  }

  lemma UpdateShape(l: Limits, rq: Rq, a: nat, u: Update)
    requires l.Valid() && RqInv(l, rq) && !rq.bar && a % SECTOR == 0 && a < rq.dataLen && u == UpdateRequest(l, rq, a)
    ensures u.more && u.ended == EndedBy(rq.bios, a) && Erase(u.rq.bios) == Erase(Advance(rq.bios, a, false))
    ensures u.rq.mixed == rq.mixed && u.rq.nomerge == rq.nomerge && (!rq.mixed ==> u.rq.ff == rq.ff)
  {
    hide RqInv, Recalc, Erase, SumSize;
    UpdateInv(l, rq, a, u);
    var rest := Advance(rq.bios, a, false);
    assert rest != [] by { DataOf(l, rq); AdvanceOk(rq.bios, a); }
    RecalcErase(l, Remainder(rq, rest, a));
    RecalcFlags(l, Remainder(rq, rest, a));
  }

  lemma DataOf(l: Limits, rq: Rq)
    requires l.Valid() && RqInv(l, rq)
    ensures DataInv(rq) && ChainOk(rq.bios)
  {
  }

  lemma RecalcFlags(l: Limits, rq: Rq)
    requires l.Valid()
    ensures var r := Recalc(l, rq); r.mixed == rq.mixed && r.nomerge == rq.nomerge && r.ff == rq.ff
  {
  }

  lemma UpdateIsSettle(l: Limits, rq: Rq, n: nat)
    requires l.Valid() && rq.bios != [] && !rq.bar
    ensures UpdateRequest(l, rq, n) == Settle(l, rq, Advance(rq.bios, n, false), n, EndedBy(rq.bios, n))
  {
  }

  /** The two outcomes agree on everything but the size hints, or are both complete. */
  ghost predicate SameOutcome(v: Update, w: Update) {
    && v.more == w.more
    && if w.more then SameBut(v.rq, w.rq) else v.rq.bios == w.rq.bios == [] && v.rq.dataLen == w.rq.dataLen == 0
  }

  lemma SettleMeet(l: Limits, p: Rq, x: seq<Bio>, n: nat, d: seq<nat>, q: Rq, y: seq<Bio>, m: nat, e: seq<nat>)
    requires l.Valid() && Erase(x) == Erase(y) && (x != [] ==> n <= p.dataLen && m <= q.dataLen)
    requires p.dataLen - n == q.dataLen - m && p.sector + n / SECTOR == q.sector + m / SECTOR
    requires p.mixed == q.mixed && p.nomerge == q.nomerge && p.bar == q.bar && (!p.mixed ==> p.ff == q.ff)
    ensures SameOutcome(Settle(l, p, x, n, d), Settle(l, q, y, m, e))
  {
    assert |x| == |Erase(x)| == |Erase(y)| == |y|;
    if x != [] { RemaindersMeet(l, p, x, n, q, y, m); }
  }

  lemma LeftAfter(rq: Rq, n: nat)
    requires DataInv(rq) && n % SECTOR == 0
    ensures ChainOk(rq.bios) && (Advance(rq.bios, n, false) != [] ==> n < rq.dataLen)
  {
    AdvanceOk(rq.bios, n);
  }

  lemma EraseEmpty(x: seq<Bio>, y: seq<Bio>)
    requires Erase(x) == Erase(y)
    ensures |x| == |y|
  {
    assert |x| == |Erase(x)| == |Erase(y)| == |y|;
  }

  lemma ComposeCore(l: Limits, rq: Rq, a: nat, b: nat, p: Rq)
    requires l.Valid() && DataInv(rq) && !rq.bar && a % SECTOR == 0 && b % SECTOR == 0
    requires !p.bar && p.bios != [] && Erase(p.bios) == Erase(Advance(rq.bios, a, false)) && a <= rq.dataLen
    requires p.dataLen == rq.dataLen - a && p.sector == rq.sector + a / SECTOR
    requires p.mixed == rq.mixed && p.nomerge == rq.nomerge && (!rq.mixed ==> p.ff == rq.ff)
    ensures SameOutcome(Settle(l, p, Advance(p.bios, b, false), b, EndedBy(p.bios, b)),
                        Settle(l, rq, Advance(rq.bios, a + b, false), a + b, EndedBy(rq.bios, a + b))) == true
    ensures EndedBy(rq.bios, a) + EndedBy(p.bios, b) == EndedBy(rq.bios, a + b)
  {
    hide *;
    AddSectors(a, b);
    LeftAfter(rq, a + b);
    AdvanceMeet(rq.bios, p.bios, a, b);
    var x, y := Advance(p.bios, b, false), Advance(rq.bios, a + b, false);
    EraseEmpty(x, y);
    SettleMeet(l, p, x, b, EndedBy(p.bios, b), rq, y, a + b, EndedBy(rq.bios, a + b));
  }

  lemma ComposeWithin(l: Limits, rq: Rq, a: nat, b: nat)
    requires l.Valid() && RqInv(l, rq) && !rq.bar && a % SECTOR == 0 && b % SECTOR == 0 && a < rq.dataLen
    ensures var u := UpdateRequest(l, rq, a);
            var v, w := UpdateRequest(l, u.rq, b), UpdateRequest(l, rq, a + b);
            SameOutcome(v, w) == true && u.ended + v.ended == w.ended
  {
    var u := UpdateRequest(l, rq, a);
    UpdateShape(l, rq, a, u);
    UpdateInv(l, rq, a, u);
    UpdateIsSettle(l, u.rq, b);
    UpdateIsSettle(l, rq, a + b);
    ComposeCore(l, rq, a, b, u.rq);
  }

  lemma AllGone(l: Limits, rq: Rq, n: nat, u: Update)
    requires l.Valid() && RqInv(l, rq) && !rq.bar && n % SECTOR == 0 && n >= rq.dataLen && u == UpdateRequest(l, rq, n)
    ensures !u.more && u.rq.bios == [] && u.rq.dataLen == 0 && u.ended == Ids(rq.bios)
  {
    UpdateInv(l, rq, n, u);
    assert Ids([]) == [];
  }

  /** Completing `a` bytes and then `b` leaves the same request as completing `a + b` at once, and
      ends the same bios in the same order. */
  lemma UpdateCompose(l: Limits, rq: Rq, a: nat, b: nat)
    requires l.Valid() && RqInv(l, rq) && !rq.bar && a % SECTOR == 0 && b % SECTOR == 0
    ensures var u := UpdateRequest(l, rq, a);
            var v, w := UpdateRequest(l, u.rq, b), UpdateRequest(l, rq, a + b);
            SameOutcome(v, w) == true && u.ended + v.ended == w.ended
  {
    hide UpdateRequest, RqInv;
    if a < rq.dataLen {
      ComposeWithin(l, rq, a, b);
    } else {
      AddSectors(a, b);
      var u := UpdateRequest(l, rq, a);
      AllGone(l, rq, a, u);
      GoneStays(l, u.rq, b);
      AllGone(l, rq, a + b, UpdateRequest(l, rq, a + b));
    }
  }

  lemma GoneStays(l: Limits, rq: Rq, n: nat)
    requires l.Valid() && rq.bios == []
    ensures UpdateRequest(l, rq, n) == Update(false, rq, [])
  {
  }

  // ----- failure boundaries -----

  /** Bytes of the leading bios that have every failfast bit of `ff`. */
  function LeadBytes(bios: seq<Bio>, ff: set<FailFast>): nat {
    if bios == [] || !(ff <= bios[0].ff) then 0 else bios[0].size + LeadBytes(bios[1..], ff)
  }

  /** blk_rq_err_bytes */
  function ErrBytes(rq: Rq): nat { if !rq.mixed then rq.dataLen else LeadBytes(rq.bios, rq.ff) }

  /** The bytes to fail end at a bio boundary: every bio before it is at least as eager to fail as
      the first one, the bio behind it is not. */
  lemma {:induction false} LeadBytesAre(bios: seq<Bio>, ff: set<FailFast>) returns (k: nat)
    requires ChainOk(bios)
    ensures k <= |bios| && LeadBytes(bios, ff) == SumSize(bios[..k])
    ensures (forall i :: 0 <= i < k ==> ff <= bios[i].ff) && (k < |bios| ==> !(ff <= bios[k].ff))
    decreases |bios|
  {
    if bios == [] || !(ff <= bios[0].ff) {
      k := 0;
    } else {
      ChainTail(bios);
      var tail := bios[1..];
      var j := LeadBytesAre(tail, ff);
      k := j + 1;
      SumCons(bios[..k]);
      assert bios[..k][1..] == tail[..j];
      forall i | 0 <= i < k ensures ff <= bios[i].ff { assert i > 0 ==> bios[i] == tail[i-1]; }
    }
  }

  lemma {:induction false} LeadBytesWhole(bios: seq<Bio>, ff: set<FailFast>)
    requires forall i :: 0 <= i < |bios| ==> bios[i].size % SECTOR == 0
    ensures LeadBytes(bios, ff) % SECTOR == 0
    decreases |bios|
  {
    if bios != [] {
      LeadBytesWhole(bios[1..], ff);
      AddSectors(bios[0].size, LeadBytes(bios[1..], ff));
    }
  }

  lemma SumPrefix(bios: seq<Bio>, k: nat)
    requires k <= |bios|
    ensures SumSize(bios[..k]) <= SumSize(bios)
  {
    assert bios == bios[..k] + bios[k..];
    ChainConcat(bios[..k], bios[k..]);
  }

  /** The BUG_ON of blk_rq_err_bytes never fires: a request with data has bytes to fail. */
  lemma ErrBytesPositive(l: Limits, rq: Rq)
    requires l.Valid() && RqInv(l, rq)
    ensures 0 < ErrBytes(rq) <= rq.dataLen && ErrBytes(rq) % SECTOR == 0
  {
    SumCons(rq.bios);
    SizePositive(rq.bios[0]);
    EndSector(rq);
    if rq.mixed {
      var k := LeadBytesAre(rq.bios, rq.ff);
      SumPrefix(rq.bios, k);
      forall i | 0 <= i < |rq.bios| ensures rq.bios[i].size % SECTOR == 0 { assert BioOk(rq.bios[i]); }
      LeadBytesWhole(rq.bios, rq.ff);
    }
  }

  /** Failing a request boundary by boundary, as blk_end_request_err does: the bios in the order
      they end. */
  ghost function FailAll(l: Limits, rq: Rq): seq<nat>
    requires l.Valid() && RqInv(l, rq) && !rq.bar
    decreases rq.dataLen
  {
    ErrBytesPositive(l, rq);
    var u := UpdateRequest(l, rq, ErrBytes(rq));
    UpdateInv(l, rq, ErrBytes(rq), u);
    if u.more then u.ended + FailAll(l, u.rq) else u.ended
  }

  /** Repeated error completion terminates and ends every bio exactly once, in order. */
  lemma {:induction false} FailAllEndsAll(l: Limits, rq: Rq)
    requires l.Valid() && RqInv(l, rq) && !rq.bar
    ensures FailAll(l, rq) == Ids(rq.bios)
    decreases rq.dataLen
  {
    ErrBytesPositive(l, rq);
    var u := UpdateRequest(l, rq, ErrBytes(rq));
    UpdateInv(l, rq, ErrBytes(rq), u);
    if u.more { FailAllEndsAll(l, u.rq); } else { assert u.rq.bios == []; }
  }

  // ----- the barrier proxy -----

  /** Whether `n` bytes end at a bio boundary. */
  predicate OnBoundary(bios: seq<Bio>, n: nat) {
    bios == [] || n == 0 || (n >= bios[0].size && OnBoundary(bios[1..], n - bios[0].size))
  }

  ghost predicate SizesPositive(bios: seq<Bio>) { forall i :: 0 <= i < |bios| ==> bios[i].size > 0 }

  lemma {:induction false} AdvanceEmpty(bios: seq<Bio>, n: nat, bar: bool)
    requires SizesPositive(bios)
    ensures Advance(bios, n, bar) == [] <==> n >= SumSize(bios)
    decreases |bios|
  {
    if bios != [] {
      SumCons(bios);
      if n > 0 && n >= bios[0].size { AdvanceEmpty(bios[1..], n - bios[0].size, bar); }
    }
  }

  /** Completing part of a bio of the barrier proxy leaves its size as it was. */
  lemma {:induction false} BarAdvance(bios: seq<Bio>, n: nat)
    requires SizesPositive(bios) && n < SumSize(bios)
    ensures var r := Advance(bios, n, true);
            SizesPositive(r) && SumSize(r) >= SumSize(bios) - n && (SumSize(r) == SumSize(bios) - n <==> OnBoundary(bios, n))
    decreases |bios|
  {
    hide SumSize, Trim;
    NonEmptySum(bios, n);
    if n > 0 {
      SumCons(bios);
      if n >= bios[0].size {
        BarAdvance(bios[1..], n - bios[0].size);
      } else {
        BarInFirst(bios, n);
      }
    }
  }

  lemma NonEmptySum(bios: seq<Bio>, n: nat)
    requires n < SumSize(bios)
    ensures bios != []
  {
  }

  lemma BarInFirst(bios: seq<Bio>, n: nat)
    requires bios != [] && SizesPositive(bios) && 0 < n < bios[0].size
    ensures var r := Advance(bios, n, true); SizesPositive(r) && SumSize(r) == SumSize(bios)
    ensures !OnBoundary(bios, n)
  {
    hide SumSize, Trim;
    var b := Trim(bios[0], n, true);
    BarTrimSize(bios[0], n);
    var r := [b] + bios[1..];
    assert Advance(bios, n, true) == r && r[1..] == bios[1..];
    SumCons(bios);
    SumCons(r);
  }

  lemma BarTrimSize(b: Bio, n: nat)
    ensures Trim(b, n, true).size == b.size
  {
  }

  lemma MoreIff(l: Limits, rq: Rq, n: nat)
    requires l.Valid() && rq.bios != []
    ensures UpdateRequest(l, rq, n).more <==> Advance(rq.bios, n, rq.bar) != []
  {
  }

  lemma UpdatedBios(l: Limits, rq: Rq, n: nat, rest: seq<Bio>)
    requires l.Valid() && rq.bios != [] && rest == Advance(rq.bios, n, rq.bar) && rest != []
    ensures var u := UpdateRequest(l, rq, n); u.more && u.rq == Recalc(l, Remainder(rq, rest, n)) && u.rq.bar == rq.bar
  {
  }

  lemma {:induction false} SizesOnly(a: seq<Bio>, b: seq<Bio>)
    requires Erase(a) == Erase(b)
    ensures SumSize(a) == SumSize(b) && (SizesPositive(a) ==> SizesPositive(b))
    decreases |a|
  {
    forall i | 0 <= i < |a| ensures a[i].size == b[i].size && a[i].vecs == b[i].vecs && a[i].sector == b[i].sector {
      assert Erase(a)[i] == Erase(b)[i];
    }
    SameDataChain(a, b);
  }

  /** Completing the barrier proxy in two parts: the second part finishes it exactly if the first
      ended at a bio boundary.  Anything else leaves a request with no bytes and "more" to do. */
  lemma BarCompletesIff(l: Limits, rq: Rq, a: nat)
    requires l.Valid() && DataInv(rq) && rq.bar && 0 < a < rq.dataLen
    ensures var u := UpdateRequest(l, rq, a);
            u.more && u.rq.bios != [] && (!UpdateRequest(l, u.rq, rq.dataLen - a).more <==> OnBoundary(rq.bios, a))
  {
    hide SumSize, Advance, UpdateRequest, Recalc, Erase, OnBoundary;
    forall i | 0 <= i < |rq.bios| ensures rq.bios[i].size > 0 { SizePositive(rq.bios[i]); }
    AdvanceEmpty(rq.bios, a, true);
    BarAdvance(rq.bios, a);
    var rest := Advance(rq.bios, a, true);
    var u := UpdateRequest(l, rq, a);
    UpdatedBios(l, rq, a, rest);
    RecalcErase(l, Remainder(rq, rest, a));
    ErasedLength(rest, u.rq.bios);
    SizesOnly(rest, u.rq.bios);
    AdvanceEmpty(u.rq.bios, rq.dataLen - a, true);
    MoreIff(l, u.rq, rq.dataLen - a);
  }

  lemma ErasedLength(a: seq<Bio>, b: seq<Bio>)
    requires Erase(a) == Erase(b)
    ensures |a| == |b|
  {
    assert |Erase(a)| == |a| && |Erase(b)| == |b|;
  }

  /** A barrier proxy has one bio, for barriers are never merged: completed in two parts it never
      finishes. */
  lemma OneBioNeverFinishes(l: Limits, rq: Rq, a: nat)
    requires l.Valid() && DataInv(rq) && rq.bar && |rq.bios| == 1 && 0 < a < rq.dataLen
    ensures UpdateRequest(l, rq, a).more && UpdateRequest(l, UpdateRequest(l, rq, a).rq, rq.dataLen - a).more
  {
    BarCompletesIff(l, rq, a);
    SumCons(rq.bios);
    assert SumSize(rq.bios[1..]) == 0;
  }

  /** The proxy of a barrier of two sectors. */
  function TwoSectorProxy(): Rq {
    Rq([Bio(0, 0, 2 * SECTOR, [Vec(0, 2 * SECTOR)], {}, false, 0, 0, 0, false)], 0, 2 * SECTOR, 1, {}, false, false, true)
  }

  /** Completed sector by sector, it is left with no bytes to do and still reports more. */
  lemma TwoSectorsNeverFinish(l: Limits)
    requires l.Valid()
    ensures DataInv(TwoSectorProxy())
    ensures UpdateRequest(l, UpdateRequest(l, TwoSectorProxy(), SECTOR).rq, SECTOR).more
  {
    var rq := TwoSectorProxy();
    assert rq.bios[..0] == [] && rq.bios[0].vecs[..0] == [];
    assert SumSize(rq.bios) == 2 * SECTOR && Total(rq.bios[0].vecs) == 2 * SECTOR;
    OneBioNeverFinishes(l, rq, SECTOR);
  }

  // ----- every request -----

  /** How a request came about. */
  datatype Recipe =
    | Fresh(b: Bio)
    | BackOf(r: Recipe, b: Bio)
    | FrontOf(r: Recipe, b: Bio)
    | MergeOf(r: Recipe, next: Recipe)
    | RefusedBy(r: Recipe, next: Recipe)
    | RecountOf(r: Recipe)
    | PartOf(r: Recipe, n: nat)

  /** `r` is what is left of `next` after `q` was refused a merge with it. */
  ghost predicate Refused(l: Limits, q: Rq, next: Rq, r: Rq)
    requires l.Valid() && Mergeable(q) && Mergeable(next)
  {
    !AttemptMerge(l, q, next).ok && r == AttemptMerge(l, q, next).next
  }

  /** `rq` is built this way: merges are of neighbours on disk, completions of whole sectors. */
  ghost predicate Built(l: Limits, how: Recipe, rq: Rq)
    requires l.Valid()
  {
    match how
    case Fresh(b) => GoodBio(l, b) && rq == FromBio(l, b)
    case BackOf(r, b) =>
      exists q :: Built(l, r, q) && q.bios != [] && GoodBio(l, b) && Follows(q, b) && rq == BackMerge(l, q, b).rq
    case FrontOf(r, b) =>
      exists q :: Built(l, r, q) && q.bios != [] && GoodBio(l, b) && b.sector + b.size / SECTOR == q.sector &&
                  rq == FrontMerge(l, q, b).rq
    case MergeOf(r, r') =>
      exists q, q' :: Built(l, r, q) && Built(l, r', q') && Mergeable(q) && Mergeable(q') &&
                      q'.sector == q.sector + q.dataLen / SECTOR && rq == AttemptMerge(l, q, q').rq
    case RefusedBy(r, r') =>
      exists q, q' :: Built(l, r, q) && Built(l, r', q') && Mergeable(q) && Mergeable(q') &&
                      q'.sector == q.sector + q.dataLen / SECTOR && Refused(l, q, q', rq)
    case RecountOf(r) => exists q :: Built(l, r, q) && rq == Recalc(l, q)
    case PartOf(r, n) =>
      exists q :: Built(l, r, q) && n % SECTOR == 0 && n < q.dataLen && rq == UpdateRequest(l, q, n).rq
  }

  lemma FromBioInv(l: Limits, b: Bio)
    requires l.Valid() && GoodBio(l, b)
    ensures RqInv(l, FromBio(l, b))
  {
    FromBioSeg(l, b);
    FromBioData(l, b);
    FromBioFailFast(l, b);
  }

  lemma FromBioFailFast(l: Limits, b: Bio)
    requires l.Valid()
    ensures FailFastInv(FromBio(l, b))
  {
    forall f: FailFast ensures f in FF_MASK { match f case FF_DEV => case FF_TRANSPORT => case FF_DRIVER => }
  }

  lemma RecalcInv(l: Limits, rq: Rq)
    requires l.Valid() && RqInv(l, rq)
    ensures RqInv(l, Recalc(l, rq)) && Recalc(l, rq).bar == rq.bar
  {
    RecalcSeg(l, rq);
    RecalcKeeps(l, rq);
    RecalcFailFast(l, rq);
    SameDataInv(rq, Recalc(l, rq));
  }

  lemma BackMergeInv(l: Limits, q: Rq, b: Bio, m: Merge)
    requires l.Valid() && RqInv(l, q) && GoodBio(l, b) && Follows(q, b) && q.bios != [] && m == BackMerge(l, q, b)
    ensures RqInv(l, m.rq) && m.rq.bar == q.bar
  {
    BackMergeSeg(l, q, b, m);
    BackMergeData(l, q, b, m);
    BackMergeFailFast(l, q, b, m);
  }

  lemma FrontMergeInv(l: Limits, q: Rq, b: Bio, m: Merge)
    requires l.Valid() && RqInv(l, q) && GoodBio(l, b) && b.sector + b.size / SECTOR == q.sector
    requires q.bios != [] && m == FrontMerge(l, q, b)
    ensures RqInv(l, m.rq) && m.rq.bar == q.bar
  {
    FrontMergeSeg(l, q, b, m);
    FrontMergeData(l, q, b, m);
    FrontMergeFailFast(l, q, b, m);
  }

  /** Every request that recounts, merges and partial completions can build keeps its data length,
      its failfast bits and a segment count that bounds the scatterlist. */
  lemma {:induction false} BuiltInv(l: Limits, how: Recipe, rq: Rq)
    requires l.Valid() && Built(l, how, rq)
    ensures RqInv(l, rq) && !rq.bar
    decreases how
  {
    hide RqInv, BackMerge, FrontMerge, AttemptMerge, Recalc, UpdateRequest, GoodBio, Mergeable;
    match how
    case Fresh(b) => FromBioInv(l, b);
    case BackOf(r, b) =>
      var q :| Built(l, r, q) && q.bios != [] && GoodBio(l, b) && Follows(q, b) && rq == BackMerge(l, q, b).rq;
      BuiltInv(l, r, q);
      BackMergeInv(l, q, b, BackMerge(l, q, b));
    case FrontOf(r, b) =>
      var q :| Built(l, r, q) && q.bios != [] && GoodBio(l, b) && b.sector + b.size / SECTOR == q.sector &&
               rq == FrontMerge(l, q, b).rq;
      BuiltInv(l, r, q);
      FrontMergeInv(l, q, b, FrontMerge(l, q, b));
    case MergeOf(r, r') =>
      var q, q' :| Built(l, r, q) && Built(l, r', q') && Mergeable(q) && Mergeable(q') &&
                   q'.sector == q.sector + q.dataLen / SECTOR && rq == AttemptMerge(l, q, q').rq;
      BuiltInv(l, r, q);
      BuiltInv(l, r', q');
      AttemptMergeInv(l, q, q');
    case RefusedBy(r, r') =>
      var q, q' :| Built(l, r, q) && Built(l, r', q') && Mergeable(q) && Mergeable(q') &&
                   q'.sector == q.sector + q.dataLen / SECTOR && Refused(l, q, q', rq);
      BuiltInv(l, r, q);
      BuiltInv(l, r', q');
      AttemptMergeInv(l, q, q');
    case RecountOf(r) =>
      var q :| Built(l, r, q) && rq == Recalc(l, q);
      BuiltInv(l, r, q);
      RecalcInv(l, q);
    case PartOf(r, n) =>
      var q :| Built(l, r, q) && n % SECTOR == 0 && n < q.dataLen && rq == UpdateRequest(l, q, n).rq;
      BuiltInv(l, r, q);
      UpdateInv(l, q, n, UpdateRequest(l, q, n));
  }

  /** So whatever has been built can take part in a merge. */
  lemma BuiltMergeable(l: Limits, how: Recipe, rq: Rq)
    requires l.Valid() && Built(l, how, rq)
    ensures Mergeable(rq)
  {
    BuiltInv(l, how, rq);
    SegPositive(l, rq);
  }

  /** blk_rq_map_sg never needs more entries than nr_phys_segments. */
  lemma ScatterlistFits(l: Limits, how: Recipe, rq: Rq)
    requires l.Valid() && Built(l, how, rq)
    ensures |MapSg(l, AllVecs(rq.bios), |AllVecs(rq.bios)|)| <= rq.segs
  {
    BuiltInv(l, how, rq);
    SegmentsSuffice(l, rq);
  }
}
