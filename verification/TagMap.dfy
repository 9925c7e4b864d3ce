/** The tags of tagged command queueing: a bit map of tags in use and an index from tags to requests. */
module TagMap {
  import opened Lists

  type Rid = nat

  /** tag_map, tag_index, real_max_depth, max_depth, and the tag field of each tagged request. */
  datatype Tags = Tags(bits: seq<bool>, index: seq<Maybe>, realDepth: nat, max: nat, tag: map<Rid, nat>)

  const BITS_PER_LONG := 64

  /** The bit map comes in whole words. */
  function Bits(depth: nat): (n: nat)
    ensures depth <= n < depth + BITS_PER_LONG
  {
    (depth + BITS_PER_LONG - 1) / BITS_PER_LONG * BITS_PER_LONG
  }

  /** A tag is in use exactly when its index slot holds a request that carries it. */
  ghost predicate Inv(s: Tags) {
    && |s.index| == s.realDepth && |s.bits| == Bits(s.realDepth) && s.max <= s.realDepth
    && (forall t :: 0 <= t < |s.bits| && s.bits[t] ==> t < s.realDepth)
    && (forall t :: 0 <= t < s.realDepth ==> (s.bits[t] <==> s.index[t].Some?))
    && (forall t :: 0 <= t < s.realDepth && s.index[t].Some? ==> s.index[t].value in s.tag && s.tag[s.index[t].value] == t)
    && (forall r :: r in s.tag ==> s.tag[r] < s.realDepth && s.index[s.tag[r]] == Some(r))
  }

  /** Live tags are distinct. */
  lemma TagsDistinct(s: Tags, a: Rid, b: Rid)
    requires Inv(s) && a in s.tag && b in s.tag && s.tag[a] == s.tag[b]
    ensures a == b
  {
  }

  // ----- init_tag_map -----

  function Clamp(nrRequests: nat, depth: nat): nat { if depth > nrRequests * 2 then nrRequests * 2 else depth }

  function Fresh(depth: nat): Tags {
    Tags(seq(Bits(depth), i => false), seq(depth, i => None), depth, depth, map[])
  }

  lemma FreshInv(depth: nat)
    ensures Inv(Fresh(depth))
  {
  }

  // ----- starting and ending -----

  /** How many tags a request may choose from: asynchronous requests leave two to the others. */
  function Limit(max: nat, sync: bool): nat { if sync || max <= 1 then max else if max == 2 then 1 else max - 2 }

  /** The first tag not in use. */
  function FirstZero(bits: seq<bool>, n: nat, from: nat): (t: nat)
    requires from <= n <= |bits|
    ensures from <= t <= n && (t < n ==> !bits[t]) && forall i :: from <= i < t ==> bits[i]
    decreases n - from
  {
    if from == n || !bits[from] then from else FirstZero(bits, n, from + 1)
  }

  /** blk_queue_start_tag: `inFlight` counts the asynchronous requests at the driver. */
  function Start(s: Tags, r: Rid, sync: bool, inFlight: nat): (t: Tags)
    requires s.max <= s.realDepth <= |s.bits| && |s.index| == s.realDepth
  {
    var n := Limit(s.max, sync);
    if !sync && s.max > 1 && inFlight > n then s
    else
      var tag := FirstZero(s.bits, n, 0);
      if tag >= n then s
      else s.(bits := s.bits[tag := true], index := s.index[tag := Some(r)], tag := s.tag[r := tag])
  }

  /** blk_queue_end_tag */
  function End(s: Tags, r: Rid): Tags
    requires r in s.tag && s.realDepth <= |s.bits| && |s.index| == s.realDepth
  {
    var tag := s.tag[r];
    if tag >= s.realDepth then s
    else s.(bits := s.bits[tag := false], index := s.index[tag := None], tag := s.tag - {r})
  }

  ghost predicate Ready(s: Tags, sync: bool, inFlight: nat) { sync || s.max <= 1 || inFlight <= Limit(s.max, sync) }

  /** A request gets a tag exactly when one below its limit is free, and then the lowest of them. */
  lemma StartGives(s: Tags, r: Rid, sync: bool, inFlight: nat)
    requires Inv(s) && r !in s.tag
    ensures var t := Start(s, r, sync, inFlight);
            && Inv(t)
            && (r in t.tag <==> Ready(s, sync, inFlight) && exists i :: 0 <= i < Limit(s.max, sync) && !s.bits[i])
            && (r !in t.tag ==> t == s)
            && (r in t.tag ==> t.tag[r] < Limit(s.max, sync) && !s.bits[t.tag[r]] && t.tag == s.tag[r := t.tag[r]]
                               && forall i :: 0 <= i < t.tag[r] ==> s.bits[i])
  {
    var n := Limit(s.max, sync);
    var tag := FirstZero(s.bits, n, 0);
    assert (exists i :: 0 <= i < n && !s.bits[i]) <==> tag < n;
    hide FirstZero;
    if Ready(s, sync, inFlight) && tag < n { TakeInv(s, r, tag); }
  }

  lemma TakeInv(s: Tags, r: Rid, tag: nat)
    requires Inv(s) && r !in s.tag && tag < s.realDepth && !s.bits[tag]
    ensures Inv(s.(bits := s.bits[tag := true], index := s.index[tag := Some(r)], tag := s.tag[r := tag]))
  {
    hide Bits;
  }

  /** Ending frees the request's own tag: the early return for an impossible tag is never taken. */
  lemma EndFrees(s: Tags, r: Rid)
    requires Inv(s) && r in s.tag
    ensures s.tag[r] < s.realDepth && s.bits[s.tag[r]] && s.index[s.tag[r]] == Some(r)
    ensures Inv(End(s, r)) && End(s, r).tag == s.tag - {r} && !End(s, r).bits[s.tag[r]]
  {
    hide Bits;
  }

  /** Ending a request that was just started restores the map. */
  lemma EndUndoesStart(s: Tags, r: Rid, sync: bool, inFlight: nat)
    requires Inv(s) && r !in s.tag && r in Start(s, r, sync, inFlight).tag
    ensures End(Start(s, r, sync, inFlight), r) == s
  {
    var t := Start(s, r, sync, inFlight);
    var tag := t.tag[r];
    assert tag == FirstZero(s.bits, Limit(s.max, sync), 0) && !s.bits[tag] && s.index[tag] == None;
    hide FirstZero;
    assert t.bits[tag := false] == s.bits;
    assert t.index[tag := None] == s.index;
    assert t.tag - {r} == s.tag;
  }

  // ----- resizing -----

  /** The first `n` entries of `was`, filled up with `x`. */
  function Copied<T>(was: seq<T>, n: nat, x: T): (r: seq<T>)
    ensures |r| == n && forall i :: 0 <= i < n ==> r[i] == if i < |was| then was[i] else x
  {
    if |was| <= n then was + seq(n - |was|, i => x) else was[..n]
  }

  /** The depth a map grows to may be below the one it has, because init_tag_map clamps it; the copy of
      the old index then runs past the new one. */
  predicate Spills(s: Tags, nrRequests: nat, depth: nat) { s.realDepth < depth && Clamp(nrRequests, depth) < s.realDepth }

  /** blk_queue_resize_tags of a map that is not shared; of a copy that spills, what stays within the
      new arrays. */
  function Resize(s: Tags, nrRequests: nat, depth: nat): Tags {
    if depth <= s.realDepth then s.(max := depth)
    else
      var d := Clamp(nrRequests, depth);
      Tags(Copied(s.bits, Bits(d), false), Copied(s.index, d, None), d, d, s.tag)
  }

  /** Every tag in use has a place in the resized map. */
  ghost predicate LiveFit(s: Tags, nrRequests: nat, depth: nat) {
    depth <= s.realDepth || forall r :: r in s.tag ==> s.tag[r] < Clamp(nrRequests, depth)
  }

  lemma ResizedInv(s: Tags, nrRequests: nat, depth: nat, t: Tags)
    requires Inv(s) && LiveFit(s, nrRequests, depth) && s.realDepth < depth && t == Resize(s, nrRequests, depth)
    ensures Inv(t)
  {
    hide Bits, Copied;
    var d := Clamp(nrRequests, depth);
    forall i | 0 <= i < |t.bits| && t.bits[i] ensures i < d && t.index[i] == s.index[i] && s.index[i].Some? {
      assert i < |s.bits| && s.bits[i];
      assert s.index[i].Some? && s.tag[s.index[i].value] == i;
    }
    forall i | 0 <= i < d ensures t.bits[i] <==> t.index[i].Some? {
      assert t.index[i] == if i < s.realDepth then s.index[i] else None;
    }
  }

  /** Resizing keeps every tag in use exactly if each has a place in the resized map. */
  lemma ResizeKeepsIff(s: Tags, nrRequests: nat, depth: nat)
    requires Inv(s)
    ensures Resize(s, nrRequests, depth).tag == s.tag
    ensures Inv(Resize(s, nrRequests, depth)) <==> LiveFit(s, nrRequests, depth)
    ensures !Spills(s, nrRequests, depth) ==> LiveFit(s, nrRequests, depth)
    ensures Spills(s, nrRequests, depth) <==> 2 * nrRequests < s.realDepth < depth
  {
    if LiveFit(s, nrRequests, depth) && s.realDepth < depth {
      ResizedInv(s, nrRequests, depth, Resize(s, nrRequests, depth));
    }
  }

  /** A tag without a place stays with its request: ending the request takes the early return. */
  lemma LostTagStays(s: Tags, nrRequests: nat, depth: nat, r: Rid)
    requires Inv(s) && s.realDepth < depth && r in s.tag && Clamp(nrRequests, depth) <= s.tag[r]
    ensures var t := Resize(s, nrRequests, depth); !Inv(t) && End(t, r) == t && r in t.tag
  {
    ResizeKeepsIff(s, nrRequests, depth);
  }

  /** A map of depth 256 with request 7 holding tag 100, resized to 300 on a queue of four requests. */
  lemma ShrunkByGrowing()
    ensures var s := Fresh(256).(bits := Fresh(256).bits[100 := true], index := Fresh(256).index[100 := Some(7)], tag := map[7 := 100]);
            && Inv(s) && Spills(s, 4, 300) && Resize(s, 4, 300).realDepth == 8
            && !Inv(Resize(s, 4, 300)) && End(Resize(s, 4, 300), 7) == Resize(s, 4, 300)
  {
    FreshInv(256);
    TakeInv(Fresh(256), 7, 100);
    var s := Fresh(256).(bits := Fresh(256).bits[100 := true], index := Fresh(256).index[100 := Some(7)], tag := map[7 := 100]);
    assert Fresh(256).tag[7 := 100] == map[7 := 100];
    LostTagStays(s, 4, 300, 7);
  }

  // ----- runs -----

  datatype Step = StartStep(r: Rid, sync: bool, inFlight: nat) | EndStep(r: Rid) | ResizeStep(nrRequests: nat, depth: nat)

  ghost predicate Can(s: Tags, a: Step) {
    match a
    case StartStep(r, _, _) => r !in s.tag
    case EndStep(r) => r in s.tag
    case ResizeStep(_, _) => true
  }

  ghost function Do(s: Tags, a: Step): Tags
    requires Inv(s) && Can(s, a)
  {
    match a
    case StartStep(r, sync, inFlight) => Start(s, r, sync, inFlight)
    case EndStep(r) => End(s, r)
    case ResizeStep(nrRequests, depth) => Resize(s, nrRequests, depth)
  }

  /** The steps are possible and the map is sound after each of them. */
  ghost predicate Sound(s: Tags, steps: seq<Step>)
    decreases |steps|
  {
    Inv(s) && (steps == [] || (Can(s, steps[0]) && Sound(Do(s, steps[0]), steps[1..])))
  }

  /** The steps are possible, and every resize has a place for the tags then in use. */
  ghost predicate Roomy(s: Tags, steps: seq<Step>)
    requires Inv(s)
    decreases |steps|
  {
    steps == [] ||
    (&& Can(s, steps[0])
     && (steps[0].ResizeStep? ==> LiveFit(s, steps[0].nrRequests, steps[0].depth))
     && (Inv(Do(s, steps[0])) ==> Roomy(Do(s, steps[0]), steps[1..])))
  }

  lemma StepSound(s: Tags, a: Step)
    requires Inv(s) && Can(s, a)
    ensures Inv(Do(s, a)) <==> (a.ResizeStep? ==> LiveFit(s, a.nrRequests, a.depth))
  {
    hide Inv, LiveFit;
    match a
    case StartStep(r, sync, inFlight) => StartGives(s, r, sync, inFlight);
    case EndStep(r) => EndFrees(s, r);
    case ResizeStep(nrRequests, depth) => ResizeKeepsIff(s, nrRequests, depth);
  }

  /** Over any run of starting, ending and resizing the map stays sound exactly if every resize has a
      place for the tags in use. */
  lemma {:induction false} RunSoundIff(s: Tags, steps: seq<Step>)
    requires Inv(s)
    ensures Sound(s, steps) <==> Roomy(s, steps)
    decreases |steps|
  {
    hide Inv, LiveFit, Do, Can;
    if steps != [] && Can(s, steps[0]) {
      StepSound(s, steps[0]);
      if Inv(Do(s, steps[0])) { RunSoundIff(Do(s, steps[0]), steps[1..]); }
    }
  }

  ghost predicate Possible(s: Tags, steps: seq<Step>, nrRequests: nat)
    decreases |steps|
  {
    steps == [] ||
    (&& Inv(s) && Can(s, steps[0]) && (steps[0].ResizeStep? ==> steps[0].nrRequests == nrRequests)
     && Possible(Do(s, steps[0]), steps[1..], nrRequests))
  }

  /** As long as the queue's request limit does not change, no resize loses a tag. */
  lemma {:induction false} FixedLimitSound(s: Tags, steps: seq<Step>, nrRequests: nat)
    requires Inv(s) && s.realDepth <= 2 * nrRequests && Possible(s, steps, nrRequests)
    ensures Sound(s, steps)
    decreases |steps|
  {
    hide Inv, Can, Start, End;
    if steps != [] {
      var a := steps[0];
      if a.ResizeStep? { ResizeKeepsIff(s, a.nrRequests, a.depth); }
      StepSound(s, a);
      DepthKept(s, a);
      FixedLimitSound(Do(s, a), steps[1..], nrRequests);
    }
  }

  lemma DepthKept(s: Tags, a: Step)
    requires Inv(s) && Can(s, a)
    ensures !a.ResizeStep? ==> Do(s, a).realDepth == s.realDepth
    ensures a.ResizeStep? && s.realDepth <= 2 * a.nrRequests ==> Do(s, a).realDepth <= 2 * a.nrRequests
  {
    hide FirstZero;
  }

  // ----- the tag map of a queue -----

  class QueueTags {
    var bits: array<bool>
    var index: array<Maybe>
    var realDepth: nat
    var max: nat
    var tag: map<Rid, nat>

    ghost function State(): Tags
      reads this, bits, index
    {
      Tags(bits[..], index[..], realDepth, max, tag)
    }

    ghost predicate Valid()
      reads this, bits, index
    {
      Inv(State())
    }

    /** blk_queue_init_tags */
    constructor (nrRequests: nat, depth: nat)
      ensures Valid() && State() == Fresh(Clamp(nrRequests, depth)) && fresh(bits) && fresh(index)
    {
      var d := Clamp(nrRequests, depth);
      FreshInv(d);
      hide Inv;
      bits := new bool[Bits(d)](i => false);
      index := new Maybe[d](i => None);
      realDepth, max, tag := d, d, map[];
      new;
      assert bits[..] == Fresh(d).bits && index[..] == Fresh(d).index;
    }

    /** find_first_zero_bit */
    method FindFirstZero(n: nat) returns (t: nat)
      requires n <= bits.Length
      ensures t == FirstZero(bits[..], n, 0)
    {
      hide FirstZero;
      t := 0;
      ghost var b := bits[..];
      while t < n && bits[t]
        invariant t <= n && FirstZero(b, n, t) == FirstZero(b, n, 0)
      {
        ZeroStep(b, n, t);
        t := t + 1;
      }
      ZeroStep(b, n, t);
    }

    /** blk_queue_start_tag: whether the request got a tag. */
    method StartTag(r: Rid, sync: bool, inFlight: nat) returns (ok: bool)
      requires Valid() && r !in tag
      modifies this`tag, bits, index
      ensures State() == Start(old(State()), r, sync, inFlight) && Valid() && ok == (r in tag)
    {
      hide Inv, FirstZero, Bits;
      ghost var s := State();
      Shape(s);
      StartGives(s, r, sync, inFlight);
      var depth := max;
      if !sync && depth > 1 {
        depth := depth - 2;
        if depth == 0 { depth := 1; }
        if inFlight > depth { return false; }
      }
      assert depth == Limit(max, sync);
      var t := FindFirstZero(depth);
      if t >= depth { return false; }
      bits[t] := true;
      tag := tag[r := t];
      index[t] := Some(r);
      assert bits[..] == s.bits[t := true] && index[..] == s.index[t := Some(r)];
      ok := true;
    }

    /** blk_queue_end_tag; its BUG_ON is the precondition. */
    method EndTag(r: Rid)
      requires Valid() && r in tag
      modifies this`tag, bits, index
      ensures State() == End(old(State()), r) && Valid()
    {
      ghost var s := State();
      EndFrees(s, r);
      hide Inv;
      var t := tag[r];
      tag := tag - {r};
      index[t] := None;
      bits[t] := false;
      assert bits[..] == s.bits[t := false] && index[..] == s.index[t := None];
    }

    /** blk_queue_resize_tags; `spilled` when the copy ran past the new arrays. */
    method ResizeTags(nrRequests: nat, depth: nat) returns (spilled: bool)
      requires Valid()
      modifies this`bits, this`index, this`realDepth, this`max
      ensures State() == Resize(old(State()), nrRequests, depth) && tag == old(tag)
      ensures spilled == Spills(old(State()), nrRequests, depth) && (!spilled ==> Valid())
    {
      hide Inv, Bits, Copied;
      ghost var s := State();
      ResizeKeepsIff(s, nrRequests, depth);
      if depth <= realDepth {
        max := depth;
        return false;
      }
      var d := Clamp(nrRequests, depth);
      spilled := d < realDepth;
      var oldBits, oldIndex := bits, index;
      var newIndex := new Maybe[d](i => None);
      var newBits := new bool[Bits(d)](i => false);
      forall i | 0 <= i < d && i < oldIndex.Length { newIndex[i] := oldIndex[i]; }
      forall i | 0 <= i < newBits.Length && i < oldBits.Length { newBits[i] := oldBits[i]; }
      assert newBits[..] == Copied(s.bits, Bits(d), false) by { CopiedIs(s.bits, Bits(d), false, newBits[..]); }
      assert newIndex[..] == Copied(s.index, d, None) by { CopiedIs(s.index, d, None, newIndex[..]); }
      bits, index, realDepth, max := newBits, newIndex, d, d;
    }
  }

  lemma Shape(s: Tags)
    requires Inv(s)
    ensures s.max <= s.realDepth <= |s.bits| && |s.index| == s.realDepth
  {
  }

  lemma CopiedIs<T>(was: seq<T>, n: nat, x: T, r: seq<T>)
    requires |r| == n && forall i :: 0 <= i < n ==> r[i] == if i < |was| then was[i] else x
    ensures r == Copied(was, n, x)
  {
  }

  lemma ZeroStep(bits: seq<bool>, n: nat, t: nat)
    requires t <= n <= |bits|
    ensures FirstZero(bits, n, t) == if t == n || !bits[t] then t else FirstZero(bits, n, t + 1)
  {
  }
}
