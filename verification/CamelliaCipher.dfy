/** The straight-line code of camellia.c, in place on its subkey and block arrays. */
module CamelliaCipher {
  import opened Camellia
  import opened CamelliaRounds

  // ----- camellia_setup_tail, first half: kw2 and kw4 are absorbed -----

  /** What kw2 has changed once it has passed the first `k` groups. */
  ghost function DownAt(s: seq<Word>, k: nat, p: nat): Word
    requires p < |s| && 8 * k <= |s|
  {
    if p < 8 * k && p % 8 >= 2 && p % 2 == 1 then Xor(s[p], Down(s, p / 8)) else s[p]
  }

  ghost predicate DownDone(s: seq<Word>, now: seq<Word>, k: nat) {
    && 8 * k + 2 <= |s| == |now|
    && forall p :: 0 <= p < |s| && p != 1 ==> now[p] == DownAt(s, k, p)
  }

  /** kw2 at rounds 2, 4 and 6 of a group. */
  method AddDown(sub: array<Word>, i: nat)
    requires i + 8 <= sub.Length
    modifies sub
    ensures forall p :: 0 <= p < sub.Length ==>
      sub[p] == if p == i+3 || p == i+5 || p == i+7 then Xor(old(sub[p]), old(sub[1])) else old(sub[p])
  {
    hide Xor;
    sub[i+3] := Xor(sub[i+3], sub[1]);
    sub[i+5] := Xor(sub[i+5], sub[1]);
    sub[i+7] := Xor(sub[i+7], sub[1]);
  }

  lemma DownStep(s: seq<Word>, was: seq<Word>, now: seq<Word>, j: nat)
    requires DownDone(s, was, j) && 8 * j + 8 < |s| - 1 && |now| == |s| && was[1] == Down(s, j)
    requires forall p :: 0 <= p < |s| ==>
      now[p] == if p == 8*j+3 || p == 8*j+5 || p == 8*j+7 then Xor(was[p], was[1]) else was[p]
    ensures DownDone(s, now, j + 1) && now[1] == Down(s, j)
  {
    hide Xor, Down;
    forall p | 0 <= p < |s| && p != 1 ensures now[p] == DownAt(s, j + 1, p) {
      if 8 * j <= p < 8 * j + 8 { Slot(j, p - 8 * j); }
    }
  }

  /** Group j takes kw2 as it arrives there. */
  method AbsorbDown(sub: array<Word>, j: nat, ghost s: seq<Word>)
    requires DownDone(s, sub[..], j) && 8 * j + 8 < |s| - 1 && sub[1] == Down(s, j)
    modifies sub
    ensures DownDone(s, sub[..], j + 1) && sub[1] == Down(s, j)
  {
    ghost var was := sub[..];
    assert |was| == |s| == sub.Length;
    hide *;
    AddDown(sub, 8 * j);
    DownStep(s, was, sub[..], j);
  }

  /** kw2 is carried through the FLInv key before group j. */
  method CarryDown(sub: array<Word>, j: nat, ghost s: seq<Word>)
    requires 0 < j && DownDone(s, sub[..], j) && sub[1] == Down(s, j - 1)
    modifies sub
    ensures DownDone(s, sub[..], j) && sub[1] == Down(s, j)
  {
    assert sub[..][8*j+1] == DownAt(s, j, 8*j+1) == s[8*j+1];
    hide Carry, Xor;
    ghost var was := sub[..];
    sub[1] := Carry(sub[1], sub[8*j+1]);
    assert forall p :: 0 <= p < |s| && p != 1 ==> sub[..][p] == was[p];
  }

  /** The subkeys once kw2 has reached kw3 and kw4 has been carried up into group k. */
  ghost function UpAt(s: seq<Word>, n: nat, k: nat, p: nat): Word
    requires Sized(s, n) && p < |s|
  {
    if p == 8 * n then Xor(s[p], Down(s, n-1))
    else if 8 * k <= p < 8 * n && p % 8 >= 2 && p % 2 == 0 then Xor(s[p], Up(s, n, p / 8))
    else DownAt(s, n, p)
  }

  ghost predicate UpDone(s: seq<Word>, now: seq<Word>, n: nat, k: nat) {
    && Sized(s, n) && |now| == |s|
    && forall p :: 0 <= p < |s| && p != 1 ==> now[p] == UpAt(s, n, k, p)
  }

  /** kw2 ends in kw3. */
  method Whiten(sub: array<Word>, n: nat, ghost s: seq<Word>)
    requires Sized(s, n) && DownDone(s, sub[..], n) && sub[1] == Down(s, n-1)
    modifies sub
    ensures UpDone(s, sub[..], n, n) && sub[8*n+1] == Up(s, n, n-1)
  {
    hide Xor, Down;
    ghost var was := sub[..];
    assert was[8*n] == s[8*n] && was[8*n+1] == s[8*n+1];
    sub[8*n] := Xor(sub[8*n], sub[1]);
    assert forall p :: 0 <= p < |s| && p != 1 && p != 8*n ==> sub[..][p] == was[p];
  }

  /** kw4 at rounds 5, 3 and 1 of a group. */
  method AddUp(sub: array<Word>, i: nat, kw4: Word)
    requires i + 8 <= sub.Length
    modifies sub
    ensures forall p :: 0 <= p < sub.Length ==>
      sub[p] == if p == i+2 || p == i+4 || p == i+6 then Xor(old(sub[p]), kw4) else old(sub[p])
  {
    hide Xor;
    sub[i+6] := Xor(sub[i+6], kw4);
    sub[i+4] := Xor(sub[i+4], kw4);
    sub[i+2] := Xor(sub[i+2], kw4);
  }

  lemma UpNext(s: seq<Word>, n: nat, j: nat, p: nat)
    requires Sized(s, n) && j < n && p < |s|
    ensures UpAt(s, n, j, p)
         == if p == 8*j+2 || p == 8*j+4 || p == 8*j+6 then Xor(UpAt(s, n, j + 1, p), Up(s, n, j)) else UpAt(s, n, j + 1, p)
  {
    hide Xor, Down, Up;
    if 8 * j <= p < 8 * j + 8 { Slot(j, p - 8 * j); }
  }

  lemma UpStep(s: seq<Word>, was: seq<Word>, now: seq<Word>, n: nat, j: nat, kw4: Word)
    requires UpDone(s, was, n, j + 1) && j < n && |now| == |s| && kw4 == Up(s, n, j)
    requires forall p :: 0 <= p < |s| ==>
      now[p] == if p == 8*j+2 || p == 8*j+4 || p == 8*j+6 then Xor(was[p], kw4) else was[p]
    ensures UpDone(s, now, n, j)
  {
    hide UpAt, Xor, Up;
    forall p | 0 <= p < |s| && p != 1 ensures now[p] == UpAt(s, n, j, p) { UpNext(s, n, j, p); }
  }

  /** Group j takes kw4 as it is carried up to it. */
  method AbsorbUp(sub: array<Word>, n: nat, j: nat, kw4: Word, ghost s: seq<Word>)
    requires UpDone(s, sub[..], n, j + 1) && j < n && kw4 == Up(s, n, j)
    modifies sub
    ensures UpDone(s, sub[..], n, j)
  {
    ghost var was := sub[..];
    assert |was| == |s| == sub.Length && 8 * j + 8 <= |s|;
    hide *;
    AddUp(sub, 8 * j, kw4);
    UpStep(s, was, sub[..], n, j, kw4);
  }

  /** kw4 is carried backwards through the FL key of group j + 1. */
  method CarryUp(sub: array<Word>, n: nat, j: nat, kw4: Word, ghost s: seq<Word>) returns (up: Word)
    requires j + 1 < n && UpDone(s, sub[..], n, j + 1) && kw4 == Up(s, n, j + 1)
    ensures up == Up(s, n, j)
  {
    Slot(j + 1, 0);
    assert sub[..][8*j+8] == UpAt(s, n, j + 1, 8*j+8) == s[8*j+8];
    hide Carry, Xor;
    up := Carry(kw4, sub[8*j+8]);
  }

  lemma AllAbsorbed(s: seq<Word>, was: seq<Word>, now: seq<Word>, n: nat)
    requires UpDone(s, was, n, 0) && |now| == |s| && now[0] == Xor(was[0], Up(s, n, 0))
    requires forall p :: 0 < p < |s| ==> now[p] == was[p]
    ensures Agree(now, Absorbed(s, n), n)
  {
    hide Xor, Down, Up;
    forall p | 0 <= p < |s| && p != 1 && p != 8*n+1 ensures now[p] == Absorbed(s, n)[p] {
      assert Absorbed(s, n)[p] == AbsorbedAt(s, n, p);
      assert was[p] == UpAt(s, n, 0, p);
    }
  }

  /** The three lower groups, and kw1. */
  method AbsorbUpRest(sub: array<Word>, n: nat, kw4: Word, ghost s: seq<Word>)
    requires 3 <= n && UpDone(s, sub[..], n, 3) && kw4 == Up(s, n, 2)
    modifies sub
    ensures Agree(sub[..], Absorbed(s, n), n)
  {
    hide Up, UpAt, Xor, Absorbed;
    AbsorbUp(sub, n, 2, kw4, s);
    var up := CarryUp(sub, n, 1, kw4, s);
    AbsorbUp(sub, n, 1, up, s);
    up := CarryUp(sub, n, 0, up, s);
    AbsorbUp(sub, n, 0, up, s);
    ghost var was := sub[..];
    sub[0] := Xor(sub[0], up);
    AllAbsorbed(s, was, sub[..], n);
  }

  /** kw2 through the first three groups. */
  method AbsorbDownFirst(sub: array<Word>, ghost s: seq<Word>)
    requires 26 <= sub.Length && s == sub[..]
    modifies sub
    ensures DownDone(s, sub[..], 3) && sub[1] == Down(s, 2)
  {
    assert DownDone(s, sub[..], 0) && Down(s, 0) == sub[1];
    hide Down, DownDone;
    AbsorbDown(sub, 0, s);
    CarryDown(sub, 1, s);
    AbsorbDown(sub, 1, s);
    CarryDown(sub, 2, s);
    AbsorbDown(sub, 2, s);
  }

  /** The fourth group of a long key. */
  method AbsorbFourth(sub: array<Word>, ghost s: seq<Word>) returns (kw4: Word)
    requires Sized(s, 4) && sub.Length == 34 && DownDone(s, sub[..], 3) && sub[1] == Down(s, 2)
    modifies sub
    ensures UpDone(s, sub[..], 4, 3) && kw4 == Up(s, 4, 2)
  {
    hide Down, DownDone, UpDone, Up;
    CarryDown(sub, 3, s);
    AbsorbDown(sub, 3, s);
    Whiten(sub, 4, s);
    kw4 := sub[33];
    AbsorbUp(sub, 4, 3, kw4, s);
    kw4 := CarryUp(sub, 4, 2, kw4, s);
  }

  /** The part of camellia_setup_tail that absorbs kw2 and kw4; `max` is 24 or 32. */
  method AbsorbWhitening(sub: array<Word>, max: nat)
    requires (max == 24 || max == 32) && sub.Length == max + 2
    modifies sub
    ensures Agree(sub[..], Absorbed(old(sub[..]), max / 8), max / 8)
  {
    ghost var s := sub[..];
    hide Down, DownDone, UpDone, Up, Absorbed, Agree;
    AbsorbDownFirst(sub, s);
    var kw4: Word;
    if max == 24 {
      Whiten(sub, 3, s);
      kw4 := sub[25];
    } else {
      kw4 := AbsorbFourth(sub, s);
    }
    AbsorbUpRest(sub, max / 8, kw4, s);
  }

  // ----- camellia_setup_tail, second half: round keys are moved behind F -----

  /** The entries of the key table below q are final but for the P function. */
  ghost predicate Placed(t: seq<Word>, now: seq<Word>, n: nat, q: nat) {
    && Sized(t, n) && q <= |t| <= |now|
    && forall p :: 0 <= p < q && p != 1 && p != 8*n+1 ==> now[p] == MovedAt(t, n, p)
  }

  method Put(subkey: array<Word>, p: nat, w: Word, n: nat, ghost t: seq<Word>)
    requires Placed(t, subkey[..], n, p) && p < |t| && w == MovedAt(t, n, p)
    modifies subkey
    ensures Placed(t, subkey[..], n, p + 1)
  {
    hide MovedAt;
    ghost var was := subkey[..];
    subkey[p] := w;
    assert forall q :: 0 <= q < p ==> subkey[..][q] == was[q];
  }

  /** Rounds 2 to 5 of a group. */
  method PlaceInner(sub: array<Word>, subkey: array<Word>, n: nat, j: nat, ghost t: seq<Word>)
    requires sub != subkey && Agree(sub[..], t, n) && Placed(t, subkey[..], n, 8*j+3) && j < n
    modifies subkey
    ensures Placed(t, subkey[..], n, 8*j+7)
  {
    var i := 8 * j;
    assert sub.Length == |t| == 8*n+2;
    SubAgrees(sub, t, n, j);
    hide Xor, MovedAt, Placed, Agree;
    MovedInner(t, n, j, 3);
    Put(subkey, i + 3, Xor(sub[i+2], sub[i+4]), n, t);
    MovedInner(t, n, j, 4);
    Put(subkey, i + 4, Xor(sub[i+3], sub[i+5]), n, t);
    MovedInner(t, n, j, 5);
    Put(subkey, i + 5, Xor(sub[i+4], sub[i+6]), n, t);
    MovedInner(t, n, j, 6);
    Put(subkey, i + 6, Xor(sub[i+5], sub[i+7]), n, t);
  }

  lemma SubAgrees(sub: array<Word>, t: seq<Word>, n: nat, j: nat)
    requires Agree(sub[..], t, n) && Sized(t, n) && j < n
    ensures sub.Length == |t| && forall p :: 8*j <= p < 8*j+8 && p != 1 ==> sub[p] == t[p]
  {
    forall p | 8*j <= p < 8*j+8 && p != 1 ensures sub[p] == t[p] { assert sub[..][p] == t[p]; }
  }

  lemma MovedInner(t: seq<Word>, n: nat, j: nat, c: nat)
    requires Sized(t, n) && j < n && 3 <= c < 7
    ensures MovedAt(t, n, 8*j+c) == Xor(t[8*j+c-1], t[8*j+c+1])
  {
    Slot(j, c);
  }

  lemma MovedBetween(t: seq<Word>, n: nat, j: nat)
    requires Sized(t, n) && 0 < j < n
    ensures MovedAt(t, n, 8*j-1) == Xor(t[8*j-2], Carry(t[8*j+2], t[8*j]))
    ensures MovedAt(t, n, 8*j) == t[8*j] && MovedAt(t, n, 8*j+1) == t[8*j+1]
    ensures MovedAt(t, n, 8*j+2) == Xor(Carry(t[8*j-1], t[8*j+1]), t[8*j+3])
  {
    hide Xor, Carry;
    Slot(j-1, 7);
    Slot(j, 0);
    Slot(j, 1);
    Slot(j, 2);
  }

  /** Round 6 of a group, the two FL keys and round 1 of the next group, j. */
  method PlaceBetween(sub: array<Word>, subkey: array<Word>, n: nat, j: nat, ghost t: seq<Word>)
    requires sub != subkey && Agree(sub[..], t, n) && 0 < j < n && Placed(t, subkey[..], n, 8*j-1)
    modifies subkey
    ensures Placed(t, subkey[..], n, 8*j+3)
  {
    var i := 8 * j;
    assert sub.Length == |t| == 8*n+2;
    SubAgrees(sub, t, n, j - 1);
    SubAgrees(sub, t, n, j);
    MovedBetween(t, n, j);
    hide MovedAt, Xor, Carry, Placed, Agree;
    var tw := Carry(sub[i+2], sub[i]);
    Put(subkey, i - 1, Xor(sub[i-2], tw), n, t);
    Put(subkey, i, sub[i], n, t);
    Put(subkey, i + 1, sub[i+1], n, t);
    tw := Carry(sub[i-1], sub[i+1]);
    Put(subkey, i + 2, Xor(tw, sub[i+3]), n, t);
  }

  /** kw1 and round 1. */
  method PlaceFirst(sub: array<Word>, subkey: array<Word>, n: nat, ghost t: seq<Word>)
    requires sub != subkey && Sized(t, n) && Agree(sub[..], t, n) && |t| <= subkey.Length
    modifies subkey
    ensures Placed(t, subkey[..], n, 3)
  {
    assert sub[..][0] == t[0] && sub[..][2] == t[2] && sub[..][3] == t[3];
    hide Xor;
    subkey[0] := Xor(sub[0], sub[2]);
    subkey[2] := sub[3];
  }

  /** The last round and kw3. */
  method PlaceLast(sub: array<Word>, subkey: array<Word>, n: nat, ghost t: seq<Word>)
    requires sub != subkey && n >= 1 && Agree(sub[..], t, n) && Placed(t, subkey[..], n, 8*n-1)
    modifies subkey
    ensures Placed(t, subkey[..], n, 8*n+2)
  {
    ghost var was := subkey[..];
    forall p | 8*n - 2 <= p <= 8*n ensures sub[p] == t[p] { assert sub[..][p] == t[p]; }
    Slot(n-1, 7);
    assert MovedAt(t, n, 8*n-1) == t[8*n-2] && MovedAt(t, n, 8*n) == Xor(t[8*n], t[8*n-1]);
    hide Xor, MovedAt;
    subkey[8*n-1] := sub[8*n-2];
    subkey[8*n] := Xor(sub[8*n], sub[8*n-1]);
    assert forall p :: 0 <= p < 8*n-1 ==> subkey[..][p] == was[p];
  }

  method PlaceKeys(sub: array<Word>, subkey: array<Word>, max: nat, ghost t: seq<Word>)
    requires (max == 24 || max == 32) && sub != subkey && Sized(t, max / 8) && Agree(sub[..], t, max / 8) && |t| <= subkey.Length
    modifies subkey
    ensures Placed(t, subkey[..], max / 8, max + 2)
  {
    hide MovedAt;
    var n := max / 8;
    PlaceFirst(sub, subkey, n, t);
    PlaceInner(sub, subkey, n, 0, t);
    PlaceBetween(sub, subkey, n, 1, t);
    PlaceInner(sub, subkey, n, 1, t);
    PlaceBetween(sub, subkey, n, 2, t);
    PlaceInner(sub, subkey, n, 2, t);
    if max == 32 {
      PlaceBetween(sub, subkey, n, 3, t);
      PlaceInner(sub, subkey, n, 3, t);
    }
    PlaceLast(sub, subkey, n, t);
  }

  method UnspreadThree(subkey: array<Word>, i: nat)
    requires i + 3 <= subkey.Length
    modifies subkey
    ensures forall p :: 0 <= p < subkey.Length ==>
      subkey[p] == if i <= p < i + 3 then Unspread(old(subkey[p])) else old(subkey[p])
  {
    hide Unspread;
    subkey[i] := Unspread(subkey[i]);
    subkey[i+1] := Unspread(subkey[i+1]);
    subkey[i+2] := Unspread(subkey[i+2]);
  }

  /** The six round keys of one group. */
  method UnspreadGroup(subkey: array<Word>, i: nat)
    requires i + 8 <= subkey.Length
    modifies subkey
    ensures forall p :: 0 <= p < subkey.Length ==>
      subkey[p] == if i + 2 <= p < i + 8 then Unspread(old(subkey[p])) else old(subkey[p])
  {
    hide Unspread;
    UnspreadThree(subkey, i + 2);
    UnspreadThree(subkey, i + 5);
  }

  /** The entries below 8k have had the inverse of the last half of P applied. */
  ghost predicate Finished(t: seq<Word>, now: seq<Word>, n: nat, k: nat) {
    && Sized(t, n) && |t| <= |now|
    && forall p :: 0 <= p < |t| && p != 1 && p != 8*n+1 ==>
         now[p] == if p < 8*k then FinalAt(t, n, p) else MovedAt(t, n, p)
  }

  lemma FinishStep(t: seq<Word>, was: seq<Word>, now: seq<Word>, n: nat, k: nat)
    requires Finished(t, was, n, k) && k < n && |now| == |was|
    requires forall p :: 0 <= p < |now| ==> now[p] == if 8*k + 2 <= p < 8*k + 8 then Unspread(was[p]) else was[p]
    ensures Finished(t, now, n, k + 1)
  {
    hide Unspread, MovedAt;
    forall p | 0 <= p < |t| && p != 1 && p != 8*n+1
      ensures now[p] == if p < 8*(k+1) then FinalAt(t, n, p) else MovedAt(t, n, p)
    {
      if 8 * k <= p < 8 * k + 8 { Slot(k, p - 8 * k); }
    }
  }

  /** The closing loop of camellia_setup_tail. */
  method UnspreadKeys(subkey: array<Word>, max: nat, ghost t: seq<Word>)
    requires max >= 8 && max % 8 == 0 && Placed(t, subkey[..], max / 8, max + 2)
    modifies subkey
    ensures Finished(t, subkey[..], max / 8, max / 8)
  {
    hide MovedAt, FinalAt;
    ghost var n := max / 8;
    var i := 2;
    assert Finished(t, subkey[..], n, 0);
    while i < max
      invariant 2 <= i <= max + 2 && (i - 2) % 8 == 0 && Finished(t, subkey[..], n, (i - 2) / 8)
    {
      ghost var was := subkey[..];
      UnspreadGroup(subkey, i - 2);
      FinishStep(t, was, subkey[..], n, (i - 2) / 8);
      i := i + 8;
    }
  }

  lemma FinishedIsMoved(s: seq<Word>, now: seq<Word>, n: nat)
    requires Sized(s, n) && Finished(Absorbed(s, n), now, n, n)
    ensures Agree(now[..8*n+2], Moved(Absorbed(s, n), n), n)
  {
    hide MovedAt, Absorbed;
    var t := Absorbed(s, n);
    forall p | 0 <= p < |t| && p != 1 && p != 8*n+1 ensures now[p] == Moved(t, n)[p] {
      assert Moved(t, n)[p] == FinalAt(t, n, p);
    }
  }

  /** camellia_setup_tail */
  method SetupTail(subkey: array<Word>, sub: array<Word>, max: nat)
    requires (max == 24 || max == 32) && sub.Length == max + 2 <= subkey.Length && sub != subkey
    modifies subkey, sub
    ensures Agree(subkey[..max+2], Moved(Absorbed(old(sub[..]), max / 8), max / 8), max / 8)
  {
    hide Absorbed, Moved, MovedAt, FinalAt, Up, Down;
    ghost var s, n := sub[..], max / 8;
    AbsorbWhitening(sub, max);
    PlaceKeys(sub, subkey, max, Absorbed(s, n));
    UnspreadKeys(subkey, max, Absorbed(s, n));
    FinishedIsMoved(s, subkey[..], n);
  }

  // ----- the rounds, in place on the four words of a block -----

  function Half(io: seq<bv32>, i: nat): Word
    requires i + 1 < |io|
  {
    Word(io[i], io[i+1])
  }

  function Whole(io: seq<bv32>): Block
    requires |io| == 4
  {
    Block(Half(io, 0), Half(io, 2))
  }

  /** CAMELLIA_ROUNDSM from the words at x into those at y. */
  method RoundInto(t: Tables, io: array<bv32>, x: nat, y: nat, k: Word)
    requires io.Length == 4 && ((x == 0 && y == 2) || (x == 2 && y == 0))
    modifies io
    ensures Half(io[..], x) == old(Half(io[..], x))
    ensures Half(io[..], y) == RoundSm(t, old(Half(io[..], y)), old(Half(io[..], x)), k)
  {
    hide X, Ror8, Lookup;
    var w := Lookup(t, Word(io[x], io[x+1]));
    var il := X(w.r, k.l);
    var ir := X(w.l, X(il, k.r));
    io[y] := X(io[y], ir);
    io[y+1] := X(io[y+1], X(Ror8(il), ir));
  }

  method RoundsForward(t: Tables, u: seq<Word>, io: array<bv32>, i: nat)
    requires io.Length == 4 && i + 8 <= |u|
    modifies io
    ensures Whole(io[..]) == SixSm(t, u, i, old(Whole(io[..])))
  {
    hide RoundSm;
    RoundInto(t, io, 0, 2, u[i+2]);
    RoundInto(t, io, 2, 0, u[i+3]);
    RoundInto(t, io, 0, 2, u[i+4]);
    RoundInto(t, io, 2, 0, u[i+5]);
    RoundInto(t, io, 0, 2, u[i+6]);
    RoundInto(t, io, 2, 0, u[i+7]);
  }

  method RoundsBackward(t: Tables, u: seq<Word>, io: array<bv32>, i: nat)
    requires io.Length == 4 && i + 8 <= |u|
    modifies io
    ensures Whole(io[..]) == SixBack(t, u, i, old(Whole(io[..])))
  {
    hide RoundSm;
    RoundInto(t, io, 0, 2, u[i+7]);
    RoundInto(t, io, 2, 0, u[i+6]);
    RoundInto(t, io, 0, 2, u[i+5]);
    RoundInto(t, io, 2, 0, u[i+4]);
    RoundInto(t, io, 0, 2, u[i+3]);
    RoundInto(t, io, 2, 0, u[i+2]);
  }

  /** CAMELLIA_FLS: FL on the left half and FLInv on the right half. */
  method Fls(io: array<bv32>, kl: Word, kr: Word)
    requires io.Length == 4
    modifies io
    ensures Whole(io[..]) == Block(FL(old(Half(io[..], 0)), kl), FLInv(old(Half(io[..], 2)), kr))
  {
    hide X, And, Or, Rol1;
    var t0, t2 := And(io[0], kl.l), Or(io[3], kr.r);
    io[2] := X(io[2], t2);
    io[1] := X(io[1], Rol1(t0));
    var t3, t1 := And(io[2], kr.l), Or(io[1], kl.r);
    io[0] := X(io[0], t1);
    io[3] := X(io[3], Rol1(t3));
  }

  method WhitenBlock(io: array<bv32>, i: nat, k: Word)
    requires io.Length == 4 && (i == 0 || i == 2)
    modifies io
    ensures Half(io[..], i) == Xor(old(Half(io[..], i)), k)
    ensures forall p :: 0 <= p < 4 && p != i && p != i + 1 ==> io[p] == old(io[p])
  {
    hide X;
    io[i] := X(io[i], k.l);
    io[i+1] := X(io[i+1], k.r);
  }

  /** FLS and ROUNDS of group j. */
  method GroupForward(t: Tables, u: seq<Word>, io: array<bv32>, j: nat, ghost m: Block)
    requires io.Length == 4 && 1 <= j && 8 * j + 8 <= |u| && Whole(io[..]) == GroupsSm(t, u, j, m)
    modifies io
    ensures Whole(io[..]) == GroupsSm(t, u, j + 1, m)
  {
    hide SixSm, FL, FLInv;
    ghost var c := Whole(io[..]);
    Fls(io, u[8*j], u[8*j+1]);
    assert Whole(io[..]) == FLLayer(u, 8*j, c);
    RoundsForward(t, u, io, 8 * j);
  }

  /** Pre-whitening and the first group. */
  method FirstForward(t: Tables, u: seq<Word>, io: array<bv32>)
    requires io.Length == 4 && 10 <= |u|
    modifies io
    ensures var m := old(Whole(io[..])); Whole(io[..]) == GroupsSm(t, u, 1, Block(Xor(m.a, u[0]), m.b))
  {
    hide SixSm, Xor;
    WhitenBlock(io, 0, u[0]);
    RoundsForward(t, u, io, 0);
  }

  /** camellia_do_encrypt; the halves come out swapped. */
  method DoEncrypt(t: Tables, u: seq<Word>, io: array<bv32>, max: nat)
    requires (max == 24 || max == 32) && io.Length == 4 && |u| == max + 2
    modifies io
    ensures Swapped(Whole(io[..])) == EncryptSm(t, u, max / 8, old(Whole(io[..])))
  {
    hide GroupsSm, Xor;
    ghost var m := Block(Xor(Whole(io[..]).a, u[0]), Whole(io[..]).b);
    FirstForward(t, u, io);
    GroupForward(t, u, io, 1, m);
    GroupForward(t, u, io, 2, m);
    if max == 32 { GroupForward(t, u, io, 3, m); }
    WhitenBlock(io, 2, u[max]);
  }

  /** ROUNDS of group j and the FLS before it, on the way back. */
  method GroupBackward(t: Tables, u: seq<Word>, io: array<bv32>, j: nat)
    requires io.Length == 4 && 1 <= j && 8 * j + 8 <= |u|
    modifies io
    ensures GroupsBack(t, u, j, Whole(io[..])) == GroupsBack(t, u, j + 1, old(Whole(io[..])))
  {
    hide SixBack, FL, FLInv;
    RoundsBackward(t, u, io, 8 * j);
    Fls(io, u[8*j+1], u[8*j]);
  }

  /** The last group to be undone, and post-whitening. */
  method LastBackward(t: Tables, u: seq<Word>, io: array<bv32>)
    requires io.Length == 4 && 10 <= |u|
    modifies io
    ensures var r := GroupsBack(t, u, 1, old(Whole(io[..]))); Whole(io[..]) == Block(r.a, Xor(r.b, u[0]))
  {
    hide SixBack, Xor;
    RoundsBackward(t, u, io, 0);
    WhitenBlock(io, 2, u[0]);
  }

  /** camellia_do_decrypt; the halves come out swapped. */
  method DoDecrypt(t: Tables, u: seq<Word>, io: array<bv32>, max: nat)
    requires (max == 24 || max == 32) && io.Length == 4 && |u| == max + 2
    modifies io
    ensures Swapped(Whole(io[..])) == DecryptSm(t, u, max / 8, old(Whole(io[..])))
  {
    hide GroupsBack, Xor;
    WhitenBlock(io, 0, u[max]);
    if max == 32 { GroupBackward(t, u, io, 3); }
    GroupBackward(t, u, io, 2);
    GroupBackward(t, u, io, 1);
    LastBackward(t, u, io);
  }

  // ----- the transform -----

  /** struct camellia_ctx, with the subkeys of the key schedule remembered for the specification. */
  class Context {
    var keyLength: nat
    var keyTable: array<Word>
    ghost var subkeys: seq<Word>

    ghost function N(): nat
      reads this
    {
      if keyLength == 16 then 3 else 4
    }

    ghost predicate Valid()
      reads this, keyTable
    {
      && (keyLength == 16 || keyLength == 24 || keyLength == 32)
      && keyTable.Length == 34 && Sized(subkeys, N())
      && Agree(keyTable[..8*N()+2], Moved(Absorbed(subkeys, N()), N()), N())
    }

    /** camellia_set_key, given what the key schedule has put into subL and subR. */
    constructor (sub: array<Word>, length: nat)
      requires length == 16 || length == 24 || length == 32
      requires sub.Length == (if length == 16 then 26 else 34)
      modifies sub
      ensures Valid() && fresh(keyTable) && keyLength == length && subkeys == old(sub[..])
    {
      hide Absorbed, Moved;
      keyLength := length;
      subkeys := sub[..];
      var table := new Word[34];
      keyTable := table;
      new;
      SetupTail(table, sub, if length == 16 then 24 else 32);
    }

    /** camellia_encrypt, with the tables of the s-boxes `b`, computes the cipher of RFC 3713. */
    method EncryptBlock(b: SBoxes, m: Block) returns (c: Block)
      requires Valid()
      ensures c == RfcEncrypt(b, subkeys, N(), m)
    {
      hide Absorbed, Moved, EncryptSm, RfcEncrypt, TablesOf;
      var t := TablesOf(b);
      var max := if keyLength == 16 then 24 else 32;
      var io := new bv32[4][m.a.l, m.a.r, m.b.l, m.b.r];
      assert Whole(io[..]) == m;
      DoEncrypt(t, keyTable[..max+2], io, max);
      OthersUnread(t, keyTable[..max+2], Moved(Absorbed(subkeys, N()), N()), N(), m);
      EncryptsAsRfc(b, subkeys, N(), m);
      c := Block(Word(io[2], io[3]), Word(io[0], io[1]));
    }

    /** camellia_decrypt finds the one block that encrypts to the given one. */
    method DecryptBlock(b: SBoxes, c: Block) returns (m: Block)
      requires Valid()
      ensures RfcEncrypt(b, subkeys, N(), m) == c
      ensures forall m2 :: RfcEncrypt(b, subkeys, N(), m2) == c ==> m2 == m
    {
      hide Absorbed, Moved, RfcEncrypt, DecryptSm, TablesOf;
      var t := TablesOf(b);
      var max := if keyLength == 16 then 24 else 32;
      var io := new bv32[4][c.a.l, c.a.r, c.b.l, c.b.r];
      assert Whole(io[..]) == c;
      DoDecrypt(t, keyTable[..max+2], io, max);
      OthersUnread(t, keyTable[..max+2], Moved(Absorbed(subkeys, N()), N()), N(), c);
      m := Block(Word(io[2], io[3]), Word(io[0], io[1]));
      DecryptsAsRfc(b, subkeys, N(), c);
      forall m2 | RfcEncrypt(b, subkeys, N(), m2) == c ensures m2 == m { DecryptsAsRfc(b, subkeys, N(), m2); }
    }
  }
}
