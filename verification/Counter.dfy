/** crypto_inc: a big-endian counter of any length is incremented, four bytes at a time while it can. */
module Counter {

  type byte = x: int | 0 <= x < 256

  function Pow(n: nat): (p: nat)
    ensures p > 0
  {
    if n == 0 then 1 else 256 * Pow(n - 1)
  }

  /** The number a buffer stands for, most significant byte first. */
  function Value(s: seq<byte>): nat {
    if s == [] then 0 else Value(s[..|s|-1]) * 256 + s[|s|-1]
  }

  ghost predicate All(s: seq<byte>, x: byte) { forall i :: 0 <= i < |s| ==> s[i] == x }

  lemma {:induction false} ValueBound(s: seq<byte>)
    ensures Value(s) < Pow(|s|)
  {
    if s != [] { ValueBound(s[..|s|-1]); }
  }

  lemma {:induction false} ValueConcat(p: seq<byte>, q: seq<byte>)
    ensures Value(p + q) == Value(p) * Pow(|q|) + Value(q)
  {
    if q == [] {
      assert p + q == p;
    } else {
      var r := q[..|q|-1];
      ValueConcat(p, r);
      assert (p + q)[..|p + q|-1] == p + r;
      Regroup(Value(p), Pow(|r|), Value(r), q[|q|-1]);
    }
  }

  lemma Regroup(v: nat, m: nat, w: nat, b: nat)
    ensures (v * m + w) * 256 + b == v * (256 * m) + (w * 256 + b)
  {
  }

  lemma {:induction false} ValueOnes(s: seq<byte>)
    requires All(s, 255)
    ensures Value(s) == Pow(|s|) - 1
  {
    if s != [] { ValueOnes(s[..|s|-1]); }
  }

  lemma {:induction false} ValueZeros(s: seq<byte>)
    requires All(s, 0)
    ensures Value(s) == 0
  {
    if s != [] { ValueZeros(s[..|s|-1]); }
  }

  /** The number plus one, modulo the capacity of the buffer. */
  ghost predicate Incremented(was: seq<byte>, now: seq<byte>) {
    |now| == |was| && Value(now) == (Value(was) + 1) % Pow(|was|)
  }

  /** A carry that has run through `ones` stops in `w`. */
  lemma CarryStops(p: seq<byte>, w: seq<byte>, ones: seq<byte>, v: seq<byte>, zeros: seq<byte>)
    requires All(ones, 255) && All(zeros, 0) && |ones| == |zeros| && |v| == |w| && Value(v) == Value(w) + 1
    ensures Incremented(p + w + ones, p + v + zeros)
  {
    hide Value, Pow;
    ValueConcat(p, w);
    ValueConcat(p, v);
    ValueConcat(p + w, ones);
    ValueConcat(p + v, zeros);
    ValueOnes(ones);
    ValueZeros(zeros);
    ValueBound(p + v + zeros);
    Distribute(Value(p + w), Pow(|ones|));
    Small(Value(p + v + zeros), Pow(|p + v + zeros|));
  }

  lemma Distribute(a: nat, m: nat)
    ensures (a + 1) * m == a * m + m
  {
  }

  lemma Small(a: nat, m: nat)
    requires a < m
    ensures a % m == a
  {
  }

  lemma CarryWraps(ones: seq<byte>, zeros: seq<byte>)
    requires All(ones, 255) && All(zeros, 0) && |ones| == |zeros|
    ensures Incremented(ones, zeros)
  {
    ValueOnes(ones);
    ValueZeros(zeros);
    Whole(Pow(|ones|));
  }

  lemma Whole(m: nat)
    requires m > 0
    ensures m % m == 0
  {
  }

  // ----- words -----

  const WORD := 0x1_0000_0000

  /** be32_to_cpu */
  function Word(b0: byte, b1: byte, b2: byte, b3: byte): (w: nat)
    ensures w < WORD
  {
    ((b0 * 256 + b1) * 256 + b2) * 256 + b3
  }

  lemma WordValue(s: seq<byte>)
    requires |s| == 4
    ensures Value(s) == Word(s[0], s[1], s[2], s[3])
  {
    assert s[..3][..2] == s[..2] && s[..2][..1] == s[..1] && s[..1][..0] == [];
    var b0: int, b1: int, b2: int := s[0], s[1], s[2];
    assert Value(s[..1]) == b0;
    assert Value(s[..2]) == b0 * 256 + b1;
    assert Value(s[..3]) == (b0 * 256 + b1) * 256 + b2;
  }

  /** cpu_to_be32 */
  function Split(c: nat): (r: (byte, byte, byte, byte))
    requires c < WORD
    ensures Word(r.0, r.1, r.2, r.3) == c
  {
    SplitSteps(c);
    (c / 256 / 256 / 256, c / 256 / 256 % 256, c / 256 % 256, c % 256)
  }

  lemma ByteOff(c: nat, m: nat)
    requires c < 256 * m
    ensures c == c / 256 * 256 + c % 256 && c / 256 < m
  {
  }

  /** A word loses its bytes one at a time. */
  lemma SplitSteps(c: nat)
    requires c < WORD
    ensures c / 256 / 256 / 256 < 256
    ensures ((c / 256 / 256 / 256 * 256 + c / 256 / 256 % 256) * 256 + c / 256 % 256) * 256 + c % 256 == c
  {
    ByteOff(c, 0x100_0000);
    ByteOff(c / 256, 0x1_0000);
    ByteOff(c / 256 / 256, 256);
  }

  /** The 32-bit successor. */
  function Next(w: nat): (c: nat)
    ensures c < WORD
  {
    (w + 1) % WORD
  }

  lemma WordFull(b0: byte, b1: byte, b2: byte, b3: byte)
    ensures Next(Word(b0, b1, b2, b3)) == 0 <==> b0 == 255 && b1 == 255 && b2 == 255 && b3 == 255
    ensures Next(Word(b0, b1, b2, b3)) != 0 ==> Next(Word(b0, b1, b2, b3)) == Word(b0, b1, b2, b3) + 1
  {
  }

  // ----- the code -----

  /** Everything from `size` on was full and is zero now. */
  ghost predicate Carried(was: seq<byte>, now: seq<byte>, size: nat) {
    && size <= |was| == |now| && now[..size] == was[..size] && All(was[size..], 255) && All(now[size..], 0)
  }

  lemma Stopped(was: seq<byte>, mid: seq<byte>, now: seq<byte>, lo: nat, size: nat)
    requires Carried(was, mid, size) && lo <= size && |now| == |was|
    requires now[..lo] == mid[..lo] && now[size..] == mid[size..] && Value(now[lo..size]) == Value(mid[lo..size]) + 1
    ensures Incremented(was, now)
  {
    assert mid[..lo] == was[..lo] by { assert mid[..lo] == mid[..size][..lo] && was[..lo] == was[..size][..lo]; }
    assert mid[lo..size] == was[lo..size] by { assert mid[lo..size] == mid[..size][lo..] && was[lo..size] == was[..size][lo..]; }
    assert was == was[..lo] + was[lo..size] + was[size..];
    assert now == now[..lo] + now[lo..size] + now[size..];
    CarryStops(was[..lo], was[lo..size], was[size..], now[lo..size], now[size..]);
  }

  /** crypto_inc_byte on the first `size` bytes, the others having wrapped. */
  method IncByte(a: array<byte>, size: nat, ghost was: seq<byte>)
    requires Carried(was, a[..], size)
    modifies a
    ensures Incremented(was, a[..])
  {
    hide Incremented;
    var n: nat := size;
    while n > 0
      invariant Carried(was, a[..], n)
    {
      ghost var mid := a[..];
      var x: int := a[n-1];
      var c: byte := (x + 1) % 256;
      a[n-1] := c;
      if c != 0 {
        assert mid[n-1..n] == [c-1];
        ByteValue(c);
        ByteValue(c - 1);
        assert a[..][..n-1] == mid[..n-1] && a[..][n..] == mid[n..] && a[..][n-1..n] == [c];
        Stopped(was, mid, a[..], n - 1, n);
        return;
      }
      CarriedOn(was, mid, a[..], n - 1, n);
      n := n - 1;
    }
    assert was[0..] == was && a[..][0..] == a[..];
    CarryWraps(was, a[..]);
  }

  lemma ByteValue(c: byte)
    ensures Value([c]) == c
  {
    assert [c][..0] == [];
  }

  lemma CarriedOn(was: seq<byte>, mid: seq<byte>, now: seq<byte>, lo: nat, size: nat)
    requires Carried(was, mid, size) && lo <= size && |now| == |was| && now[..lo] == mid[..lo] && now[size..] == mid[size..]
    requires All(mid[lo..size], 255) && All(now[lo..size], 0)
    ensures Carried(was, now, lo)
  {
    assert mid[..lo] == was[..lo] by { assert mid[..lo] == mid[..size][..lo] && was[..lo] == was[..size][..lo]; }
    assert mid[lo..size] == was[lo..size] by { assert mid[lo..size] == mid[..size][lo..] && was[lo..size] == was[..size][lo..]; }
    assert was[lo..] == was[lo..size] + was[size..];
    assert now[lo..] == now[lo..size] + now[size..];
  }

  /** The word that ends at `size` is replaced by `c`. */
  method StoreWord(a: array<byte>, lo: nat, c: nat)
    requires lo + 4 <= a.Length && c < WORD
    modifies a
    ensures a[..lo] == old(a[..lo]) && a[lo+4..] == old(a[lo+4..])
    ensures Word(a[lo], a[lo+1], a[lo+2], a[lo+3]) == c
  {
    var w := Split(c);
    hide Word, Split;
    a[lo], a[lo+1], a[lo+2], a[lo+3] := w.0, w.1, w.2, w.3;
  }

  lemma NextFits(w: nat)
    ensures Next(w) < WORD
  {
  }

  lemma CarriedLength(was: seq<byte>, now: seq<byte>, size: nat)
    requires Carried(was, now, size)
    ensures size <= |was| == |now|
  {
  }

  /** One turn of the word loop: the increment stops in the word before `size`, or carries past it. */
  method IncWord(a: array<byte>, size: nat, ghost was: seq<byte>) returns (done: bool)
    requires 4 <= size <= a.Length && Carried(was, a[..], size)
    modifies a
    ensures if done then Incremented(was, a[..]) else Carried(was, a[..], size - 4)
  {
    hide Value, Word, Next, Carried, Incremented;
    ghost var mid := a[..];
    CarriedLength(was, mid, size);
    var lo: nat := size - 4;
    var c := Next(Word(a[lo], a[lo+1], a[lo+2], a[lo+3]));
    assert c < WORD by { NextFits(Word(a[lo], a[lo+1], a[lo+2], a[lo+3])); }
    WordFull(a[lo], a[lo+1], a[lo+2], a[lo+3]);
    WordValue(mid[lo..size]);
    StoreWord(a, lo, c);
    WordValue(a[..][lo..size]);
    assert a[..][..lo] == mid[..lo] && a[..][size..] == mid[size..];
    done := c != 0;
    if done {
      Stopped(was, mid, a[..], lo, size);
    } else {
      ZeroWord(a[lo], a[lo+1], a[lo+2], a[lo+3]);
      CarriedOn(was, mid, a[..], lo, size);
    }
  }

  /** crypto_inc turns the big-endian number n into n + 1 modulo 256 to the size, for every size. */
  method CryptoInc(a: array<byte>)
    modifies a
    ensures Value(a[..]) == (Value(old(a[..])) + 1) % Pow(a.Length)
  {
    ghost var was := a[..];
    var size: nat := a.Length;
    assert Carried(was, a[..], size);
    hide Value, Carried;
    while size >= 4
      invariant size <= a.Length && Carried(was, a[..], size)
    {
      var done := IncWord(a, size, was);
      if done { return; }
      size := size - 4;
    }
    IncByte(a, size, was);
  }

  lemma ZeroWord(b0: byte, b1: byte, b2: byte, b3: byte)
    requires Word(b0, b1, b2, b3) == 0
    ensures b0 == 0 && b1 == 0 && b2 == 0 && b3 == 0
  {
  }
}
