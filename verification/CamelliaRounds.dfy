/** The F of the kernel's tables is the F of section 2.4.1 of RFC 3713, for any four s-boxes. */
module CamelliaRounds {
  import opened Camellia

  datatype SBoxes = SBoxes(s1: bv8 -> bv8, s2: bv8 -> bv8, s3: bv8 -> bv8, s4: bv8 -> bv8)

  /** Four bytes, the most significant first. */
  function Pack(a: bv8, b: bv8, c: bv8, d: bv8): bv32 {
    ((a as bv32) << 24) | ((b as bv32) << 16) | ((c as bv32) << 8) | (d as bv32)
  }

  /** The tables the kernel is compiled with: each holds one s-box in three of four bytes. */
  function TablesOf(b: SBoxes): Tables {
    Tables(x => Pack(b.s1(x), b.s1(x), b.s1(x), 0), x => Pack(0, b.s2(x), b.s2(x), b.s2(x)),
           x => Pack(b.s3(x), 0, b.s3(x), b.s3(x)), x => Pack(b.s4(x), b.s4(x), 0, b.s4(x)))
  }

  function X8(a: bv8, b: bv8): bv8 { a ^ b }

  /** The P function on the eight bytes behind the s-boxes. */
  function P(t1: bv8, t2: bv8, t3: bv8, t4: bv8, t5: bv8, t6: bv8, t7: bv8, t8: bv8): Word {
    Word(Pack(t1 ^ t3 ^ t4 ^ t6 ^ t7 ^ t8, t1 ^ t2 ^ t4 ^ t5 ^ t7 ^ t8,
              t1 ^ t2 ^ t3 ^ t5 ^ t6 ^ t8, t2 ^ t3 ^ t4 ^ t5 ^ t6 ^ t7),
         Pack(t1 ^ t2 ^ t6 ^ t7 ^ t8, t2 ^ t3 ^ t5 ^ t7 ^ t8,
              t3 ^ t4 ^ t5 ^ t6 ^ t8, t1 ^ t4 ^ t5 ^ t6 ^ t7))
  }

  /** Section 2.4.1: add the key, substitute byte by byte, mix. */
  function RfcF(b: SBoxes, x: Word, k: Word): Word {
    var y := Xor(x, k);
    P(b.s1(B1(y.l)), b.s2(B2(y.l)), b.s3(B3(y.l)), b.s4(B4(y.l)),
      b.s2(B1(y.r)), b.s3(B2(y.r)), b.s4(B3(y.r)), b.s1(B4(y.r)))
  }

  lemma PackXor(a: bv8, b: bv8, c: bv8, d: bv8, e: bv8, f: bv8, g: bv8, h: bv8)
    ensures X(Pack(a, b, c, d), Pack(e, f, g, h)) == Pack(X8(a, e), X8(b, f), X8(c, g), X8(d, h))
  {
  }

  lemma PackRor(a: bv8, b: bv8, c: bv8, d: bv8)
    ensures Ror8(Pack(a, b, c, d)) == Pack(d, a, b, c)
  {
  }

  lemma ZeroByte(a: bv8)
    ensures X8(a, 0) == a && X8(0, a) == a
  {
  }

  /** What the four table lookups of one half of the input give. */
  function Half(a: bv8, b: bv8, c: bv8, d: bv8): bv32 {
    Pack(X8(X8(a, c), d), X8(X8(a, b), d), X8(X8(a, b), c), X8(X8(b, c), d))
  }

  lemma HalfWord(a: bv8, b: bv8, c: bv8, d: bv8)
    ensures X(X(X(Pack(a, a, a, 0), Pack(0, b, b, b)), Pack(c, 0, c, c)), Pack(d, d, 0, d)) == Half(a, b, c, d)
  {
    hide X, X8, Pack;
    PackXor(a, a, a, 0, 0, b, b, b);
    ZeroByte(a); ZeroByte(b);
    PackXor(a, X8(a, b), X8(a, b), b, c, 0, c, c);
    ZeroByte(X8(a, b));
    PackXor(X8(a, c), X8(a, b), X8(X8(a, b), c), X8(b, c), d, d, 0, d);
    ZeroByte(X8(X8(a, b), c));
  }

  lemma LeftByte(a: bv8, b: bv8, c: bv8, d: bv8, e: bv8, f: bv8)
    ensures X8(X8(X8(f, d), e), X8(X8(a, b), c)) == a ^ b ^ c ^ d ^ e ^ f
    ensures X8(X8(X8(d, e), f), X8(X8(a, b), c)) == a ^ b ^ c ^ d ^ e ^ f
  {
  }

  /** The left half of the output. */
  lemma LeftBytes(t1: bv8, t2: bv8, t3: bv8, t4: bv8, t5: bv8, t6: bv8, t7: bv8, t8: bv8)
    ensures X(Half(t8, t5, t6, t7), Half(t1, t2, t3, t4)) == P(t1, t2, t3, t4, t5, t6, t7, t8).l
  {
    hide X, X8, Pack;
    LeftByte(t1, t3, t4, t6, t7, t8);
    LeftByte(t1, t2, t4, t5, t7, t8);
    LeftByte(t1, t2, t3, t5, t6, t8);
    LeftByte(t2, t3, t4, t5, t6, t7);
    PackXor(X8(X8(t8, t6), t7), X8(X8(t8, t5), t7), X8(X8(t8, t5), t6), X8(X8(t5, t6), t7),
            X8(X8(t1, t3), t4), X8(X8(t1, t2), t4), X8(X8(t1, t2), t3), X8(X8(t2, t3), t4));
  }

  lemma RightByte5(t1: bv8, t2: bv8, t3: bv8, t4: bv8, t6: bv8, t7: bv8, t8: bv8)
    ensures X8(X8(X8(t2, t3), t4), t1 ^ t3 ^ t4 ^ t6 ^ t7 ^ t8) == t1 ^ t2 ^ t6 ^ t7 ^ t8
  {
  }

  lemma RightByte6(t1: bv8, t2: bv8, t3: bv8, t4: bv8, t5: bv8, t7: bv8, t8: bv8)
    ensures X8(X8(X8(t1, t3), t4), t1 ^ t2 ^ t4 ^ t5 ^ t7 ^ t8) == t2 ^ t3 ^ t5 ^ t7 ^ t8
  {
  }

  lemma RightByte7(t1: bv8, t2: bv8, t3: bv8, t4: bv8, t5: bv8, t6: bv8, t8: bv8)
    ensures X8(X8(X8(t1, t2), t4), t1 ^ t2 ^ t3 ^ t5 ^ t6 ^ t8) == t3 ^ t4 ^ t5 ^ t6 ^ t8
  {
  }

  lemma RightByte8(t1: bv8, t2: bv8, t3: bv8, t4: bv8, t5: bv8, t6: bv8, t7: bv8)
    ensures X8(X8(X8(t1, t2), t3), t2 ^ t3 ^ t4 ^ t5 ^ t6 ^ t7) == t1 ^ t4 ^ t5 ^ t6 ^ t7
  {
  }

  /** The right half of the output. */
  lemma RightBytes(t1: bv8, t2: bv8, t3: bv8, t4: bv8, t5: bv8, t6: bv8, t7: bv8, t8: bv8)
    ensures var y := P(t1, t2, t3, t4, t5, t6, t7, t8); X(Ror8(Half(t1, t2, t3, t4)), y.l) == y.r
  {
    hide X, X8, Pack, Ror8;
    RightByte5(t1, t2, t3, t4, t6, t7, t8);
    RightByte6(t1, t2, t3, t4, t5, t7, t8);
    RightByte7(t1, t2, t3, t4, t5, t6, t8);
    RightByte8(t1, t2, t3, t4, t5, t6, t7);
    PackRor(X8(X8(t1, t3), t4), X8(X8(t1, t2), t4), X8(X8(t1, t2), t3), X8(X8(t2, t3), t4));
    PackXor(X8(X8(t2, t3), t4), X8(X8(t1, t3), t4), X8(X8(t1, t2), t4), X8(X8(t1, t2), t3),
            t1 ^ t3 ^ t4 ^ t6 ^ t7 ^ t8, t1 ^ t2 ^ t4 ^ t5 ^ t7 ^ t8,
            t1 ^ t2 ^ t3 ^ t5 ^ t6 ^ t8, t2 ^ t3 ^ t4 ^ t5 ^ t6 ^ t7);
  }

  lemma LookupIsHalves(b: SBoxes, y: Word)
    ensures Lookup(TablesOf(b), y) ==
            Word(Half(b.s1(B4(y.r)), b.s2(B1(y.r)), b.s3(B2(y.r)), b.s4(B3(y.r))),
                 Half(b.s1(B1(y.l)), b.s2(B2(y.l)), b.s3(B3(y.l)), b.s4(B4(y.l))))
  {
    hide X, X8, Pack, Half, B1, B2, B3, B4;
    HalfWord(b.s1(B4(y.r)), b.s2(B1(y.r)), b.s3(B2(y.r)), b.s4(B3(y.r)));
    HalfWord(b.s1(B1(y.l)), b.s2(B2(y.l)), b.s3(B3(y.l)), b.s4(B4(y.l)));
  }

  /** CAMELLIA_F with the kernel's tables is the F of the RFC. */
  lemma FIsRfc(b: SBoxes, x: Word, k: Word)
    ensures F(TablesOf(b), x, k) == RfcF(b, x, k)
  {
    hide Lookup, TablesOf, Half, P, X, Ror8, B1, B2, B3, B4, Xor;
    var y := Xor(x, k);
    var t1, t2, t3, t4 := b.s1(B1(y.l)), b.s2(B2(y.l)), b.s3(B3(y.l)), b.s4(B4(y.l));
    var t5, t6, t7, t8 := b.s2(B1(y.r)), b.s3(B2(y.r)), b.s4(B3(y.r)), b.s1(B4(y.r));
    LookupIsHalves(b, y);
    LeftBytes(t1, t2, t3, t4, t5, t6, t7, t8);
    RightBytes(t1, t2, t3, t4, t5, t6, t7, t8);
  }

  // ----- section 2.3 with that F -----

  function RfcStep(b: SBoxes, y: Word, x: Word, k: Word): Word { Xor(y, RfcF(b, x, k)) }

  function RfcSix(b: SBoxes, s: seq<Word>, i: nat, m: Block): Block
    requires i + 8 <= |s|
  {
    var b1 := RfcStep(b, m.b, m.a, s[i+2]);
    var a1 := RfcStep(b, m.a, b1, s[i+3]);
    var b2 := RfcStep(b, b1, a1, s[i+4]);
    var a2 := RfcStep(b, a1, b2, s[i+5]);
    var b3 := RfcStep(b, b2, a2, s[i+6]);
    Block(RfcStep(b, a2, b3, s[i+7]), b3)
  }

  function RfcGroups(b: SBoxes, s: seq<Word>, n: nat, m: Block): Block
    requires 1 <= n && 8 * n <= |s|
  {
    if n == 1 then RfcSix(b, s, 0, m)
    else RfcSix(b, s, 8 * (n-1), FLLayer(s, 8 * (n-1), RfcGroups(b, s, n-1, m)))
  }

  /** Section 2.3: whitening, groups of six rounds with FL layers between them, whitening. */
  function RfcEncrypt(b: SBoxes, s: seq<Word>, n: nat, m: Block): Block
    requires Sized(s, n)
  {
    var c := RfcGroups(b, s, n, Block(Xor(m.a, s[0]), Xor(m.b, s[1])));
    Block(Xor(c.b, s[8*n]), Xor(c.a, s[8*n+1]))
  }

  lemma StepIsRfc(b: SBoxes, y: Word, x: Word, k: Word)
    ensures Step(TablesOf(b), y, x, k) == RfcStep(b, y, x, k)
  {
    hide F, RfcF;
    FIsRfc(b, x, k);
  }

  lemma SixIsRfc(b: SBoxes, s: seq<Word>, i: nat, m: Block)
    requires i + 8 <= |s|
    ensures SixRounds(TablesOf(b), s, i, m) == RfcSix(b, s, i, m)
  {
    hide Step, RfcStep;
    var b1 := RfcStep(b, m.b, m.a, s[i+2]);
    var a1 := RfcStep(b, m.a, b1, s[i+3]);
    var b2 := RfcStep(b, b1, a1, s[i+4]);
    var a2 := RfcStep(b, a1, b2, s[i+5]);
    var b3 := RfcStep(b, b2, a2, s[i+6]);
    StepIsRfc(b, m.b, m.a, s[i+2]);
    StepIsRfc(b, m.a, b1, s[i+3]);
    StepIsRfc(b, b1, a1, s[i+4]);
    StepIsRfc(b, a1, b2, s[i+5]);
    StepIsRfc(b, b2, a2, s[i+6]);
    StepIsRfc(b, a2, b3, s[i+7]);
  }

  lemma {:induction false} GroupsIsRfc(b: SBoxes, s: seq<Word>, n: nat, m: Block)
    requires 1 <= n && 8 * n <= |s|
    ensures Groups(TablesOf(b), s, n, m) == RfcGroups(b, s, n, m)
  {
    hide SixRounds, RfcSix, FLLayer, TablesOf;
    if n == 1 {
      SixIsRfc(b, s, 0, m);
    } else {
      GroupsIsRfc(b, s, n - 1, m);
      SixIsRfc(b, s, 8 * (n-1), FLLayer(s, 8 * (n-1), RfcGroups(b, s, n-1, m)));
    }
  }

  /** camellia_setup_tail then camellia_do_encrypt, with the tables of any four s-boxes, is the cipher
      of sections 2.3 and 2.4 of RFC 3713. */
  lemma EncryptsAsRfc(b: SBoxes, s: seq<Word>, n: nat, m: Block)
    requires Sized(s, n)
    ensures EncryptSm(TablesOf(b), Moved(Absorbed(s, n), n), n, m) == RfcEncrypt(b, s, n, m)
  {
    hide Groups, RfcGroups, EncryptSm, Moved, Absorbed, TablesOf, Xor;
    EncryptsAsSpecified(TablesOf(b), s, n, m);
    GroupsIsRfc(b, s, n, Block(Xor(m.a, s[0]), Xor(m.b, s[1])));
  }

  /** camellia_do_decrypt with the same subkeys gives the one block that the RFC's cipher takes there. */
  lemma DecryptsAsRfc(b: SBoxes, s: seq<Word>, n: nat, m: Block)
    requires Sized(s, n)
    ensures RfcEncrypt(b, s, n, DecryptSm(TablesOf(b), Moved(Absorbed(s, n), n), n, m)) == m
    ensures DecryptSm(TablesOf(b), Moved(Absorbed(s, n), n), n, RfcEncrypt(b, s, n, m)) == m
  {
    hide Encrypt, RfcEncrypt, DecryptSm, EncryptSm, Moved, Absorbed, TablesOf;
    var d := DecryptSm(TablesOf(b), Moved(Absorbed(s, n), n), n, m);
    DecryptsAsSpecified(TablesOf(b), s, n, m);
    EncryptsAsSpecified(TablesOf(b), s, n, m);
    EncryptsAsSpecified(TablesOf(b), s, n, d);
    EncryptsAsRfc(b, s, n, m);
    EncryptsAsRfc(b, s, n, d);
  }
}
