/**
  * The Camellia block cipher as the kernel computes it: the two inner whitening keys are pushed
  * through the rounds and the FL layers into the other subkeys, and every round key is moved from
  * the input of F to its output.  The theorem is that the result is the structure of section 2.3 of
  * RFC 3713, for arbitrary subkeys and arbitrary substitution tables.
  */
module Camellia {

  /** A 64-bit half block or subkey. */
  datatype Word = Word(l: bv32, r: bv32)

  datatype Block = Block(a: Word, b: Word)

  /** The four tables that combine the s-boxes with the first half of the P function. */
  datatype Tables = Tables(sp1110: bv8 -> bv32, sp0222: bv8 -> bv32, sp3033: bv8 -> bv32, sp4404: bv8 -> bv32)

  const ZERO := Word(0, 0)

  // 32-bit operations
  function X(a: bv32, b: bv32): bv32 { a ^ b }

  function And(a: bv32, b: bv32): bv32 { a & b }

  function Or(a: bv32, b: bv32): bv32 { a | b }

  function Not(a: bv32): bv32 { !a }

  function Rol1(x: bv32): bv32 { (x << 1) | (x >> 31) }

  function Rol8(x: bv32): bv32 { (x << 8) | (x >> 24) }

  function Ror8(x: bv32): bv32 { (x >> 8) | (x << 24) }

  function Byte(x: bv32): bv8 { (x & 0xFF) as bv8 }

  // the four bytes of a word, from the most significant down
  function B1(x: bv32): bv8 { Byte(x >> 24) }

  function B2(x: bv32): bv8 { Byte(x >> 16) }

  function B3(x: bv32): bv8 { Byte(x >> 8) }

  function B4(x: bv32): bv8 { Byte(x) }

  function Xor(x: Word, y: Word): Word { Word(X(x.l, y.l), X(x.r, y.r)) }

  // ----- the cipher of RFC 3713 -----

  /** What the tables give for the right and for the left half of the input. */
  function Lookup(t: Tables, x: Word): Word {
    Word(X(X(X(t.sp1110(B4(x.r)), t.sp0222(B1(x.r))), t.sp3033(B2(x.r))), t.sp4404(B3(x.r))),
         X(X(X(t.sp1110(B1(x.l)), t.sp0222(B2(x.l))), t.sp3033(B3(x.l))), t.sp4404(B4(x.l))))
  }

  /** The second half of the P function. */
  function Spread(w: Word): Word {
    var y := X(w.l, w.r);
    Word(y, X(Ror8(w.r), y))
  }

  /** CAMELLIA_F: the key is added to the input. */
  function F(t: Tables, x: Word, k: Word): Word { Spread(Lookup(t, Xor(x, k))) }

  function FL(x: Word, k: Word): Word {
    var r := X(x.r, Rol1(And(x.l, k.l)));
    Word(X(x.l, Or(r, k.r)), r)
  }

  function FLInv(y: Word, k: Word): Word {
    var l := X(y.l, Or(y.r, k.r));
    Word(l, X(y.r, Rol1(And(l, k.l))))
  }

  function Step(t: Tables, y: Word, x: Word, k: Word): Word { Xor(y, F(t, x, k)) }

  /** Six rounds with the keys s[i+2] to s[i+7]. */
  function SixRounds(t: Tables, s: seq<Word>, i: nat, m: Block): Block
    requires i + 8 <= |s|
  {
    var b1 := Step(t, m.b, m.a, s[i+2]);
    var a1 := Step(t, m.a, b1, s[i+3]);
    var b2 := Step(t, b1, a1, s[i+4]);
    var a2 := Step(t, a1, b2, s[i+5]);
    var b3 := Step(t, b2, a2, s[i+6]);
    Block(Step(t, a2, b3, s[i+7]), b3)
  }

  function FLLayer(s: seq<Word>, i: nat, m: Block): Block
    requires i + 2 <= |s|
  {
    Block(FL(m.a, s[i]), FLInv(m.b, s[i+1]))
  }

  /** `n` groups of six rounds with an FL layer between each two. */
  function Groups(t: Tables, s: seq<Word>, n: nat, m: Block): Block
    requires 1 <= n && 8 * n <= |s|
  {
    if n == 1 then SixRounds(t, s, 0, m)
    else SixRounds(t, s, 8 * (n-1), FLLayer(s, 8 * (n-1), Groups(t, s, n-1, m)))
  }

  predicate Sized(s: seq<Word>, n: nat) { 1 <= n && |s| == 8 * n + 2 }

  /** Section 2.3 of RFC 3713: kw1, kw2 are s[0], s[1]; kw3, kw4 are the last two entries. */
  function Encrypt(t: Tables, s: seq<Word>, n: nat, m: Block): Block
    requires Sized(s, n)
  {
    var c := Groups(t, s, n, Block(Xor(m.a, s[0]), Xor(m.b, s[1])));
    Block(Xor(c.b, s[8*n]), Xor(c.a, s[8*n+1]))
  }

  // ----- the code's round, on keys that are xored in after F -----

  /** CAMELLIA_ROUNDSM */
  function RoundSm(t: Tables, y: Word, x: Word, k: Word): Word {
    var w := Lookup(t, x);
    var il := X(w.r, k.l);
    var ir := X(w.l, X(il, k.r));
    Word(X(y.l, ir), X(y.r, X(Ror8(il), ir)))
  }

  function SixSm(t: Tables, u: seq<Word>, i: nat, m: Block): Block
    requires i + 8 <= |u|
  {
    var b1 := RoundSm(t, m.b, m.a, u[i+2]);
    var a1 := RoundSm(t, m.a, b1, u[i+3]);
    var b2 := RoundSm(t, b1, a1, u[i+4]);
    var a2 := RoundSm(t, a1, b2, u[i+5]);
    var b3 := RoundSm(t, b2, a2, u[i+6]);
    Block(RoundSm(t, a2, b3, u[i+7]), b3)
  }

  function GroupsSm(t: Tables, u: seq<Word>, n: nat, m: Block): Block
    requires 1 <= n && 8 * n <= |u|
  {
    if n == 1 then SixSm(t, u, 0, m)
    else SixSm(t, u, 8 * (n-1), FLLayer(u, 8 * (n-1), GroupsSm(t, u, n-1, m)))
  }

  /** camellia_do_encrypt and the swap its caller makes. */
  function EncryptSm(t: Tables, u: seq<Word>, n: nat, m: Block): Block
    requires Sized(u, n)
  {
    var c := GroupsSm(t, u, n, Block(Xor(m.a, u[0]), m.b));
    Block(Xor(c.b, u[8*n]), c.a)
  }

  function SixBack(t: Tables, u: seq<Word>, i: nat, m: Block): Block
    requires i + 8 <= |u|
  {
    var b1 := RoundSm(t, m.b, m.a, u[i+7]);
    var a1 := RoundSm(t, m.a, b1, u[i+6]);
    var b2 := RoundSm(t, b1, a1, u[i+5]);
    var a2 := RoundSm(t, a1, b2, u[i+4]);
    var b3 := RoundSm(t, b2, a2, u[i+3]);
    Block(RoundSm(t, a2, b3, u[i+2]), b3)
  }

  /** The FL layer of decryption takes the two keys the other way round. */
  function FLBack(u: seq<Word>, i: nat, m: Block): Block
    requires i + 2 <= |u|
  {
    Block(FL(m.a, u[i+1]), FLInv(m.b, u[i]))
  }

  function GroupsBack(t: Tables, u: seq<Word>, n: nat, m: Block): Block
    requires 1 <= n && 8 * n <= |u|
  {
    if n == 1 then SixBack(t, u, 0, m)
    else GroupsBack(t, u, n-1, FLBack(u, 8 * (n-1), SixBack(t, u, 8 * (n-1), m)))
  }

  /** camellia_do_decrypt and the swap its caller makes. */
  function DecryptSm(t: Tables, u: seq<Word>, n: nat, m: Block): Block
    requires Sized(u, n)
  {
    var c := GroupsBack(t, u, n, Block(Xor(m.a, u[8*n]), m.b));
    Block(Xor(c.b, u[0]), c.a)
  }

  // ----- the subkeys that camellia_setup_tail computes -----

  /** A difference carried through FLInv forwards, and equally through FL backwards. */
  function Carry(d: Word, k: Word): Word {
    var l := X(d.l, And(d.r, Not(k.r)));
    Word(l, X(d.r, Rol1(And(l, k.l))))
  }

  /** kw2 as it reaches group j. */
  function Down(s: seq<Word>, j: nat): Word
    requires 8 * j + 2 <= |s|
  {
    if j == 0 then s[1] else Carry(Down(s, j-1), s[8*j+1])
  }

  /** kw4 as it is carried up into group j of n. */
  function Up(s: seq<Word>, n: nat, j: nat): Word
    requires Sized(s, n) && j < n
    decreases n - j
  {
    if j == n-1 then s[8*n+1] else Carry(Up(s, n, j+1), s[8*j+8])
  }

  function AbsorbedAt(s: seq<Word>, n: nat, i: nat): Word
    requires Sized(s, n) && i < |s|
  {
    if i == 0 then Xor(s[0], Up(s, n, 0))
    else if i == 1 || i == 8*n + 1 then ZERO
    else if i == 8*n then Xor(s[i], Down(s, n-1))
    else if i % 8 < 2 then s[i]
    else if i % 2 == 0 then Xor(s[i], Up(s, n, i/8))
    else Xor(s[i], Down(s, i/8))
  }

  /** The subkeys with kw2 and kw4 absorbed. */
  function Absorbed(s: seq<Word>, n: nat): (r: seq<Word>)
    requires Sized(s, n)
    ensures Sized(r, n)
  {
    seq(|s|, i requires 0 <= i < |s| => AbsorbedAt(s, n, i))
  }

  function MovedAt(s: seq<Word>, n: nat, i: nat): Word
    requires Sized(s, n) && i < |s|
  {
    if i == 0 then Xor(s[0], s[2])
    else if i == 1 || i == 8*n + 1 then ZERO
    else if i == 8*n then Xor(s[i], s[i-1])
    else if i % 8 < 2 then s[i]
    else if i == 2 then s[3]
    else if i % 8 == 2 then Xor(Carry(s[i-3], s[i-1]), s[i+1])
    else if i == 8*n - 1 then s[i-1]
    else if i % 8 == 7 then Xor(s[i-1], Carry(s[i+3], s[i+1]))
    else Xor(s[i-1], s[i+1])
  }

  /** The inverse of the last half of P. */
  function Unspread(w: Word): Word {
    var dw := Rol8(X(w.l, w.r));
    Word(dw, X(w.l, dw))
  }

  function FinalAt(s: seq<Word>, n: nat, i: nat): Word
    requires Sized(s, n) && i < |s|
  {
    if i < 8*n && i % 8 >= 2 then Unspread(MovedAt(s, n, i)) else MovedAt(s, n, i)
  }

  /** The round keys moved behind F. */
  function Moved(s: seq<Word>, n: nat): (r: seq<Word>)
    requires Sized(s, n)
    ensures Sized(r, n)
  {
    seq(|s|, i requires 0 <= i < |s| => FinalAt(s, n, i))
  }

  // ----- algebra of 32-bit words -----

  lemma Assoc32(a: bv32, b: bv32, c: bv32)
    ensures X(X(a, b), c) == X(a, X(b, c))
  {
  }

  lemma Comm32(a: bv32, b: bv32)
    ensures X(a, b) == X(b, a)
  {
  }

  lemma Self32(a: bv32, b: bv32)
    ensures X(X(a, b), b) == a && X(a, X(a, b)) == b
  {
  }

  lemma AndDistributes(a: bv32, b: bv32, k: bv32)
    ensures And(X(a, b), k) == X(And(a, k), And(b, k))
  {
  }

  lemma OrAsAnd(a: bv32, k: bv32)
    ensures Or(a, k) == X(And(a, Not(k)), k)
  {
  }

  lemma Rol1Distributes(a: bv32, b: bv32)
    ensures Rol1(X(a, b)) == X(Rol1(a), Rol1(b))
  {
  }

  lemma Ror8Distributes(a: bv32, b: bv32)
    ensures Ror8(X(a, b)) == X(Ror8(a), Ror8(b))
  {
  }

  lemma Ror8Undoes(a: bv32)
    ensures Ror8(Rol8(a)) == a
  {
  }

  lemma Swap32(a: bv32, b: bv32, c: bv32, d: bv32)
    ensures X(X(a, b), X(c, d)) == X(X(a, c), X(b, d))
  {
    hide X;
    Assoc32(a, b, X(c, d));
    Assoc32(b, c, d);
    Comm32(b, c);
    Assoc32(c, b, d);
    Assoc32(a, c, X(b, d));
  }

  lemma OrDistributes(a: bv32, b: bv32, k: bv32)
    ensures Or(X(a, b), k) == X(Or(a, k), And(b, Not(k)))
  {
    hide X, And, Or, Not;
    OrAsAnd(a, k);
    OrAsAnd(X(a, b), k);
    AndDistributes(a, b, Not(k));
    var p, q := And(a, Not(k)), And(b, Not(k));
    Assoc32(p, q, k);
    Comm32(q, k);
    Assoc32(p, k, q);
  }

  // ----- algebra of subkeys -----

  lemma XorSelf(x: Word, y: Word)
    ensures Xor(Xor(x, y), y) == x && Xor(x, Xor(x, y)) == y
  {
    hide X;
    Self32(x.l, y.l);
    Self32(x.r, y.r);
  }

  lemma XorComm(x: Word, y: Word)
    ensures Xor(x, y) == Xor(y, x)
  {
    hide X;
    Comm32(x.l, y.l);
    Comm32(x.r, y.r);
  }

  lemma XorZero(x: Word)
    ensures Xor(x, ZERO) == x
  {
  }

  lemma XorAssoc(x: Word, y: Word, z: Word)
    ensures Xor(Xor(x, y), z) == Xor(x, Xor(y, z))
  {
    hide X;
    Assoc32(x.l, y.l, z.l);
    Assoc32(x.r, y.r, z.r);
  }

  lemma XorSwap(x: Word, y: Word, z: Word)
    ensures Xor(Xor(x, y), z) == Xor(Xor(x, z), y)
  {
    hide Xor;
    XorAssoc(x, y, z);
    XorComm(y, z);
    XorAssoc(x, z, y);
  }

  // ----- FL layers -----

  /** A difference on the input of FLInv comes out changed by Carry. */
  lemma FLInvCarries(x: Word, d: Word, k: Word)
    ensures FLInv(Xor(x, d), k) == Xor(FLInv(x, k), Carry(d, k))
  {
    hide X, And, Or, Not, Rol1;
    OrDistributes(x.r, d.r, k.r);
    Swap32(x.l, d.l, Or(x.r, k.r), And(d.r, Not(k.r)));
    var l, m := X(x.l, Or(x.r, k.r)), X(d.l, And(d.r, Not(k.r)));
    AndDistributes(l, m, k.l);
    Rol1Distributes(And(l, k.l), And(m, k.l));
    Swap32(x.r, d.r, Rol1(And(l, k.l)), Rol1(And(m, k.l)));
  }

  lemma FLInverse(x: Word, k: Word)
    ensures FL(FLInv(x, k), k) == x && FLInv(FL(x, k), k) == x
  {
    hide X, And, Or, Rol1;
    var y := FLInv(x, k);
    Self32(x.r, Rol1(And(y.l, k.l)));
    Self32(x.l, Or(x.r, k.r));
    var z := FL(x, k);
    Self32(x.l, Or(z.r, k.r));
    Self32(x.r, Rol1(And(x.l, k.l)));
  }

  /** A difference wanted behind FL is Carry of it before FL. */
  lemma FLCarries(x: Word, d: Word, k: Word)
    ensures FL(Xor(x, Carry(d, k)), k) == Xor(FL(x, k), d)
  {
    hide FL, FLInv, Carry, Xor;
    FLInverse(x, k);
    FLInvCarries(FL(x, k), d, k);
    FLInverse(Xor(FL(x, k), d), k);
  }

  // ----- rounds -----

  function Flip(k: Word): Word { Word(k.r, k.l) }

  lemma SpreadUnspread(k: Word)
    ensures Spread(Flip(Unspread(k))) == k
  {
    hide X, Rol8, Ror8;
    var dw := Rol8(X(k.l, k.r));
    Self32(k.l, dw);
    Ror8Undoes(X(k.l, k.r));
    Comm32(k.l, k.r);
    Comm32(X(k.r, k.l), k.l);
    Self32(k.r, k.l);
  }

  lemma SpreadDistributes(v: Word, w: Word)
    ensures Spread(Xor(v, w)) == Xor(Spread(v), Spread(w))
  {
    hide X, Ror8;
    Swap32(v.l, w.l, v.r, w.r);
    Ror8Distributes(v.r, w.r);
    Swap32(Ror8(v.r), Ror8(w.r), X(v.l, v.r), X(w.l, w.r));
  }

  lemma RoundIsXor(t: Tables, y: Word, x: Word, k: Word)
    ensures RoundSm(t, y, x, k) == Xor(y, Spread(Xor(Lookup(t, x), Flip(k))))
  {
    hide X, Ror8, Lookup;
    var w := Lookup(t, x);
    Comm32(X(w.l, k.r), X(w.r, k.l));
    Comm32(w.l, k.r);
    Assoc32(X(w.r, k.l), k.r, w.l);
    Comm32(X(X(w.r, k.l), k.r), w.l);
  }

  lemma RoundUndone(t: Tables, y: Word, x: Word, k: Word)
    ensures RoundSm(t, RoundSm(t, y, x, k), x, k) == y
  {
    hide RoundSm, Xor, Spread, Lookup, Flip;
    RoundIsXor(t, y, x, k);
    RoundIsXor(t, RoundSm(t, y, x, k), x, k);
    XorSelf(y, Spread(Xor(Lookup(t, x), Flip(k))));
  }

  /** A key treated by Unspread and added inside the round comes out as a plain xor after F. */
  lemma RoundAdds(t: Tables, y: Word, x: Word, k: Word, z: Word)
    ensures RoundSm(t, y, Xor(x, k), Unspread(z)) == Xor(Step(t, y, x, k), z)
  {
    hide RoundSm, Unspread, Xor, Spread, Lookup, Flip;
    RoundIsXor(t, y, Xor(x, k), Unspread(z));
    SpreadDistributes(Lookup(t, Xor(x, k)), Flip(Unspread(z)));
    SpreadUnspread(z);
    XorAssoc(y, F(t, x, k), z);
  }

  // ----- whitening keys are absorbed -----

  lemma StepAbsorbs(t: Tables, y: Word, x: Word, k: Word, dy: Word, dx: Word)
    ensures Step(t, Xor(y, dy), Xor(x, dx), Xor(k, dx)) == Xor(Step(t, y, x, k), dy)
  {
    hide Xor, Spread, Lookup;
    XorSwap(x, dx, Xor(k, dx));
    XorAssoc(x, k, dx);
    XorSelf(Xor(x, k), dx);
    XorSwap(y, dy, F(t, x, k));
  }

  ghost function Shifted(m: Block, e: Word, d: Word): Block { Block(Xor(m.a, e), Xor(m.b, d)) }

  lemma SixAbsorb(t: Tables, s: seq<Word>, r: seq<Word>, i: nat, m: Block, e: Word, d: Word)
    requires |s| == |r| && i + 8 <= |s|
    requires r[i+2] == Xor(s[i+2], e) && r[i+4] == Xor(s[i+4], e) && r[i+6] == Xor(s[i+6], e)
    requires r[i+3] == Xor(s[i+3], d) && r[i+5] == Xor(s[i+5], d) && r[i+7] == Xor(s[i+7], d)
    ensures SixRounds(t, r, i, Shifted(m, e, d)) == Shifted(SixRounds(t, s, i, m), e, d)
  {
    hide Step, Xor;
    var b1 := Step(t, m.b, m.a, s[i+2]);
    StepAbsorbs(t, m.b, m.a, s[i+2], d, e);
    var a1 := Step(t, m.a, b1, s[i+3]);
    StepAbsorbs(t, m.a, b1, s[i+3], e, d);
    var b2 := Step(t, b1, a1, s[i+4]);
    StepAbsorbs(t, b1, a1, s[i+4], d, e);
    var a2 := Step(t, a1, b2, s[i+5]);
    StepAbsorbs(t, a1, b2, s[i+5], e, d);
    var b3 := Step(t, b2, a2, s[i+6]);
    StepAbsorbs(t, b2, a2, s[i+6], d, e);
    StepAbsorbs(t, a2, b3, s[i+7], e, d);
  }

  lemma Slot(j: nat, c: nat)
    requires c < 8
    ensures (8 * j + c) / 8 == j && (8 * j + c) % 8 == c && (8 * j + c) % 2 == c % 2
  {
  }

  lemma AbsorbedKey(s: seq<Word>, n: nat, j: nat, c: nat)
    requires Sized(s, n) && j < n && c < 8
    ensures Absorbed(s, n)[8*j+c] == AbsorbedAt(s, n, 8*j+c)
    ensures c >= 2 ==> AbsorbedAt(s, n, 8*j+c) == Xor(s[8*j+c], if c % 2 == 0 then Up(s, n, j) else Down(s, j))
    ensures c < 2 && j > 0 ==> AbsorbedAt(s, n, 8*j+c) == s[8*j+c]
  {
    hide Xor, Up, Down;
    Slot(j, c);
  }

  lemma AbsorbedKeys(s: seq<Word>, n: nat, j: nat)
    requires Sized(s, n) && j < n
    ensures var r, i := Absorbed(s, n), 8 * j;
            && r[i+2] == Xor(s[i+2], Up(s, n, j)) && r[i+4] == Xor(s[i+4], Up(s, n, j)) && r[i+6] == Xor(s[i+6], Up(s, n, j))
            && r[i+3] == Xor(s[i+3], Down(s, j)) && r[i+5] == Xor(s[i+5], Down(s, j)) && r[i+7] == Xor(s[i+7], Down(s, j))
            && (j > 0 ==> r[i] == s[i] && r[i+1] == s[i+1])
  {
    hide *;
    AbsorbedKey(s, n, j, 0);
    AbsorbedKey(s, n, j, 1);
    AbsorbedKey(s, n, j, 2);
    AbsorbedKey(s, n, j, 3);
    AbsorbedKey(s, n, j, 4);
    AbsorbedKey(s, n, j, 5);
    AbsorbedKey(s, n, j, 6);
    AbsorbedKey(s, n, j, 7);
  }

  lemma {:induction false} GroupsAbsorb(t: Tables, s: seq<Word>, n: nat, j: nat, m: Block)
    requires Sized(s, n) && 1 <= j <= n
    ensures Groups(t, Absorbed(s, n), j, Shifted(m, Up(s, n, 0), s[1]))
         == Shifted(Groups(t, s, j, m), Up(s, n, j-1), Down(s, j-1))
    decreases j
  {
    hide SixRounds, Xor, FL, FLInv, Carry, Absorbed;
    var r, i := Absorbed(s, n), 8 * (j-1);
    AbsorbedKeys(s, n, j-1);
    if j > 1 {
      GroupsAbsorb(t, s, n, j-1, m);
      var c := Groups(t, s, j-1, m);
      FLCarries(c.a, Up(s, n, j-1), s[i]);
      FLInvCarries(c.b, Down(s, j-2), s[i+1]);
      SixAbsorb(t, s, r, i, FLLayer(s, i, c), Up(s, n, j-1), Down(s, j-1));
    } else {
      SixAbsorb(t, s, r, i, m, Up(s, n, 0), Down(s, 0));
    }
  }

  /** The subkeys with kw2 and kw4 absorbed give the same cipher. */
  lemma AbsorbedSame(t: Tables, s: seq<Word>, n: nat, m: Block)
    requires Sized(s, n)
    ensures Encrypt(t, Absorbed(s, n), n, m) == Encrypt(t, s, n, m)
  {
    var r := Absorbed(s, n);
    assert r[0] == Xor(s[0], Up(s, n, 0)) && r[1] == ZERO && r[8*n+1] == ZERO && r[8*n] == Xor(s[8*n], Down(s, n-1));
    hide Groups, Xor, Carry, Absorbed;
    var w := Block(Xor(m.a, s[0]), Xor(m.b, s[1]));
    GroupsAbsorb(t, s, n, n, w);
    XorAssoc(m.a, s[0], Up(s, n, 0));
    XorZero(m.b);
    XorSelf(m.b, s[1]);
    var c := Groups(t, s, n, w);
    XorZero(Xor(c.a, s[8*n+1]));
    XorSwap(c.b, Down(s, n-1), Xor(s[8*n], Down(s, n-1)));
    XorAssoc(c.b, s[8*n], Down(s, n-1));
    XorSelf(Xor(c.b, s[8*n]), Down(s, n-1));
  }

  // ----- round keys are moved behind F -----

  /** If `y` still carries `pre` and `x` its own key, the round leaves `post` on `y`. */
  lemma RoundMoves(t: Tables, y: Word, x: Word, k: Word, pre: Word, post: Word)
    ensures RoundSm(t, Xor(y, pre), Xor(x, k), Unspread(Xor(pre, post))) == Xor(Step(t, y, x, k), post)
  {
    hide RoundSm, Xor, Unspread, F;
    RoundAdds(t, Xor(y, pre), x, k, Xor(pre, post));
    var f := F(t, x, k);
    XorSwap(y, pre, f);
    XorAssoc(Xor(y, f), pre, Xor(pre, post));
    XorSelf(pre, post);
  }

  lemma SixMove(t: Tables, s: seq<Word>, u: seq<Word>, i: nat, m: Block, c: Word, f: Word)
    requires |s| == |u| && i + 8 <= |s|
    requires u[i+2] == Unspread(Xor(c, s[i+3])) && u[i+3] == Unspread(Xor(s[i+2], s[i+4]))
    requires u[i+4] == Unspread(Xor(s[i+3], s[i+5])) && u[i+5] == Unspread(Xor(s[i+4], s[i+6]))
    requires u[i+6] == Unspread(Xor(s[i+5], s[i+7])) && u[i+7] == Unspread(Xor(s[i+6], f))
    ensures SixSm(t, u, i, Shifted(m, s[i+2], c)) == Shifted(SixRounds(t, s, i, m), f, s[i+7])
  {
    hide Step, RoundSm, Xor, Unspread;
    var b1 := Step(t, m.b, m.a, s[i+2]);
    RoundMoves(t, m.b, m.a, s[i+2], c, s[i+3]);
    var a1 := Step(t, m.a, b1, s[i+3]);
    RoundMoves(t, m.a, b1, s[i+3], s[i+2], s[i+4]);
    var b2 := Step(t, b1, a1, s[i+4]);
    RoundMoves(t, b1, a1, s[i+4], s[i+3], s[i+5]);
    var a2 := Step(t, a1, b2, s[i+5]);
    RoundMoves(t, a1, b2, s[i+5], s[i+4], s[i+6]);
    var b3 := Step(t, b2, a2, s[i+6]);
    RoundMoves(t, b2, a2, s[i+6], s[i+5], s[i+7]);
    RoundMoves(t, a2, b3, s[i+7], s[i+6], f);
  }

  /** What the right half carries into group j, and the left half out of it. */
  ghost function InKey(s: seq<Word>, j: nat): Word
    requires 8 * j + 2 <= |s|
  {
    if j == 0 then ZERO else Carry(s[8*j-1], s[8*j+1])
  }

  ghost function OutKey(s: seq<Word>, n: nat, j: nat): Word
    requires Sized(s, n) && j < n
  {
    if j == n-1 then ZERO else Carry(s[8*j+10], s[8*j+8])
  }

  lemma MovedKey(s: seq<Word>, n: nat, j: nat, c: nat)
    requires Sized(s, n) && j < n && c < 8
    ensures Moved(s, n)[8*j+c] == FinalAt(s, n, 8*j+c)
    ensures 2 < c < 7 ==> FinalAt(s, n, 8*j+c) == Unspread(Xor(s[8*j+c-1], s[8*j+c+1]))
    ensures c == 2 ==> FinalAt(s, n, 8*j+c) == Unspread(Xor(InKey(s, j), s[8*j+3]))
    ensures c == 7 ==> FinalAt(s, n, 8*j+c) == Unspread(Xor(s[8*j+6], OutKey(s, n, j)))
    ensures c < 2 && j > 0 ==> FinalAt(s, n, 8*j+c) == s[8*j+c]
  {
    hide Unspread, Xor, Carry;
    Slot(j, c);
    XorComm(ZERO, s[8*j+3]);
    XorZero(s[8*j+3]);
    XorZero(s[8*j+6]);
  }

  lemma MovedKeys(s: seq<Word>, n: nat, j: nat)
    requires Sized(s, n) && j < n
    ensures var u, i := Moved(s, n), 8 * j;
            && u[i+2] == Unspread(Xor(InKey(s, j), s[i+3])) && u[i+3] == Unspread(Xor(s[i+2], s[i+4]))
            && u[i+4] == Unspread(Xor(s[i+3], s[i+5])) && u[i+5] == Unspread(Xor(s[i+4], s[i+6]))
            && u[i+6] == Unspread(Xor(s[i+5], s[i+7])) && u[i+7] == Unspread(Xor(s[i+6], OutKey(s, n, j)))
            && (j > 0 ==> u[i] == s[i] && u[i+1] == s[i+1])
  {
    hide *;
    MovedKey(s, n, j, 0);
    MovedKey(s, n, j, 1);
    MovedKey(s, n, j, 2);
    MovedKey(s, n, j, 3);
    MovedKey(s, n, j, 4);
    MovedKey(s, n, j, 5);
    MovedKey(s, n, j, 6);
    MovedKey(s, n, j, 7);
  }

  lemma {:induction false} GroupsMove(t: Tables, s: seq<Word>, n: nat, j: nat, m: Block)
    requires Sized(s, n) && 1 <= j <= n
    ensures GroupsSm(t, Moved(s, n), j, Shifted(m, s[2], ZERO))
         == Shifted(Groups(t, s, j, m), OutKey(s, n, j-1), s[8*j-1])
    decreases j
  {
    hide SixRounds, SixSm, Xor, FL, FLInv, Carry, Moved;
    var u, i := Moved(s, n), 8 * (j-1);
    MovedKeys(s, n, j-1);
    if j > 1 {
      GroupsMove(t, s, n, j-1, m);
      var c := Groups(t, s, j-1, m);
      FLCarries(c.a, s[i+2], s[i]);
      FLInvCarries(c.b, s[i-1], s[i+1]);
      SixMove(t, s, u, i, FLLayer(s, i, c), InKey(s, j-1), OutKey(s, n, j-1));
    } else {
      SixMove(t, s, u, i, m, ZERO, OutKey(s, n, 0));
    }
  }

  lemma MovedSame(t: Tables, s: seq<Word>, n: nat, m: Block)
    requires Sized(s, n) && s[1] == ZERO && s[8*n+1] == ZERO
    ensures EncryptSm(t, Moved(s, n), n, m) == Encrypt(t, s, n, m)
  {
    var u := Moved(s, n);
    assert u[0] == Xor(s[0], s[2]) && u[8*n] == Xor(s[8*n], s[8*n-1]);
    hide Groups, GroupsSm, Xor, Moved;
    var w := Block(Xor(m.a, s[0]), Xor(m.b, s[1]));
    GroupsMove(t, s, n, n, w);
    XorAssoc(m.a, s[0], s[2]);
    XorZero(m.b);
    var c := Groups(t, s, n, w);
    XorZero(c.a);
    XorSwap(c.b, s[8*n-1], Xor(s[8*n], s[8*n-1]));
    XorAssoc(c.b, s[8*n], s[8*n-1]);
    XorSelf(Xor(c.b, s[8*n]), s[8*n-1]);
  }

  /** camellia_setup_tail then camellia_do_encrypt is the cipher of RFC 3713, section 2.3. */
  lemma EncryptsAsSpecified(t: Tables, s: seq<Word>, n: nat, m: Block)
    requires Sized(s, n)
    ensures EncryptSm(t, Moved(Absorbed(s, n), n), n, m) == Encrypt(t, s, n, m)
  {
    assert Absorbed(s, n)[1] == ZERO && Absorbed(s, n)[8*n+1] == ZERO;
    hide *;
    MovedSame(t, Absorbed(s, n), n, m);
    AbsorbedSame(t, s, n, m);
  }

  // ----- decryption -----

  function Swapped(m: Block): Block { Block(m.b, m.a) }

  lemma SixUndone(t: Tables, u: seq<Word>, i: nat, m: Block)
    requires i + 8 <= |u|
    ensures SixBack(t, u, i, Swapped(SixSm(t, u, i, m))) == Swapped(m)
  {
    hide RoundSm;
    var b1 := RoundSm(t, m.b, m.a, u[i+2]);
    RoundUndone(t, m.b, m.a, u[i+2]);
    var a1 := RoundSm(t, m.a, b1, u[i+3]);
    RoundUndone(t, m.a, b1, u[i+3]);
    var b2 := RoundSm(t, b1, a1, u[i+4]);
    RoundUndone(t, b1, a1, u[i+4]);
    var a2 := RoundSm(t, a1, b2, u[i+5]);
    RoundUndone(t, a1, b2, u[i+5]);
    var b3 := RoundSm(t, b2, a2, u[i+6]);
    RoundUndone(t, b2, a2, u[i+6]);
    RoundUndone(t, a2, b3, u[i+7]);
  }

  lemma {:induction false} GroupsUndone(t: Tables, u: seq<Word>, n: nat, m: Block)
    requires 1 <= n && 8 * n <= |u|
    ensures GroupsBack(t, u, n, Swapped(GroupsSm(t, u, n, m))) == Swapped(m)
  {
    hide SixSm, SixBack, FL, FLInv;
    if n == 1 {
      SixUndone(t, u, 0, m);
    } else {
      var i, c := 8 * (n-1), GroupsSm(t, u, n-1, m);
      SixUndone(t, u, i, FLLayer(u, i, c));
      FLInverse(c.a, u[i]);
      FLInverse(c.b, u[i+1]);
      GroupsUndone(t, u, n-1, m);
    }
  }

  /** camellia_do_decrypt undoes camellia_do_encrypt for any subkey table whatever. */
  lemma DecryptUndoes(t: Tables, u: seq<Word>, n: nat, m: Block)
    requires Sized(u, n)
    ensures DecryptSm(t, u, n, EncryptSm(t, u, n, m)) == m
  {
    hide GroupsSm, GroupsBack, Xor;
    var w := Block(Xor(m.a, u[0]), m.b);
    var c := GroupsSm(t, u, n, w);
    XorSelf(c.b, u[8*n]);
    GroupsUndone(t, u, n, w);
    XorSelf(m.a, u[0]);
  }

  lemma SixRedone(t: Tables, u: seq<Word>, i: nat, m: Block)
    requires i + 8 <= |u|
    ensures SixSm(t, u, i, Swapped(SixBack(t, u, i, m))) == Swapped(m)
  {
    hide RoundSm;
    var b1 := RoundSm(t, m.b, m.a, u[i+7]);
    RoundUndone(t, m.b, m.a, u[i+7]);
    var a1 := RoundSm(t, m.a, b1, u[i+6]);
    RoundUndone(t, m.a, b1, u[i+6]);
    var b2 := RoundSm(t, b1, a1, u[i+5]);
    RoundUndone(t, b1, a1, u[i+5]);
    var a2 := RoundSm(t, a1, b2, u[i+4]);
    RoundUndone(t, a1, b2, u[i+4]);
    var b3 := RoundSm(t, b2, a2, u[i+3]);
    RoundUndone(t, b2, a2, u[i+3]);
    RoundUndone(t, a2, b3, u[i+2]);
  }

  lemma {:induction false} GroupsRedone(t: Tables, u: seq<Word>, n: nat, m: Block)
    requires 1 <= n && 8 * n <= |u|
    ensures GroupsSm(t, u, n, Swapped(GroupsBack(t, u, n, m))) == Swapped(m)
  {
    hide SixSm, SixBack, FL, FLInv;
    if n == 1 {
      SixRedone(t, u, 0, m);
    } else {
      var i := 8 * (n-1);
      var c := SixBack(t, u, i, m);
      GroupsRedone(t, u, n-1, FLBack(u, i, c));
      FLInverse(c.a, u[i+1]);
      FLInverse(c.b, u[i]);
      SixRedone(t, u, i, m);
    }
  }

  /** And camellia_do_encrypt undoes camellia_do_decrypt, so both are permutations of the blocks. */
  lemma EncryptUndoes(t: Tables, u: seq<Word>, n: nat, m: Block)
    requires Sized(u, n)
    ensures EncryptSm(t, u, n, DecryptSm(t, u, n, m)) == m
  {
    hide GroupsSm, GroupsBack, Xor;
    var w := Block(Xor(m.a, u[8*n]), m.b);
    var c := GroupsBack(t, u, n, w);
    XorSelf(c.b, u[0]);
    GroupsRedone(t, u, n, w);
    XorSelf(m.a, u[8*n]);
  }

  /** With the subkeys of the setup, decryption inverts the cipher of RFC 3713. */
  lemma DecryptsAsSpecified(t: Tables, s: seq<Word>, n: nat, m: Block)
    requires Sized(s, n)
    ensures var u := Moved(Absorbed(s, n), n);
            DecryptSm(t, u, n, Encrypt(t, s, n, m)) == m && Encrypt(t, s, n, DecryptSm(t, u, n, m)) == m
  {
    hide DecryptSm, EncryptSm, Encrypt, Moved, Absorbed;
    var u := Moved(Absorbed(s, n), n);
    EncryptsAsSpecified(t, s, n, m);
    EncryptsAsSpecified(t, s, n, DecryptSm(t, u, n, m));
    DecryptUndoes(t, u, n, m);
    EncryptUndoes(t, u, n, m);
  }

  // ----- entries the rounds never read -----

  ghost predicate Agree(u: seq<Word>, v: seq<Word>, n: nat) {
    |u| == |v| && forall p :: 0 <= p < |u| && p != 1 && p != 8*n+1 ==> u[p] == v[p]
  }

  lemma {:induction false} GroupsAgree(t: Tables, u: seq<Word>, v: seq<Word>, n: nat, j: nat, m: Block)
    requires Sized(u, n) && Agree(u, v, n) && 1 <= j <= n
    ensures GroupsSm(t, u, j, m) == GroupsSm(t, v, j, m) && GroupsBack(t, u, j, m) == GroupsBack(t, v, j, m)
    decreases j
  {
    hide RoundSm, FL, FLInv;
    if j > 1 {
      GroupsAgree(t, u, v, n, j-1, m);
      GroupsAgree(t, u, v, n, j-1, FLBack(u, 8 * (j-1), SixBack(t, u, 8 * (j-1), m)));
    }
  }

  /** The entries at the places of kw2 and kw4 do not matter to the code's rounds. */
  lemma OthersUnread(t: Tables, u: seq<Word>, v: seq<Word>, n: nat, m: Block)
    requires Sized(u, n) && Agree(u, v, n)
    ensures EncryptSm(t, u, n, m) == EncryptSm(t, v, n, m) && DecryptSm(t, u, n, m) == DecryptSm(t, v, n, m)
  {
    hide GroupsSm, GroupsBack, Xor;
    GroupsAgree(t, u, v, n, n, Block(Xor(m.a, u[0]), m.b));
    GroupsAgree(t, u, v, n, n, Block(Xor(m.a, u[8*n]), m.b));
  }
}
