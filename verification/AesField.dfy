/**
 * Bytes, words and the column arithmetic of the AES code.
 *
 * A byte is its eight bits and a 32-bit word is its four bytes, lowest first.
 * Doubling in the field of the cipher is what `star_x` does to each byte of a
 * word (common/crypto/aes_generic.c:1128).  The two column mixings are related
 * through one map, Pair: mixing twice is Pair, Pair undoes itself, and the
 * inverse mixing is Pair followed by mixing.
 */
module AesField {

  datatype Byte = Byte(b0: bool, b1: bool, b2: bool, b3: bool, b4: bool, b5: bool, b6: bool, b7: bool)

  const ZERO := Byte(false, false, false, false, false, false, false, false)

  function Xor(x: Byte, y: Byte): Byte {
    Byte(x.b0 != y.b0, x.b1 != y.b1, x.b2 != y.b2, x.b3 != y.b3,
         x.b4 != y.b4, x.b5 != y.b5, x.b6 != y.b6, x.b7 != y.b7)
  }

  // Shift left by one; a bit falling off the top comes back as 0x1b.
  function Twice(x: Byte): Byte {
    Byte(x.b7, x.b0 != x.b7, x.b1, x.b2 != x.b7, x.b3 != x.b7, x.b4, x.b5, x.b6)
  }

  // ---------------------------------------------------------------- exclusive or

  lemma Assoc(a: Byte, b: Byte, c: Byte)
    ensures Xor(Xor(a, b), c) == Xor(a, Xor(b, c))
  {
  }

  lemma Comm(a: Byte, b: Byte)
    ensures Xor(a, b) == Xor(b, a)
  {
  }

  lemma Undone(a: Byte, b: Byte)
    ensures Xor(a, Xor(a, b)) == b
  {
  }

  lemma Alike(a: Byte)
    ensures Xor(a, a) == ZERO
  {
  }

  lemma Zero(a: Byte)
    ensures Xor(a, ZERO) == a
  {
  }

  lemma Twofold(a: Byte, b: Byte)
    ensures Twice(Xor(a, b)) == Xor(Twice(a), Twice(b))
  {
  }

  lemma Middle(a: Byte, b: Byte, c: Byte, d: Byte)
    ensures Xor(Xor(a, b), Xor(c, d)) == Xor(Xor(a, c), Xor(b, d))
  {
  }

  lemma Shared(a: Byte, b: Byte, s: Byte)
    ensures Xor(Xor(a, s), Xor(b, s)) == Xor(a, b)
    ensures Xor(Xor(a, s), Xor(s, b)) == Xor(a, b)
  {
  }

  // ---------------------------------------------------------------- mixing a column

  function Sum(a: Byte, b: Byte, c: Byte, d: Byte): Byte {
    Xor(Xor(a, b), Xor(c, d))
  }

  // The first byte of a mixed column: 2a + 3b + c + d.
  function Mix(a: Byte, b: Byte, c: Byte, d: Byte): Byte {
    Xor(Xor(Xor(Twice(a), Xor(Twice(b), b)), c), d)
  }

  // The first byte of a column after Pair: a + 4(a + c).
  function Pair(a: Byte, c: Byte): Byte {
    Xor(a, Twice(Twice(Xor(a, c))))
  }

  lemma SumTurns(a: Byte, b: Byte, c: Byte, d: Byte)
    ensures Sum(b, c, d, a) == Sum(a, b, c, d)
  {
    hide Xor;
    Comm(Xor(b, c), Xor(d, a));
    Comm(d, a);
    Middle(a, d, b, c);
    Comm(d, c);
  }

  // 2a + 3b + c + d is a, the sum of the column, and twice a + b.
  lemma MixAsSum(a: Byte, b: Byte, c: Byte, d: Byte)
    ensures Mix(a, b, c, d) == Xor(Xor(a, Sum(a, b, c, d)), Twice(Xor(a, b)))
  {
    hide Xor, Twice;
    var ta, tb, cd := Twice(a), Twice(b), Xor(c, d);
    Twofold(a, b);
    Assoc(Xor(ta, Xor(tb, b)), c, d);
    Assoc(ta, tb, b);
    Assoc(a, b, cd);
    Undone(a, Xor(b, cd));
    Assoc(Xor(ta, tb), b, cd);
    Comm(Xor(ta, tb), Xor(b, cd));
  }

  // Neighbouring bytes of a mixed column differ by a + b + 2(a + c).
  lemma MixStep(a: Byte, b: Byte, c: Byte, d: Byte)
    ensures Xor(Mix(a, b, c, d), Mix(b, c, d, a)) == Xor(Xor(a, b), Twice(Xor(a, c)))
  {
    hide Xor, Twice, Mix, Sum;
    var s := Sum(a, b, c, d);
    MixAsSum(a, b, c, d);
    MixAsSum(b, c, d, a);
    SumTurns(a, b, c, d);
    Middle(Xor(a, s), Twice(Xor(a, b)), Xor(b, s), Twice(Xor(b, c)));
    Shared(a, b, s);
    Twofold(Xor(a, b), Xor(b, c));
    Shared(a, c, b);
  }

  // Mixing keeps the sum of a column.
  lemma MixKeepsSum(a: Byte, b: Byte, c: Byte, d: Byte)
    ensures Sum(Mix(a, b, c, d), Mix(b, c, d, a), Mix(c, d, a, b), Mix(d, a, b, c)) == Sum(a, b, c, d)
  {
    hide Xor, Twice, Mix;
    MixStep(a, b, c, d);
    MixStep(c, d, a, b);
    Comm(c, a);
    Shared(Xor(a, b), Xor(c, d), Twice(Xor(a, c)));
  }

  lemma MixTwice(a: Byte, b: Byte, c: Byte, d: Byte)
    ensures Mix(Mix(a, b, c, d), Mix(b, c, d, a), Mix(c, d, a, b), Mix(d, a, b, c)) == Pair(a, c)
  {
    hide Xor, Twice, Mix, Sum;
    var s, t, v := Sum(a, b, c, d), Twice(Xor(a, b)), Twice(Twice(Xor(a, c)));
    var m := Mix(a, b, c, d);
    MixAsSum(m, Mix(b, c, d, a), Mix(c, d, a, b), Mix(d, a, b, c));
    MixKeepsSum(a, b, c, d);
    MixStep(a, b, c, d);
    Twofold(Xor(a, b), Twice(Xor(a, c)));
    assert Mix(m, Mix(b, c, d, a), Mix(c, d, a, b), Mix(d, a, b, c)) == Xor(Xor(m, s), Xor(t, v));
    MixAsSum(a, b, c, d);
    Cancels(a, s, t, v);
  }

  lemma Cancels(a: Byte, s: Byte, t: Byte, v: Byte)
    ensures Xor(Xor(Xor(Xor(a, s), t), s), Xor(t, v)) == Xor(a, v)
  {
    hide Xor;
    Assoc(a, s, t);
    Comm(s, t);
    Assoc(a, t, s);
    Assoc(Xor(a, t), s, s);
    Alike(s);
    Zero(Xor(a, t));
    Shared(a, v, t);
  }

  lemma PairTwice(a: Byte, c: Byte)
    ensures Pair(Pair(a, c), Pair(c, a)) == a
  {
    hide Xor, Twice;
    var v := Twice(Twice(Xor(a, c)));
    Comm(a, c);
    Shared(a, c, v);
    Assoc(a, v, v);
    Alike(v);
    Zero(a);
  }

  // ---------------------------------------------------------------- undoing the mixing

  function Times9(x: Byte): Byte { Xor(Twice(Twice(Twice(x))), x) }

  function TimesB(x: Byte): Byte { Xor(Twice(x), Times9(x)) }

  function TimesD(x: Byte): Byte { Xor(Twice(Twice(x)), Times9(x)) }

  function TimesE(x: Byte): Byte { Xor(Xor(Twice(x), Twice(Twice(x))), Twice(Twice(Twice(x)))) }

  // The first byte of a column after the inverse mixing: 14a + 11b + 13c + 9d.
  function Unmix(a: Byte, b: Byte, c: Byte, d: Byte): Byte {
    Xor(Xor(Xor(TimesE(a), TimesB(b)), TimesD(c)), Times9(d))
  }

  lemma Regroup(a1: Byte, a2: Byte, a3: Byte, b1: Byte, b3: Byte, b: Byte, c2: Byte, c3: Byte, c: Byte, d3: Byte,
                d: Byte)
    ensures Xor(Xor(Xor(Xor(Xor(a1, a2), a3), Xor(b1, Xor(b3, b))), Xor(c2, Xor(c3, c))), Xor(d3, d))
         == Xor(Xor(a1, b1), Xor(Xor(a2, c2), Xor(Xor(Xor(a3, b3), Xor(c3, d3)), Xor(b, Xor(c, d)))))
  {
    hide Xor;
    Assoc(a1, a2, a3);
    Middle(a1, Xor(a2, a3), b1, Xor(b3, b));
    Assoc(a2, a3, Xor(b3, b));
    Assoc(a3, b3, b);
    var ab := Xor(a2, Xor(Xor(a3, b3), b));
    Assoc(c2, Xor(c3, c), Xor(d3, d));
    Middle(c3, c, d3, d);
    var cd := Xor(c2, Xor(Xor(c3, d3), Xor(c, d)));
    Assoc(Xor(Xor(a1, b1), ab), Xor(c2, Xor(c3, c)), Xor(d3, d));
    Assoc(Xor(a1, b1), ab, cd);
    Middle(a2, Xor(Xor(a3, b3), b), c2, Xor(Xor(c3, d3), Xor(c, d)));
    Middle(Xor(a3, b3), b, Xor(c3, d3), Xor(c, d));
  }

  // 14a + 11b + 13c + 9d is 2(a + b), 4(a + c), 8 times the whole sum, and b + c + d.
  lemma UnmixAsSum(a: Byte, b: Byte, c: Byte, d: Byte)
    ensures Unmix(a, b, c, d)
         == Xor(Twice(Xor(a, b)), Xor(Twice(Twice(Xor(a, c))),
                                      Xor(Twice(Twice(Twice(Sum(a, b, c, d)))), Xor(b, Xor(c, d)))))
  {
    hide Xor, Twice;
    Twofold(a, b);
    Twofold(a, c);
    Twofold(Twice(a), Twice(c));
    Twofold(c, d);
    Twofold(Xor(a, b), Xor(c, d));
    Twofold(Twice(a), Twice(b));
    Twofold(Twice(c), Twice(d));
    Twofold(Twice(Xor(a, b)), Twice(Xor(c, d)));
    Twofold(Twice(Twice(a)), Twice(Twice(b)));
    Twofold(Twice(Twice(c)), Twice(Twice(d)));
    Twofold(Twice(Twice(Xor(a, b))), Twice(Twice(Xor(c, d))));
    Regroup(Twice(a), Twice(Twice(a)), Twice(Twice(Twice(a))), Twice(b), Twice(Twice(Twice(b))), b,
            Twice(Twice(c)), Twice(Twice(Twice(c))), c, Twice(Twice(Twice(d))), d);
  }

  // The inverse mixing is Pair, then mixing.
  lemma UnmixIsPairMixed(a: Byte, b: Byte, c: Byte, d: Byte)
    ensures Unmix(a, b, c, d) == Mix(Pair(a, c), Pair(b, d), Pair(c, a), Pair(d, b))
  {
    hide Xor, Twice, Mix, Unmix;
    var s, v, w := Sum(a, b, c, d), Twice(Twice(Xor(a, c))), Twice(Twice(Xor(b, d)));
    UnmixAsSum(a, b, c, d);
    MixAsSum(Pair(a, c), Pair(b, d), Pair(c, a), Pair(d, b));
    Comm(a, c);
    Comm(b, d);
    Middle(a, v, b, w);
    Middle(c, v, d, w);
    Shared(Xor(a, b), Xor(c, d), Xor(v, w));
    Twofold(Xor(a, c), Xor(b, d));
    Twofold(Twice(Xor(a, c)), Twice(Xor(b, d)));
    Middle(a, b, c, d);
    Twofold(Xor(a, b), Xor(v, w));
    PairMixed(a, b, Xor(c, d), v, Twice(Xor(a, b)), Twice(Twice(Twice(s))));
  }

  lemma PairMixed(a: Byte, b: Byte, cd: Byte, v: Byte, t: Byte, e: Byte)
    ensures Xor(Xor(Xor(a, v), Xor(Xor(a, b), cd)), Xor(t, e)) == Xor(t, Xor(v, Xor(e, Xor(b, cd))))
  {
    hide Xor;
    var r := Xor(b, cd);
    Assoc(a, b, cd);
    Comm(a, v);
    Assoc(v, a, Xor(a, r));
    Undone(a, r);
    Comm(Xor(v, r), Xor(t, e));
    Assoc(t, e, Xor(v, r));
    Comm(v, r);
    Assoc(e, r, v);
    Comm(Xor(e, r), v);
  }

  // The inverse mixing undoes mixing: it is mixing three times over, and Pair twice is nothing.
  lemma UnmixUndoesMix(a: Byte, b: Byte, c: Byte, d: Byte)
    ensures Unmix(Mix(a, b, c, d), Mix(b, c, d, a), Mix(c, d, a, b), Mix(d, a, b, c)) == a
  {
    hide Xor, Twice, Mix, Unmix, Pair;
    var m0, m1, m2, m3 := Mix(a, b, c, d), Mix(b, c, d, a), Mix(c, d, a, b), Mix(d, a, b, c);
    UnmixIsPairMixed(m0, m1, m2, m3);
    MixTwice(m0, m1, m2, m3);
    MixTwice(m1, m2, m3, m0);
    MixTwice(m2, m3, m0, m1);
    MixTwice(m3, m0, m1, m2);
    MixTwice(a, b, c, d);
    MixTwice(b, c, d, a);
    MixTwice(c, d, a, b);
    MixTwice(d, a, b, c);
    var p0, p1, p2, p3 := Pair(a, c), Pair(b, d), Pair(c, a), Pair(d, b);
    assert Pair(m0, m2) == Mix(p0, p1, p2, p3);
    MixTwice(p0, p1, p2, p3);
    PairTwice(a, c);
  }

  lemma TimesAdds(a: Byte, b: Byte)
    ensures Times9(Xor(a, b)) == Xor(Times9(a), Times9(b))
    ensures TimesB(Xor(a, b)) == Xor(TimesB(a), TimesB(b))
    ensures TimesD(Xor(a, b)) == Xor(TimesD(a), TimesD(b))
    ensures TimesE(Xor(a, b)) == Xor(TimesE(a), TimesE(b))
  {
    hide Xor, Twice;
    var a1, a2, b1, b2 := Twice(a), Twice(Twice(a)), Twice(b), Twice(Twice(b));
    Twofold(a, b);
    Twofold(a1, b1);
    Twofold(a2, b2);
    Middle(Twice(a2), a, Twice(b2), b);
    Middle(a1, Times9(a), b1, Times9(b));
    Middle(a2, Times9(a), b2, Times9(b));
    Middle(a1, a2, b1, b2);
    Middle(Xor(a1, a2), Twice(a2), Xor(b1, b2), Twice(b2));
  }

  lemma UnmixAdds(a: Byte, b: Byte, c: Byte, d: Byte, e: Byte, f: Byte, g: Byte, h: Byte)
    ensures Unmix(Xor(a, e), Xor(b, f), Xor(c, g), Xor(d, h)) == Xor(Unmix(a, b, c, d), Unmix(e, f, g, h))
  {
    hide Xor, Times9, TimesB, TimesD, TimesE;
    TimesAdds(a, e);
    TimesAdds(b, f);
    TimesAdds(c, g);
    TimesAdds(d, h);
    Middle(TimesE(a), TimesB(b), TimesE(e), TimesB(f));
    Middle(Xor(TimesE(a), TimesB(b)), TimesD(c), Xor(TimesE(e), TimesB(f)), TimesD(g));
    Middle(Xor(Xor(TimesE(a), TimesB(b)), TimesD(c)), Times9(d), Xor(Xor(TimesE(e), TimesB(f)), TimesD(g)), Times9(h));
  }

  // ---------------------------------------------------------------- words

  datatype Word = Word(w0: Byte, w1: Byte, w2: Byte, w3: Byte)

  function Add(x: Word, y: Word): Word {
    Word(Xor(x.w0, y.w0), Xor(x.w1, y.w1), Xor(x.w2, y.w2), Xor(x.w3, y.w3))
  }

  // ror32(x, 8)
  function Ror(x: Word): Word { Word(x.w1, x.w2, x.w3, x.w0) }

  function TwiceWord(x: Word): Word { Word(Twice(x.w0), Twice(x.w1), Twice(x.w2), Twice(x.w3)) }

  function MixWord(x: Word): Word {
    Word(Mix(x.w0, x.w1, x.w2, x.w3), Mix(x.w1, x.w2, x.w3, x.w0), Mix(x.w2, x.w3, x.w0, x.w1),
         Mix(x.w3, x.w0, x.w1, x.w2))
  }

  function UnmixWord(x: Word): Word {
    Word(Unmix(x.w0, x.w1, x.w2, x.w3), Unmix(x.w1, x.w2, x.w3, x.w0), Unmix(x.w2, x.w3, x.w0, x.w1),
         Unmix(x.w3, x.w0, x.w1, x.w2))
  }

  lemma AddUndone(x: Word, y: Word)
    ensures Add(Add(x, y), y) == x
  {
    hide Xor;
    AddedTwice(x.w0, y.w0);
    AddedTwice(x.w1, y.w1);
    AddedTwice(x.w2, y.w2);
    AddedTwice(x.w3, y.w3);
  }

  lemma AddedTwice(a: Byte, b: Byte)
    ensures Xor(Xor(a, b), b) == a
  {
  }

  lemma UnmixWordUndoesMixWord(x: Word)
    ensures UnmixWord(MixWord(x)) == x
  {
    hide Xor, Mix, Unmix;
    UnmixUndoesMix(x.w0, x.w1, x.w2, x.w3);
    UnmixUndoesMix(x.w1, x.w2, x.w3, x.w0);
    UnmixUndoesMix(x.w2, x.w3, x.w0, x.w1);
    UnmixUndoesMix(x.w3, x.w0, x.w1, x.w2);
  }

  lemma UnmixWordAdds(x: Word, y: Word)
    ensures UnmixWord(Add(x, y)) == Add(UnmixWord(x), UnmixWord(y))
  {
    hide Xor, Unmix;
    UnmixAdds(x.w0, x.w1, x.w2, x.w3, y.w0, y.w1, y.w2, y.w3);
    UnmixAdds(x.w1, x.w2, x.w3, x.w0, y.w1, y.w2, y.w3, y.w0);
    UnmixAdds(x.w2, x.w3, x.w0, x.w1, y.w2, y.w3, y.w0, y.w1);
    UnmixAdds(x.w3, x.w0, x.w1, x.w2, y.w3, y.w0, y.w1, y.w2);
  }

  // The column arithmetic that imix_col does by rotating whole words.
  function ImixCol(x: Word): Word {
    var u := TwiceWord(x);
    var v := TwiceWord(u);
    var w := TwiceWord(v);
    FoldedWord(u, v, w, x)
  }

  lemma ImixColIsUnmix(x: Word)
    ensures ImixCol(x) == UnmixWord(x)
  {
    hide Xor, Twice;
    ImixByte(x.w0, x.w1, x.w2, x.w3);
    ImixByte(x.w1, x.w2, x.w3, x.w0);
    ImixByte(x.w2, x.w3, x.w0, x.w1);
    ImixByte(x.w3, x.w0, x.w1, x.w2);
  }

  lemma ImixByte(a: Byte, b: Byte, c: Byte, d: Byte)
    ensures Xor(TimesE(a), Xor(Xor(TimesB(b), TimesD(c)), Times9(d))) == Unmix(a, b, c, d)
  {
    hide Xor, TimesE, TimesB, TimesD, Times9;
    Assoc(TimesE(a), Xor(TimesB(b), TimesD(c)), Times9(d));
    Assoc(TimesE(a), TimesB(b), TimesD(c));
  }

  // ---------------------------------------------------------------- packed words

  // The low byte.
  function Octet(x: bv32): Byte {
    Byte(x & 0x1 != 0, x & 0x2 != 0, x & 0x4 != 0, x & 0x8 != 0, x & 0x10 != 0, x & 0x20 != 0, x & 0x40 != 0,
         x & 0x80 != 0)
  }

  function Octet1(x: bv32): Byte { Octet(x >> 8) }

  function Octet2(x: bv32): Byte { Octet(x >> 16) }

  function Octet3(x: bv32): Byte { Octet(x >> 24) }

  function Unpack(x: bv32): Word { Word(Octet(x), Octet1(x), Octet2(x), Octet3(x)) }

  function StarX(x: bv32): bv32 {
    ((x & 0x7f7f7f7f) << 1) ^ (((x & 0x80808080) >> 7) * 0x1b)
  }

  // The masked shift and the multiplication double all four bytes at once.
  lemma StarXDoublesBytes(x: bv32)
    ensures Unpack(StarX(x)) == TwiceWord(Unpack(x))
  {
  }

  function Ror8(x: bv32): bv32 { (x >> 8) | (x << 24) }

  lemma RotatedBytes(x: bv32)
    ensures Unpack(Ror8(x)) == Ror(Unpack(x))
  {
  }

  lemma OctetIs(x: bv32)
    ensures Octet(x) == Byte(x & 0x1 != 0, x & 0x2 != 0, x & 0x4 != 0, x & 0x8 != 0, x & 0x10 != 0, x & 0x20 != 0,
                             x & 0x40 != 0, x & 0x80 != 0)
  {
  }

  lemma AddedBits(x: bv32, y: bv32)
    ensures Byte((x ^ y) & 0x1 != 0, (x ^ y) & 0x2 != 0, (x ^ y) & 0x4 != 0, (x ^ y) & 0x8 != 0,
                 (x ^ y) & 0x10 != 0, (x ^ y) & 0x20 != 0, (x ^ y) & 0x40 != 0, (x ^ y) & 0x80 != 0)
         == Xor(Byte(x & 0x1 != 0, x & 0x2 != 0, x & 0x4 != 0, x & 0x8 != 0, x & 0x10 != 0, x & 0x20 != 0,
                     x & 0x40 != 0, x & 0x80 != 0),
                Byte(y & 0x1 != 0, y & 0x2 != 0, y & 0x4 != 0, y & 0x8 != 0, y & 0x10 != 0, y & 0x20 != 0,
                     y & 0x40 != 0, y & 0x80 != 0))
  {
  }

  lemma AddedOctets(x: bv32, y: bv32, z: bv32)
    requires z == x ^ y
    ensures Octet(z) == Xor(Octet(x), Octet(y))
  {
    hide Octet, Xor;
    OctetIs(x);
    OctetIs(y);
    OctetIs(z);
    AddedBits(x, y);
  }

  lemma Added1(x: bv32, y: bv32)
    ensures Octet1(x ^ y) == Xor(Octet1(x), Octet1(y))
  {
    hide Octet, Xor;
    AddedOctets(x >> 8, y >> 8, (x ^ y) >> 8);
  }

  lemma Added2(x: bv32, y: bv32)
    ensures Octet2(x ^ y) == Xor(Octet2(x), Octet2(y))
  {
    hide Octet, Xor;
    AddedOctets(x >> 16, y >> 16, (x ^ y) >> 16);
  }

  lemma Added3(x: bv32, y: bv32)
    ensures Octet3(x ^ y) == Xor(Octet3(x), Octet3(y))
  {
    hide Octet, Xor;
    AddedOctets(x >> 24, y >> 24, (x ^ y) >> 24);
  }

  lemma AddedBytes(x: bv32, y: bv32)
    ensures Unpack(Plus(x, y)) == Add(Unpack(x), Unpack(y))
  {
    hide Octet, Octet1, Octet2, Octet3, Xor;
    AddedOctets(x, y, x ^ y);
    Added1(x, y);
    Added2(x, y);
    Added3(x, y);
  }

  // imix_col, on the packed word
  function ImixPacked(x: bv32): bv32 {
    var u := StarX(x);
    var v := StarX(u);
    var w := StarX(v);
    Folded(u, v, w, x)
  }

  function Folded(u: bv32, v: bv32, w: bv32, x: bv32): bv32 {
    var t := Plus(w, x);
    Plus(Plus(Plus(u, v), w), Plus(Plus(Ror8(Plus(u, t)), Ror16(Plus(v, t))), Ror24(t)))
  }

  function Plus(x: bv32, y: bv32): bv32 { x ^ y }

  function Ror16(x: bv32): bv32 { (x >> 16) | (x << 16) }

  function Ror24(x: bv32): bv32 { (x >> 24) | (x << 8) }

  lemma Rotated16(x: bv32)
    ensures Unpack(Ror16(x)) == Ror(Ror(Unpack(x)))
  {
  }

  lemma Rotated24(x: bv32)
    ensures Unpack(Ror24(x)) == Ror(Ror(Ror(Unpack(x))))
  {
  }

  function FoldedWord(u: Word, v: Word, w: Word, x: Word): Word {
    var t := Add(w, x);
    Add(Add(Add(u, v), w), Add(Add(Ror(Add(u, t)), Ror(Ror(Add(v, t)))), Ror(Ror(Ror(t)))))
  }

  lemma FoldedIs(u: bv32, v: bv32, w: bv32, x: bv32)
    ensures Unpack(Folded(u, v, w, x)) == FoldedWord(Unpack(u), Unpack(v), Unpack(w), Unpack(x))
  {
    hide Unpack, Plus, Add, Ror, Ror8, Ror16, Ror24;
    var t := Plus(w, x);
    var a, b, c := Ror8(Plus(u, t)), Ror16(Plus(v, t)), Ror24(t);
    AddedBytes(w, x);
    AddedBytes(u, v);
    AddedBytes(Plus(u, v), w);
    AddedBytes(u, t);
    AddedBytes(v, t);
    RotatedBytes(Plus(u, t));
    Rotated16(Plus(v, t));
    Rotated24(t);
    AddedBytes(a, b);
    AddedBytes(Plus(a, b), c);
    AddedBytes(Plus(Plus(u, v), w), Plus(Plus(a, b), c));
  }

  // The macro on the packed word inverts the mixing of its four bytes.
  lemma ImixPackedIsUnmix(x: bv32)
    ensures Unpack(ImixPacked(x)) == UnmixWord(Unpack(x))
  {
    hide StarX, Unpack, Folded, UnmixWord, TwiceWord, Add, Ror;
    var u := StarX(x);
    var v := StarX(u);
    StarXDoublesBytes(x);
    StarXDoublesBytes(u);
    StarXDoublesBytes(v);
    FoldedIs(u, v, StarX(v), x);
    ImixColIsUnmix(Unpack(x));
  }
}
