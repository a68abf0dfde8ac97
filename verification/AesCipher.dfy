/**
 * The rounds of the AES code (common/crypto/aes_generic.c:1300-1440) and the
 * theorem that decryption undoes encryption.
 *
 * The substitution is any byte function with an inverse; the lookup tables are
 * defined from it.  The reference is the cipher of section 5.1 of FIPS-197,
 * written step by step; the code's table rounds are proved to compute it, and
 * its decryption to compute the equivalent inverse cipher of section 5.3.5.
 */
module AesCipher {
  import opened AesField

  datatype Box = Box(sub: Byte -> Byte, inv: Byte -> Byte)

  ghost predicate Inverse(box: Box) {
    forall b: Byte :: box.inv(box.sub(b)) == b
  }

  datatype Block = Block(c0: Word, c1: Word, c2: Word, c3: Word)

  // ---------------------------------------------------------------- the steps of FIPS-197

  function AddKey(x: Block, k: Block): Block {
    Block(Add(x.c0, k.c0), Add(x.c1, k.c1), Add(x.c2, k.c2), Add(x.c3, k.c3))
  }

  function MapWord(f: Byte -> Byte, x: Word): Word { Word(f(x.w0), f(x.w1), f(x.w2), f(x.w3)) }

  function MapBytes(f: Byte -> Byte, x: Block): Block {
    Block(MapWord(f, x.c0), MapWord(f, x.c1), MapWord(f, x.c2), MapWord(f, x.c3))
  }

  function ShiftRows(x: Block): Block {
    Block(Word(x.c0.w0, x.c1.w1, x.c2.w2, x.c3.w3), Word(x.c1.w0, x.c2.w1, x.c3.w2, x.c0.w3),
          Word(x.c2.w0, x.c3.w1, x.c0.w2, x.c1.w3), Word(x.c3.w0, x.c0.w1, x.c1.w2, x.c2.w3))
  }

  function UnshiftRows(x: Block): Block {
    Block(Word(x.c0.w0, x.c3.w1, x.c2.w2, x.c1.w3), Word(x.c1.w0, x.c0.w1, x.c3.w2, x.c2.w3),
          Word(x.c2.w0, x.c1.w1, x.c0.w2, x.c3.w3), Word(x.c3.w0, x.c2.w1, x.c1.w2, x.c0.w3))
  }

  function MixColumns(x: Block): Block { Block(MixWord(x.c0), MixWord(x.c1), MixWord(x.c2), MixWord(x.c3)) }

  function UnmixColumns(x: Block): Block { Block(UnmixWord(x.c0), UnmixWord(x.c1), UnmixWord(x.c2), UnmixWord(x.c3)) }

  // SubBytes, then ShiftRows.
  function SubShift(box: Box, x: Block): Block { ShiftRows(MapBytes(box.sub, x)) }

  // InvShiftRows, then InvSubBytes.
  function UnsubShift(box: Box, x: Block): Block { MapBytes(box.inv, UnshiftRows(x)) }

  // The state after the opening key and n full rounds; k(r) is the key of round r.
  function Rounds(box: Box, k: nat -> Block, x: Block, n: nat): Block {
    if n == 0 then AddKey(x, k(0)) else AddKey(MixColumns(SubShift(box, Rounds(box, k, x, n - 1))), k(n))
  }

  // Section 5.1 with nr rounds, the last one without MixColumns.
  function Cipher(box: Box, k: nat -> Block, nr: nat, x: Block): Block
    requires nr > 0
  {
    AddKey(SubShift(box, Rounds(box, k, x, nr - 1)), k(nr))
  }

  // Section 5.3: the same steps undone one by one, with the same keys backwards.
  function InverseRounds(box: Box, k: nat -> Block, nr: nat, y: Block, n: nat): Block
    requires n <= nr
  {
    if n == 0 then AddKey(y, k(nr))
    else UnmixColumns(AddKey(UnsubShift(box, InverseRounds(box, k, nr, y, n - 1)), k(nr - n)))
  }

  function InverseCipher(box: Box, k: nat -> Block, nr: nat, y: Block): Block
    requires nr > 0
  {
    AddKey(UnsubShift(box, InverseRounds(box, k, nr, y, nr - 1)), k(0))
  }

  // Section 5.3.5: unmix before adding the key, with keys d(0), d(1), ... of their own.
  function EquivalentRounds(box: Box, d: nat -> Block, y: Block, n: nat): Block {
    if n == 0 then AddKey(y, d(0)) else AddKey(UnmixColumns(UnsubShift(box, EquivalentRounds(box, d, y, n - 1))), d(n))
  }

  function EquivalentInverse(box: Box, d: nat -> Block, nr: nat, y: Block): Block
    requires nr > 0
  {
    AddKey(UnsubShift(box, EquivalentRounds(box, d, y, nr - 1)), d(nr))
  }

  // The keys of section 5.3.5: reversed, and unmixed except at the two ends.
  ghost predicate ReversedUnmixed(k: nat -> Block, d: nat -> Block, nr: nat) {
    && d(0) == k(nr)
    && d(nr) == k(0)
    && forall r :: 0 < r < nr ==> d(r) == UnmixColumns(k(nr - r))
  }

  // ---------------------------------------------------------------- the round trip

  lemma AddKeyUndone(x: Block, k: Block)
    ensures AddKey(AddKey(x, k), k) == x
  {
    hide Add;
    AddUndone(x.c0, k.c0);
    AddUndone(x.c1, k.c1);
    AddUndone(x.c2, k.c2);
    AddUndone(x.c3, k.c3);
  }

  lemma UnmixUndone(x: Block)
    ensures UnmixColumns(MixColumns(x)) == x
  {
    hide MixWord, UnmixWord;
    UnmixWordUndoesMixWord(x.c0);
    UnmixWordUndoesMixWord(x.c1);
    UnmixWordUndoesMixWord(x.c2);
    UnmixWordUndoesMixWord(x.c3);
  }

  lemma UnmixAddsKeys(x: Block, k: Block)
    ensures UnmixColumns(AddKey(x, k)) == AddKey(UnmixColumns(x), UnmixColumns(k))
  {
    hide Add, UnmixWord;
    UnmixWordAdds(x.c0, k.c0);
    UnmixWordAdds(x.c1, k.c1);
    UnmixWordAdds(x.c2, k.c2);
    UnmixWordAdds(x.c3, k.c3);
  }

  lemma SubShiftUndone(box: Box, x: Block)
    requires Inverse(box)
    ensures UnsubShift(box, SubShift(box, x)) == x
  {
  }

  // Before its round nr - n, encryption held what the inverse holds after n rounds.
  lemma {:induction false} RoundsUndone(box: Box, k: nat -> Block, nr: nat, x: Block, n: nat)
    requires Inverse(box) && n < nr
    ensures InverseRounds(box, k, nr, Cipher(box, k, nr, x), n) == SubShift(box, Rounds(box, k, x, nr - 1 - n))
  {
    hide AddKey, SubShift, UnsubShift, UnmixColumns, MixColumns;
    if n == 0 {
      AddKeyUndone(SubShift(box, Rounds(box, k, x, nr - 1)), k(nr));
    } else {
      RoundsUndone(box, k, nr, x, n - 1);
      var before := Rounds(box, k, x, nr - 1 - n);
      SubShiftUndone(box, Rounds(box, k, x, nr - n));
      AddKeyUndone(MixColumns(SubShift(box, before)), k(nr - n));
      UnmixUndone(SubShift(box, before));
    }
  }

  lemma InverseUndoesCipher(box: Box, k: nat -> Block, nr: nat, x: Block)
    requires Inverse(box) && nr > 0
    ensures InverseCipher(box, k, nr, Cipher(box, k, nr, x)) == x
  {
    hide AddKey, SubShift, UnsubShift, UnmixColumns, Cipher;
    RoundsUndone(box, k, nr, x, nr - 1);
    SubShiftUndone(box, Rounds(box, k, x, 0));
    AddKeyUndone(x, k(0));
  }

  lemma {:induction false} EquivalentRoundsAgree(box: Box, k: nat -> Block, d: nat -> Block, nr: nat, y: Block, n: nat)
    requires n < nr && ReversedUnmixed(k, d, nr)
    ensures EquivalentRounds(box, d, y, n) == InverseRounds(box, k, nr, y, n)
  {
    hide AddKey, UnsubShift, UnmixColumns;
    if n > 0 {
      EquivalentRoundsAgree(box, k, d, nr, y, n - 1);
      UnmixAddsKeys(UnsubShift(box, InverseRounds(box, k, nr, y, n - 1)), k(nr - n));
    }
  }

  // On every input, not only on encrypted ones, the equivalent inverse cipher is the inverse cipher.
  lemma EquivalentIsInverse(box: Box, k: nat -> Block, d: nat -> Block, nr: nat, y: Block)
    requires nr > 0 && ReversedUnmixed(k, d, nr)
    ensures EquivalentInverse(box, d, nr, y) == InverseCipher(box, k, nr, y)
  {
    hide AddKey, UnsubShift, UnmixColumns;
    EquivalentRoundsAgree(box, k, d, nr, y, nr - 1);
  }

  lemma DecryptUndoesEncrypt(box: Box, k: nat -> Block, d: nat -> Block, nr: nat, x: Block)
    requires Inverse(box) && nr > 0 && ReversedUnmixed(k, d, nr)
    ensures EquivalentInverse(box, d, nr, Cipher(box, k, nr, x)) == x
  {
    hide EquivalentInverse, InverseCipher, Cipher;
    EquivalentIsInverse(box, k, d, nr, Cipher(box, k, nr, x));
    InverseUndoesCipher(box, k, nr, x);
  }

  // ---------------------------------------------------------------- the code's tables

  function Rol(x: Word): Word { Word(x.w3, x.w0, x.w1, x.w2) }

  function Turned(x: Word, j: nat): Word
    requires j < 4
  {
    if j == 0 then x else if j == 1 then Rol(x) else if j == 2 then Rol(Rol(x)) else Rol(Rol(Rol(x)))
  }

  // crypto_ft_tab[j][b], crypto_fl_tab[j][b], crypto_it_tab[j][b], crypto_il_tab[j][b]
  function FtTab(box: Box, j: nat, b: Byte): Word
    requires j < 4
  {
    var s := box.sub(b);
    Turned(Word(Twice(s), s, s, Xor(Twice(s), s)), j)
  }

  function FlTab(box: Box, j: nat, b: Byte): Word
    requires j < 4
  {
    Turned(Word(box.sub(b), ZERO, ZERO, ZERO), j)
  }

  function ItTab(box: Box, j: nat, b: Byte): Word
    requires j < 4
  {
    var s := box.inv(b);
    Turned(Word(TimesE(s), Times9(s), TimesD(s), TimesB(s)), j)
  }

  function IlTab(box: Box, j: nat, b: Byte): Word
    requires j < 4
  {
    Turned(Word(box.inv(b), ZERO, ZERO, ZERO), j)
  }

  function Four(a: Word, b: Word, c: Word, d: Word): Word { Add(Add(Add(a, b), c), d) }

  // The new column n of f_rn, f_rl, i_rn and i_rl, from the four old columns it reads.
  function ForwardColumn(box: Box, x: Word, y: Word, z: Word, v: Word, k: Word): Word {
    Add(Four(FtTab(box, 0, x.w0), FtTab(box, 1, y.w1), FtTab(box, 2, z.w2), FtTab(box, 3, v.w3)), k)
  }

  function ForwardLast(box: Box, x: Word, y: Word, z: Word, v: Word, k: Word): Word {
    Add(Four(FlTab(box, 0, x.w0), FlTab(box, 1, y.w1), FlTab(box, 2, z.w2), FlTab(box, 3, v.w3)), k)
  }

  function BackwardColumn(box: Box, x: Word, y: Word, z: Word, v: Word, k: Word): Word {
    Add(Four(ItTab(box, 0, x.w0), ItTab(box, 1, y.w1), ItTab(box, 2, z.w2), ItTab(box, 3, v.w3)), k)
  }

  function BackwardLast(box: Box, x: Word, y: Word, z: Word, v: Word, k: Word): Word {
    Add(Four(IlTab(box, 0, x.w0), IlTab(box, 1, y.w1), IlTab(box, 2, z.w2), IlTab(box, 3, v.w3)), k)
  }

  lemma ForwardColumnIs(box: Box, x: Word, y: Word, z: Word, v: Word, k: Word)
    ensures ForwardColumn(box, x, y, z, v, k)
         == Add(MixWord(MapWord(box.sub, Word(x.w0, y.w1, z.w2, v.w3))), k)
  {
    hide Xor, Twice;
    var a, b, c, d := box.sub(x.w0), box.sub(y.w1), box.sub(z.w2), box.sub(v.w3);
    MixByte1(a, b, c, d);
    MixByte2(a, b, c, d);
    MixByte3(a, b, c, d);
  }

  lemma MixByte1(a: Byte, b: Byte, c: Byte, d: Byte)
    ensures Xor(Xor(Xor(a, Twice(b)), Xor(Twice(c), c)), d) == Mix(b, c, d, a)
  {
    hide Xor, Twice;
    var p, q := Twice(b), Xor(Twice(c), c);
    Assoc(a, p, q);
    Assoc(a, Xor(p, q), d);
    Comm(a, Xor(Xor(p, q), d));
  }

  lemma MixByte2(a: Byte, b: Byte, c: Byte, d: Byte)
    ensures Xor(Xor(Xor(a, b), Twice(c)), Xor(Twice(d), d)) == Mix(c, d, a, b)
  {
    hide Xor, Twice;
    var p, q := Twice(c), Xor(Twice(d), d);
    Assoc(Xor(a, b), p, q);
    Comm(Xor(a, b), Xor(p, q));
    Assoc(Xor(p, q), a, b);
  }

  lemma MixByte3(a: Byte, b: Byte, c: Byte, d: Byte)
    ensures Xor(Xor(Xor(Xor(Twice(a), a), b), c), Twice(d)) == Mix(d, a, b, c)
  {
    hide Xor, Twice;
    var p, q := Twice(d), Xor(Twice(a), a);
    Comm(Xor(Xor(q, b), c), p);
    Assoc(p, q, b);
    Assoc(p, Xor(q, b), c);
  }

  lemma BackwardColumnIs(box: Box, x: Word, y: Word, z: Word, v: Word, k: Word)
    ensures BackwardColumn(box, x, y, z, v, k)
         == Add(UnmixWord(MapWord(box.inv, Word(x.w0, y.w1, z.w2, v.w3))), k)
  {
    hide Xor, Times9, TimesB, TimesD, TimesE;
    var a, b, c, d := box.inv(x.w0), box.inv(y.w1), box.inv(z.w2), box.inv(v.w3);
    Turn(Times9(a), TimesE(b), TimesB(c), TimesD(d));
    Turn(TimesD(a), Times9(b), TimesE(c), TimesB(d));
    Turn(Times9(b), TimesE(c), TimesB(d), TimesD(a));
    Turn(TimesB(a), TimesD(b), Times9(c), TimesE(d));
    Turn(TimesD(b), Times9(c), TimesE(d), TimesB(a));
    Turn(Times9(c), TimesE(d), TimesB(a), TimesD(b));
  }

  lemma Turn(a: Byte, b: Byte, c: Byte, d: Byte)
    ensures Xor(Xor(Xor(a, b), c), d) == Xor(Xor(Xor(b, c), d), a)
  {
    hide Xor;
    Assoc(a, b, c);
    Assoc(a, Xor(b, c), d);
    Comm(a, Xor(Xor(b, c), d));
  }

  lemma LastColumns(box: Box, x: Word, y: Word, z: Word, v: Word, k: Word)
    ensures ForwardLast(box, x, y, z, v, k) == Add(MapWord(box.sub, Word(x.w0, y.w1, z.w2, v.w3)), k)
    ensures BackwardLast(box, x, y, z, v, k) == Add(MapWord(box.inv, Word(x.w0, y.w1, z.w2, v.w3)), k)
  {
    hide Xor;
    Alone(box.sub(x.w0));
    Alone(box.sub(y.w1));
    Alone(box.sub(z.w2));
    Alone(box.sub(v.w3));
    Alone(box.inv(x.w0));
    Alone(box.inv(y.w1));
    Alone(box.inv(z.w2));
    Alone(box.inv(v.w3));
  }

  lemma Alone(a: Byte)
    ensures Xor(a, ZERO) == a && Xor(ZERO, a) == a && Xor(ZERO, ZERO) == ZERO
  {
    hide Xor;
    Zero(a);
    Comm(a, ZERO);
    Zero(ZERO);
  }

  // f_nround, f_lround, i_nround and i_lround
  function Forward(box: Box, x: Block, k: Block): Block {
    Block(ForwardColumn(box, x.c0, x.c1, x.c2, x.c3, k.c0), ForwardColumn(box, x.c1, x.c2, x.c3, x.c0, k.c1),
          ForwardColumn(box, x.c2, x.c3, x.c0, x.c1, k.c2), ForwardColumn(box, x.c3, x.c0, x.c1, x.c2, k.c3))
  }

  function ForwardEnd(box: Box, x: Block, k: Block): Block {
    Block(ForwardLast(box, x.c0, x.c1, x.c2, x.c3, k.c0), ForwardLast(box, x.c1, x.c2, x.c3, x.c0, k.c1),
          ForwardLast(box, x.c2, x.c3, x.c0, x.c1, k.c2), ForwardLast(box, x.c3, x.c0, x.c1, x.c2, k.c3))
  }

  function Backward(box: Box, x: Block, k: Block): Block {
    Block(BackwardColumn(box, x.c0, x.c3, x.c2, x.c1, k.c0), BackwardColumn(box, x.c1, x.c0, x.c3, x.c2, k.c1),
          BackwardColumn(box, x.c2, x.c1, x.c0, x.c3, k.c2), BackwardColumn(box, x.c3, x.c2, x.c1, x.c0, k.c3))
  }

  function BackwardEnd(box: Box, x: Block, k: Block): Block {
    Block(BackwardLast(box, x.c0, x.c3, x.c2, x.c1, k.c0), BackwardLast(box, x.c1, x.c0, x.c3, x.c2, k.c1),
          BackwardLast(box, x.c2, x.c1, x.c0, x.c3, k.c2), BackwardLast(box, x.c3, x.c2, x.c1, x.c0, k.c3))
  }

  lemma ForwardIs(box: Box, x: Block, k: Block)
    ensures Forward(box, x, k) == AddKey(MixColumns(SubShift(box, x)), k)
  {
    hide Add, MixWord, ForwardColumn;
    ForwardColumnIs(box, x.c0, x.c1, x.c2, x.c3, k.c0);
    ForwardColumnIs(box, x.c1, x.c2, x.c3, x.c0, k.c1);
    ForwardColumnIs(box, x.c2, x.c3, x.c0, x.c1, k.c2);
    ForwardColumnIs(box, x.c3, x.c0, x.c1, x.c2, k.c3);
  }

  lemma BackwardIs(box: Box, x: Block, k: Block)
    ensures Backward(box, x, k) == AddKey(UnmixColumns(UnsubShift(box, x)), k)
  {
    hide Add, UnmixWord, BackwardColumn;
    BackwardColumnIs(box, x.c0, x.c3, x.c2, x.c1, k.c0);
    BackwardColumnIs(box, x.c1, x.c0, x.c3, x.c2, k.c1);
    BackwardColumnIs(box, x.c2, x.c1, x.c0, x.c3, k.c2);
    BackwardColumnIs(box, x.c3, x.c2, x.c1, x.c0, k.c3);
  }

  lemma ForwardEndIs(box: Box, x: Block, k: Block)
    ensures ForwardEnd(box, x, k) == AddKey(SubShift(box, x), k)
  {
    hide Add, ForwardLast, BackwardLast;
    LastColumns(box, x.c0, x.c1, x.c2, x.c3, k.c0);
    LastColumns(box, x.c1, x.c2, x.c3, x.c0, k.c1);
    LastColumns(box, x.c2, x.c3, x.c0, x.c1, k.c2);
    LastColumns(box, x.c3, x.c0, x.c1, x.c2, k.c3);
  }

  lemma BackwardEndIs(box: Box, x: Block, k: Block)
    ensures BackwardEnd(box, x, k) == AddKey(UnsubShift(box, x), k)
  {
    hide Add, ForwardLast, BackwardLast;
    LastColumns(box, x.c0, x.c3, x.c2, x.c1, k.c0);
    LastColumns(box, x.c1, x.c0, x.c3, x.c2, k.c1);
    LastColumns(box, x.c2, x.c1, x.c0, x.c3, k.c2);
    LastColumns(box, x.c3, x.c2, x.c1, x.c0, k.c3);
  }
}
