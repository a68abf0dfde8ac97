/**
 * crypto_aes_expand_key, aes_encrypt and aes_decrypt as they work on the
 * context (common/crypto/aes_generic.c:1216-1440): two arrays of sixty round
 * key words, filled in place, and a key length in bytes.
 */
module AesKey {
  import opened AesField
  import opened AesCipher

  // ---------------------------------------------------------------- section 5.2 of FIPS-197

  function Bits(n: nat): Byte {
    Byte(n % 2 == 1, n / 2 % 2 == 1, n / 4 % 2 == 1, n / 8 % 2 == 1,
         n / 16 % 2 == 1, n / 32 % 2 == 1, n / 64 % 2 == 1, n / 128 % 2 == 1)
  }

  const RCO_TAB: seq<nat> := [1, 2, 4, 8, 16, 32, 64, 128, 27, 54]

  // The powers of two of the field, the first being one.
  function Power(i: nat): Byte { if i == 0 then Bits(1) else Twice(Power(i - 1)) }

  function Rcon(i: nat): Word { Word(Power(i), ZERO, ZERO, ZERO) }

  function SubWord(box: Box, x: Word): Word { MapWord(box.sub, x) }

  predicate KeyWords(key: seq<Word>) { |key| == 4 || |key| == 6 || |key| == 8 }

  // Word i of the expanded key.
  function Expanded(box: Box, key: seq<Word>, i: nat): Word
    requires KeyWords(key)
  {
    if i < |key| then key[i]
    else
      var t := Expanded(box, key, i - 1);
      Add(Changed(box, |key|, i, t), Expanded(box, key, i - |key|))
  }

  function Changed(box: Box, nk: nat, i: nat, t: Word): Word
    requires 4 <= nk <= i
  {
    if i % nk == 0 then Add(SubWord(box, Ror(t)), Rcon(i / nk - 1))
    else if nk > 6 && i % nk == 4 then SubWord(box, t)
    else t
  }

  lemma Doubled(n: nat)
    requires n < 128
    ensures Twice(Bits(n)) == Bits(2 * n)
  {
    var m := 2 * n;
    assert m % 2 == 0 && m / 2 == n && m / 4 == n / 2 && m / 8 == n / 4 && m / 16 == n / 8;
    assert m / 32 == n / 16 && m / 64 == n / 32 && m / 128 == n / 64 && n / 128 == 0;
  }

  lemma RcoTabIsPowers(i: nat)
    requires i < |RCO_TAB|
    ensures Bits(RCO_TAB[i]) == Power(i)
  {
    hide Twice, Bits;
    if i == 8 {
      RcoTabIsPowers(7);
      Overflowed();
    } else if i > 0 {
      RcoTabIsPowers(i - 1);
      Doubled(RCO_TAB[i - 1]);
      assert RCO_TAB[i] == 2 * RCO_TAB[i - 1];
    }
  }

  lemma Overflowed()
    ensures Twice(Bits(128)) == Bits(27)
  {
  }

  // ls_box: four table lookups
  function LsBox(box: Box, x: Word): Word {
    Four(FlTab(box, 0, x.w0), FlTab(box, 1, x.w1), FlTab(box, 2, x.w2), FlTab(box, 3, x.w3))
  }

  lemma LsBoxIs(box: Box, x: Word)
    ensures LsBox(box, x) == SubWord(box, x)
  {
    hide Xor;
    Alone(box.sub(x.w0));
    Alone(box.sub(x.w1));
    Alone(box.sub(x.w2));
    Alone(box.sub(x.w3));
  }

  // Where key_dec holds word i of key_enc, n being the place of the last round.
  function Slot(n: nat, i: nat): (j: nat)
    requires n % 4 == 0 && i < n + 4
    ensures j < n + 4 && j % 4 == i % 4
    ensures 4 <= i < n <==> 4 <= j < n
  {
    n - (i - i % 4) + i % 4
  }

  lemma SlotTwice(n: nat, i: nat)
    requires n % 4 == 0 && i < n + 4
    ensures Slot(n, Slot(n, i)) == i
  {
  }

  lemma SlotEnds(n: nat, c: nat)
    requires n % 4 == 0 && c < 4
    ensures Slot(n, c) == n + c && Slot(n, n + c) == c
  {
  }

  function Decoded(enc: seq<Word>, n: nat, j: nat): Word
    requires n % 4 == 0 && j < n + 4 <= |enc|
  {
    if 4 <= j < n then UnmixWord(enc[Slot(n, j)]) else enc[Slot(n, j)]
  }

  function BlockAt(w: seq<Word>, r: nat): Block
    requires 4 * r + 4 <= |w|
  {
    Block(w[4 * r], w[4 * r + 1], w[4 * r + 2], w[4 * r + 3])
  }

  // The key of round r, and nothing of interest past the last round.
  function RoundKey(w: seq<Word>): nat -> Block {
    (r: nat) => if 4 * r + 4 <= |w| then BlockAt(w, r) else Block(BLANK, BLANK, BLANK, BLANK)
  }

  const BLANK := Word(ZERO, ZERO, ZERO, ZERO)

  // ---------------------------------------------------------------- the context

  datatype Status = Ok | Einval

  function Packed(key: seq<Byte>): (w: seq<Word>)
    ensures |w| == |key| / 4
    ensures forall i :: 0 <= i < |w| ==> w[i] == Word(key[4 * i], key[4 * i + 1], key[4 * i + 2], key[4 * i + 3])
  {
    seq(|key| / 4, i requires 0 <= i < |key| / 4 => Word(key[4 * i], key[4 * i + 1], key[4 * i + 2], key[4 * i + 3]))
  }

  predicate KeySize(n: nat) { n == 16 || n == 24 || n == 32 }

  class Context {
    const box: Box
    const keyEnc: array<Word>
    const keyDec: array<Word>
    var keyLength: nat

    ghost predicate Valid()
      reads this
    {
      keyEnc.Length == 60 && keyDec.Length == 60 && keyEnc != keyDec
    }

    constructor (box: Box)
      ensures Valid() && this.box == box && fresh(keyEnc) && fresh(keyDec)
    {
      this.box := box;
      keyEnc := new Word[60](_ => BLANK);
      keyDec := new Word[60](_ => BLANK);
      keyLength := 0;
    }

    // The first n words of key_enc are those of the expanded key.
    ghost predicate Filled(key: seq<Word>, n: nat)
      requires Valid() && KeyWords(key) && n <= 60
      reads this, keyEnc
    {
      forall i :: 0 <= i < n ==> keyEnc[i] == Expanded(box, key, i)
    }

    // One assignment to key_enc: the next word.
    method Put(ghost key: seq<Word>, n: nat, t: Word)
      requires Valid() && KeyWords(key) && n < 60 && Filled(key, n)
      requires t == Expanded(box, key, n)
      modifies keyEnc
      ensures Filled(key, n + 1) && keyEnc[n] == t
    {
      keyEnc[n] := t;
    }

    // t ^= key_enc[n - nk]; key_enc[n] = t
    method Follow(nk: nat, ghost key: seq<Word>, n: nat, t: Word) returns (r: Word)
      requires Valid() && KeyWords(key) && nk == |key| <= n < 60 && Filled(key, n)
      requires t == Changed(box, nk, n, Expanded(box, key, n - 1))
      modifies keyEnc
      ensures Filled(key, n + 1) && r == Expanded(box, key, n)
    {
      hide Add;
      r := Add(t, keyEnc[n - nk]);
      Put(key, n, r);
    }

    // t = ls_box(ror32(t, 8)) ^ rco_tab[i]
    method RoundWord(nk: nat, i: nat, t: Word) returns (r: Word)
      requires i < 10 && (nk == 4 || nk == 6 || nk == 8)
      ensures nk <= nk * i + nk && r == Changed(box, nk, nk * i + nk, t)
    {
      hide Add, SubWord, LsBox;
      LsBoxIs(box, Ror(t));
      RcoTabIsPowers(i);
      r := Add(LsBox(box, Ror(t)), Word(Bits(RCO_TAB[i]), ZERO, ZERO, ZERO));
      RoundStart(nk, i);
    }

    method Loop4(ghost key: seq<Word>, i: nat, t0: Word) returns (t: Word)
      requires Valid() && |key| == 4 && i < 10 && Filled(key, 4 * i + 4) && t0 == Expanded(box, key, 4 * i + 3)
      modifies keyEnc
      ensures Filled(key, 4 * i + 8) && t == Expanded(box, key, 4 * i + 7)
    {
      hide Add, SubWord, Expanded, Changed;
      t := RoundWord(4, i, t0);
      t := Follow(4, key, 4 * i + 4, t);
      Plain(box, 4, i, 1, t);
      t := Follow(4, key, 4 * i + 5, t);
      Plain(box, 4, i, 2, t);
      t := Follow(4, key, 4 * i + 6, t);
      Plain(box, 4, i, 3, t);
      t := Follow(4, key, 4 * i + 7, t);
    }

    method Loop6(ghost key: seq<Word>, i: nat, t0: Word) returns (t: Word)
      requires Valid() && |key| == 6 && i < 8 && Filled(key, 6 * i + 6) && t0 == Expanded(box, key, 6 * i + 5)
      modifies keyEnc
      ensures Filled(key, 6 * i + 12) && t == Expanded(box, key, 6 * i + 11)
    {
      hide Add, SubWord, Expanded, Changed;
      t := RoundWord(6, i, t0);
      t := Follow(6, key, 6 * i + 6, t);
      Plain(box, 6, i, 1, t);
      t := Follow(6, key, 6 * i + 7, t);
      Plain(box, 6, i, 2, t);
      t := Follow(6, key, 6 * i + 8, t);
      Plain(box, 6, i, 3, t);
      t := Follow(6, key, 6 * i + 9, t);
      Plain(box, 6, i, 4, t);
      t := Follow(6, key, 6 * i + 10, t);
      Plain(box, 6, i, 5, t);
      t := Follow(6, key, 6 * i + 11, t);
    }

    method Loop8TopHalf(ghost key: seq<Word>, i: nat, t0: Word) returns (t: Word)
      requires Valid() && |key| == 8 && i < 7 && 8 * i + 11 < 60 && Filled(key, 8 * i + 8) &&
               t0 == Expanded(box, key, 8 * i + 7)
      modifies keyEnc
      ensures Filled(key, 8 * i + 12) && t == Expanded(box, key, 8 * i + 11)
    {
      hide Add, SubWord, Expanded, Changed;
      t := RoundWord(8, i, t0);
      t := Follow(8, key, 8 * i + 8, t);
      Plain(box, 8, i, 1, t);
      t := Follow(8, key, 8 * i + 9, t);
      Plain(box, 8, i, 2, t);
      t := Follow(8, key, 8 * i + 10, t);
      Plain(box, 8, i, 3, t);
      t := Follow(8, key, 8 * i + 11, t);
    }

    method Loop8(ghost key: seq<Word>, i: nat, t0: Word) returns (t: Word)
      requires Valid() && |key| == 8 && i < 6 && Filled(key, 8 * i + 8) && t0 == Expanded(box, key, 8 * i + 7)
      modifies keyEnc
      ensures Filled(key, 8 * i + 16) && t == Expanded(box, key, 8 * i + 15)
    {
      hide Add, SubWord, LsBox, Expanded, Changed;
      t := Loop8TopHalf(key, i, t0);
      LsBoxIs(box, t);
      Middle8(box, i, t);
      t := Follow(8, key, 8 * i + 12, LsBox(box, t));
      Plain(box, 8, i, 5, t);
      t := Follow(8, key, 8 * i + 13, t);
      Plain(box, 8, i, 6, t);
      t := Follow(8, key, 8 * i + 14, t);
      Plain(box, 8, i, 7, t);
      t := Follow(8, key, 8 * i + 15, t);
    }

    // The first four words, which are also the last four of key_dec.
    method Start(key: seq<Word>, n: nat)
      requires Valid() && KeyWords(key) && 4 <= n <= 56
      modifies keyEnc, keyDec
      ensures Filled(key, 4)
      ensures forall c :: 0 <= c < 4 ==> keyDec[n + c] == Expanded(box, key, c)
    {
      keyEnc[0], keyEnc[1], keyEnc[2], keyEnc[3] := key[0], key[1], key[2], key[3];
      keyDec[n], keyDec[n + 1], keyDec[n + 2], keyDec[n + 3] := key[0], key[1], key[2], key[3];
    }

    // The supplied words past the fourth.
    method PutGiven(key: seq<Word>)
      requires Valid() && (|key| == 6 || |key| == 8) && Filled(key, 4)
      modifies keyEnc
      ensures Filled(key, |key|)
    {
      Put(key, 4, key[4]);
      Put(key, 5, key[5]);
      if |key| == 8 {
        Put(key, 6, key[6]);
        Put(key, 7, key[7]);
      }
    }

    // key_enc from the supplied words; key_dec has its last four words already.
    method Expand(key: seq<Word>)
      requires Valid() && KeyWords(key) && Filled(key, 4)
      modifies keyEnc
      ensures Filled(key, 4 * |key| + 28)
    {
      hide Expanded;
      var i, t := 0, keyEnc[3];
      if |key| == 4 {
        while i < 10
          invariant i <= 10 && Filled(key, 4 * i + 4) && t == Expanded(box, key, 4 * i + 3)
        {
          t := Loop4(key, i, t);
          i := i + 1;
        }
      } else if |key| == 6 {
        PutGiven(key);
        t := keyEnc[5];
        while i < 8
          invariant i <= 8 && Filled(key, 6 * i + 6) && t == Expanded(box, key, 6 * i + 5)
        {
          t := Loop6(key, i, t);
          i := i + 1;
        }
      } else {
        PutGiven(key);
        t := keyEnc[7];
        while i < 6
          invariant i <= 6 && Filled(key, 8 * i + 8) && t == Expanded(box, key, 8 * i + 7)
        {
          t := Loop8(key, i, t);
          i := i + 1;
        }
        t := Loop8TopHalf(key, i, t);
      }
    }

    // The words of key_dec between the two ends.
    method ReverseMiddle(n: nat)
      requires Valid() && n % 4 == 0 && 4 <= n <= 56
      modifies keyDec
      ensures forall j :: 0 <= j < 60 && !(4 <= j < n) ==> keyDec[j] == old(keyDec[j])
      ensures forall k :: 4 <= k < n ==> keyDec[Slot(n, k)] == UnmixWord(keyEnc[k])
    {
      hide UnmixWord, ImixCol, Slot;
      var i := 4;
      while i < n
        invariant 4 <= i <= n
        invariant forall j :: 0 <= j < 60 && !(4 <= j < n) ==> keyDec[j] == old(keyDec[j])
        invariant forall k :: 4 <= k < i ==> keyDec[Slot(n, k)] == UnmixWord(keyEnc[k])
      {
        var j := Slot(n, i);
        ImixColIsUnmix(keyEnc[i]);
        SlotTwice(n, i);
        forall k | 4 <= k < i
          ensures Slot(n, k) != j
        {
          SlotTwice(n, k);
        }
        keyDec[j] := ImixCol(keyEnc[i]);
        i := i + 1;
      }
    }

    // key_dec from key_enc: the two ends copied, the words between unmixed.
    method Reverse(n: nat)
      requires Valid() && n % 4 == 0 && 4 <= n <= 56
      requires forall c :: 0 <= c < 4 ==> keyDec[n + c] == keyEnc[c]
      modifies keyDec
      ensures forall j :: 0 <= j < n + 4 ==> keyDec[j] == Decoded(keyEnc[..], n, j)
    {
      hide UnmixWord, Slot;
      keyDec[0] := keyEnc[n];
      keyDec[1] := keyEnc[n + 1];
      keyDec[2] := keyEnc[n + 2];
      keyDec[3] := keyEnc[n + 3];
      ReverseMiddle(n);
      forall j | 0 <= j < n + 4
        ensures keyDec[j] == Decoded(keyEnc[..], n, j)
      {
        SlotTwice(n, j);
        if j < 4 {
          SlotEnds(n, j);
        } else if j >= n {
          SlotEnds(n, j - n);
        }
      }
    }

    method ExpandKey(inKey: seq<Byte>) returns (status: Status)
      requires Valid()
      modifies this, keyEnc, keyDec
      ensures Valid()
      ensures status == Einval <==> !KeySize(|inKey|)
      ensures status == Einval ==> unchanged(this) && unchanged(keyEnc) && unchanged(keyDec)
      ensures status == Ok ==> Ready(inKey)
    {
      if |inKey| != 16 && |inKey| != 24 && |inKey| != 32 {
        return Einval;
      }
      hide Expanded, Decoded;
      keyLength := |inKey|;
      Fill(Packed(inKey));
      return Ok;
    }

    // Both schedules from the words of the key.
    method Fill(key: seq<Word>)
      requires Valid() && KeyWords(key)
      modifies keyEnc, keyDec
      ensures Filled(key, 4 * |key| + 28)
      ensures forall j :: 0 <= j < 4 * |key| + 28 ==> keyDec[j] == Decoded(keyEnc[..], 4 * |key| + 24, j)
    {
      hide Expanded, Decoded;
      Start(key, 4 * |key| + 24);
      Expand(key);
      assert forall c :: 0 <= c < 4 ==> keyDec[4 * |key| + 24 + c] == keyEnc[c];
      Reverse(4 * |key| + 24);
    }

    // Both schedules are in place for this key.
    ghost predicate Ready(inKey: seq<Byte>)
      requires Valid()
      reads this, keyEnc, keyDec
    {
      && KeySize(|inKey|)
      && keyLength == |inKey|
      && Filled(Packed(inKey), keyLength + 28)
      && forall j :: 0 <= j < keyLength + 28 ==> keyDec[j] == Decoded(keyEnc[..], keyLength + 24, j)
    }

    // ---------------------------------------------------------------- one block

    method EncStart(src: Block) returns (b: Block)
      requires Valid()
      ensures b == Rounds(box, RoundKey(keyEnc[..]), src, 0)
    {
      hide AddKey;
      b := AddKey(src, Block(keyEnc[0], keyEnc[1], keyEnc[2], keyEnc[3]));
    }

    // Round r, whose key the pointer kp has reached.
    method EncRound(ghost src: Block, b: Block, r: nat) returns (c: Block)
      requires Valid() && 0 < r < 15
      requires b == Rounds(box, RoundKey(keyEnc[..]), src, r - 1)
      ensures c == Rounds(box, RoundKey(keyEnc[..]), src, r)
    {
      hide Forward, AddKey, MixColumns, SubShift;
      var kp := 4 * r;
      var k := Block(keyEnc[kp], keyEnc[kp + 1], keyEnc[kp + 2], keyEnc[kp + 3]);
      ForwardIs(box, b, k);
      c := Forward(box, b, k);
    }

    method EncEnd(ghost src: Block, b: Block, r: nat) returns (c: Block)
      requires Valid() && 0 < r < 15
      requires b == Rounds(box, RoundKey(keyEnc[..]), src, r - 1)
      ensures c == Cipher(box, RoundKey(keyEnc[..]), r, src)
    {
      hide ForwardEnd, AddKey, SubShift, MixColumns, Rounds;
      var kp := 4 * r;
      var k := Block(keyEnc[kp], keyEnc[kp + 1], keyEnc[kp + 2], keyEnc[kp + 3]);
      ForwardEndIs(box, b, k);
      c := ForwardEnd(box, b, k);
    }

    method Encrypt(src: Block) returns (dst: Block)
      requires Valid() && KeySize(keyLength)
      ensures dst == Cipher(box, RoundKey(keyEnc[..]), keyLength / 4 + 6, src)
    {
      hide Rounds, Cipher;
      var b0 := EncStart(src);
      var b1: Block;
      var r := 0;
      if keyLength > 24 {
        b1 := EncRound(src, b0, 1);
        b0 := EncRound(src, b1, 2);
        r := 2;
      }
      if keyLength > 16 {
        b1 := EncRound(src, b0, r + 1);
        b0 := EncRound(src, b1, r + 2);
        r := r + 2;
      }
      b1 := EncRound(src, b0, r + 1);
      b0 := EncRound(src, b1, r + 2);
      b1 := EncRound(src, b0, r + 3);
      b0 := EncRound(src, b1, r + 4);
      b1 := EncRound(src, b0, r + 5);
      b0 := EncRound(src, b1, r + 6);
      b1 := EncRound(src, b0, r + 7);
      b0 := EncRound(src, b1, r + 8);
      b1 := EncRound(src, b0, r + 9);
      dst := EncEnd(src, b1, r + 10);
    }

    method DecStart(src: Block) returns (b: Block)
      requires Valid()
      ensures b == EquivalentRounds(box, RoundKey(keyDec[..]), src, 0)
    {
      hide AddKey;
      b := AddKey(src, Block(keyDec[0], keyDec[1], keyDec[2], keyDec[3]));
    }

    // Round r, whose key the pointer kp has reached.
    method DecRound(ghost src: Block, b: Block, r: nat) returns (c: Block)
      requires Valid() && 0 < r < 15
      requires b == EquivalentRounds(box, RoundKey(keyDec[..]), src, r - 1)
      ensures c == EquivalentRounds(box, RoundKey(keyDec[..]), src, r)
    {
      hide Backward, AddKey, UnmixColumns, UnsubShift;
      var kp := 4 * r;
      var k := Block(keyDec[kp], keyDec[kp + 1], keyDec[kp + 2], keyDec[kp + 3]);
      BackwardIs(box, b, k);
      c := Backward(box, b, k);
    }

    method DecEnd(ghost src: Block, b: Block, r: nat) returns (c: Block)
      requires Valid() && 0 < r < 15
      requires b == EquivalentRounds(box, RoundKey(keyDec[..]), src, r - 1)
      ensures c == EquivalentInverse(box, RoundKey(keyDec[..]), r, src)
    {
      hide BackwardEnd, AddKey, UnsubShift, UnmixColumns, EquivalentRounds;
      var kp := 4 * r;
      var k := Block(keyDec[kp], keyDec[kp + 1], keyDec[kp + 2], keyDec[kp + 3]);
      BackwardEndIs(box, b, k);
      c := BackwardEnd(box, b, k);
    }

    method Decrypt(src: Block) returns (dst: Block)
      requires Valid() && KeySize(keyLength)
      ensures dst == EquivalentInverse(box, RoundKey(keyDec[..]), keyLength / 4 + 6, src)
    {
      hide EquivalentRounds, EquivalentInverse;
      var b0 := DecStart(src);
      var b1: Block;
      var r := 0;
      if keyLength > 24 {
        b1 := DecRound(src, b0, 1);
        b0 := DecRound(src, b1, 2);
        r := 2;
      }
      if keyLength > 16 {
        b1 := DecRound(src, b0, r + 1);
        b0 := DecRound(src, b1, r + 2);
        r := r + 2;
      }
      b1 := DecRound(src, b0, r + 1);
      b0 := DecRound(src, b1, r + 2);
      b1 := DecRound(src, b0, r + 3);
      b0 := DecRound(src, b1, r + 4);
      b1 := DecRound(src, b0, r + 5);
      b0 := DecRound(src, b1, r + 6);
      b1 := DecRound(src, b0, r + 7);
      b0 := DecRound(src, b1, r + 8);
      b1 := DecRound(src, b0, r + 9);
      dst := DecEnd(src, b1, r + 10);
    }

    // With any accepted key in place, decrypting what was encrypted gives the block back.
    lemma RoundTrip(inKey: seq<Byte>, x: Block)
      requires Valid() && Inverse(box) && Ready(inKey)
      ensures var nr := keyLength / 4 + 6;
              EquivalentInverse(box, RoundKey(keyDec[..]), nr, Cipher(box, RoundKey(keyEnc[..]), nr, x)) == x
    {
      hide Inverse, EquivalentInverse, Cipher, Decoded, Filled;
      var nr := keyLength / 4 + 6;
      ScheduleReversed(keyEnc[..], keyDec[..], nr);
      DecryptUndoesEncrypt(box, RoundKey(keyEnc[..]), RoundKey(keyDec[..]), nr, x);
    }
  }

  lemma ScheduleReversed(enc: seq<Word>, dec: seq<Word>, nr: nat)
    requires nr > 0 && 4 * nr + 4 <= |enc| && 4 * nr + 4 <= |dec|
    requires forall j :: 0 <= j < 4 * nr + 4 ==> dec[j] == Decoded(enc, 4 * nr, j)
    ensures ReversedUnmixed(RoundKey(enc), RoundKey(dec), nr)
  {
    hide UnmixWord, Slot, Decoded;
    var k, d := RoundKey(enc), RoundKey(dec);
    forall r | 0 <= r <= nr
      ensures d(r) == if 0 < r < nr then UnmixColumns(k(nr - r)) else k(nr - r)
    {
      ReversedWord(enc, nr, r, 0);
      ReversedWord(enc, nr, r, 1);
      ReversedWord(enc, nr, r, 2);
      ReversedWord(enc, nr, r, 3);
    }
    assert d(0) == k(nr) && d(nr) == k(0);
  }

  lemma ReversedWord(enc: seq<Word>, nr: nat, r: nat, c: nat)
    requires 4 * nr + 4 <= |enc| && r <= nr && c < 4
    ensures Decoded(enc, 4 * nr, 4 * r + c)
         == if 0 < r < nr then UnmixWord(enc[4 * (nr - r) + c]) else enc[4 * (nr - r) + c]
  {
    hide UnmixWord;
    assert (4 * r + c) % 4 == c;
  }

  // Words that are only added to the one a key length before.
  lemma Plain(box: Box, nk: nat, i: nat, c: nat, t: Word)
    requires (nk == 4 || nk == 6 || nk == 8) && 0 < c < nk && !(nk == 8 && c == 4)
    ensures nk <= nk * i + nk + c && Changed(box, nk, nk * i + nk + c, t) == t
  {
    hide SubWord, Add;
    if nk == 4 {
      assert nk * i + nk + c == 4 * i + 4 + c;
    } else if nk == 6 {
      assert nk * i + nk + c == 6 * i + 6 + c;
    } else {
      assert nk * i + nk + c == 8 * i + 8 + c;
    }
  }

  lemma Middle8(box: Box, i: nat, t: Word)
    ensures Changed(box, 8, 8 * i + 12, t) == SubWord(box, t)
  {
    hide SubWord, Add;
  }

  lemma RoundStart(nk: nat, i: nat)
    requires nk == 4 || nk == 6 || nk == 8
    ensures (nk * i + nk) % nk == 0 && (nk * i + nk) / nk == i + 1
  {
    if nk == 4 {
      assert nk * i + nk == 4 * i + 4;
    } else if nk == 6 {
      assert nk * i + nk == 6 * i + 6;
    } else {
      assert nk * i + nk == 8 * i + 8;
    }
  }
}
