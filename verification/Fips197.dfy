/**
  The cipher of FIPS 197 on bytes: Cipher (section 5.1), KeyExpansion (section 5.2),
  and the equivalent inverse cipher (section 5.3.5), with the proof that the last undoes the first.
 */
module Fips197 {
  import opened AesField
  import opened AesSBox

  datatype State = State(c0: Column, c1: Column, c2: Column, c3: Column)

  // ------------------------------------------------------------------
  // The four transformations and their inverses
  // ------------------------------------------------------------------

  function SubColumn(c: Column): Column {
    Column(SBox(c.b0), SBox(c.b1), SBox(c.b2), SBox(c.b3))
  }

  function InvSubColumn(c: Column): Column {
    Column(InvSBox(c.b0), InvSBox(c.b1), InvSBox(c.b2), InvSBox(c.b3))
  }

  function SubBytes(s: State): State {
    State(SubColumn(s.c0), SubColumn(s.c1), SubColumn(s.c2), SubColumn(s.c3))
  }

  function InvSubBytes(s: State): State {
    State(InvSubColumn(s.c0), InvSubColumn(s.c1), InvSubColumn(s.c2), InvSubColumn(s.c3))
  }

  /** Row r moves r places to the left. */
  function ShiftRows(s: State): State {
    State(Column(s.c0.b0, s.c1.b1, s.c2.b2, s.c3.b3),
          Column(s.c1.b0, s.c2.b1, s.c3.b2, s.c0.b3),
          Column(s.c2.b0, s.c3.b1, s.c0.b2, s.c1.b3),
          Column(s.c3.b0, s.c0.b1, s.c1.b2, s.c2.b3))
  }

  /** Row r moves r places to the right. */
  function InvShiftRows(s: State): State {
    State(Column(s.c0.b0, s.c3.b1, s.c2.b2, s.c1.b3),
          Column(s.c1.b0, s.c0.b1, s.c3.b2, s.c2.b3),
          Column(s.c2.b0, s.c1.b1, s.c0.b2, s.c3.b3),
          Column(s.c3.b0, s.c2.b1, s.c1.b2, s.c0.b3))
  }

  /** A row of a matrix times a column. */
  function Dot(c: Column, m0: bv8, m1: bv8, m2: bv8, m3: bv8): bv8 {
    Add(Add(Mul(c.b0, m0), Mul(c.b1, m1)), Add(Mul(c.b2, m2), Mul(c.b3, m3)))
  }

  function MixColumn(c: Column): Column {
    Column(Dot(c, 2, 3, 1, 1), Dot(c, 1, 2, 3, 1), Dot(c, 1, 1, 2, 3), Dot(c, 3, 1, 1, 2))
  }

  function InvMixColumn(c: Column): Column {
    Column(Dot(c, 14, 11, 13, 9), Dot(c, 9, 14, 11, 13), Dot(c, 13, 9, 14, 11), Dot(c, 11, 13, 9, 14))
  }

  function MixColumns(s: State): State {
    State(MixColumn(s.c0), MixColumn(s.c1), MixColumn(s.c2), MixColumn(s.c3))
  }

  function InvMixColumns(s: State): State {
    State(InvMixColumn(s.c0), InvMixColumn(s.c1), InvMixColumn(s.c2), InvMixColumn(s.c3))
  }

  function XorState(s: State, k: State): State {
    State(s.c0.Xor(k.c0), s.c1.Xor(k.c1), s.c2.Xor(k.c2), s.c3.Xor(k.c3))
  }

  // ------------------------------------------------------------------
  // Key expansion
  // ------------------------------------------------------------------

  predicate ValidKeyLength(n: int) { n == 16 || n == 24 || n == 32 }

  type Key = k: seq<bv8> | ValidKeyLength(|k|) witness seq(16, _ => 0)

  /** The number of words in the key, Nk. */
  function KeyWords(key: Key): nat { |key| / 4 }

  /** The number of rounds, Nr. */
  function Rounds(key: Key): nat { KeyWords(key) + 6 }

  /** x^(i-1), the first byte of the round constant Rcon[i]. */
  function RoundConstant(i: nat): bv8
    requires i >= 1
  {
    if i == 1 then 1 else XTime(RoundConstant(i - 1))
  }

  function RotWord(c: Column): Column { Column(c.b1, c.b2, c.b3, c.b0) }

  /** The value that KeyExpansion calls temp when it makes word i from the word before it. */
  function TempWord(nk: nat, i: nat, previous: Column): Column
    requires nk > 0 && i >= nk
  {
    if i % nk == 0 then SubColumn(RotWord(previous)).Xor(Column(RoundConstant(i / nk), 0, 0, 0))
    else if nk > 6 && i % nk == 4 then SubColumn(previous)
    else previous
  }

  /** Word i of KeyExpansion. */
  function ScheduleWord(key: Key, i: nat): Column {
    var nk := KeyWords(key);
    if i < nk then Column(key[4 * i], key[4 * i + 1], key[4 * i + 2], key[4 * i + 3])
    else ScheduleWord(key, i - nk).Xor(TempWord(nk, i, ScheduleWord(key, i - 1)))
  }

  function RoundKey(key: Key, r: nat): State {
    State(ScheduleWord(key, 4 * r), ScheduleWord(key, 4 * r + 1),
          ScheduleWord(key, 4 * r + 2), ScheduleWord(key, 4 * r + 3))
  }

  /** Section 5.3.5: word i of the schedule of the equivalent inverse cipher. */
  function InverseScheduleWord(key: Key, i: nat): Column {
    if 4 <= i < 4 * Rounds(key) then InvMixColumn(ScheduleWord(key, i)) else ScheduleWord(key, i)
  }

  /** Word j when the round keys are listed from the last to the first. */
  function Reversed(key: Key, j: nat): nat
    requires j < 4 * (Rounds(key) + 1)
  {
    4 * (Rounds(key) - j / 4) + j % 4
  }

  function InverseRoundKey(key: Key, r: nat): State {
    State(InverseScheduleWord(key, 4 * r), InverseScheduleWord(key, 4 * r + 1),
          InverseScheduleWord(key, 4 * r + 2), InverseScheduleWord(key, 4 * r + 3))
  }

  // ------------------------------------------------------------------
  // The cipher and its inverse
  // ------------------------------------------------------------------

  /** One full round of Cipher. */
  function Round(s: State, k: State): State {
    XorState(MixColumns(ShiftRows(SubBytes(s))), k)
  }

  /** The last round, without MixColumns. */
  function FinalRound(s: State, k: State): State {
    XorState(ShiftRows(SubBytes(s)), k)
  }

  /** The state after the key addition of round r. */
  function StateAfter(key: Key, input: State, r: nat): State {
    if r == 0 then XorState(input, RoundKey(key, 0)) else Round(StateAfter(key, input, r - 1), RoundKey(key, r))
  }

  function Cipher(key: Key, input: State): State {
    FinalRound(StateAfter(key, input, Rounds(key) - 1), RoundKey(key, Rounds(key)))
  }

  /** A full round of the equivalent inverse cipher. */
  function InverseRound(s: State, k: State): State {
    XorState(InvMixColumns(InvShiftRows(InvSubBytes(s))), k)
  }

  /** The state of the equivalent inverse cipher after the rounds Rounds(key) down to r, for r at least 1. */
  function InverseStateAfter(key: Key, output: State, r: nat): State
    requires 1 <= r <= Rounds(key)
    decreases Rounds(key) - r
  {
    if r == Rounds(key) then
      XorState(output, InverseRoundKey(key, r))
    else
      InverseRound(InverseStateAfter(key, output, r + 1), InverseRoundKey(key, r))
  }

  function EquivalentInverseCipher(key: Key, output: State): State {
    XorState(InvShiftRows(InvSubBytes(InverseStateAfter(key, output, 1))), InverseRoundKey(key, 0))
  }

  // ------------------------------------------------------------------
  // The inverse cipher undoes the cipher
  // ------------------------------------------------------------------

  lemma DotLinear(c: Column, d: Column, m0: bv8, m1: bv8, m2: bv8, m3: bv8)
    requires Coefficient(m0) && Coefficient(m1) && Coefficient(m2) && Coefficient(m3)
    ensures Dot(c.Xor(d), m0, m1, m2, m3) == Add(Dot(c, m0, m1, m2, m3), Dot(d, m0, m1, m2, m3))
  {
    hide Add, Mul, XTime;
    MulLinear(c.b0, d.b0, m0);
    MulLinear(c.b1, d.b1, m1);
    MulLinear(c.b2, d.b2, m2);
    MulLinear(c.b3, d.b3, m3);
    var x, y, z, w := Mul(c.b0, m0), Mul(c.b1, m1), Mul(c.b2, m2), Mul(c.b3, m3);
    var x', y', z', w' := Mul(d.b0, m0), Mul(d.b1, m1), Mul(d.b2, m2), Mul(d.b3, m3);
    AddSwap(x, x', y, y');
    AddSwap(z, z', w, w');
    AddSwap(Add(x, y), Add(x', y'), Add(z, w), Add(z', w'));
  }

  lemma MixColumnLinear(c: Column, d: Column)
    ensures MixColumn(c.Xor(d)) == MixColumn(c).Xor(MixColumn(d))
  {
    hide Dot;
    DotLinear(c, d, 2, 3, 1, 1);
    DotLinear(c, d, 1, 2, 3, 1);
    DotLinear(c, d, 1, 1, 2, 3);
    DotLinear(c, d, 3, 1, 1, 2);
  }

  lemma InvMixColumnLinear(c: Column, d: Column)
    ensures InvMixColumn(c.Xor(d)) == InvMixColumn(c).Xor(InvMixColumn(d))
  {
    hide Dot;
    DotLinear(c, d, 14, 11, 13, 9);
    DotLinear(c, d, 9, 14, 11, 13);
    DotLinear(c, d, 13, 9, 14, 11);
    DotLinear(c, d, 11, 13, 9, 14);
  }

  // The matrices are inverse to each other: on one byte at a time, then by linearity.

  lemma InvMixLone0(b: bv8)
    ensures InvMixColumn(MixColumn(Column(b, 0, 0, 0))) == Column(b, 0, 0, 0)
  {}

  lemma InvMixLone1(b: bv8)
    ensures InvMixColumn(MixColumn(Column(0, b, 0, 0))) == Column(0, b, 0, 0)
  {}

  lemma InvMixLone2(b: bv8)
    ensures InvMixColumn(MixColumn(Column(0, 0, b, 0))) == Column(0, 0, b, 0)
  {}

  lemma InvMixLone3(b: bv8)
    ensures InvMixColumn(MixColumn(Column(0, 0, 0, b))) == Column(0, 0, 0, b)
  {}

  lemma InvMixXor(c: Column, d: Column)
    requires InvMixColumn(MixColumn(c)) == c && InvMixColumn(MixColumn(d)) == d
    ensures InvMixColumn(MixColumn(c.Xor(d))) == c.Xor(d)
  {
    hide MixColumn, InvMixColumn, Column.Xor;
    MixColumnLinear(c, d);
    InvMixColumnLinear(MixColumn(c), MixColumn(d));
  }

  lemma InvMixColumnMixColumn(c: Column)
    ensures InvMixColumn(MixColumn(c)) == c
  {
    hide MixColumn, InvMixColumn;
    var p, q, r, s := Column(c.b0, 0, 0, 0), Column(0, c.b1, 0, 0), Column(0, 0, c.b2, 0), Column(0, 0, 0, c.b3);
    InvMixLone0(c.b0);
    InvMixLone1(c.b1);
    InvMixLone2(c.b2);
    InvMixLone3(c.b3);
    InvMixXor(p, q);
    InvMixXor(p.Xor(q), r);
    InvMixXor(p.Xor(q).Xor(r), s);
    assert p.Xor(q).Xor(r).Xor(s) == c;
  }

  lemma InvSubBytesSubBytes(s: State)
    ensures InvSubBytes(SubBytes(s)) == s
  {
    hide SBox, InvSBox;
    forall b: bv8 ensures InvSBox(SBox(b)) == b { InvSBoxSBox(b); }
  }

  lemma InvMixColumnsXorState(s: State, k: State)
    ensures InvMixColumns(XorState(MixColumns(s), k)) == XorState(s, InvMixColumns(k))
  {
    hide MixColumn, InvMixColumn, Column.Xor;
    forall c: Column ensures InvMixColumn(MixColumn(c)) == c { InvMixColumnMixColumn(c); }
    InvMixColumnLinear(MixColumn(s.c0), k.c0);
    InvMixColumnLinear(MixColumn(s.c1), k.c1);
    InvMixColumnLinear(MixColumn(s.c2), k.c2);
    InvMixColumnLinear(MixColumn(s.c3), k.c3);
  }

  lemma XorStateCancel(s: State, k: State)
    ensures XorState(XorState(s, k), k) == s
  {
    hide Column.Xor;
    forall c: Column, d: Column ensures c.Xor(d).Xor(d) == c { XorCancel(c, d); }
  }

  /** ShiftRows only moves bytes, so it commutes with a bytewise substitution. */
  lemma ShiftRowsCommutes(s: State)
    ensures InvShiftRows(InvSubBytes(ShiftRows(SubBytes(s)))) == s
  {
    hide SubBytes, InvSubBytes;
    InvSubBytesSubBytes(s);
    assert InvSubBytes(ShiftRows(SubBytes(s))) == ShiftRows(InvSubBytes(SubBytes(s))) by {
      InvSubBytesShiftRows(SubBytes(s));
    }
  }

  lemma InvSubBytesShiftRows(s: State)
    ensures InvSubBytes(ShiftRows(s)) == ShiftRows(InvSubBytes(s))
  {
    hide InvSBox;
  }

  /** Going down the rounds of the inverse cipher meets the mixed form of the state the cipher had. */
  lemma {:induction false} InverseStateMeets(key: Key, input: State, r: nat)
    requires 1 <= r <= Rounds(key)
    ensures InverseStateAfter(key, Cipher(key, input), r) == ShiftRows(SubBytes(StateAfter(key, input, r - 1)))
    decreases Rounds(key) - r
  {
    hide SubBytes, ShiftRows, InvSubBytes, InvShiftRows, XorState, MixColumns, InvMixColumns, ScheduleWord;
    var before := StateAfter(key, input, r - 1);
    if r == Rounds(key) {
      XorStateCancel(ShiftRows(SubBytes(before)), RoundKey(key, r));
    } else {
      InverseStateMeets(key, input, r + 1);
      var here := StateAfter(key, input, r);
      ShiftRowsCommutes(here);
      assert InverseRoundKey(key, r) == InvMixColumns(RoundKey(key, r)) by { InnerRoundKeyMixed(key, r); }
      InvMixColumnsXorState(ShiftRows(SubBytes(before)), RoundKey(key, r));
      XorStateCancel(ShiftRows(SubBytes(before)), InvMixColumns(RoundKey(key, r)));
    }
  }

  lemma InnerRoundKeyMixed(key: Key, r: nat)
    requires 1 <= r < Rounds(key)
    ensures InverseRoundKey(key, r) == InvMixColumns(RoundKey(key, r))
  {
    hide ScheduleWord, InvMixColumn;
  }

  /** Section 5.3.5: the equivalent inverse cipher, run on its own schedule, undoes the cipher. */
  lemma InverseCipherUndoesCipher(key: Key, input: State)
    ensures EquivalentInverseCipher(key, Cipher(key, input)) == input
  {
    hide SubBytes, ShiftRows, InvSubBytes, InvShiftRows, XorState, ScheduleWord, Cipher;
    InverseStateMeets(key, input, 1);
    ShiftRowsCommutes(StateAfter(key, input, 0));
    XorStateCancel(input, RoundKey(key, 0));
  }

  /** Different blocks encrypt to different blocks under one key. */
  lemma CipherInjective(key: Key, a: State, b: State)
    requires Cipher(key, a) == Cipher(key, b)
    ensures a == b
  {
    hide Cipher, EquivalentInverseCipher;
    InverseCipherUndoesCipher(key, a);
    InverseCipherUndoesCipher(key, b);
  }
}
