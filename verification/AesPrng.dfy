/**
  src/aes_prng.c: key expansion, table-driven block encryption, and the random number
  generator that encrypts a counter, each proved against the cipher of FIPS 197.
 */
module AesPrng {
  import opened Arithmetic
  import opened AesField
  import opened AesSBox
  import opened AesTables
  import opened Fips197

  // ------------------------------------------------------------------
  // Words of the implementation
  // ------------------------------------------------------------------

  const AES_MAX_KEYLENGTH_U32 := 60

  /** The round constants of rco_tab. */
  function RcoTab(i: nat): bv32
    requires i < 10
  {
    match i
    case 0 => 1
    case 1 => 2
    case 2 => 4
    case 3 => 8
    case 4 => 16
    case 5 => 32
    case 6 => 64
    case 7 => 128
    case 8 => 27
    case _ => 54
  }

  function Ror8(w: bv32): bv32 { (w >> 8) | (w << 24) }

  function Ror16(w: bv32): bv32 { (w >> 16) | (w << 16) }

  function Ror24(w: bv32): bv32 { (w >> 24) | (w << 8) }

  lemma UnpackRor(w: bv32)
    ensures Unpack(Ror8(w)) == RotWord(Unpack(w))
    ensures Unpack(Ror16(w)) == RotWord(RotWord(Unpack(w)))
    ensures Unpack(Ror24(w)) == RotWord(RotWord(RotWord(Unpack(w))))
  {}

  /** le32_to_cpu of word i of a byte buffer. */
  function LoadWord(bytes: seq<bv8>, i: nat): bv32
    requires 4 * i + 4 <= |bytes|
  {
    Pack(Column(bytes[4 * i], bytes[4 * i + 1], bytes[4 * i + 2], bytes[4 * i + 3]))
  }

  lemma {:induction false} RcoTabIsRoundConstant(i: nat)
    requires i < 10
    ensures Unpack(RcoTab(i)) == Column(RoundConstant(i + 1), 0, 0, 0)
  {
    if i > 0 {
      RcoTabIsRoundConstant(i - 1);
      assert Byte0(RcoTab(i)) == XTime(Byte0(RcoTab(i - 1)));
    }
  }

  function Xor4(x: bv32, y: bv32, z: bv32, w: bv32): bv32 {
    Xor32(Xor32(Xor32(x, y), z), w)
  }

  lemma UnpackXor4(x: bv32, y: bv32, z: bv32, w: bv32)
    ensures Unpack(Xor4(x, y, z, w)) == Unpack(x).Xor(Unpack(y)).Xor(Unpack(z)).Xor(Unpack(w))
  {
    hide Xor32, Unpack, Column.Xor;
    UnpackXor(x, y);
    UnpackXor(Xor32(x, y), z);
    UnpackXor(Xor32(Xor32(x, y), z), w);
  }

  /** The macro ls_box. */
  function LsBox(x: bv32): bv32 {
    Xor4(Fl0(Byte0(x)), Fl1(Byte1(x)), Fl2(Byte2(x)), Fl3(Byte3(x)))
  }

  lemma FourLoneBytes(c: Column)
    ensures LoneByte(0, c.b0).Xor(LoneByte(1, c.b1)).Xor(LoneByte(2, c.b2)).Xor(LoneByte(3, c.b3)) == c
  {
    hide Add;
    AddZero(0);
    AddZero(c.b0);
    AddZero(c.b1);
    AddZero(c.b2);
    AddZero(c.b3);
  }

  /** Four words of crypto_fl_tab combine to a substituted column. */
  lemma FinalTablesCombine(p: bv8, q: bv8, r: bv8, s: bv8)
    ensures Unpack(Xor4(Fl0(p), Fl1(q), Fl2(r), Fl3(s))) == SubColumn(Column(p, q, r, s))
  {
    hide Fl0, Fl1, Fl2, Fl3, Xor4, SBox, Column.Xor, Unpack, LoneByte;
    FlTabIsLoneByte(p);
    FlTabIsLoneByte(q);
    FlTabIsLoneByte(r);
    FlTabIsLoneByte(s);
    UnpackXor4(Fl0(p), Fl1(q), Fl2(r), Fl3(s));
    FourLoneBytes(SubColumn(Column(p, q, r, s)));
  }

  lemma FourMixedBytes(c: Column)
    ensures MixedByte(0, c.b0).Xor(MixedByte(1, c.b1)).Xor(MixedByte(2, c.b2)).Xor(MixedByte(3, c.b3)) == MixColumn(c)
  {
    hide Add, Mul, XTime, X2, X3;
    SmallMultiples(c.b0);
    SmallMultiples(c.b1);
    SmallMultiples(c.b2);
    SmallMultiples(c.b3);
    AddAssociates(Add(Mul(c.b0, 2), Mul(c.b1, 3)), c.b2, c.b3);
    AddAssociates(Add(c.b0, Mul(c.b1, 2)), Mul(c.b2, 3), c.b3);
    AddAssociates(Add(c.b0, c.b1), Mul(c.b2, 2), Mul(c.b3, 3));
    AddAssociates(Add(Mul(c.b0, 3), c.b1), c.b2, Mul(c.b3, 2));
  }

  /** Four words of crypto_ft_tab combine to a substituted and mixed column. */
  lemma RoundTablesCombine(p: bv8, q: bv8, r: bv8, s: bv8)
    ensures Unpack(Xor4(Ft0(p), Ft1(q), Ft2(r), Ft3(s))) == MixColumn(SubColumn(Column(p, q, r, s)))
  {
    hide Ft0, Ft1, Ft2, Ft3, Xor4, SBox, Column.Xor, Unpack, MixedByte, MixColumn;
    FtTabIsMixedByte(p);
    FtTabIsMixedByte(q);
    FtTabIsMixedByte(r);
    FtTabIsMixedByte(s);
    UnpackXor4(Ft0(p), Ft1(q), Ft2(r), Ft3(s));
    FourMixedBytes(SubColumn(Column(p, q, r, s)));
  }

  lemma LsBoxIsSubColumn(x: bv32)
    ensures Unpack(LsBox(x)) == SubColumn(Unpack(x))
  {
    hide Fl0, Fl1, Fl2, Fl3, Xor4, SubColumn, Byte0, Byte1, Byte2, Byte3;
    var c := Unpack(x);
    assert c == Column(Byte0(x), Byte1(x), Byte2(x), Byte3(x));
    hide Unpack;
    FinalTablesCombine(c.b0, c.b1, c.b2, c.b3);
  }

  /** The macro star_x: every byte of the word times x. */
  function StarX(x: bv32): bv32 {
    Xor32((x & 0x7f7f7f7f) << 1, ((x & 0x80808080) >> 7) * 0x1b)
  }

  function DoubleColumn(c: Column): Column {
    Column(XTime(c.b0), XTime(c.b1), XTime(c.b2), XTime(c.b3))
  }

  lemma CarriesTimes1b(m: bv32)
    requires m & 0x01010101 == m
    ensures m * 0x1b == m ^ (m << 1) ^ (m << 3) ^ (m << 4)
  {}

  lemma StarXIsDouble(x: bv32)
    ensures Unpack(StarX(x)) == DoubleColumn(Unpack(x))
  {
    CarriesTimes1b((x & 0x80808080) >> 7);
  }

  /** The macro imix_col. */
  function ImixCol(x: bv32): bv32 {
    var u := StarX(x);
    var v := StarX(u);
    var w := StarX(v);
    var t := Xor32(w, x);
    Xor4(Xor32(Xor32(u, v), w), Ror8(Xor32(u, t)), Ror16(Xor32(v, t)), Ror24(t))
  }

  lemma ImixColIsInvMixColumn(x: bv32)
    ensures Unpack(ImixCol(x)) == InvMixColumn(Unpack(x))
  {
    var u := StarX(x);
    var v := StarX(u);
    var w := StarX(v);
    var t := Xor32(w, x);
    StarXIsDouble(x);
    StarXIsDouble(u);
    StarXIsDouble(v);
    hide StarX, Unpack, Xor32, Xor4, Add, XTime, Mul, Ror8, Ror16, Ror24;
    var c := Unpack(x);
    assert Unpack(u) == DoubleColumn(c);
    assert Unpack(v) == Column(X2(c.b0), X2(c.b1), X2(c.b2), X2(c.b3));
    assert Unpack(w) == Column(X3(c.b0), X3(c.b1), X3(c.b2), X3(c.b3));
    UnpackXor(u, v);
    UnpackXor(Xor32(u, v), w);
    UnpackXor(w, x);
    UnpackXor(u, t);
    UnpackXor(v, t);
    UnpackRor(Xor32(u, t));
    UnpackRor(Xor32(v, t));
    UnpackRor(t);
    UnpackXor4(Xor32(Xor32(u, v), w), Ror8(Xor32(u, t)), Ror16(Xor32(v, t)), Ror24(t));
    MultiplesByByte(c.b0);
    MultiplesByByte(c.b1);
    MultiplesByByte(c.b2);
    MultiplesByByte(c.b3);
    SumOfFour(Mul(c.b0, 14), Mul(c.b1, 11), Mul(c.b2, 13), Mul(c.b3, 9));
    SumOfFour(Mul(c.b1, 14), Mul(c.b2, 11), Mul(c.b3, 13), Mul(c.b0, 9));
    SumOfFour(Mul(c.b2, 14), Mul(c.b3, 11), Mul(c.b0, 13), Mul(c.b1, 9));
    SumOfFour(Mul(c.b3, 14), Mul(c.b0, 11), Mul(c.b1, 13), Mul(c.b2, 9));
  }

  /** The multiples 14, 11, 13 and 9 in the order in which imix_col adds them up. */
  lemma MultiplesByByte(b: bv8)
    ensures Add(Add(XTime(b), X2(b)), X3(b)) == Mul(b, 14)
    ensures Add(XTime(b), Add(X3(b), b)) == Mul(b, 11)
    ensures Add(X2(b), Add(X3(b), b)) == Mul(b, 13)
    ensures Add(X3(b), b) == Mul(b, 9)
  {}

  /** A sum of four terms may start at any of them. */
  lemma SumOfFour(p: bv8, q: bv8, r: bv8, s: bv8)
    ensures Add(Add(Add(p, q), r), s) == Add(Add(p, q), Add(r, s))
    ensures Add(Add(Add(p, q), r), s) == Add(Add(s, p), Add(q, r))
    ensures Add(Add(Add(p, q), r), s) == Add(Add(r, s), Add(p, q))
    ensures Add(Add(Add(p, q), r), s) == Add(Add(q, r), Add(s, p))
  {
    hide Add;
    AddAssociates(Add(p, q), r, s);
    AddCommutes(Add(p, q), Add(r, s));
    AddAssociates(p, q, r);
    AddCommutes(Add(p, Add(q, r)), s);
    AddAssociates(s, p, Add(q, r));
    AddCommutes(Add(s, p), Add(q, r));
  }

  // ------------------------------------------------------------------
  // Rounds
  // ------------------------------------------------------------------

  /** The macro f_rn: a word of a full round, from words n, n+1, n+2, n+3 (mod 4) and the round key word k. */
  function FRn(x: bv32, y: bv32, z: bv32, w: bv32, k: bv32): bv32 {
    Xor32(Xor4(Ft0(Byte0(x)), Ft1(Byte1(y)), Ft2(Byte2(z)), Ft3(Byte3(w))), k)
  }

  /** The macro f_rl: a word of the last round. */
  function FRl(x: bv32, y: bv32, z: bv32, w: bv32, k: bv32): bv32 {
    Xor32(Xor4(Fl0(Byte0(x)), Fl1(Byte1(y)), Fl2(Byte2(z)), Fl3(Byte3(w))), k)
  }

  lemma FRnIsMixedColumn(x: bv32, y: bv32, z: bv32, w: bv32, k: bv32)
    ensures Unpack(FRn(x, y, z, w, k))
         == MixColumn(SubColumn(Column(Byte0(x), Byte1(y), Byte2(z), Byte3(w)))).Xor(Unpack(k))
  {
    hide Unpack, Xor32, Xor4, Ft0, Ft1, Ft2, Ft3, SubColumn, MixColumn, Column.Xor, Byte0, Byte1, Byte2, Byte3;
    RoundTablesCombine(Byte0(x), Byte1(y), Byte2(z), Byte3(w));
    UnpackXor(Xor4(Ft0(Byte0(x)), Ft1(Byte1(y)), Ft2(Byte2(z)), Ft3(Byte3(w))), k);
  }

  lemma FRlIsSubColumn(x: bv32, y: bv32, z: bv32, w: bv32, k: bv32)
    ensures Unpack(FRl(x, y, z, w, k)) == SubColumn(Column(Byte0(x), Byte1(y), Byte2(z), Byte3(w))).Xor(Unpack(k))
  {
    hide Unpack, Xor32, Xor4, Fl0, Fl1, Fl2, Fl3, SubColumn, Column.Xor, Byte0, Byte1, Byte2, Byte3;
    FinalTablesCombine(Byte0(x), Byte1(y), Byte2(z), Byte3(w));
    UnpackXor(Xor4(Fl0(Byte0(x)), Fl1(Byte1(y)), Fl2(Byte2(z)), Fl3(Byte3(w))), k);
  }

  /** The state held by four words. */
  function StateOf(x: bv32, y: bv32, z: bv32, w: bv32): State {
    State(Unpack(x), Unpack(y), Unpack(z), Unpack(w))
  }

  /** Four f_rn make a round. */
  lemma FullRound(x: bv32, y: bv32, z: bv32, w: bv32, k0: bv32, k1: bv32, k2: bv32, k3: bv32)
    ensures StateOf(FRn(x, y, z, w, k0), FRn(y, z, w, x, k1), FRn(z, w, x, y, k2), FRn(w, x, y, z, k3))
         == Round(StateOf(x, y, z, w), StateOf(k0, k1, k2, k3))
  {
    hide FRn, SBox, MixColumn, Column.Xor, Byte0, Byte1, Byte2, Byte3;
    FRnIsMixedColumn(x, y, z, w, k0);
    FRnIsMixedColumn(y, z, w, x, k1);
    FRnIsMixedColumn(z, w, x, y, k2);
    FRnIsMixedColumn(w, x, y, z, k3);
  }

  lemma LastRound(x: bv32, y: bv32, z: bv32, w: bv32, k0: bv32, k1: bv32, k2: bv32, k3: bv32)
    ensures StateOf(FRl(x, y, z, w, k0), FRl(y, z, w, x, k1), FRl(z, w, x, y, k2), FRl(w, x, y, z, k3))
         == FinalRound(StateOf(x, y, z, w), StateOf(k0, k1, k2, k3))
  {
    hide FRl, SBox, Column.Xor, Byte0, Byte1, Byte2, Byte3;
    FRlIsSubColumn(x, y, z, w, k0);
    FRlIsSubColumn(y, z, w, x, k1);
    FRlIsSubColumn(z, w, x, y, k2);
    FRlIsSubColumn(w, x, y, z, k3);
  }

  lemma XorOfStates(x: bv32, y: bv32, z: bv32, w: bv32, k0: bv32, k1: bv32, k2: bv32, k3: bv32)
    ensures StateOf(Xor32(x, k0), Xor32(y, k1), Xor32(z, k2), Xor32(w, k3))
         == XorState(StateOf(x, y, z, w), StateOf(k0, k1, k2, k3))
  {
    hide Unpack, Xor32, Column.Xor;
    UnpackXor(x, k0);
    UnpackXor(y, k1);
    UnpackXor(z, k2);
    UnpackXor(w, k3);
  }

  /** Sixteen bytes as the state they fill, column by column. */
  function BlockState(block: seq<bv8>): State
    requires |block| == 16
  {
    State(Column(block[0], block[1], block[2], block[3]),
          Column(block[4], block[5], block[6], block[7]),
          Column(block[8], block[9], block[10], block[11]),
          Column(block[12], block[13], block[14], block[15]))
  }

  /** cpu_to_le32 of a word, as the bytes it leaves in the buffer. */
  function StoreWord(w: bv32): seq<bv8> {
    [Byte0(w), Byte1(w), Byte2(w), Byte3(w)]
  }

  lemma LoadedState(block: seq<bv8>)
    requires |block| == 16
    ensures StateOf(LoadWord(block, 0), LoadWord(block, 1), LoadWord(block, 2), LoadWord(block, 3)) == BlockState(block)
  {
    hide Unpack, Pack;
    UnpackPack(BlockState(block).c0);
    UnpackPack(BlockState(block).c1);
    UnpackPack(BlockState(block).c2);
    UnpackPack(BlockState(block).c3);
  }

  lemma StoredState(x: bv32, y: bv32, z: bv32, w: bv32)
    ensures var bytes := StoreWord(x) + StoreWord(y) + StoreWord(z) + StoreWord(w);
      |bytes| == 16 && BlockState(bytes) == StateOf(x, y, z, w)
  {
    hide Byte0, Byte1, Byte2, Byte3;
  }

  // ------------------------------------------------------------------
  // Key expansion
  // ------------------------------------------------------------------

  /** The expanded keys: key_enc, key_dec and key_length of aes_context_t. */
  class AesContext {
    const keyEnc: array<bv32>
    const keyDec: array<bv32>
    var keyLength: nat

    constructor ()
      ensures keyEnc.Length == keyDec.Length == AES_MAX_KEYLENGTH_U32
      ensures keyEnc != keyDec && fresh(keyEnc) && fresh(keyDec)
    {
      keyEnc := new bv32[AES_MAX_KEYLENGTH_U32];
      keyDec := new bv32[AES_MAX_KEYLENGTH_U32];
      keyLength := 0;
    }

    ghost predicate Shape()
    {
      keyEnc.Length == keyDec.Length == AES_MAX_KEYLENGTH_U32 && keyEnc != keyDec
    }

    /** The first n words of key_enc are those of KeyExpansion. */
    ghost predicate Expanded(key: Key, n: nat)
      reads keyEnc
    {
      && Shape()
      && n <= AES_MAX_KEYLENGTH_U32
      && forall j | 0 <= j < n :: Unpack(keyEnc[j]) == ScheduleWord(key, j)
    }

    /**
      key_dec holds the schedule of the equivalent inverse cipher with its round keys in reverse
      order, as the inverse cipher consumes them.
     */
    ghost predicate InverseExpanded(key: Key)
      reads keyDec
    {
      && Shape()
      && forall j | 0 <= j < |key| + 28 :: Unpack(keyDec[j]) == DecWord(key, j)
    }

    static ghost function DecWord(key: Key, j: nat): Column
      requires j < |key| + 28
    {
      InverseScheduleWord(key, Reversed(key, j))
    }

    /** One line pair of the loop macros: t ^= key_enc[i - nk]; key_enc[i] = t. */
    method ChainWord(ghost key: Key, i: nat, nk: nat, t: bv32) returns (t': bv32)
      requires nk == KeyWords(key) && nk <= i < AES_MAX_KEYLENGTH_U32
      requires Expanded(key, i)
      requires Unpack(t) == TempWord(nk, i, ScheduleWord(key, i - 1))
      modifies keyEnc
      ensures Expanded(key, i + 1)
      ensures Unpack(t') == ScheduleWord(key, i) && t' == keyEnc[i]
    {
      hide Unpack, Xor32, Column.Xor, TempWord;
      t' := Xor32(t, keyEnc[i - nk]);
      UnpackXor(t, keyEnc[i - nk]);
      XorCommutes(Unpack(t), Unpack(keyEnc[i - nk]));
      keyEnc[i] := t';
    }

    /** A line pair for a word whose temp is simply the word before it. */
    method ChainPlain(ghost key: Key, i: nat, nk: nat, t: bv32) returns (t': bv32)
      requires nk == KeyWords(key) && nk <= i < AES_MAX_KEYLENGTH_U32
      requires i % nk != 0 && !(nk > 6 && i % nk == 4)
      requires Expanded(key, i)
      requires Unpack(t) == ScheduleWord(key, i - 1)
      modifies keyEnc
      ensures Expanded(key, i + 1)
      ensures Unpack(t') == ScheduleWord(key, i) && t' == keyEnc[i]
    {
      hide Expanded;
      t' := ChainWord(key, i, nk, t);
    }

    /** The start of every loop macro: t = ror(t, 8); t = ls_box(t) ^ rco_tab[i]. */
    static function RotatedSubstituted(t: bv32, i: nat): bv32
      requires i < 10
    {
      Xor32(LsBox(Ror8(t)), RcoTab(i))
    }

    static lemma RotatedSubstitutedIsTemp(t: bv32, i: nat)
      requires i < 10
      ensures Unpack(RotatedSubstituted(t, i)) == TempWord(4, 4 * i + 4, Unpack(t))
      ensures Unpack(RotatedSubstituted(t, i)) == TempWord(6, 6 * i + 6, Unpack(t))
      ensures Unpack(RotatedSubstituted(t, i)) == TempWord(8, 8 * i + 8, Unpack(t))
    {
      hide Unpack, LsBox, Xor32, Ror8, RcoTab, Column.Xor, SubColumn, RoundConstant;
      UnpackXor(LsBox(Ror8(t)), RcoTab(i));
      LsBoxIsSubColumn(Ror8(t));
      UnpackRor(t);
      RcoTabIsRoundConstant(i);
    }

    /** The macro loop4. */
    method Loop4(ghost key: Key, i: nat, t: bv32) returns (t': bv32)
      requires |key| == 16 && i < 10
      requires Expanded(key, 4 * i + 4) && t == keyEnc[4 * i + 3]
      modifies keyEnc
      ensures Expanded(key, 4 * i + 8) && t' == keyEnc[4 * i + 7]
    {
      hide Unpack, RotatedSubstituted, ScheduleWord, TempWord;
      t' := RotatedSubstituted(t, i);
      RotatedSubstitutedIsTemp(t, i);
      assert Unpack(t) == ScheduleWord(key, 4 * i + 3);
      hide Expanded;
      t' := ChainWord(key, 4 * i + 4, 4, t');
      t' := ChainPlain(key, 4 * i + 5, 4, t');
      t' := ChainPlain(key, 4 * i + 6, 4, t');
      t' := ChainPlain(key, 4 * i + 7, 4, t');
    }

    /** The macro loop6. */
    method Loop6(ghost key: Key, i: nat, t: bv32) returns (t': bv32)
      requires |key| == 24 && i < 8
      requires Expanded(key, 6 * i + 6) && t == keyEnc[6 * i + 5]
      modifies keyEnc
      ensures Expanded(key, 6 * i + 12) && t' == keyEnc[6 * i + 11]
    {
      hide Unpack, RotatedSubstituted, ScheduleWord, TempWord;
      t' := RotatedSubstituted(t, i);
      RotatedSubstitutedIsTemp(t, i);
      assert Unpack(t) == ScheduleWord(key, 6 * i + 5);
      hide Expanded;
      t' := ChainWord(key, 6 * i + 6, 6, t');
      t' := ChainPlain(key, 6 * i + 7, 6, t');
      t' := ChainPlain(key, 6 * i + 8, 6, t');
      t' := ChainPlain(key, 6 * i + 9, 6, t');
      t' := ChainPlain(key, 6 * i + 10, 6, t');
      t' := ChainPlain(key, 6 * i + 11, 6, t');
    }

    /** The macro loop8tophalf. */
    method Loop8TopHalf(ghost key: Key, i: nat, t: bv32) returns (t': bv32)
      requires |key| == 32 && i < 7
      requires Expanded(key, 8 * i + 8) && t == keyEnc[8 * i + 7]
      modifies keyEnc
      ensures Expanded(key, 8 * i + 12) && t' == keyEnc[8 * i + 11]
    {
      hide Unpack, RotatedSubstituted, ScheduleWord, TempWord;
      t' := RotatedSubstituted(t, i);
      RotatedSubstitutedIsTemp(t, i);
      assert Unpack(t) == ScheduleWord(key, 8 * i + 7);
      hide Expanded;
      t' := ChainWord(key, 8 * i + 8, 8, t');
      t' := ChainPlain(key, 8 * i + 9, 8, t');
      t' := ChainPlain(key, 8 * i + 10, 8, t');
      t' := ChainPlain(key, 8 * i + 11, 8, t');
    }

    /** The macro loop8. */
    method Loop8(ghost key: Key, i: nat, t: bv32) returns (t': bv32)
      requires |key| == 32 && i < 6
      requires Expanded(key, 8 * i + 8) && t == keyEnc[8 * i + 7]
      modifies keyEnc
      ensures Expanded(key, 8 * i + 16) && t' == keyEnc[8 * i + 15]
    {
      hide Unpack, LsBox, ScheduleWord, SubColumn, RotWord, Column.Xor, RoundConstant;
      t' := Loop8TopHalf(key, i, t);
      LsBoxIsSubColumn(t');
      assert Unpack(LsBox(t')) == TempWord(8, 8 * i + 12, Unpack(t'));
      hide TempWord;
      assert Unpack(t') == ScheduleWord(key, 8 * i + 11);
      hide Expanded;
      t' := ChainWord(key, 8 * i + 12, 8, LsBox(t'));
      t' := ChainPlain(key, 8 * i + 13, 8, t');
      t' := ChainPlain(key, 8 * i + 14, 8, t');
      t' := ChainPlain(key, 8 * i + 15, 8, t');
    }

    /** One of the first words of the key, as le32_to_cpu(key[i]). */
    method CopyWord(key: Key, i: nat)
      requires i < KeyWords(key) && Expanded(key, i)
      modifies keyEnc
      ensures Expanded(key, i + 1)
      ensures forall j | 0 <= j < i :: keyEnc[j] == old(keyEnc[j])
    {
      UnpackPack(Column(key[4 * i], key[4 * i + 1], key[4 * i + 2], key[4 * i + 3]));
      hide Unpack, Pack;
      keyEnc[i] := LoadWord(key, i);
    }

    /** Fill key_enc, the switch of AES_ExpandKey. */
    method ExpandForward(key: Key)
      requires Shape()
      modifies keyEnc
      ensures Expanded(key, 4 * (Rounds(key) + 1))
    {
      hide Unpack, ScheduleWord;
      CopyWord(key, 0);
      CopyWord(key, 1);
      CopyWord(key, 2);
      CopyWord(key, 3);
      var i := 0;
      if |key| == 16 {
        var t := keyEnc[3];
        while i < 10
          invariant 0 <= i <= 10
          invariant Expanded(key, 4 * i + 4) && t == keyEnc[4 * i + 3]
        {
          t := Loop4(key, i, t);
          i := i + 1;
        }
      } else if |key| == 24 {
        CopyWord(key, 4);
        CopyWord(key, 5);
        var t := keyEnc[5];
        while i < 8
          invariant 0 <= i <= 8
          invariant Expanded(key, 6 * i + 6) && t == keyEnc[6 * i + 5]
        {
          t := Loop6(key, i, t);
          i := i + 1;
        }
      } else {
        CopyWord(key, 4);
        CopyWord(key, 5);
        CopyWord(key, 6);
        CopyWord(key, 7);
        var t := keyEnc[7];
        while i < 6
          invariant 0 <= i <= 6
          invariant Expanded(key, 8 * i + 8) && t == keyEnc[8 * i + 7]
        {
          t := Loop8(key, i, t);
          i := i + 1;
        }
        t := Loop8TopHalf(key, i, t);
      }
    }

    /** AES_ExpandKey. */
    method ExpandKey(inKey: seq<bv8>) returns (ret: int)
      requires Shape()
      modifies this, keyEnc, keyDec
      ensures ret == if ValidKeyLength(|inKey|) then 0 else -1
      ensures ret == 0 ==> keyLength == |inKey| && Expanded(inKey, |inKey| + 28) && InverseExpanded(inKey)
      ensures ret == -1 ==> unchanged(this) && unchanged(keyEnc) && unchanged(keyDec)
    {
      var keyLen := |inKey|;
      if keyLen != 16 && keyLen != 24 && keyLen != 32 {
        return -1;
      }
      keyLength := keyLen;
      ExpandForward(inKey);
      CopyEnds(inKey);
      MixInner(inKey);
      return 0;
    }

    /** The first and the last round key of key_dec are copies. */
    method CopyEnds(key: Key)
      requires Expanded(key, |key| + 28)
      modifies keyDec
      ensures forall j | 0 <= j < 4 || |key| + 24 <= j < |key| + 28 :: Unpack(keyDec[j]) == DecWord(key, j)
    {
      hide Unpack, ScheduleWord;
      hide DecWord;
      var i := 0;
      while i < 4
        invariant 0 <= i <= 4
        invariant forall j | 0 <= j < i || |key| + 24 <= j < |key| + 24 + i :: Unpack(keyDec[j]) == DecWord(key, j)
      {
        EndWords(key, i);
        keyDec[|key| + 24 + i] := keyEnc[i];
        keyDec[i] := keyEnc[|key| + 24 + i];
        i := i + 1;
      }
    }

    static lemma EndWords(key: Key, i: nat)
      requires i < 4
      ensures DecWord(key, i) == ScheduleWord(key, |key| + 24 + i)
      ensures DecWord(key, |key| + 24 + i) == ScheduleWord(key, i)
    {
      hide ScheduleWord, InvMixColumn;
      DivModUnique(|key| + 24 + i, 4, Rounds(key), i);
      DivModUnique(i, 4, 0, i);
    }

    /** The round keys in between go through InvMixColumns. */
    method MixInner(key: Key)
      requires Expanded(key, |key| + 28)
      requires forall j | 0 <= j < 4 || |key| + 24 <= j < |key| + 28 :: Unpack(keyDec[j]) == DecWord(key, j)
      modifies keyDec
      ensures InverseExpanded(key)
    {
      hide Unpack, ScheduleWord, ImixCol, InvMixColumn;
      var i := 4;
      while i < |key| + 24
        invariant 4 <= i <= |key| + 24
        invariant forall j | 0 <= j < 4 || |key| + 24 <= j < |key| + 28 :: Unpack(keyDec[j]) == DecWord(key, j)
        invariant forall k | 4 <= k < i :: Unpack(keyDec[Mirror(|key|, k)]) == DecWord(key, Mirror(|key|, k))
      {
        var j := Mirror(|key|, i);
        ImixColIsInvMixColumn(keyEnc[i]);
        MirrorReverses(key, i);
        keyDec[j] := ImixCol(keyEnc[i]);
        forall k | 4 <= k < i ensures Mirror(|key|, k) != j { MirrorReverses(key, k); }
        i := i + 1;
      }
      forall j | 0 <= j < |key| + 28 ensures Unpack(keyDec[j]) == DecWord(key, j) {
        if 4 <= j < |key| + 24 {
          MirrorReverses(key, j);
        }
      }
    }

    /** key_len + 24 - (i & ~3) + (i & 3). */
    static function Mirror(keyLen: nat, i: nat): nat
      requires keyLen % 4 == 0 && i < keyLen + 28
    {
      keyLen + 24 - (i - i % 4) + i % 4
    }

    static lemma MirrorReverses(key: Key, i: nat)
      requires 4 <= i < |key| + 24
      ensures 4 <= Mirror(|key|, i) < |key| + 24
      ensures Mirror(|key|, Mirror(|key|, i)) == i
      ensures Reversed(key, Mirror(|key|, i)) == i
    {}

    /** The round key that the key pointer kp stands at. */
    function KeyAt(kp: nat): State
      requires kp + 4 <= keyEnc.Length
      reads keyEnc
    {
      StateOf(keyEnc[kp], keyEnc[kp + 1], keyEnc[kp + 2], keyEnc[kp + 3])
    }

    lemma KeyAtIsRoundKey(key: Key, r: nat)
      requires Expanded(key, |key| + 28) && r <= Rounds(key)
      ensures 4 * r + 4 <= AES_MAX_KEYLENGTH_U32 && KeyAt(4 * r) == RoundKey(key, r)
    {
      hide Unpack, ScheduleWord;
    }

    static ghost predicate Holds(b: array<bv32>, s: State)
      reads b
    {
      b.Length == 4 && StateOf(b[0], b[1], b[2], b[3]) == s
    }

    /** The macro f_nround: bo becomes the state after round r, the key pointer moves on. */
    method FNRound(ghost key: Key, ghost input: State, ghost r: nat, bo: array<bv32>, bi: array<bv32>, kp: nat)
      returns (kp': nat)
      requires Expanded(key, |key| + 28)
      requires bo.Length == 4 && bo != bi && keyEnc != bo
      requires 1 <= r < Rounds(key) && kp == 4 * r
      requires Holds(bi, StateAfter(key, input, r - 1))
      modifies bo
      ensures Holds(bo, StateAfter(key, input, r)) && Expanded(key, |key| + 28)
      ensures kp' == kp + 4
    {
      hide FRn, StateOf, Unpack, Round, RoundKey, ScheduleWord;
      KeyAtIsRoundKey(key, r);
      FullRound(bi[0], bi[1], bi[2], bi[3], keyEnc[kp], keyEnc[kp + 1], keyEnc[kp + 2], keyEnc[kp + 3]);
      bo[0] := FRn(bi[0], bi[1], bi[2], bi[3], keyEnc[kp]);
      bo[1] := FRn(bi[1], bi[2], bi[3], bi[0], keyEnc[kp + 1]);
      bo[2] := FRn(bi[2], bi[3], bi[0], bi[1], keyEnc[kp + 2]);
      bo[3] := FRn(bi[3], bi[0], bi[1], bi[2], keyEnc[kp + 3]);
      kp' := kp + 4;
    }

    /** The macro f_lround. */
    method FLRound(ghost key: Key, ghost input: State, bo: array<bv32>, bi: array<bv32>, kp: nat)
      requires Expanded(key, |key| + 28)
      requires bo.Length == 4 && bo != bi && keyEnc != bo
      requires kp == 4 * Rounds(key)
      requires Holds(bi, StateAfter(key, input, Rounds(key) - 1))
      modifies bo
      ensures Holds(bo, Cipher(key, input))
    {
      hide FRl, StateOf, Unpack, FinalRound, RoundKey, ScheduleWord, StateAfter;
      KeyAtIsRoundKey(key, Rounds(key));
      LastRound(bi[0], bi[1], bi[2], bi[3], keyEnc[kp], keyEnc[kp + 1], keyEnc[kp + 2], keyEnc[kp + 3]);
      bo[0] := FRl(bi[0], bi[1], bi[2], bi[3], keyEnc[kp]);
      bo[1] := FRl(bi[1], bi[2], bi[3], bi[0], keyEnc[kp + 1]);
      bo[2] := FRl(bi[2], bi[3], bi[0], bi[1], keyEnc[kp + 2]);
      bo[3] := FRl(bi[3], bi[0], bi[1], bi[2], keyEnc[kp + 3]);
    }

    /** The key addition before the first round. */
    method WhitenInput(ghost key: Key, input: seq<bv8>, b0: array<bv32>)
      requires Expanded(key, |key| + 28)
      requires |input| == 16 && b0.Length == 4 && b0 != keyEnc
      modifies b0
      ensures Holds(b0, StateAfter(key, BlockState(input), 0)) && Expanded(key, |key| + 28)
    {
      hide LoadWord, BlockState, StateOf, Unpack, Xor32, RoundKey, ScheduleWord, XorState;
      KeyAtIsRoundKey(key, 0);
      LoadedState(input);
      XorOfStates(LoadWord(input, 0), LoadWord(input, 1), LoadWord(input, 2), LoadWord(input, 3),
                  keyEnc[0], keyEnc[1], keyEnc[2], keyEnc[3]);
      b0[0] := Xor32(LoadWord(input, 0), keyEnc[0]);
      b0[1] := Xor32(LoadWord(input, 1), keyEnc[1]);
      b0[2] := Xor32(LoadWord(input, 2), keyEnc[2]);
      b0[3] := Xor32(LoadWord(input, 3), keyEnc[3]);
    }

    /** AES_Encrypt: sixteen bytes in, the sixteen bytes of Cipher out. */
    method Encrypt(ghost key: Key, input: seq<bv8>) returns (output: seq<bv8>)
      requires Expanded(key, |key| + 28) && keyLength == |key|
      requires |input| == 16
      ensures |output| == 16
      ensures BlockState(output) == Cipher(key, BlockState(input))
    {
      hide StateAfter, Cipher, StateOf, BlockState, StoreWord, Expanded;
      var b0, b1 := new bv32[4], new bv32[4];
      WhitenInput(key, input, b0);
      ghost var block := BlockState(input);
      ghost var r := 0;
      var kp := 4;
      if keyLength > 24 {
        kp := FNRound(key, block, r + 1, b1, b0, kp);
        kp := FNRound(key, block, r + 2, b0, b1, kp);
        r := r + 2;
      }
      if keyLength > 16 {
        kp := FNRound(key, block, r + 1, b1, b0, kp);
        kp := FNRound(key, block, r + 2, b0, b1, kp);
        r := r + 2;
      }
      assert r == Rounds(key) - 10;
      kp := FNRound(key, block, r + 1, b1, b0, kp);
      kp := FNRound(key, block, r + 2, b0, b1, kp);
      kp := FNRound(key, block, r + 3, b1, b0, kp);
      kp := FNRound(key, block, r + 4, b0, b1, kp);
      kp := FNRound(key, block, r + 5, b1, b0, kp);
      kp := FNRound(key, block, r + 6, b0, b1, kp);
      kp := FNRound(key, block, r + 7, b1, b0, kp);
      kp := FNRound(key, block, r + 8, b0, b1, kp);
      kp := FNRound(key, block, r + 9, b1, b0, kp);
      FLRound(key, block, b0, b1, kp);
      output := StoreWord(b0[0]) + StoreWord(b0[1]) + StoreWord(b0[2]) + StoreWord(b0[3]);
      StoredState(b0[0], b0[1], b0[2], b0[3]);
    }
  }
}
