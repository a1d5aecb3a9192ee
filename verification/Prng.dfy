/**
  src/aes_prng.c, second half: random numbers as the encryption of an incrementing counter.
  The counter is the source's uint32_t, kept as a number below 2^32 that wraps around.
 */
module Prng {
  import opened Arithmetic
  import opened AesField
  import opened Fips197
  import opened AesPrng

  /** Bytes of a 32-bit number, lowest first. */
  function CounterBytes(c: nat): seq<bv8>
    ensures |CounterBytes(c)| == 4
  {
    [ByteOf(c % 0x100), ByteOf(c / 0x100 % 0x100), ByteOf(c / 0x1_0000 % 0x100), ByteOf(c / 0x100_0000 % 0x100)]
  }

  /** A byte from its bits, lowest first. */
  function FromBits(b0: bool, b1: bool, b2: bool, b3: bool, b4: bool, b5: bool, b6: bool, b7: bool): bv8 {
    (if b0 then 1 else 0) | (if b1 then 2 else 0) | (if b2 then 4 else 0) | (if b3 then 8 else 0) |
    (if b4 then 0x10 else 0) | (if b5 then 0x20 else 0) | (if b6 then 0x40 else 0) | (if b7 then 0x80 else 0)
  }

  function Half(x: nat): nat { x / 2 }

  predicate Odd(x: nat) { x % 2 == 1 }

  /** A number below 256 as a byte. */
  function ByteOf(x: nat): bv8 {
    var h1 := Half(x); var h2 := Half(h1); var h3 := Half(h2); var h4 := Half(h3);
    var h5 := Half(h4); var h6 := Half(h5); var h7 := Half(h6);
    FromBits(Odd(x), Odd(h1), Odd(h2), Odd(h3), Odd(h4), Odd(h5), Odd(h6), Odd(h7))
  }

  /** The input block made from counter values c to c + 3. */
  function CounterBlock(c: nat): seq<bv8>
    ensures |CounterBlock(c)| == 16
  {
    CounterBytes(c % UINT32_RANGE) + CounterBytes((c + 1) % UINT32_RANGE) +
    CounterBytes((c + 2) % UINT32_RANGE) + CounterBytes((c + 3) % UINT32_RANGE)
  }

  /** The four words that refill m delivers. */
  function Refill(key: Key, m: nat): State {
    Cipher(key, BlockState(CounterBlock(4 * m)))
  }

  function ColumnOf(s: State, n: nat): Column
    requires n < 4
  {
    match n
    case 0 => s.c0
    case 1 => s.c1
    case 2 => s.c2
    case _ => s.c3
  }

  /** The n-th number drawn after PRNG_Start: word n mod 4 of refill n / 4. */
  function Stream(key: Key, n: nat): bv32 {
    Pack(ColumnOf(Refill(key, n / 4), n % 4))
  }

  // ------------------------------------------------------------------
  // The generator
  // ------------------------------------------------------------------

  class Generator {
    var enabled: bool
    const context: AesContext
    var inputCounter: nat
    var values: seq<bv32>
    var valueIndex: nat

    ghost var key: Key
    ghost var refills: nat
    ghost var drawn: nat

    constructor ()
      ensures Valid() && !enabled
      ensures fresh(context) && fresh(context.keyEnc) && fresh(context.keyDec)
    {
      enabled := false;
      context := new AesContext();
      inputCounter := 0;
      values := [0, 0, 0, 0];
      valueIndex := 0;
      key := seq(16, _ => 0);
      refills := 0;
      drawn := 0;
    }

    /** While the generator runs: the counter is 4 * refills, and the last refill is in values. */
    ghost predicate Valid()
      reads this, context, context.keyEnc
    {
      && context.Shape()
      && |values| == 4
      && (enabled ==>
            && context.keyLength == |key| && context.Expanded(key, |key| + 28)
            && inputCounter == 4 * refills % UINT32_RANGE
            && drawn + 4 == 4 * refills + valueIndex && valueIndex <= 4
            && (refills > 0 ==> HoldsRefill(refills - 1)))
    }

    ghost predicate HoldsRefill(m: nat)
      requires |values| == 4
      reads this
    {
      StateOf(values[0], values[1], values[2], values[3]) == Refill(key, m)
    }

    /** PRNG_Start: the stream begins again from its first number. */
    method Start(seed: seq<bv8>)
      requires Valid() && |seed| == 16
      modifies this, context, context.keyEnc, context.keyDec
      ensures Valid() && enabled && key == seed && drawn == 0
    {
      hide AesContext.Expanded, AesContext.InverseExpanded, StateOf, Refill;
      var ret := context.ExpandKey(seed);
      valueIndex := 4;
      inputCounter := 0;
      enabled := true;
      key := seed;
      refills := 0;
      drawn := 0;
    }

    /** PRNG_Stop. */
    method Stop()
      requires Valid()
      modifies this
      ensures Valid() && !enabled
    {
      enabled := false;
    }

    /** The loop of PRNG_Generate that fills the input block and advances the counter. */
    method NextBlock() returns (input: seq<bv8>)
      modifies this`inputCounter
      ensures input == CounterBlock(old(inputCounter))
      ensures inputCounter == (old(inputCounter) + 4) % UINT32_RANGE
    {
      hide CounterBytes;
      ghost var start := inputCounter;
      inputCounter := inputCounter % UINT32_RANGE;
      input := [];
      var i := 0;
      while i < 4
        invariant 0 <= i <= 4 && |input| == 4 * i
        invariant inputCounter == (start + i) % UINT32_RANGE
        invariant input == CounterBlock(start)[..4 * i]
      {
        input := input + CounterBytes(inputCounter);
        ModAdd(start + i, 1);
        inputCounter := (inputCounter + 1) % UINT32_RANGE;
        i := i + 1;
      }
    }

    /** PRNG_Generate: encrypt the next block of counters. */
    method Generate()
      requires Valid() && enabled && valueIndex == 4
      modifies this`inputCounter, this`values, this`valueIndex, this`refills
      ensures Valid() && valueIndex == 0
    {
      hide StateOf, BlockState, Cipher, LoadWord, CounterBlock, AesContext.Expanded;
      var input := NextBlock();
      var output := context.Encrypt(key, input);
      CounterBlockWraps(4 * refills);
      ModAdd(4 * refills, 4);
      LoadedState(output);
      values := [LoadWord(output, 0), LoadWord(output, 1), LoadWord(output, 2), LoadWord(output, 3)];
      valueIndex := 0;
      refills := refills + 1;
    }

    /** PRNG_Random. */
    method Random() returns (result: bv32)
      requires Valid()
      modifies this
      ensures Valid() && enabled == old(enabled) && key == old(key)
      ensures !enabled ==> result == 0 && drawn == old(drawn)
      ensures enabled ==> result == Stream(key, old(drawn)) && drawn == old(drawn) + 1
    {
      hide StateOf, Refill, Pack, ColumnOf, AesContext.Expanded;
      if !enabled {
        return 0;
      }
      if valueIndex >= 4 {
        Generate();
      }
      result := values[valueIndex];
      WordOfState(values, valueIndex);
      assert drawn == 4 * (refills - 1) + valueIndex;
      valueIndex := valueIndex + 1;
      drawn := drawn + 1;
    }
  }

  lemma WordOfState(values: seq<bv32>, n: nat)
    requires |values| == 4 && n < 4
    ensures values[n] == Pack(ColumnOf(StateOf(values[0], values[1], values[2], values[3]), n))
  {
    hide Unpack, Pack;
    PackUnpack(values[n]);
  }

  lemma ModAdd(c: nat, k: nat)
    ensures (c % UINT32_RANGE + k) % UINT32_RANGE == (c + k) % UINT32_RANGE
  {}

  lemma CounterBlockWraps(c: nat)
    ensures CounterBlock(c % UINT32_RANGE) == CounterBlock(c)
  {
    hide CounterBytes;
    ModAdd(c, 0);
    ModAdd(c, 1);
    ModAdd(c, 2);
    ModAdd(c, 3);
  }

  // ------------------------------------------------------------------
  // The stream does not repeat a block while the counter does not wrap
  // ------------------------------------------------------------------

  lemma FromBitsInjective(b0: bool, b1: bool, b2: bool, b3: bool, b4: bool, b5: bool, b6: bool, b7: bool,
                          c0: bool, c1: bool, c2: bool, c3: bool, c4: bool, c5: bool, c6: bool, c7: bool)
    requires FromBits(b0, b1, b2, b3, b4, b5, b6, b7) == FromBits(c0, c1, c2, c3, c4, c5, c6, c7)
    ensures b0 == c0 && b1 == c1 && b2 == c2 && b3 == c3 && b4 == c4 && b5 == c5 && b6 == c6 && b7 == c7
  {}

  /** A 32-bit number from its four digits in base 256. */
  lemma FourDigits(c: nat)
    requires c < UINT32_RANGE
    ensures c == c % 0x100 + 0x100 * (c / 0x100 % 0x100) + 0x1_0000 * (c / 0x1_0000 % 0x100)
                 + 0x100_0000 * (c / 0x100_0000 % 0x100)
  {}

  lemma BytesEqual(x: nat, y: nat)
    requires x < 0x100 && y < 0x100 && ByteOf(x) == ByteOf(y)
    ensures x == y
  {
    hide FromBits, Half, Odd;
    var h1 := Half(x); var h2 := Half(h1); var h3 := Half(h2); var h4 := Half(h3);
    var h5 := Half(h4); var h6 := Half(h5); var h7 := Half(h6);
    var g1 := Half(y); var g2 := Half(g1); var g3 := Half(g2); var g4 := Half(g3);
    var g5 := Half(g4); var g6 := Half(g5); var g7 := Half(g6);
    FromBitsInjective(Odd(x), Odd(h1), Odd(h2), Odd(h3), Odd(h4), Odd(h5), Odd(h6), Odd(h7),
                      Odd(y), Odd(g1), Odd(g2), Odd(g3), Odd(g4), Odd(g5), Odd(g6), Odd(g7));
    NoNinthBit(x);
    NoNinthBit(y);
    SameHalves(h7, g7);
    SameHalves(h6, g6);
    SameHalves(h5, g5);
    SameHalves(h4, g4);
    SameHalves(h3, g3);
    SameHalves(h2, g2);
    SameHalves(h1, g1);
    SameHalves(x, y);
  }

  lemma NoNinthBit(x: nat)
    requires x < 0x100
    ensures Half(Half(Half(Half(Half(Half(Half(Half(x)))))))) == 0
  {}

  lemma SameHalves(x: nat, y: nat)
    requires Half(x) == Half(y) && (Odd(x) <==> Odd(y))
    ensures x == y
  {}

  lemma CounterBytesInjective(c: nat, d: nat)
    requires c < UINT32_RANGE && d < UINT32_RANGE
    requires CounterBytes(c) == CounterBytes(d)
    ensures c == d
  {
    hide ByteOf;
    var s, t := CounterBytes(c), CounterBytes(d);
    assert s[0] == t[0] && s[1] == t[1] && s[2] == t[2] && s[3] == t[3];
    BytesEqual(c % 0x100, d % 0x100);
    BytesEqual(c / 0x100 % 0x100, d / 0x100 % 0x100);
    BytesEqual(c / 0x1_0000 % 0x100, d / 0x1_0000 % 0x100);
    BytesEqual(c / 0x100_0000 % 0x100, d / 0x100_0000 % 0x100);
    FourDigits(c);
    FourDigits(d);
  }

  lemma CounterBlocksDiffer(c: nat, d: nat)
    requires c < d < UINT32_RANGE
    ensures BlockState(CounterBlock(c)) != BlockState(CounterBlock(d))
  {
    hide CounterBytes;
    var s, t := CounterBlock(c), CounterBlock(d);
    if BlockState(s) == BlockState(t) {
      assert s[..4] == t[..4];
      assert s[..4] == CounterBytes(c) && t[..4] == CounterBytes(d);
      CounterBytesInjective(c, d);
    }
  }

  /** Of the first 2^30 refills, no two are the same four words. */
  lemma RefillsDiffer(key: Key, m: nat, n: nat)
    requires m < n < 0x4000_0000
    ensures Refill(key, m) != Refill(key, n)
  {
    hide Cipher, BlockState, CounterBlock;
    CounterBlocksDiffer(4 * m, 4 * n);
    if Refill(key, m) == Refill(key, n) {
      CipherInjective(key, BlockState(CounterBlock(4 * m)), BlockState(CounterBlock(4 * n)));
    }
  }

  /** The counter then wraps around, and the stream starts again. */
  lemma RefillsRepeat(key: Key, m: nat)
    ensures Refill(key, m + 0x4000_0000) == Refill(key, m)
  {
    hide Cipher, BlockState, CounterBlock;
    CounterBlockWraps(4 * m);
    CounterBlockWraps(4 * (m + 0x4000_0000));
  }
}
