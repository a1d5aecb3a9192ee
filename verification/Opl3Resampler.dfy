/**
  opl/opl3.c: the resampler. It turns the samples of the chip, 49716 in a second, into samples
  at the rate of the mixer, with fixed-point positions of ten fraction bits.
 */
module Opl3Resampler {
  import opened Arithmetic

  const RSM_ONE := 1024
  const NATIVE_RATE := 49716

  datatype Stereo = Stereo(left: int, right: int)

  predicate Fits16(x: int) { -0x8000 <= x < 0x8000 }

  predicate Fits32(x: int) { -0x8000_0000 <= x < 0x8000_0000 }

  predicate FitsStereo(s: Stereo) { Fits16(s.left) && Fits16(s.right) }

  /** The sample at distance c out of r on the way from a to b, before the cast to 16 bits. */
  function Blend(a: int, b: int, r: int, c: int): int
    requires r > 0
  {
    Quotient(a * (r - c) + b * c, r)
  }

  /** Truncation to 16 bits, as the cast does it. */
  function Cast16(x: int): int {
    (x + 0x8000) % 0x1_0000 - 0x8000
  }

  /** A weighted mean lies between its two values. */
  lemma MeanBetween(a: int, b: int, lo: int, hi: int, r: int, c: int)
    requires lo <= a <= hi && lo <= b <= hi && 0 <= c <= r
    ensures lo * r <= a * (r - c) + b * c <= hi * r
  {
    MulMonotone(lo, a, r - c);
    MulMonotone(a, hi, r - c);
    MulMonotone(lo, b, c);
    MulMonotone(b, hi, c);
  }

  lemma QuotientBetween(x: int, lo: int, hi: int, r: int)
    requires r > 0 && lo * r <= x <= hi * r
    ensures lo <= Quotient(x, r) <= hi
  {
    if x >= 0 {
      DivBetween(x, lo, hi, r);
    } else {
      DivBetween(-x, -hi, -lo, r);
    }
  }

  lemma DivBetween(x: int, lo: int, hi: int, r: int)
    requires r > 0 && lo * r <= x <= hi * r
    ensures lo <= x / r <= hi
  {
    var q := x / r;
    if q < lo { MulMonotone(q + 1, lo, r); }
    if q > hi { MulMonotone(hi + 1, q, r); }
  }

  /**
    Each output lies between the two native samples it blends, so that neither the products nor the cast lose a bit.
   */
  lemma BlendBetween(a: int, b: int, r: int, c: int)
    requires Fits16(a) && Fits16(b) && 0 <= c < r <= 0xffff
    ensures var lo, hi := if a < b then a else b, if a < b then b else a;
      && lo <= Blend(a, b, r, c) <= hi
      && Cast16(Blend(a, b, r, c)) == Blend(a, b, r, c)
      && Fits32(a * (r - c)) && Fits32(b * c) && Fits32(a * (r - c) + b * c)
  {
    var lo, hi := if a < b then a else b, if a < b then b else a;
    MeanBetween(a, b, lo, hi, r, c);
    QuotientBetween(a * (r - c) + b * c, lo, hi, r);
    ProductFits(a, r - c);
    ProductFits(b, c);
    ProductFits(lo, r);
    ProductFits(hi, r);
  }

  lemma ProductFits(a: int, r: int)
    requires Fits16(a) && 0 <= r <= 0xffff
    ensures Fits32(a * r)
  {
    MulMonotone(-0x8000, a, r);
    MulMonotone(a, 0x7fff, r);
  }

  /**
    OPL3_Reset: the step between two native samples, in steps of the fixed-point position; the shift is one of 32
    bits.
   */
  function RateRatio(samplerate: nat): nat {
    samplerate * RSM_ONE % UINT32_RANGE / NATIVE_RATE
  }

  /** The rates that the resampler can serve: below 49 Hz its step would be zero, and rates count modulo 2^22. */
  predicate Served(samplerate: nat) { 49 <= samplerate % 0x40_0000 <= 3181823 }

  lemma RateServed(samplerate: nat)
    ensures 0 < RateRatio(samplerate) <= 0xffff <==> Served(samplerate)
  {
    ShiftWraps(samplerate);
  }

  /** The shift loses the bits of the rate above the lower 22. */
  lemma ShiftWraps(samplerate: nat)
    ensures samplerate * RSM_ONE % UINT32_RANGE == samplerate % 0x40_0000 * RSM_ONE
  {
    var q, r := samplerate / 0x40_0000, samplerate % 0x40_0000;
    assert samplerate * RSM_ONE == UINT32_RANGE * q + r * RSM_ONE;
    DivModUnique(samplerate * RSM_ONE, UINT32_RANGE, q, r * RSM_ONE);
  }

  /** The step is that of the rate itself just when the shift loses nothing. */
  lemma RateExact(samplerate: nat)
    ensures RateRatio(samplerate) == samplerate * RSM_ONE / NATIVE_RATE <==> samplerate < 0x40_0000
  {
    ShiftWraps(samplerate);
  }

  /** 4238404 Hz is taken for 44100 Hz. */
  lemma WrappedRateExample()
    ensures RateRatio(4238404) == RateRatio(44100) == 908
  {}

  /** Native sample i of the stream, which starts after silence. */
  function Heard(native: nat -> Stereo, i: int): Stereo {
    if i < 1 then Stereo(0, 0) else native(i - 1)
  }

  /** Output n is the linear interpolation of the native samples at position 1024 n / r. */
  function Interpolated(native: nat -> Stereo, r: nat, n: nat): Stereo
    requires r > 0
  {
    var g, c := RSM_ONE * n / r, RSM_ONE * n % r;
    var a, b := Heard(native, g - 1), Heard(native, g);
    Stereo(Blend(a.left, b.left, r, c), Blend(a.right, b.right, r, c))
  }

  /** The native samples fit 16 bits. */
  ghost predicate FitsAll(native: nat -> Stereo) {
    forall i: nat :: FitsStereo(native(i))
  }

  /** The resampler fields of opl3_chip. */
  class Resampler {
    const native: nat -> Stereo
    const rateratio: nat
    var samplecnt: int
    var oldsamples: Stereo
    var samples: Stereo
    var generated: nat
    ghost var outputs: nat

    /** Nothing of the position is ever lost: the count is exact. */
    ghost predicate Valid()
      reads this
    {
      && 0 < rateratio <= 0xffff && 0 <= samplecnt && FitsAll(native)
      && samplecnt + rateratio * generated == RSM_ONE * outputs
      && oldsamples == Heard(native, generated - 1) && samples == Heard(native, generated)
    }

    /** OPL3_Reset. */
    constructor (samplerate: nat, native: nat -> Stereo)
      requires Served(samplerate) && FitsAll(native)
      ensures Valid() && this.native == native && rateratio == RateRatio(samplerate)
      ensures outputs == 0 && generated == 0
    {
      RateServed(samplerate);
      this.native := native;
      rateratio := RateRatio(samplerate);
      samplecnt, generated, outputs := 0, 0, 0;
      oldsamples, samples := Stereo(0, 0), Stereo(0, 0);
    }

    /** OPL3_GenerateResampled: the loop runs as many samples of the chip as the position has passed. */
    method GenerateResampled() returns (buf: Stereo)
      requires Valid()
      modifies this`samplecnt, this`oldsamples, this`samples, this`generated, this`outputs
      ensures Valid() && outputs == old(outputs) + 1
      ensures generated == RSM_ONE * old(outputs) / rateratio && old(generated) <= generated
      ensures buf == Interpolated(native, rateratio, old(outputs)) && FitsStereo(buf)
    {
      while samplecnt >= rateratio
        invariant Valid() && outputs == old(outputs) && old(generated) <= generated
        decreases samplecnt
      {
        NextNative();
      }
      buf := Interpolate();
      samplecnt := samplecnt + RSM_ONE;
      outputs := outputs + 1;
    }

    /** The position passes one sample of the chip. */
    method NextNative()
      requires Valid() && samplecnt >= rateratio
      modifies this`samplecnt, this`oldsamples, this`samples, this`generated
      ensures Valid() && generated == old(generated) + 1 && samplecnt == old(samplecnt) - rateratio
    {
      oldsamples := samples;
      samples := native(generated);
      samplecnt := samplecnt - rateratio;
      generated := generated + 1;
    }

    /** The blend of the two last samples of the chip: the position is between them. */
    method Interpolate() returns (buf: Stereo)
      requires Valid() && samplecnt < rateratio
      ensures generated == RSM_ONE * outputs / rateratio && samplecnt == RSM_ONE * outputs % rateratio
      ensures buf == Interpolated(native, rateratio, outputs) && FitsStereo(buf)
    {
      hide Blend, Cast16;
      DivModUnique(RSM_ONE * outputs, rateratio, generated, samplecnt);
      assert FitsStereo(oldsamples) && FitsStereo(samples);
      BlendBetween(oldsamples.left, samples.left, rateratio, samplecnt);
      BlendBetween(oldsamples.right, samples.right, rateratio, samplecnt);
      buf := Stereo(Cast16(Blend(oldsamples.left, samples.left, rateratio, samplecnt)),
                    Cast16(Blend(oldsamples.right, samples.right, rateratio, samplecnt)));
    }

    /** OPL3_GenerateStream. */
    method GenerateStream(numsamples: nat) returns (stream: seq<Stereo>)
      requires Valid()
      modifies this`samplecnt, this`oldsamples, this`samples, this`generated, this`outputs
      ensures Valid() && outputs == old(outputs) + numsamples && |stream| == numsamples
      ensures forall i | 0 <= i < numsamples :: stream[i] == Interpolated(native, rateratio, old(outputs) + i)
    {
      hide Interpolated;
      stream := [];
      var i := 0;
      while i < numsamples
        invariant 0 <= i <= numsamples
        invariant Valid() && outputs == old(outputs) + i && |stream| == i
        invariant forall j | 0 <= j < i :: stream[j] == Interpolated(native, rateratio, old(outputs) + j)
      {
        var buf := GenerateResampled();
        stream := stream + [buf];
        i := i + 1;
      }
    }
  }
}
