/**
  Bytes as elements of GF(2^8) and 32-bit words as columns of four bytes:
  the arithmetic that FIPS 197 (sections 3 and 4) builds the cipher from.
 */
module AesField {

  /** Section 4.1: addition of field elements. */
  function Add(a: bv8, b: bv8): bv8 { a ^ b }

  /** Multiplication by x modulo x^8 + x^4 + x^3 + x + 1: the top bit is folded back as {1b}. */
  function XTime(b: bv8): bv8 {
    var carry := b >> 7;
    (b << 1) ^ carry ^ (carry << 1) ^ (carry << 3) ^ (carry << 4)
  }

  /** Section 4.2: the product as the sum of the doublings of a that g selects. */
  function Mul(a: bv8, g: bv8): bv8 {
    var a1 := XTime(a);
    var a2 := XTime(a1);
    var a3 := XTime(a2);
    var a4 := XTime(a3);
    var a5 := XTime(a4);
    var a6 := XTime(a5);
    var a7 := XTime(a6);
    (if g & 0x01 != 0 then a else 0) ^ (if g & 0x02 != 0 then a1 else 0) ^
    (if g & 0x04 != 0 then a2 else 0) ^ (if g & 0x08 != 0 then a3 else 0) ^
    (if g & 0x10 != 0 then a4 else 0) ^ (if g & 0x20 != 0 then a5 else 0) ^
    (if g & 0x40 != 0 then a6 else 0) ^ (if g & 0x80 != 0 then a7 else 0)
  }

  lemma XTimeIsConditional(b: bv8)
    ensures XTime(b) == Add(b << 1, if b & 0x80 != 0 then 0x1b else 0)
  {}

  lemma XTimeLinear(a: bv8, b: bv8)
    ensures XTime(Add(a, b)) == Add(XTime(a), XTime(b))
  {}

  lemma AddZero(x: bv8)
    ensures Add(x, 0) == x && Add(0, x) == x
  {}

  lemma AddCommutes(a: bv8, b: bv8)
    ensures Add(a, b) == Add(b, a)
  {}

  lemma AddAssociates(a: bv8, b: bv8, c: bv8)
    ensures Add(Add(a, b), c) == Add(a, Add(b, c))
  {}

  lemma AddSwap(a: bv8, b: bv8, c: bv8, d: bv8)
    ensures Add(Add(a, b), Add(c, d)) == Add(Add(a, c), Add(b, d))
  {
    hide Add;
    AddAssociates(a, b, Add(c, d));
    AddAssociates(b, c, d);
    AddCommutes(b, c);
    AddAssociates(c, b, d);
    AddAssociates(a, c, Add(b, d));
  }

  // The multiples that MixColumns and InvMixColumns use, in terms of doubling.

  function X2(a: bv8): bv8 { XTime(XTime(a)) }

  function X3(a: bv8): bv8 { XTime(XTime(XTime(a))) }

  lemma SmallMultiples(a: bv8)
    ensures Mul(a, 1) == a
    ensures Mul(a, 2) == XTime(a)
    ensures Mul(a, 3) == Add(XTime(a), a)
    ensures Mul(a, 9) == Add(X3(a), a)
    ensures Mul(a, 11) == Add(X3(a), Add(XTime(a), a))
    ensures Mul(a, 13) == Add(X3(a), Add(X2(a), a))
    ensures Mul(a, 14) == Add(X3(a), Add(X2(a), XTime(a)))
  {}

  /** The entries of the two matrices. */
  predicate Coefficient(m: bv8) { m == 1 || m == 2 || m == 3 || m == 9 || m == 11 || m == 13 || m == 14 }

  /** Multiplication by each of those constants distributes over addition. */
  lemma MulLinear(a: bv8, b: bv8, m: bv8)
    requires Coefficient(m)
    ensures Mul(Add(a, b), m) == Add(Mul(a, m), Mul(b, m))
  {
    hide Add, XTime, Mul;
    SmallMultiples(a);
    SmallMultiples(b);
    SmallMultiples(Add(a, b));
    XTimeLinear(a, b);
    XTimeLinear(XTime(a), XTime(b));
    XTimeLinear(X2(a), X2(b));
    AddSwap(XTime(a), XTime(b), a, b);
    AddSwap(X2(a), X2(b), a, b);
    AddSwap(X2(a), X2(b), XTime(a), XTime(b));
    AddSwap(X3(a), X3(b), a, b);
    AddSwap(X3(a), X3(b), Add(XTime(a), a), Add(XTime(b), b));
    AddSwap(X3(a), X3(b), Add(X2(a), a), Add(X2(b), b));
    AddSwap(X3(a), X3(b), Add(X2(a), XTime(a)), Add(X2(b), XTime(b)));
  }

  // ------------------------------------------------------------------
  // Columns and words
  // ------------------------------------------------------------------

  /** A column of the state, or a word of the key schedule; b0 is the first byte. */
  datatype Column = Column(b0: bv8, b1: bv8, b2: bv8, b3: bv8) {
    function Xor(d: Column): Column {
      Column(Add(b0, d.b0), Add(b1, d.b1), Add(b2, d.b2), Add(b3, d.b3))
    }
  }

  lemma XorCommutes(c: Column, d: Column)
    ensures c.Xor(d) == d.Xor(c)
  {}

  lemma XorCancel(c: Column, k: Column)
    ensures c.Xor(k).Xor(k) == c
  {}

  function Byte0(x: bv32): bv8 { (x & 0xff) as bv8 }

  function Byte1(x: bv32): bv8 { ((x >> 8) & 0xff) as bv8 }

  function Byte2(x: bv32): bv8 { ((x >> 16) & 0xff) as bv8 }

  function Byte3(x: bv32): bv8 { ((x >> 24) & 0xff) as bv8 }

  /** A little-endian word read as a column. */
  function Unpack(x: bv32): Column {
    Column(Byte0(x), Byte1(x), Byte2(x), Byte3(x))
  }

  function Pack(c: Column): bv32 {
    (c.b0 as bv32) | ((c.b1 as bv32) << 8) | ((c.b2 as bv32) << 16) | ((c.b3 as bv32) << 24)
  }

  lemma UnpackPack(c: Column)
    ensures Unpack(Pack(c)) == c
  {}

  lemma PackUnpack(x: bv32)
    ensures Pack(Unpack(x)) == x
  {}

  function Xor32(x: bv32, y: bv32): bv32 { x ^ y }

  lemma UnpackXor(x: bv32, y: bv32)
    ensures Unpack(Xor32(x, y)) == Unpack(x).Xor(Unpack(y))
  {}
}
