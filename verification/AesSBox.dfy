/**
  The substitution tables of FIPS 197 (Tables 4 and 6), and the facts about them that the
  cipher needs: InvSBox undoes SBox, and SBox is the affine image of the field inverse.
  A table of 256 entries is kept as sixteen rows of sixteen, so that each row is checked alone.
 */
module AesSBox {
  import opened AesField

  /** Sixteen consecutive entries of a table, selected by the low nibble of the index. */
  function PickByte(lo: bv8, e0: bv8, e1: bv8, e2: bv8, e3: bv8, e4: bv8, e5: bv8, e6: bv8, e7: bv8,
                e8: bv8, e9: bv8, e10: bv8, e11: bv8, e12: bv8, e13: bv8, e14: bv8, e15: bv8): bv8 {
    if lo & 8 == 0 then
      if lo & 4 == 0 then
        if lo & 2 == 0 then (if lo & 1 == 0 then e0 else e1) else (if lo & 1 == 0 then e2 else e3)
      else
        if lo & 2 == 0 then (if lo & 1 == 0 then e4 else e5) else (if lo & 1 == 0 then e6 else e7)
    else
      if lo & 4 == 0 then
        if lo & 2 == 0 then (if lo & 1 == 0 then e8 else e9) else (if lo & 1 == 0 then e10 else e11)
      else
        if lo & 2 == 0 then (if lo & 1 == 0 then e12 else e13) else (if lo & 1 == 0 then e14 else e15)
  }

  // The rows of the substitution table.
  function SBoxRow0(lo: bv8): bv8
  {
    PickByte(lo, 0x63, 0x7c, 0x77, 0x7b, 0xf2, 0x6b, 0x6f, 0xc5, 0x30, 0x01, 0x67, 0x2b, 0xfe, 0xd7, 0xab, 0x76)
  }

  function SBoxRow1(lo: bv8): bv8
  {
    PickByte(lo, 0xca, 0x82, 0xc9, 0x7d, 0xfa, 0x59, 0x47, 0xf0, 0xad, 0xd4, 0xa2, 0xaf, 0x9c, 0xa4, 0x72, 0xc0)
  }

  function SBoxRow2(lo: bv8): bv8
  {
    PickByte(lo, 0xb7, 0xfd, 0x93, 0x26, 0x36, 0x3f, 0xf7, 0xcc, 0x34, 0xa5, 0xe5, 0xf1, 0x71, 0xd8, 0x31, 0x15)
  }

  function SBoxRow3(lo: bv8): bv8
  {
    PickByte(lo, 0x04, 0xc7, 0x23, 0xc3, 0x18, 0x96, 0x05, 0x9a, 0x07, 0x12, 0x80, 0xe2, 0xeb, 0x27, 0xb2, 0x75)
  }

  function SBoxRow4(lo: bv8): bv8
  {
    PickByte(lo, 0x09, 0x83, 0x2c, 0x1a, 0x1b, 0x6e, 0x5a, 0xa0, 0x52, 0x3b, 0xd6, 0xb3, 0x29, 0xe3, 0x2f, 0x84)
  }

  function SBoxRow5(lo: bv8): bv8
  {
    PickByte(lo, 0x53, 0xd1, 0x00, 0xed, 0x20, 0xfc, 0xb1, 0x5b, 0x6a, 0xcb, 0xbe, 0x39, 0x4a, 0x4c, 0x58, 0xcf)
  }

  function SBoxRow6(lo: bv8): bv8
  {
    PickByte(lo, 0xd0, 0xef, 0xaa, 0xfb, 0x43, 0x4d, 0x33, 0x85, 0x45, 0xf9, 0x02, 0x7f, 0x50, 0x3c, 0x9f, 0xa8)
  }

  function SBoxRow7(lo: bv8): bv8
  {
    PickByte(lo, 0x51, 0xa3, 0x40, 0x8f, 0x92, 0x9d, 0x38, 0xf5, 0xbc, 0xb6, 0xda, 0x21, 0x10, 0xff, 0xf3, 0xd2)
  }

  function SBoxRow8(lo: bv8): bv8
  {
    PickByte(lo, 0xcd, 0x0c, 0x13, 0xec, 0x5f, 0x97, 0x44, 0x17, 0xc4, 0xa7, 0x7e, 0x3d, 0x64, 0x5d, 0x19, 0x73)
  }

  function SBoxRow9(lo: bv8): bv8
  {
    PickByte(lo, 0x60, 0x81, 0x4f, 0xdc, 0x22, 0x2a, 0x90, 0x88, 0x46, 0xee, 0xb8, 0x14, 0xde, 0x5e, 0x0b, 0xdb)
  }

  function SBoxRowA(lo: bv8): bv8
  {
    PickByte(lo, 0xe0, 0x32, 0x3a, 0x0a, 0x49, 0x06, 0x24, 0x5c, 0xc2, 0xd3, 0xac, 0x62, 0x91, 0x95, 0xe4, 0x79)
  }

  function SBoxRowB(lo: bv8): bv8
  {
    PickByte(lo, 0xe7, 0xc8, 0x37, 0x6d, 0x8d, 0xd5, 0x4e, 0xa9, 0x6c, 0x56, 0xf4, 0xea, 0x65, 0x7a, 0xae, 0x08)
  }

  function SBoxRowC(lo: bv8): bv8
  {
    PickByte(lo, 0xba, 0x78, 0x25, 0x2e, 0x1c, 0xa6, 0xb4, 0xc6, 0xe8, 0xdd, 0x74, 0x1f, 0x4b, 0xbd, 0x8b, 0x8a)
  }

  function SBoxRowD(lo: bv8): bv8
  {
    PickByte(lo, 0x70, 0x3e, 0xb5, 0x66, 0x48, 0x03, 0xf6, 0x0e, 0x61, 0x35, 0x57, 0xb9, 0x86, 0xc1, 0x1d, 0x9e)
  }

  function SBoxRowE(lo: bv8): bv8
  {
    PickByte(lo, 0xe1, 0xf8, 0x98, 0x11, 0x69, 0xd9, 0x8e, 0x94, 0x9b, 0x1e, 0x87, 0xe9, 0xce, 0x55, 0x28, 0xdf)
  }

  function SBoxRowF(lo: bv8): bv8
  {
    PickByte(lo, 0x8c, 0xa1, 0x89, 0x0d, 0xbf, 0xe6, 0x42, 0x68, 0x41, 0x99, 0x2d, 0x0f, 0xb0, 0x54, 0xbb, 0x16)
  }


  // The rows of the inverse substitution table.
  function InvSBoxRow0(lo: bv8): bv8
  {
    PickByte(lo, 0x52, 0x09, 0x6a, 0xd5, 0x30, 0x36, 0xa5, 0x38, 0xbf, 0x40, 0xa3, 0x9e, 0x81, 0xf3, 0xd7, 0xfb)
  }

  function InvSBoxRow1(lo: bv8): bv8
  {
    PickByte(lo, 0x7c, 0xe3, 0x39, 0x82, 0x9b, 0x2f, 0xff, 0x87, 0x34, 0x8e, 0x43, 0x44, 0xc4, 0xde, 0xe9, 0xcb)
  }

  function InvSBoxRow2(lo: bv8): bv8
  {
    PickByte(lo, 0x54, 0x7b, 0x94, 0x32, 0xa6, 0xc2, 0x23, 0x3d, 0xee, 0x4c, 0x95, 0x0b, 0x42, 0xfa, 0xc3, 0x4e)
  }

  function InvSBoxRow3(lo: bv8): bv8
  {
    PickByte(lo, 0x08, 0x2e, 0xa1, 0x66, 0x28, 0xd9, 0x24, 0xb2, 0x76, 0x5b, 0xa2, 0x49, 0x6d, 0x8b, 0xd1, 0x25)
  }

  function InvSBoxRow4(lo: bv8): bv8
  {
    PickByte(lo, 0x72, 0xf8, 0xf6, 0x64, 0x86, 0x68, 0x98, 0x16, 0xd4, 0xa4, 0x5c, 0xcc, 0x5d, 0x65, 0xb6, 0x92)
  }

  function InvSBoxRow5(lo: bv8): bv8
  {
    PickByte(lo, 0x6c, 0x70, 0x48, 0x50, 0xfd, 0xed, 0xb9, 0xda, 0x5e, 0x15, 0x46, 0x57, 0xa7, 0x8d, 0x9d, 0x84)
  }

  function InvSBoxRow6(lo: bv8): bv8
  {
    PickByte(lo, 0x90, 0xd8, 0xab, 0x00, 0x8c, 0xbc, 0xd3, 0x0a, 0xf7, 0xe4, 0x58, 0x05, 0xb8, 0xb3, 0x45, 0x06)
  }

  function InvSBoxRow7(lo: bv8): bv8
  {
    PickByte(lo, 0xd0, 0x2c, 0x1e, 0x8f, 0xca, 0x3f, 0x0f, 0x02, 0xc1, 0xaf, 0xbd, 0x03, 0x01, 0x13, 0x8a, 0x6b)
  }

  function InvSBoxRow8(lo: bv8): bv8
  {
    PickByte(lo, 0x3a, 0x91, 0x11, 0x41, 0x4f, 0x67, 0xdc, 0xea, 0x97, 0xf2, 0xcf, 0xce, 0xf0, 0xb4, 0xe6, 0x73)
  }

  function InvSBoxRow9(lo: bv8): bv8
  {
    PickByte(lo, 0x96, 0xac, 0x74, 0x22, 0xe7, 0xad, 0x35, 0x85, 0xe2, 0xf9, 0x37, 0xe8, 0x1c, 0x75, 0xdf, 0x6e)
  }

  function InvSBoxRowA(lo: bv8): bv8
  {
    PickByte(lo, 0x47, 0xf1, 0x1a, 0x71, 0x1d, 0x29, 0xc5, 0x89, 0x6f, 0xb7, 0x62, 0x0e, 0xaa, 0x18, 0xbe, 0x1b)
  }

  function InvSBoxRowB(lo: bv8): bv8
  {
    PickByte(lo, 0xfc, 0x56, 0x3e, 0x4b, 0xc6, 0xd2, 0x79, 0x20, 0x9a, 0xdb, 0xc0, 0xfe, 0x78, 0xcd, 0x5a, 0xf4)
  }

  function InvSBoxRowC(lo: bv8): bv8
  {
    PickByte(lo, 0x1f, 0xdd, 0xa8, 0x33, 0x88, 0x07, 0xc7, 0x31, 0xb1, 0x12, 0x10, 0x59, 0x27, 0x80, 0xec, 0x5f)
  }

  function InvSBoxRowD(lo: bv8): bv8
  {
    PickByte(lo, 0x60, 0x51, 0x7f, 0xa9, 0x19, 0xb5, 0x4a, 0x0d, 0x2d, 0xe5, 0x7a, 0x9f, 0x93, 0xc9, 0x9c, 0xef)
  }

  function InvSBoxRowE(lo: bv8): bv8
  {
    PickByte(lo, 0xa0, 0xe0, 0x3b, 0x4d, 0xae, 0x2a, 0xf5, 0xb0, 0xc8, 0xeb, 0xbb, 0x3c, 0x83, 0x53, 0x99, 0x61)
  }

  function InvSBoxRowF(lo: bv8): bv8
  {
    PickByte(lo, 0x17, 0x2b, 0x04, 0x7e, 0xba, 0x77, 0xd6, 0x26, 0xe1, 0x69, 0x14, 0x63, 0x55, 0x21, 0x0c, 0x7d)
  }


  /** Table 4: the substitution of one byte. */
  function SBox(b: bv8): bv8 {
    var lo := b & 0x0f;
    match (b >> 4) as nat
    case 0 => SBoxRow0(lo)
    case 1 => SBoxRow1(lo)
    case 2 => SBoxRow2(lo)
    case 3 => SBoxRow3(lo)
    case 4 => SBoxRow4(lo)
    case 5 => SBoxRow5(lo)
    case 6 => SBoxRow6(lo)
    case 7 => SBoxRow7(lo)
    case 8 => SBoxRow8(lo)
    case 9 => SBoxRow9(lo)
    case 10 => SBoxRowA(lo)
    case 11 => SBoxRowB(lo)
    case 12 => SBoxRowC(lo)
    case 13 => SBoxRowD(lo)
    case 14 => SBoxRowE(lo)
    case _ => SBoxRowF(lo)
  }

  /** Table 6: the inverse substitution. */
  function InvSBox(b: bv8): bv8 {
    var lo := b & 0x0f;
    match (b >> 4) as nat
    case 0 => InvSBoxRow0(lo)
    case 1 => InvSBoxRow1(lo)
    case 2 => InvSBoxRow2(lo)
    case 3 => InvSBoxRow3(lo)
    case 4 => InvSBoxRow4(lo)
    case 5 => InvSBoxRow5(lo)
    case 6 => InvSBoxRow6(lo)
    case 7 => InvSBoxRow7(lo)
    case 8 => InvSBoxRow8(lo)
    case 9 => InvSBoxRow9(lo)
    case 10 => InvSBoxRowA(lo)
    case 11 => InvSBoxRowB(lo)
    case 12 => InvSBoxRowC(lo)
    case 13 => InvSBoxRowD(lo)
    case 14 => InvSBoxRowE(lo)
    case _ => InvSBoxRowF(lo)
  }

  /** Section 5.1.1: the affine transformation over GF(2). */
  function Affine(g: bv8): bv8 {
    g ^ g.RotateLeft(1) ^ g.RotateLeft(2) ^ g.RotateLeft(3) ^ g.RotateLeft(4) ^ 0x63
  }

  function InvAffine(s: bv8): bv8 {
    s.RotateLeft(1) ^ s.RotateLeft(3) ^ s.RotateLeft(6) ^ 0x05
  }

  lemma AffineInvAffine(s: bv8)
    ensures Affine(InvAffine(s)) == s
  {}

  /** Undoing the affine step on s leaves the field inverse of b, or zero for zero. */
  ghost predicate FieldInverse(b: bv8, s: bv8) {
    if b == 0 then InvAffine(s) == 0 else Mul(b, InvAffine(s)) == 1
  }

  lemma RowInverts0(lo: bv8)
    requires lo < 16
    ensures InvSBox(SBoxRow0(lo)) == 0x0 | lo
  {
    hide InvSBox, SBoxRow0;
    if lo < 8 { RowInverts0Low(lo); } else { RowInverts0High(lo); }
  }

  lemma RowInverts0Low(lo: bv8)
    requires lo < 8
    ensures InvSBox(SBoxRow0(lo)) == 0x0 | lo
  {
    if lo == 0 {} else if lo == 1 {} else if lo == 2 {} else if lo == 3 {} else if lo == 4 {} else if lo == 5 {}
      else if lo == 6 {}
  }

  lemma RowInverts0High(lo: bv8)
    requires 8 <= lo < 16
    ensures InvSBox(SBoxRow0(lo)) == 0x0 | lo
  {}

  lemma RowAffine0(lo: bv8)
    requires lo < 16
    ensures FieldInverse(0x0 | lo, SBoxRow0(lo))
  {}

  lemma RowInverts1(lo: bv8)
    requires lo < 16
    ensures InvSBox(SBoxRow1(lo)) == 0x10 | lo
  {
    hide InvSBox, SBoxRow1;
    if lo < 8 { RowInverts1Low(lo); } else { RowInverts1High(lo); }
  }

  lemma RowInverts1Low(lo: bv8)
    requires lo < 8
    ensures InvSBox(SBoxRow1(lo)) == 0x10 | lo
  {}

  lemma RowInverts1High(lo: bv8)
    requires 8 <= lo < 16
    ensures InvSBox(SBoxRow1(lo)) == 0x10 | lo
  {}

  lemma RowAffine1(lo: bv8)
    requires lo < 16
    ensures FieldInverse(0x10 | lo, SBoxRow1(lo))
  {}

  lemma RowInverts2(lo: bv8)
    requires lo < 16
    ensures InvSBox(SBoxRow2(lo)) == 0x20 | lo
  {
    hide InvSBox, SBoxRow2;
    if lo < 8 { RowInverts2Low(lo); } else { RowInverts2High(lo); }
  }

  lemma RowInverts2Low(lo: bv8)
    requires lo < 8
    ensures InvSBox(SBoxRow2(lo)) == 0x20 | lo
  {}

  lemma RowInverts2High(lo: bv8)
    requires 8 <= lo < 16
    ensures InvSBox(SBoxRow2(lo)) == 0x20 | lo
  {}

  lemma RowAffine2(lo: bv8)
    requires lo < 16
    ensures FieldInverse(0x20 | lo, SBoxRow2(lo))
  {}

  lemma RowInverts3(lo: bv8)
    requires lo < 16
    ensures InvSBox(SBoxRow3(lo)) == 0x30 | lo
  {
    hide InvSBox, SBoxRow3;
    if lo < 8 { RowInverts3Low(lo); } else { RowInverts3High(lo); }
  }

  lemma RowInverts3Low(lo: bv8)
    requires lo < 8
    ensures InvSBox(SBoxRow3(lo)) == 0x30 | lo
  {}

  lemma RowInverts3High(lo: bv8)
    requires 8 <= lo < 16
    ensures InvSBox(SBoxRow3(lo)) == 0x30 | lo
  {}

  lemma RowAffine3(lo: bv8)
    requires lo < 16
    ensures FieldInverse(0x30 | lo, SBoxRow3(lo))
  {}

  lemma RowInverts4(lo: bv8)
    requires lo < 16
    ensures InvSBox(SBoxRow4(lo)) == 0x40 | lo
  {
    hide InvSBox, SBoxRow4;
    if lo < 8 { RowInverts4Low(lo); } else { RowInverts4High(lo); }
  }

  lemma RowInverts4Low(lo: bv8)
    requires lo < 8
    ensures InvSBox(SBoxRow4(lo)) == 0x40 | lo
  {}

  lemma RowInverts4High(lo: bv8)
    requires 8 <= lo < 16
    ensures InvSBox(SBoxRow4(lo)) == 0x40 | lo
  {}

  lemma RowAffine4(lo: bv8)
    requires lo < 16
    ensures FieldInverse(0x40 | lo, SBoxRow4(lo))
  {}

  lemma RowInverts5(lo: bv8)
    requires lo < 16
    ensures InvSBox(SBoxRow5(lo)) == 0x50 | lo
  {
    hide InvSBox, SBoxRow5;
    if lo < 8 { RowInverts5Low(lo); } else { RowInverts5High(lo); }
  }

  lemma RowInverts5Low(lo: bv8)
    requires lo < 8
    ensures InvSBox(SBoxRow5(lo)) == 0x50 | lo
  {}

  lemma RowInverts5High(lo: bv8)
    requires 8 <= lo < 16
    ensures InvSBox(SBoxRow5(lo)) == 0x50 | lo
  {}

  lemma RowAffine5(lo: bv8)
    requires lo < 16
    ensures FieldInverse(0x50 | lo, SBoxRow5(lo))
  {}

  lemma RowInverts6(lo: bv8)
    requires lo < 16
    ensures InvSBox(SBoxRow6(lo)) == 0x60 | lo
  {
    hide InvSBox, SBoxRow6;
    if lo < 8 { RowInverts6Low(lo); } else { RowInverts6High(lo); }
  }

  lemma RowInverts6Low(lo: bv8)
    requires lo < 8
    ensures InvSBox(SBoxRow6(lo)) == 0x60 | lo
  {}

  lemma RowInverts6High(lo: bv8)
    requires 8 <= lo < 16
    ensures InvSBox(SBoxRow6(lo)) == 0x60 | lo
  {}

  lemma RowAffine6(lo: bv8)
    requires lo < 16
    ensures FieldInverse(0x60 | lo, SBoxRow6(lo))
  {}

  lemma RowInverts7(lo: bv8)
    requires lo < 16
    ensures InvSBox(SBoxRow7(lo)) == 0x70 | lo
  {
    hide InvSBox, SBoxRow7;
    if lo < 8 { RowInverts7Low(lo); } else { RowInverts7High(lo); }
  }

  lemma RowInverts7Low(lo: bv8)
    requires lo < 8
    ensures InvSBox(SBoxRow7(lo)) == 0x70 | lo
  {}

  lemma RowInverts7High(lo: bv8)
    requires 8 <= lo < 16
    ensures InvSBox(SBoxRow7(lo)) == 0x70 | lo
  {}

  lemma RowAffine7(lo: bv8)
    requires lo < 16
    ensures FieldInverse(0x70 | lo, SBoxRow7(lo))
  {}

  lemma RowInverts8(lo: bv8)
    requires lo < 16
    ensures InvSBox(SBoxRow8(lo)) == 0x80 | lo
  {
    hide InvSBox, SBoxRow8;
    if lo < 8 { RowInverts8Low(lo); } else { RowInverts8High(lo); }
  }

  lemma RowInverts8Low(lo: bv8)
    requires lo < 8
    ensures InvSBox(SBoxRow8(lo)) == 0x80 | lo
  {}

  lemma RowInverts8High(lo: bv8)
    requires 8 <= lo < 16
    ensures InvSBox(SBoxRow8(lo)) == 0x80 | lo
  {}

  lemma RowAffine8(lo: bv8)
    requires lo < 16
    ensures FieldInverse(0x80 | lo, SBoxRow8(lo))
  {}

  lemma RowInverts9(lo: bv8)
    requires lo < 16
    ensures InvSBox(SBoxRow9(lo)) == 0x90 | lo
  {
    hide InvSBox, SBoxRow9;
    if lo < 8 { RowInverts9Low(lo); } else { RowInverts9High(lo); }
  }

  lemma RowInverts9Low(lo: bv8)
    requires lo < 8
    ensures InvSBox(SBoxRow9(lo)) == 0x90 | lo
  {}

  lemma RowInverts9High(lo: bv8)
    requires 8 <= lo < 16
    ensures InvSBox(SBoxRow9(lo)) == 0x90 | lo
  {}

  lemma RowAffine9(lo: bv8)
    requires lo < 16
    ensures FieldInverse(0x90 | lo, SBoxRow9(lo))
  {}

  lemma RowInvertsA(lo: bv8)
    requires lo < 16
    ensures InvSBox(SBoxRowA(lo)) == 0xa0 | lo
  {
    hide InvSBox, SBoxRowA;
    if lo < 8 { RowInvertsALow(lo); } else { RowInvertsAHigh(lo); }
  }

  lemma RowInvertsALow(lo: bv8)
    requires lo < 8
    ensures InvSBox(SBoxRowA(lo)) == 0xa0 | lo
  {}

  lemma RowInvertsAHigh(lo: bv8)
    requires 8 <= lo < 16
    ensures InvSBox(SBoxRowA(lo)) == 0xa0 | lo
  {}

  lemma RowAffineA(lo: bv8)
    requires lo < 16
    ensures FieldInverse(0xa0 | lo, SBoxRowA(lo))
  {}

  lemma RowInvertsB(lo: bv8)
    requires lo < 16
    ensures InvSBox(SBoxRowB(lo)) == 0xb0 | lo
  {
    hide InvSBox, SBoxRowB;
    if lo < 8 { RowInvertsBLow(lo); } else { RowInvertsBHigh(lo); }
  }

  lemma RowInvertsBLow(lo: bv8)
    requires lo < 8
    ensures InvSBox(SBoxRowB(lo)) == 0xb0 | lo
  {}

  lemma RowInvertsBHigh(lo: bv8)
    requires 8 <= lo < 16
    ensures InvSBox(SBoxRowB(lo)) == 0xb0 | lo
  {}

  lemma RowAffineB(lo: bv8)
    requires lo < 16
    ensures FieldInverse(0xb0 | lo, SBoxRowB(lo))
  {}

  lemma RowInvertsC(lo: bv8)
    requires lo < 16
    ensures InvSBox(SBoxRowC(lo)) == 0xc0 | lo
  {
    hide InvSBox, SBoxRowC;
    if lo < 8 { RowInvertsCLow(lo); } else { RowInvertsCHigh(lo); }
  }

  lemma RowInvertsCLow(lo: bv8)
    requires lo < 8
    ensures InvSBox(SBoxRowC(lo)) == 0xc0 | lo
  {}

  lemma RowInvertsCHigh(lo: bv8)
    requires 8 <= lo < 16
    ensures InvSBox(SBoxRowC(lo)) == 0xc0 | lo
  {}

  lemma RowAffineC(lo: bv8)
    requires lo < 16
    ensures FieldInverse(0xc0 | lo, SBoxRowC(lo))
  {}

  lemma RowInvertsD(lo: bv8)
    requires lo < 16
    ensures InvSBox(SBoxRowD(lo)) == 0xd0 | lo
  {
    hide InvSBox, SBoxRowD;
    if lo < 8 { RowInvertsDLow(lo); } else { RowInvertsDHigh(lo); }
  }

  lemma RowInvertsDLow(lo: bv8)
    requires lo < 8
    ensures InvSBox(SBoxRowD(lo)) == 0xd0 | lo
  {}

  lemma RowInvertsDHigh(lo: bv8)
    requires 8 <= lo < 16
    ensures InvSBox(SBoxRowD(lo)) == 0xd0 | lo
  {}

  lemma RowAffineD(lo: bv8)
    requires lo < 16
    ensures FieldInverse(0xd0 | lo, SBoxRowD(lo))
  {}

  lemma RowInvertsE(lo: bv8)
    requires lo < 16
    ensures InvSBox(SBoxRowE(lo)) == 0xe0 | lo
  {
    hide InvSBox, SBoxRowE;
    if lo < 8 { RowInvertsELow(lo); } else { RowInvertsEHigh(lo); }
  }

  lemma RowInvertsELow(lo: bv8)
    requires lo < 8
    ensures InvSBox(SBoxRowE(lo)) == 0xe0 | lo
  {}

  lemma RowInvertsEHigh(lo: bv8)
    requires 8 <= lo < 16
    ensures InvSBox(SBoxRowE(lo)) == 0xe0 | lo
  {}

  lemma RowAffineE(lo: bv8)
    requires lo < 16
    ensures FieldInverse(0xe0 | lo, SBoxRowE(lo))
  {}

  lemma RowInvertsF(lo: bv8)
    requires lo < 16
    ensures InvSBox(SBoxRowF(lo)) == 0xf0 | lo
  {
    hide InvSBox, SBoxRowF;
    if lo < 8 { RowInvertsFLow(lo); } else { RowInvertsFHigh(lo); }
  }

  lemma RowInvertsFLow(lo: bv8)
    requires lo < 8
    ensures InvSBox(SBoxRowF(lo)) == 0xf0 | lo
  {}

  lemma RowInvertsFHigh(lo: bv8)
    requires 8 <= lo < 16
    ensures InvSBox(SBoxRowF(lo)) == 0xf0 | lo
  {}

  lemma RowAffineF(lo: bv8)
    requires lo < 16
    ensures FieldInverse(0xf0 | lo, SBoxRowF(lo))
  {}

  /** InvSBox undoes SBox; in particular SBox is a bijection on bytes. */
  lemma InvSBoxSBox(b: bv8)
    ensures InvSBox(SBox(b)) == b
  {
    hide SBoxRow0, SBoxRow1, SBoxRow2, SBoxRow3, SBoxRow4, SBoxRow5, SBoxRow6, SBoxRow7, SBoxRow8, SBoxRow9,
      SBoxRowA, SBoxRowB, SBoxRowC, SBoxRowD, SBoxRowE, SBoxRowF;
    hide InvSBox;
    var lo := b & 0x0f;
    match (b >> 4) as nat {
      case 0 => RowInverts0(lo);
      case 1 => RowInverts1(lo);
      case 2 => RowInverts2(lo);
      case 3 => RowInverts3(lo);
      case 4 => RowInverts4(lo);
      case 5 => RowInverts5(lo);
      case 6 => RowInverts6(lo);
      case 7 => RowInverts7(lo);
      case 8 => RowInverts8(lo);
      case 9 => RowInverts9(lo);
      case 10 => RowInvertsA(lo);
      case 11 => RowInvertsB(lo);
      case 12 => RowInvertsC(lo);
      case 13 => RowInvertsD(lo);
      case 14 => RowInvertsE(lo);
      case _ => RowInvertsF(lo);
    }
  }

  lemma SBoxFieldInverse(b: bv8)
    ensures FieldInverse(b, SBox(b))
  {
    hide SBoxRow0, SBoxRow1, SBoxRow2, SBoxRow3, SBoxRow4, SBoxRow5, SBoxRow6, SBoxRow7, SBoxRow8, SBoxRow9,
      SBoxRowA, SBoxRowB, SBoxRowC, SBoxRowD, SBoxRowE, SBoxRowF;
    hide FieldInverse;
    var lo := b & 0x0f;
    match (b >> 4) as nat {
      case 0 => RowAffine0(lo);
      case 1 => RowAffine1(lo);
      case 2 => RowAffine2(lo);
      case 3 => RowAffine3(lo);
      case 4 => RowAffine4(lo);
      case 5 => RowAffine5(lo);
      case 6 => RowAffine6(lo);
      case 7 => RowAffine7(lo);
      case 8 => RowAffine8(lo);
      case 9 => RowAffine9(lo);
      case 10 => RowAffineA(lo);
      case 11 => RowAffineB(lo);
      case 12 => RowAffineC(lo);
      case 13 => RowAffineD(lo);
      case 14 => RowAffineE(lo);
      case _ => RowAffineF(lo);
    }
  }

  /** Section 5.1.1: SBox(b) is the affine image of some g with b*g = {01}, or of {00} when b is {00}. */
  lemma SBoxIsAffineInverse(b: bv8)
    ensures exists g :: SBox(b) == Affine(g) && (if b == 0 then g == 0 else Mul(b, g) == 1)
  {
    hide SBox, InvSBox, InvAffine, Affine, Mul;
    SBoxFieldInverse(b);
    AffineInvAffine(SBox(b));
    var g := InvAffine(SBox(b));
    assert SBox(b) == Affine(g) && (if b == 0 then g == 0 else Mul(b, g) == 1);
  }
}
