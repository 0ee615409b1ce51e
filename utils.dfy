/**
 * Bit-level helpers of src/utils.c: the portable population count,
 * the De Bruijn forward bit scan and the Isenberg reverse bit scan.
 * This module holds only the bit-vector reasoning; the module Utils
 * below states the routines against their specifications.
 */
module UtilsBits {
  // ---- pop_count, portable branch: the first three SWAR steps ----

  const K1: bv64 := 0x5555_5555_5555_5555
  const K2: bv64 := 0x3333_3333_3333_3333
  const K4: bv64 := 0x0f0f_0f0f_0f0f_0f0f
  const KF: bv64 := 0x0101_0101_0101_0101

  /** The value after the third SWAR step: each byte holds the number of set bits of that byte of v. */
  function Nibbles(v: bv64): bv64 {
    var x1 := v - ((v >> 1) & K1);
    var x2 := (x1 & K2) + ((x1 >> 2) & K2);
    (x2 + (x2 >> 4)) & K4
  }

  lemma NibbleByte0(v: bv64) ensures (Nibbles(v) >> 0) & 0xff == (((v >> 0) & 1) + (((v >> 1) & 1) + (((v >> 2) & 1) + (((v >> 3) & 1) + (((v >> 4) & 1) + (((v >> 5) & 1) + (((v >> 6) & 1) + (((v >> 7) & 1) + 0)))))))) {}
  lemma NibbleByte1(v: bv64) ensures (Nibbles(v) >> 8) & 0xff == (((v >> 8) & 1) + (((v >> 9) & 1) + (((v >> 10) & 1) + (((v >> 11) & 1) + (((v >> 12) & 1) + (((v >> 13) & 1) + (((v >> 14) & 1) + (((v >> 15) & 1) + 0)))))))) {}
  lemma NibbleByte2(v: bv64) ensures (Nibbles(v) >> 16) & 0xff == (((v >> 16) & 1) + (((v >> 17) & 1) + (((v >> 18) & 1) + (((v >> 19) & 1) + (((v >> 20) & 1) + (((v >> 21) & 1) + (((v >> 22) & 1) + (((v >> 23) & 1) + 0)))))))) {}
  lemma NibbleByte3(v: bv64) ensures (Nibbles(v) >> 24) & 0xff == (((v >> 24) & 1) + (((v >> 25) & 1) + (((v >> 26) & 1) + (((v >> 27) & 1) + (((v >> 28) & 1) + (((v >> 29) & 1) + (((v >> 30) & 1) + (((v >> 31) & 1) + 0)))))))) {}
  lemma NibbleByte4(v: bv64) ensures (Nibbles(v) >> 32) & 0xff == (((v >> 32) & 1) + (((v >> 33) & 1) + (((v >> 34) & 1) + (((v >> 35) & 1) + (((v >> 36) & 1) + (((v >> 37) & 1) + (((v >> 38) & 1) + (((v >> 39) & 1) + 0)))))))) {}
  lemma NibbleByte5(v: bv64) ensures (Nibbles(v) >> 40) & 0xff == (((v >> 40) & 1) + (((v >> 41) & 1) + (((v >> 42) & 1) + (((v >> 43) & 1) + (((v >> 44) & 1) + (((v >> 45) & 1) + (((v >> 46) & 1) + (((v >> 47) & 1) + 0)))))))) {}
  lemma NibbleByte6(v: bv64) ensures (Nibbles(v) >> 48) & 0xff == (((v >> 48) & 1) + (((v >> 49) & 1) + (((v >> 50) & 1) + (((v >> 51) & 1) + (((v >> 52) & 1) + (((v >> 53) & 1) + (((v >> 54) & 1) + (((v >> 55) & 1) + 0)))))))) {}
  lemma NibbleByte7(v: bv64) ensures (Nibbles(v) >> 56) & 0xff == (((v >> 56) & 1) + (((v >> 57) & 1) + (((v >> 58) & 1) + (((v >> 59) & 1) + (((v >> 60) & 1) + (((v >> 61) & 1) + (((v >> 62) & 1) + (((v >> 63) & 1) + 0)))))))) {}

  // ---- bitscan_forward, portable branch ----

  const DEBRUIJN: bv64 := 0x07ED_D5E5_9A4E_28C2

  /** The index64 table, row by row. */
  function Index64(k: int): int requires 0 <= k < 64 {
    match k / 8
      case 0 => [63, 0, 58, 1, 59, 47, 53, 2][k % 8]
      case 1 => [60, 39, 48, 27, 54, 33, 42, 3][k % 8]
      case 2 => [61, 51, 37, 40, 49, 18, 28, 20][k % 8]
      case 3 => [55, 30, 34, 11, 43, 14, 22, 4][k % 8]
      case 4 => [62, 57, 46, 52, 38, 26, 32, 41][k % 8]
      case 5 => [50, 36, 17, 19, 29, 10, 13, 21][k % 8]
      case 6 => [56, 45, 25, 31, 35, 16, 9, 12][k % 8]
      case 7 => [44, 24, 15, 8, 23, 7, 6, 5][k % 8]
  }
  lemma DeBruijnPair0(r: nat) requires 0 <= r < 2 ensures Index64(((DEBRUIJN << r) >> 58) as int) == r {
    if r == 0 { assert (DEBRUIJN << 0) >> 58 == 1; }
    else { assert (DEBRUIJN << 1) >> 58 == 3; }
  }
  lemma DeBruijnPair1(r: nat) requires 2 <= r < 4 ensures Index64(((DEBRUIJN << r) >> 58) as int) == r {
    if r == 2 { assert (DEBRUIJN << 2) >> 58 == 7; }
    else { assert (DEBRUIJN << 3) >> 58 == 15; }
  }
  lemma DeBruijnPair2(r: nat) requires 4 <= r < 6 ensures Index64(((DEBRUIJN << r) >> 58) as int) == r {
    if r == 4 { assert (DEBRUIJN << 4) >> 58 == 31; }
    else { assert (DEBRUIJN << 5) >> 58 == 63; }
  }
  lemma DeBruijnPair3(r: nat) requires 6 <= r < 8 ensures Index64(((DEBRUIJN << r) >> 58) as int) == r {
    if r == 6 { assert (DEBRUIJN << 6) >> 58 == 62; }
    else { assert (DEBRUIJN << 7) >> 58 == 61; }
  }
  lemma DeBruijnPair4(r: nat) requires 8 <= r < 10 ensures Index64(((DEBRUIJN << r) >> 58) as int) == r {
    if r == 8 { assert (DEBRUIJN << 8) >> 58 == 59; }
    else { assert (DEBRUIJN << 9) >> 58 == 54; }
  }
  lemma DeBruijnPair5(r: nat) requires 10 <= r < 12 ensures Index64(((DEBRUIJN << r) >> 58) as int) == r {
    if r == 10 { assert (DEBRUIJN << 10) >> 58 == 45; }
    else { assert (DEBRUIJN << 11) >> 58 == 27; }
  }
  lemma DeBruijnPair6(r: nat) requires 12 <= r < 14 ensures Index64(((DEBRUIJN << r) >> 58) as int) == r {
    if r == 12 { assert (DEBRUIJN << 12) >> 58 == 55; }
    else { assert (DEBRUIJN << 13) >> 58 == 46; }
  }
  lemma DeBruijnPair7(r: nat) requires 14 <= r < 16 ensures Index64(((DEBRUIJN << r) >> 58) as int) == r {
    if r == 14 { assert (DEBRUIJN << 14) >> 58 == 29; }
    else { assert (DEBRUIJN << 15) >> 58 == 58; }
  }
  lemma DeBruijnPair8(r: nat) requires 16 <= r < 18 ensures Index64(((DEBRUIJN << r) >> 58) as int) == r {
    if r == 16 { assert (DEBRUIJN << 16) >> 58 == 53; }
    else { assert (DEBRUIJN << 17) >> 58 == 42; }
  }
  lemma DeBruijnPair9(r: nat) requires 18 <= r < 20 ensures Index64(((DEBRUIJN << r) >> 58) as int) == r {
    if r == 18 { assert (DEBRUIJN << 18) >> 58 == 21; }
    else { assert (DEBRUIJN << 19) >> 58 == 43; }
  }
  lemma DeBruijnPair10(r: nat) requires 20 <= r < 22 ensures Index64(((DEBRUIJN << r) >> 58) as int) == r {
    if r == 20 { assert (DEBRUIJN << 20) >> 58 == 23; }
    else { assert (DEBRUIJN << 21) >> 58 == 47; }
  }
  lemma DeBruijnPair11(r: nat) requires 22 <= r < 24 ensures Index64(((DEBRUIJN << r) >> 58) as int) == r {
    if r == 22 { assert (DEBRUIJN << 22) >> 58 == 30; }
    else { assert (DEBRUIJN << 23) >> 58 == 60; }
  }
  lemma DeBruijnPair12(r: nat) requires 24 <= r < 26 ensures Index64(((DEBRUIJN << r) >> 58) as int) == r {
    if r == 24 { assert (DEBRUIJN << 24) >> 58 == 57; }
    else { assert (DEBRUIJN << 25) >> 58 == 50; }
  }
  lemma DeBruijnPair13(r: nat) requires 26 <= r < 28 ensures Index64(((DEBRUIJN << r) >> 58) as int) == r {
    if r == 26 { assert (DEBRUIJN << 26) >> 58 == 37; }
    else { assert (DEBRUIJN << 27) >> 58 == 11; }
  }
  lemma DeBruijnPair14(r: nat) requires 28 <= r < 30 ensures Index64(((DEBRUIJN << r) >> 58) as int) == r {
    if r == 28 { assert (DEBRUIJN << 28) >> 58 == 22; }
    else { assert (DEBRUIJN << 29) >> 58 == 44; }
  }
  lemma DeBruijnPair15(r: nat) requires 30 <= r < 32 ensures Index64(((DEBRUIJN << r) >> 58) as int) == r {
    if r == 30 { assert (DEBRUIJN << 30) >> 58 == 25; }
    else { assert (DEBRUIJN << 31) >> 58 == 51; }
  }
  lemma DeBruijnPair16(r: nat) requires 32 <= r < 34 ensures Index64(((DEBRUIJN << r) >> 58) as int) == r {
    if r == 32 { assert (DEBRUIJN << 32) >> 58 == 38; }
    else { assert (DEBRUIJN << 33) >> 58 == 13; }
  }
  lemma DeBruijnPair17(r: nat) requires 34 <= r < 36 ensures Index64(((DEBRUIJN << r) >> 58) as int) == r {
    if r == 34 { assert (DEBRUIJN << 34) >> 58 == 26; }
    else { assert (DEBRUIJN << 35) >> 58 == 52; }
  }
  lemma DeBruijnPair18(r: nat) requires 36 <= r < 38 ensures Index64(((DEBRUIJN << r) >> 58) as int) == r {
    if r == 36 { assert (DEBRUIJN << 36) >> 58 == 41; }
    else { assert (DEBRUIJN << 37) >> 58 == 18; }
  }
  lemma DeBruijnPair19(r: nat) requires 38 <= r < 40 ensures Index64(((DEBRUIJN << r) >> 58) as int) == r {
    if r == 38 { assert (DEBRUIJN << 38) >> 58 == 36; }
    else { assert (DEBRUIJN << 39) >> 58 == 9; }
  }
  lemma DeBruijnPair20(r: nat) requires 40 <= r < 42 ensures Index64(((DEBRUIJN << r) >> 58) as int) == r {
    if r == 40 { assert (DEBRUIJN << 40) >> 58 == 19; }
    else { assert (DEBRUIJN << 41) >> 58 == 39; }
  }
  lemma DeBruijnPair21(r: nat) requires 42 <= r < 44 ensures Index64(((DEBRUIJN << r) >> 58) as int) == r {
    if r == 42 { assert (DEBRUIJN << 42) >> 58 == 14; }
    else { assert (DEBRUIJN << 43) >> 58 == 28; }
  }
  lemma DeBruijnPair22(r: nat) requires 44 <= r < 46 ensures Index64(((DEBRUIJN << r) >> 58) as int) == r {
    if r == 44 { assert (DEBRUIJN << 44) >> 58 == 56; }
    else { assert (DEBRUIJN << 45) >> 58 == 49; }
  }
  lemma DeBruijnPair23(r: nat) requires 46 <= r < 48 ensures Index64(((DEBRUIJN << r) >> 58) as int) == r {
    if r == 46 { assert (DEBRUIJN << 46) >> 58 == 34; }
    else { assert (DEBRUIJN << 47) >> 58 == 5; }
  }
  lemma DeBruijnPair24(r: nat) requires 48 <= r < 50 ensures Index64(((DEBRUIJN << r) >> 58) as int) == r {
    if r == 48 { assert (DEBRUIJN << 48) >> 58 == 10; }
    else { assert (DEBRUIJN << 49) >> 58 == 20; }
  }
  lemma DeBruijnPair25(r: nat) requires 50 <= r < 52 ensures Index64(((DEBRUIJN << r) >> 58) as int) == r {
    if r == 50 { assert (DEBRUIJN << 50) >> 58 == 40; }
    else { assert (DEBRUIJN << 51) >> 58 == 17; }
  }
  lemma DeBruijnPair26(r: nat) requires 52 <= r < 54 ensures Index64(((DEBRUIJN << r) >> 58) as int) == r {
    if r == 52 { assert (DEBRUIJN << 52) >> 58 == 35; }
    else { assert (DEBRUIJN << 53) >> 58 == 6; }
  }
  lemma DeBruijnPair27(r: nat) requires 54 <= r < 56 ensures Index64(((DEBRUIJN << r) >> 58) as int) == r {
    if r == 54 { assert (DEBRUIJN << 54) >> 58 == 12; }
    else { assert (DEBRUIJN << 55) >> 58 == 24; }
  }
  lemma DeBruijnPair28(r: nat) requires 56 <= r < 58 ensures Index64(((DEBRUIJN << r) >> 58) as int) == r {
    if r == 56 { assert (DEBRUIJN << 56) >> 58 == 48; }
    else { assert (DEBRUIJN << 57) >> 58 == 33; }
  }
  lemma DeBruijnPair29(r: nat) requires 58 <= r < 60 ensures Index64(((DEBRUIJN << r) >> 58) as int) == r {
    if r == 58 { assert (DEBRUIJN << 58) >> 58 == 2; }
    else { assert (DEBRUIJN << 59) >> 58 == 4; }
  }
  lemma DeBruijnPair30(r: nat) requires 60 <= r < 62 ensures Index64(((DEBRUIJN << r) >> 58) as int) == r {
    if r == 60 { assert (DEBRUIJN << 60) >> 58 == 8; }
    else { assert (DEBRUIJN << 61) >> 58 == 16; }
  }
  lemma DeBruijnPair31(r: nat) requires 62 <= r < 64 ensures Index64(((DEBRUIJN << r) >> 58) as int) == r {
    if r == 62 { assert (DEBRUIJN << 62) >> 58 == 32; }
    else { assert (DEBRUIJN << 63) >> 58 == 0; }
  }
  lemma DeBruijnOctet0(r: nat) requires 0 <= r < 8 ensures Index64(((DEBRUIJN << r) >> 58) as int) == r {
    if r < 2 { DeBruijnPair0(r); } else if r < 4 { DeBruijnPair1(r); }
    else if r < 6 { DeBruijnPair2(r); } else { DeBruijnPair3(r); }
  }
  lemma DeBruijnOctet1(r: nat) requires 8 <= r < 16 ensures Index64(((DEBRUIJN << r) >> 58) as int) == r {
    if r < 10 { DeBruijnPair4(r); } else if r < 12 { DeBruijnPair5(r); }
    else if r < 14 { DeBruijnPair6(r); } else { DeBruijnPair7(r); }
  }
  lemma DeBruijnOctet2(r: nat) requires 16 <= r < 24 ensures Index64(((DEBRUIJN << r) >> 58) as int) == r {
    if r < 18 { DeBruijnPair8(r); } else if r < 20 { DeBruijnPair9(r); }
    else if r < 22 { DeBruijnPair10(r); } else { DeBruijnPair11(r); }
  }
  lemma DeBruijnOctet3(r: nat) requires 24 <= r < 32 ensures Index64(((DEBRUIJN << r) >> 58) as int) == r {
    if r < 26 { DeBruijnPair12(r); } else if r < 28 { DeBruijnPair13(r); }
    else if r < 30 { DeBruijnPair14(r); } else { DeBruijnPair15(r); }
  }
  lemma DeBruijnOctet4(r: nat) requires 32 <= r < 40 ensures Index64(((DEBRUIJN << r) >> 58) as int) == r {
    if r < 34 { DeBruijnPair16(r); } else if r < 36 { DeBruijnPair17(r); }
    else if r < 38 { DeBruijnPair18(r); } else { DeBruijnPair19(r); }
  }
  lemma DeBruijnOctet5(r: nat) requires 40 <= r < 48 ensures Index64(((DEBRUIJN << r) >> 58) as int) == r {
    if r < 42 { DeBruijnPair20(r); } else if r < 44 { DeBruijnPair21(r); }
    else if r < 46 { DeBruijnPair22(r); } else { DeBruijnPair23(r); }
  }
  lemma DeBruijnOctet6(r: nat) requires 48 <= r < 56 ensures Index64(((DEBRUIJN << r) >> 58) as int) == r {
    if r < 50 { DeBruijnPair24(r); } else if r < 52 { DeBruijnPair25(r); }
    else if r < 54 { DeBruijnPair26(r); } else { DeBruijnPair27(r); }
  }
  lemma DeBruijnOctet7(r: nat) requires 56 <= r < 64 ensures Index64(((DEBRUIJN << r) >> 58) as int) == r {
    if r < 58 { DeBruijnPair28(r); } else if r < 60 { DeBruijnPair29(r); }
    else if r < 62 { DeBruijnPair30(r); } else { DeBruijnPair31(r); }
  }
  /** Every single-bit multiple of the constant lands on its own table entry. */
  lemma DeBruijnTable(r: nat) requires r < 64 ensures Index64(((DEBRUIJN << r) >> 58) as int) == r {
    if r < 8 { DeBruijnOctet0(r); } else if r < 16 { DeBruijnOctet1(r); } else if r < 24 { DeBruijnOctet2(r); } else if r < 32 { DeBruijnOctet3(r); }
    else if r < 40 { DeBruijnOctet4(r); } else if r < 48 { DeBruijnOctet5(r); } else if r < 56 { DeBruijnOctet6(r); } else { DeBruijnOctet7(r); }
  }
  lemma MulPow(r: nat) requires r < 64 ensures ((1 as bv64) << r) * DEBRUIJN == DEBRUIJN << r {}
  /** The table lookup of bitscan_forward applied to the isolated bit 1 << r. */
  lemma DeBruijnLookup(x: bv64, r: nat) requires r < 64 && x == (1 as bv64) << r
    ensures Index64(((x * DEBRUIJN) >> 58) as int) == r
  {
    MulPow(r);
    DeBruijnTable(r);
  }

  // ---- facts about single bits ----

  /** Bit i of v is set. */
  predicate Bit(v: bv64, i: nat) requires i < 64 { (v >> i) & 1 == 1 }

  /** The bits below bit i. */
  function LowMask(i: nat): bv64 requires i <= 64 { ((1 as bv64) << i) - 1 }

  /** r is the index of the lowest set bit of v. */
  predicate LowestBit(v: bv64, r: int) {
    0 <= r < 64 && Bit(v, r) && v & LowMask(r) == 0
  }

  /** A non-zero word has a lowest set bit, found in one of its eight bytes. */
  lemma LowestBitExists(v: bv64) returns (r: int)
    requires v != 0
    ensures LowestBit(v, r)
  {
    if v & 0xff != 0 { r := LowestInByte0(v); }
    else if v & 0xff00 != 0 { r := LowestInByte1(v); }
    else if v & 0xff0000 != 0 { r := LowestInByte2(v); }
    else if v & 0xff000000 != 0 { r := LowestInByte3(v); }
    else if v & 0xff00000000 != 0 { r := LowestInByte4(v); }
    else if v & 0xff0000000000 != 0 { r := LowestInByte5(v); }
    else if v & 0xff000000000000 != 0 { r := LowestInByte6(v); }
    else { r := LowestInByte7(v); }
  }
  lemma LowestInByte0(v: bv64) returns (r: int)
    requires v & 0xff != 0
    ensures LowestBit(v, r)
  {
    if v & 0xf != 0 { r := LowestInNibble0(v); } else { r := LowestInNibble1(v); }
  }
  lemma LowestInByte1(v: bv64) returns (r: int)
    requires v & 0xff == 0 && v & 0xff00 != 0
    ensures LowestBit(v, r)
  {
    if v & 0xf00 != 0 { r := LowestInNibble2(v); } else { r := LowestInNibble3(v); }
  }
  lemma LowestInByte2(v: bv64) returns (r: int)
    requires v & 0xffff == 0 && v & 0xff0000 != 0
    ensures LowestBit(v, r)
  {
    if v & 0xf0000 != 0 { r := LowestInNibble4(v); } else { r := LowestInNibble5(v); }
  }
  lemma LowestInByte3(v: bv64) returns (r: int)
    requires v & 0xffffff == 0 && v & 0xff000000 != 0
    ensures LowestBit(v, r)
  {
    if v & 0xf000000 != 0 { r := LowestInNibble6(v); } else { r := LowestInNibble7(v); }
  }
  lemma LowestInByte4(v: bv64) returns (r: int)
    requires v & 0xffffffff == 0 && v & 0xff00000000 != 0
    ensures LowestBit(v, r)
  {
    if v & 0xf00000000 != 0 { r := LowestInNibble8(v); } else { r := LowestInNibble9(v); }
  }
  lemma LowestInByte5(v: bv64) returns (r: int)
    requires v & 0xffffffffff == 0 && v & 0xff0000000000 != 0
    ensures LowestBit(v, r)
  {
    if v & 0xf0000000000 != 0 { r := LowestInNibble10(v); } else { r := LowestInNibble11(v); }
  }
  lemma LowestInByte6(v: bv64) returns (r: int)
    requires v & 0xffffffffffff == 0 && v & 0xff000000000000 != 0
    ensures LowestBit(v, r)
  {
    if v & 0xf000000000000 != 0 { r := LowestInNibble12(v); } else { r := LowestInNibble13(v); }
  }
  lemma LowestInByte7(v: bv64) returns (r: int)
    requires v & 0xffffffffffffff == 0 && v != 0
    ensures LowestBit(v, r)
  {
    if v & 0xf00000000000000 != 0 { r := LowestInNibble14(v); } else { r := LowestInNibble15(v); }
  }
  lemma LowestInNibble0(v: bv64) returns (r: int)
    requires v & 0xf != 0
    ensures LowestBit(v, r)
  {
    if v & 0x3 != 0 { r := LowestInPair0(v); } else { r := LowestInPair1(v); }
  }
  lemma LowestInNibble1(v: bv64) returns (r: int)
    requires v & 0xf == 0 && v & 0xf0 != 0
    ensures LowestBit(v, r)
  {
    if v & 0x30 != 0 { r := LowestInPair2(v); } else { r := LowestInPair3(v); }
  }
  lemma LowestInNibble2(v: bv64) returns (r: int)
    requires v & 0xff == 0 && v & 0xf00 != 0
    ensures LowestBit(v, r)
  {
    if v & 0x300 != 0 { r := LowestInPair4(v); } else { r := LowestInPair5(v); }
  }
  lemma LowestInNibble3(v: bv64) returns (r: int)
    requires v & 0xfff == 0 && v & 0xf000 != 0
    ensures LowestBit(v, r)
  {
    if v & 0x3000 != 0 { r := LowestInPair6(v); } else { r := LowestInPair7(v); }
  }
  lemma LowestInNibble4(v: bv64) returns (r: int)
    requires v & 0xffff == 0 && v & 0xf0000 != 0
    ensures LowestBit(v, r)
  {
    if v & 0x30000 != 0 { r := LowestInPair8(v); } else { r := LowestInPair9(v); }
  }
  lemma LowestInNibble5(v: bv64) returns (r: int)
    requires v & 0xfffff == 0 && v & 0xf00000 != 0
    ensures LowestBit(v, r)
  {
    if v & 0x300000 != 0 { r := LowestInPair10(v); } else { r := LowestInPair11(v); }
  }
  lemma LowestInNibble6(v: bv64) returns (r: int)
    requires v & 0xffffff == 0 && v & 0xf000000 != 0
    ensures LowestBit(v, r)
  {
    if v & 0x3000000 != 0 { r := LowestInPair12(v); } else { r := LowestInPair13(v); }
  }
  lemma LowestInNibble7(v: bv64) returns (r: int)
    requires v & 0xfffffff == 0 && v & 0xf0000000 != 0
    ensures LowestBit(v, r)
  {
    if v & 0x30000000 != 0 { r := LowestInPair14(v); } else { r := LowestInPair15(v); }
  }
  lemma LowestInNibble8(v: bv64) returns (r: int)
    requires v & 0xffffffff == 0 && v & 0xf00000000 != 0
    ensures LowestBit(v, r)
  {
    if v & 0x300000000 != 0 { r := LowestInPair16(v); } else { r := LowestInPair17(v); }
  }
  lemma LowestInNibble9(v: bv64) returns (r: int)
    requires v & 0xfffffffff == 0 && v & 0xf000000000 != 0
    ensures LowestBit(v, r)
  {
    if v & 0x3000000000 != 0 { r := LowestInPair18(v); } else { r := LowestInPair19(v); }
  }
  lemma LowestInNibble10(v: bv64) returns (r: int)
    requires v & 0xffffffffff == 0 && v & 0xf0000000000 != 0
    ensures LowestBit(v, r)
  {
    if v & 0x30000000000 != 0 { r := LowestInPair20(v); } else { r := LowestInPair21(v); }
  }
  lemma LowestInNibble11(v: bv64) returns (r: int)
    requires v & 0xfffffffffff == 0 && v & 0xf00000000000 != 0
    ensures LowestBit(v, r)
  {
    if v & 0x300000000000 != 0 { r := LowestInPair22(v); } else { r := LowestInPair23(v); }
  }
  lemma LowestInNibble12(v: bv64) returns (r: int)
    requires v & 0xffffffffffff == 0 && v & 0xf000000000000 != 0
    ensures LowestBit(v, r)
  {
    if v & 0x3000000000000 != 0 { r := LowestInPair24(v); } else { r := LowestInPair25(v); }
  }
  lemma LowestInNibble13(v: bv64) returns (r: int)
    requires v & 0xfffffffffffff == 0 && v & 0xf0000000000000 != 0
    ensures LowestBit(v, r)
  {
    if v & 0x30000000000000 != 0 { r := LowestInPair26(v); } else { r := LowestInPair27(v); }
  }
  lemma LowestInNibble14(v: bv64) returns (r: int)
    requires v & 0xffffffffffffff == 0 && v & 0xf00000000000000 != 0
    ensures LowestBit(v, r)
  {
    if v & 0x300000000000000 != 0 { r := LowestInPair28(v); } else { r := LowestInPair29(v); }
  }
  lemma LowestInNibble15(v: bv64) returns (r: int)
    requires v & 0xfffffffffffffff == 0 && v != 0
    ensures LowestBit(v, r)
  {
    if v & 0x3000000000000000 != 0 { r := LowestInPair30(v); } else { r := LowestInPair31(v); }
  }
  // Each pair of bits is settled on its own: one bit-vector case split per lemma keeps the solver cheap.
  lemma LowestInPair0(v: bv64) returns (r: int)
    requires v & 0x3 != 0
    ensures LowestBit(v, r)
  {
    if v & 0x1 != 0 { r := 0; assert LowestBit(v, 0); } else { r := 1; assert LowestBit(v, 1); }
  }
  lemma LowestInPair1(v: bv64) returns (r: int)
    requires v & 0x3 == 0 && v & 0xc != 0
    ensures LowestBit(v, r)
  {
    if v & 0x4 != 0 { r := 2; assert LowestBit(v, 2); } else { r := 3; assert LowestBit(v, 3); }
  }
  lemma LowestInPair2(v: bv64) returns (r: int)
    requires v & 0xf == 0 && v & 0x30 != 0
    ensures LowestBit(v, r)
  {
    if v & 0x10 != 0 { r := 4; assert LowestBit(v, 4); } else { r := 5; assert LowestBit(v, 5); }
  }
  lemma LowestInPair3(v: bv64) returns (r: int)
    requires v & 0x3f == 0 && v & 0xc0 != 0
    ensures LowestBit(v, r)
  {
    if v & 0x40 != 0 { r := 6; assert LowestBit(v, 6); } else { r := 7; assert LowestBit(v, 7); }
  }
  lemma LowestInPair4(v: bv64) returns (r: int)
    requires v & 0xff == 0 && v & 0x300 != 0
    ensures LowestBit(v, r)
  {
    if v & 0x100 != 0 { r := 8; assert LowestBit(v, 8); } else { r := 9; assert LowestBit(v, 9); }
  }
  lemma LowestInPair5(v: bv64) returns (r: int)
    requires v & 0x3ff == 0 && v & 0xc00 != 0
    ensures LowestBit(v, r)
  {
    if v & 0x400 != 0 { r := 10; assert LowestBit(v, 10); } else { r := 11; assert LowestBit(v, 11); }
  }
  lemma LowestInPair6(v: bv64) returns (r: int)
    requires v & 0xfff == 0 && v & 0x3000 != 0
    ensures LowestBit(v, r)
  {
    if v & 0x1000 != 0 { r := 12; assert LowestBit(v, 12); } else { r := 13; assert LowestBit(v, 13); }
  }
  lemma LowestInPair7(v: bv64) returns (r: int)
    requires v & 0x3fff == 0 && v & 0xc000 != 0
    ensures LowestBit(v, r)
  {
    if v & 0x4000 != 0 { r := 14; assert LowestBit(v, 14); } else { r := 15; assert LowestBit(v, 15); }
  }
  lemma LowestInPair8(v: bv64) returns (r: int)
    requires v & 0xffff == 0 && v & 0x30000 != 0
    ensures LowestBit(v, r)
  {
    if v & 0x10000 != 0 { r := 16; assert LowestBit(v, 16); } else { r := 17; assert LowestBit(v, 17); }
  }
  lemma LowestInPair9(v: bv64) returns (r: int)
    requires v & 0x3ffff == 0 && v & 0xc0000 != 0
    ensures LowestBit(v, r)
  {
    if v & 0x40000 != 0 { r := 18; assert LowestBit(v, 18); } else { r := 19; assert LowestBit(v, 19); }
  }
  lemma LowestInPair10(v: bv64) returns (r: int)
    requires v & 0xfffff == 0 && v & 0x300000 != 0
    ensures LowestBit(v, r)
  {
    if v & 0x100000 != 0 { r := 20; assert LowestBit(v, 20); } else { r := 21; assert LowestBit(v, 21); }
  }
  lemma LowestInPair11(v: bv64) returns (r: int)
    requires v & 0x3fffff == 0 && v & 0xc00000 != 0
    ensures LowestBit(v, r)
  {
    if v & 0x400000 != 0 { r := 22; assert LowestBit(v, 22); } else { r := 23; assert LowestBit(v, 23); }
  }
  lemma LowestInPair12(v: bv64) returns (r: int)
    requires v & 0xffffff == 0 && v & 0x3000000 != 0
    ensures LowestBit(v, r)
  {
    if v & 0x1000000 != 0 { r := 24; assert LowestBit(v, 24); } else { r := 25; assert LowestBit(v, 25); }
  }
  lemma LowestInPair13(v: bv64) returns (r: int)
    requires v & 0x3ffffff == 0 && v & 0xc000000 != 0
    ensures LowestBit(v, r)
  {
    if v & 0x4000000 != 0 { r := 26; assert LowestBit(v, 26); } else { r := 27; assert LowestBit(v, 27); }
  }
  lemma LowestInPair14(v: bv64) returns (r: int)
    requires v & 0xfffffff == 0 && v & 0x30000000 != 0
    ensures LowestBit(v, r)
  {
    if v & 0x10000000 != 0 { r := 28; assert LowestBit(v, 28); } else { r := 29; assert LowestBit(v, 29); }
  }
  lemma LowestInPair15(v: bv64) returns (r: int)
    requires v & 0x3fffffff == 0 && v & 0xc0000000 != 0
    ensures LowestBit(v, r)
  {
    if v & 0x40000000 != 0 { r := 30; assert LowestBit(v, 30); } else { r := 31; assert LowestBit(v, 31); }
  }
  lemma LowestInPair16(v: bv64) returns (r: int)
    requires v & 0xffffffff == 0 && v & 0x300000000 != 0
    ensures LowestBit(v, r)
  {
    if v & 0x100000000 != 0 { r := 32; assert LowestBit(v, 32); } else { r := 33; assert LowestBit(v, 33); }
  }
  lemma LowestInPair17(v: bv64) returns (r: int)
    requires v & 0x3ffffffff == 0 && v & 0xc00000000 != 0
    ensures LowestBit(v, r)
  {
    if v & 0x400000000 != 0 { r := 34; assert LowestBit(v, 34); } else { r := 35; assert LowestBit(v, 35); }
  }
  lemma LowestInPair18(v: bv64) returns (r: int)
    requires v & 0xfffffffff == 0 && v & 0x3000000000 != 0
    ensures LowestBit(v, r)
  {
    if v & 0x1000000000 != 0 { r := 36; assert LowestBit(v, 36); } else { r := 37; assert LowestBit(v, 37); }
  }
  lemma LowestInPair19(v: bv64) returns (r: int)
    requires v & 0x3fffffffff == 0 && v & 0xc000000000 != 0
    ensures LowestBit(v, r)
  {
    if v & 0x4000000000 != 0 { r := 38; assert LowestBit(v, 38); } else { r := 39; assert LowestBit(v, 39); }
  }
  lemma LowestInPair20(v: bv64) returns (r: int)
    requires v & 0xffffffffff == 0 && v & 0x30000000000 != 0
    ensures LowestBit(v, r)
  {
    if v & 0x10000000000 != 0 { r := 40; assert LowestBit(v, 40); } else { r := 41; assert LowestBit(v, 41); }
  }
  lemma LowestInPair21(v: bv64) returns (r: int)
    requires v & 0x3ffffffffff == 0 && v & 0xc0000000000 != 0
    ensures LowestBit(v, r)
  {
    if v & 0x40000000000 != 0 { r := 42; assert LowestBit(v, 42); } else { r := 43; assert LowestBit(v, 43); }
  }
  lemma LowestInPair22(v: bv64) returns (r: int)
    requires v & 0xfffffffffff == 0 && v & 0x300000000000 != 0
    ensures LowestBit(v, r)
  {
    if v & 0x100000000000 != 0 { r := 44; assert LowestBit(v, 44); } else { r := 45; assert LowestBit(v, 45); }
  }
  lemma LowestInPair23(v: bv64) returns (r: int)
    requires v & 0x3fffffffffff == 0 && v & 0xc00000000000 != 0
    ensures LowestBit(v, r)
  {
    if v & 0x400000000000 != 0 { r := 46; assert LowestBit(v, 46); } else { r := 47; assert LowestBit(v, 47); }
  }
  lemma LowestInPair24(v: bv64) returns (r: int)
    requires v & 0xffffffffffff == 0 && v & 0x3000000000000 != 0
    ensures LowestBit(v, r)
  {
    if v & 0x1000000000000 != 0 { r := 48; assert LowestBit(v, 48); } else { r := 49; assert LowestBit(v, 49); }
  }
  lemma LowestInPair25(v: bv64) returns (r: int)
    requires v & 0x3ffffffffffff == 0 && v & 0xc000000000000 != 0
    ensures LowestBit(v, r)
  {
    if v & 0x4000000000000 != 0 { r := 50; assert LowestBit(v, 50); } else { r := 51; assert LowestBit(v, 51); }
  }
  lemma LowestInPair26(v: bv64) returns (r: int)
    requires v & 0xfffffffffffff == 0 && v & 0x30000000000000 != 0
    ensures LowestBit(v, r)
  {
    if v & 0x10000000000000 != 0 { r := 52; assert LowestBit(v, 52); } else { r := 53; assert LowestBit(v, 53); }
  }
  lemma LowestInPair27(v: bv64) returns (r: int)
    requires v & 0x3fffffffffffff == 0 && v & 0xc0000000000000 != 0
    ensures LowestBit(v, r)
  {
    if v & 0x40000000000000 != 0 { r := 54; assert LowestBit(v, 54); } else { r := 55; assert LowestBit(v, 55); }
  }
  lemma LowestInPair28(v: bv64) returns (r: int)
    requires v & 0xffffffffffffff == 0 && v & 0x300000000000000 != 0
    ensures LowestBit(v, r)
  {
    if v & 0x100000000000000 != 0 { r := 56; assert LowestBit(v, 56); } else { r := 57; assert LowestBit(v, 57); }
  }
  lemma LowestInPair29(v: bv64) returns (r: int)
    requires v & 0x3ffffffffffffff == 0 && v & 0xc00000000000000 != 0
    ensures LowestBit(v, r)
  {
    if v & 0x400000000000000 != 0 { r := 58; assert LowestBit(v, 58); } else { r := 59; assert LowestBit(v, 59); }
  }
  lemma LowestInPair30(v: bv64) returns (r: int)
    requires v & 0xfffffffffffffff == 0 && v & 0x3000000000000000 != 0
    ensures LowestBit(v, r)
  {
    if v & 0x1000000000000000 != 0 { r := 60; assert LowestBit(v, 60); } else { r := 61; assert LowestBit(v, 61); }
  }
  lemma LowestInPair31(v: bv64) returns (r: int)
    requires v & 0x3fffffffffffffff == 0 && v & 0xc000000000000000 != 0
    ensures LowestBit(v, r)
  {
    if v & 0x4000000000000000 != 0 { r := 62; assert LowestBit(v, 62); } else { r := 63; assert LowestBit(v, 63); }
  }

  /** v & -v keeps only the lowest set bit. */
  lemma IsolateLowest(v: bv64, r: nat)
    requires LowestBit(v, r)
    ensures v & -v == (1 as bv64) << r
  {}

  /** Clearing the lowest set bit removes that bit and keeps every other. */
  lemma ClearLowest(v: bv64, r: int)
    requires LowestBit(v, r)
    ensures var rest := v & !((1 as bv64) << r); rest & ((1 as bv64) << r) == 0 && rest | ((1 as bv64) << r) == v
  {}

}

/** bitscan_reverse, portable branch (src/utils.c): Isenberg's halving search for the top bit. */
module BitScanReverse {
  /** The shift of the 16-bit step: 16 when the word has a bit above bit 15. */
  function Shift16(l: bv32): bv32 { (if l > 0xffff then 1 else 0) << 4 }
  function Shift8(l: bv32): bv32 { ((0xff - l) >> 16) & 8 }
  function Shift4(l: bv32): bv32 { ((0x0f - l) >> 8) & 4 }
  /** The last step reads two bits of 0xffffaa50 to find the top bit of a nibble. */
  function LastShift(l: bv32): bv32 requires l < 16 { (0xffff_aa50 >> (2 * l)) & 3 }

  lemma Step16(l: bv32) requires l != 0
    ensures var m := Shift16(l); (m == 0 || m == 16) && l >> m != 0 && l >> m <= 0xffff
  {
    if l > 0xffff { assert Shift16(l) == 16; } else { assert Shift16(l) == 0; }
  }
  lemma Step8(l: bv32) requires 0 < l <= 0xffff
    ensures var m := Shift8(l); (m == 0 || m == 8) && l >> m != 0 && l >> m <= 0xff
  {
    if l > 0xff { assert Shift8(l) == 8; } else { assert Shift8(l) == 0; }
  }
  lemma Step4(l: bv32) requires 0 < l <= 0xff
    ensures var m := Shift4(l); (m == 0 || m == 4) && l >> m != 0 && l >> m <= 0xf
  {
    if l > 0xf { assert Shift4(l) == 4; } else { assert Shift4(l) == 0; }
  }
  lemma StepLast(l: bv32) requires 0 < l <= 0xf ensures LastShift(l) < 4 && l >> LastShift(l) == 1 {}

  lemma ShiftAdd2(x: bv32, a: bv32, b: bv32)
    requires (a == 0 || a == 4 || a == 8 || a == 12 || a == 16 || a == 20 || a == 24 || a == 28) && b < 4
    ensures (x >> a) >> b == x >> (a + b)
  {
    if b == 0 {} else if b == 1 {} else if b == 2 {} else {}
  }
  lemma ShiftAdd4(x: bv32, a: bv32, b: bv32) requires (a == 0 || a == 8 || a == 16 || a == 24) && (b == 0 || b == 4)
    ensures (x >> a) >> b == x >> (a + b)
  {
    if b == 0 {} else {}
  }
  lemma ShiftAdd8(x: bv32, a: bv32, b: bv32) requires (a == 0 || a == 16) && (b == 0 || b == 8)
    ensures (x >> a) >> b == x >> (a + b)
  {
    if b == 0 {} else {}
  }
  /** The four successive shifts add up to one shift that leaves exactly the top bit. */
  lemma ShiftChain(l0: bv32, m1: bv32, m2: bv32, m3: bv32, t: bv32)
    requires (m1 == 0 || m1 == 16) && (m2 == 0 || m2 == 8) && (m3 == 0 || m3 == 4) && t < 4
    requires ((l0 >> m1) >> m2 >> m3) >> t == 1
    ensures m1 + m2 + m3 + t < 32 && l0 >> (m1 + m2 + m3 + t) == 1
  {
    ShiftAdd8(l0, m1, m2);
    ShiftAdd4(l0, m1 + m2, m3);
    ShiftAdd2(l0, m1 + m2 + m3, t);
  }

  /** The 32-bit half of bitscan_reverse: the index of the highest set bit of a non-zero word. */
  method Msb32(l0: bv32) returns (r: bv32)
    requires l0 != 0
    ensures r < 32 && l0 >> r == 1
  {
    Step16(l0);
    var l1 := l0 >> Shift16(l0);
    Step8(l1);
    var l2 := l1 >> Shift8(l1);
    Step4(l2);
    var l3 := l2 >> Shift4(l2);
    StepLast(l3);
    ShiftChain(l0, Shift16(l0), Shift8(l1), Shift4(l2), LastShift(l3));
    r := Shift16(l0) + Shift8(l1) + Shift4(l2) + LastShift(l3);
  }

  /** The first step of bitscan_reverse: the half holding the top bit, and 32 if it is the high half. */
  function Half(v: bv64): (p: (bv32, bv32))
    ensures v >> 32 != 0 ==> p == (32, (v >> 32) as bv32)
    ensures v >> 32 == 0 ==> p == (0, v as bv32)
  {
    var h: bv32 := (v >> 32) as bv32;
    var l: bv32 := (v & 0xffff_ffff) as bv32;
    var m: bv32 := if h != 0 then 1 else 0;
    HalfWords(v);
    HalfPick(h, l, m);
    (m << 5, (h & -m) | (l & (m - 1)))
  }
  /** The high word is zero exactly when v >> 32 is, and the masked low word is v's low word. */
  lemma HalfWords(v: bv64)
    ensures (((v >> 32) as bv32) != 0) == (v >> 32 != 0)
    ensures v >> 32 == 0 ==> (v & 0xffff_ffff) as bv32 == v as bv32
  {
  }
  /** The branch-free select of Half: the high word when it is non-zero, else the low word. */
  lemma HalfPick(h: bv32, l: bv32, m: bv32)
    requires m == if h != 0 then 1 else 0
    ensures h != 0 ==> m << 5 == 32 && (h & -m) | (l & (m - 1)) == h
    ensures h == 0 ==> m << 5 == 0 && (h & -m) | (l & (m - 1)) == l
  {
    if h != 0 {
      assert -m == 0xffff_ffff && m - 1 == 0;
    } else {
      assert -m == 0 && m - 1 == 0xffff_ffff;
    }
  }
  lemma HalfNonZero(v: bv64, i: bv32, l: bv32)
    requires v != 0 && (i, l) == Half(v)
    ensures (i == 32 && l == (v >> 32) as bv32 && v >> 32 != 0) || (i == 0 && v >> 32 == 0 && l == v as bv32 && l != 0)
  {
    assert v >> 32 == 0 ==> v as bv32 != 0;
  }
  lemma WidenHigh(v: bv64, r: bv32) requires r < 32 && ((v >> 32) as bv32) >> r == 1 ensures v >> (32 + r as bv64) == 1 {}
  lemma WidenLow(v: bv64, r: bv32) requires v >> 32 == 0 && r < 32 && (v as bv32) >> r == 1 ensures v >> (r as bv64) == 1 {}
  /** The top bit of the chosen half, moved back to a 64-bit index. */
  lemma Widen(v: bv64, i: bv32, l: bv32, r: bv32)
    requires (i == 32 && l == (v >> 32) as bv32 && v >> 32 != 0) || (i == 0 && v >> 32 == 0 && l == v as bv32 && l != 0)
    requires r < 32 && l >> r == 1
    ensures i + r < 64 && v >> ((i + r) as bv64) == 1
  {
    if i == 32 { WidenHigh(v, r); } else { WidenLow(v, r); }
  }

  /** The cast (int) of an unsigned value below 64, bit by bit. */
  function Nat6(r: bv32): nat {
    (if r & 32 != 0 then 32 else 0) + (if r & 16 != 0 then 16 else 0) + (if r & 8 != 0 then 8 else 0) +
    (if r & 4 != 0 then 4 else 0) + (if r & 2 != 0 then 2 else 0) + (if r & 1 != 0 then 1 else 0)
  }
  lemma Nat6Rows0(r: bv32) requires 0 <= r < 16 ensures Nat6(r) as bv64 == r as bv64 {
    if r == 0 { } else if r == 1 { } else if r == 2 { } else if r == 3 { } else if r == 4 { } else if r == 5 { } else if r == 6 { } else if r == 7 { } else if r == 8 { } else if r == 9 { } else if r == 10 { } else if r == 11 { } else if r == 12 { } else if r == 13 { } else if r == 14 { } else if r == 15 { }
  }
  lemma Nat6Rows1(r: bv32) requires 16 <= r < 32 ensures Nat6(r) as bv64 == r as bv64 {
    if r == 16 { } else if r == 17 { } else if r == 18 { } else if r == 19 { } else if r == 20 { } else if r == 21 { } else if r == 22 { } else if r == 23 { } else if r == 24 { } else if r == 25 { } else if r == 26 { } else if r == 27 { } else if r == 28 { } else if r == 29 { } else if r == 30 { } else if r == 31 { }
  }
  lemma Nat6Rows2(r: bv32) requires 32 <= r < 48 ensures Nat6(r) as bv64 == r as bv64 {
    if r == 32 { } else if r == 33 { } else if r == 34 { } else if r == 35 { } else if r == 36 { } else if r == 37 { } else if r == 38 { } else if r == 39 { } else if r == 40 { } else if r == 41 { } else if r == 42 { } else if r == 43 { } else if r == 44 { } else if r == 45 { } else if r == 46 { } else if r == 47 { }
  }
  lemma Nat6Rows3(r: bv32) requires 48 <= r < 64 ensures Nat6(r) as bv64 == r as bv64 {
    if r == 48 { } else if r == 49 { } else if r == 50 { } else if r == 51 { } else if r == 52 { } else if r == 53 { } else if r == 54 { } else if r == 55 { } else if r == 56 { } else if r == 57 { } else if r == 58 { } else if r == 59 { } else if r == 60 { } else if r == 61 { } else if r == 62 { } else if r == 63 { }
  }
  lemma ShiftByNat(v: bv64, n: nat) requires n < 64 ensures v >> n == v >> (n as bv64) {}
  /** The top-bit index, read back as an int. */
  lemma Nat6Index(v: bv64, r: bv32) requires r < 64 && v >> (r as bv64) == 1 ensures Nat6(r) < 64 && v >> Nat6(r) == 1 {
    if r < 16 { Nat6Rows0(r); } else if r < 32 { Nat6Rows1(r); } else if r < 48 { Nat6Rows2(r); } else { Nat6Rows3(r); }
    ShiftByNat(v, Nat6(r));
  }

  /** The top-bit fact with a 32-bit index, before it is read back as an int. */
  predicate HighestBitBV(v: bv64, r: bv32) { r < 64 && v >> (r as bv64) == 1 }

  lemma WidenTop(v: bv64, i: bv32, l: bv32, r: bv32)
    requires (i == 32 && l == (v >> 32) as bv32 && v >> 32 != 0) || (i == 0 && v >> 32 == 0 && l == v as bv32 && l != 0)
    requires r < 32 && l >> r == 1
    ensures HighestBitBV(v, i + r)
  {
    Widen(v, i, l, r);
  }

  /** r is the index of the highest set bit of v: shifting v right by r leaves exactly 1. */
  predicate HighestBit(v: bv64, r: int) {
    0 <= r < 64 && v >> r == 1
  }

  lemma TopIndex(v: bv64, r: bv32) requires HighestBitBV(v, r) ensures HighestBit(v, Nat6(r)) {
    Nat6Index(v, r);
  }

  // ---- bitscan_reverse ----

  /** bitscan_reverse, portable branch: halve the word, then binary-search the top bit of a 32-bit half. */
  method BitscanReverse(v: bv64) returns (r: int)
    requires v != 0
    ensures HighestBit(v, r)
  {
    var (i, l) := Half(v);
    HalfNonZero(v, i, l);
    var m := Msb32(l);
    WidenTop(v, i, l, m);
    TopIndex(v, i + m);
    r := Nat6(i + m);
  }

}

/** Counting the set bits of a 64-bit word, and the per-byte counts of the portable pop_count. */
module BitCount {
  import opened UtilsBits

  /** The number of set bits of v among bits i .. j-1. */
  function CountBits(v: bv64, i: nat, j: nat): (n: nat)
    requires i <= j <= 64
    ensures n <= j - i
    decreases j - i
  {
    if i == j then 0 else (if Bit(v, i) then 1 else 0) + CountBits(v, i + 1, j)
  }

  /** Adding one bit (bit i of v, isolated) to a small running total. */
  lemma AddBit(v: bv64, i: nat, s: bv64)
    requires i < 64 && s as int <= 8
    ensures ((v >> i) & 1 + s) as int == (if Bit(v, i) then 1 else 0) + s as int
  {
    assert s <= 8;
    if Bit(v, i) { assert (v >> i) & 1 == 1; } else { assert (v >> i) & 1 == 0; }
  }
  lemma {:induction false} ByteSum0(v: bv64) ensures (((v >> 0) & 1) + (((v >> 1) & 1) + (((v >> 2) & 1) + (((v >> 3) & 1) + (((v >> 4) & 1) + (((v >> 5) & 1) + (((v >> 6) & 1) + (((v >> 7) & 1) + 0)))))))) as int == CountBits(v, 0, 8) {
    AddBit(v, 7, 0);
    assert (((v >> 7) & 1) + 0) as int == CountBits(v, 7, 8);
    AddBit(v, 6, (((v >> 7) & 1) + 0));
    assert (((v >> 6) & 1) + (((v >> 7) & 1) + 0)) as int == CountBits(v, 6, 8);
    AddBit(v, 5, (((v >> 6) & 1) + (((v >> 7) & 1) + 0)));
    assert (((v >> 5) & 1) + (((v >> 6) & 1) + (((v >> 7) & 1) + 0))) as int == CountBits(v, 5, 8);
    AddBit(v, 4, (((v >> 5) & 1) + (((v >> 6) & 1) + (((v >> 7) & 1) + 0))));
    assert (((v >> 4) & 1) + (((v >> 5) & 1) + (((v >> 6) & 1) + (((v >> 7) & 1) + 0)))) as int == CountBits(v, 4, 8);
    AddBit(v, 3, (((v >> 4) & 1) + (((v >> 5) & 1) + (((v >> 6) & 1) + (((v >> 7) & 1) + 0)))));
    assert (((v >> 3) & 1) + (((v >> 4) & 1) + (((v >> 5) & 1) + (((v >> 6) & 1) + (((v >> 7) & 1) + 0))))) as int == CountBits(v, 3, 8);
    AddBit(v, 2, (((v >> 3) & 1) + (((v >> 4) & 1) + (((v >> 5) & 1) + (((v >> 6) & 1) + (((v >> 7) & 1) + 0))))));
    assert (((v >> 2) & 1) + (((v >> 3) & 1) + (((v >> 4) & 1) + (((v >> 5) & 1) + (((v >> 6) & 1) + (((v >> 7) & 1) + 0)))))) as int == CountBits(v, 2, 8);
    AddBit(v, 1, (((v >> 2) & 1) + (((v >> 3) & 1) + (((v >> 4) & 1) + (((v >> 5) & 1) + (((v >> 6) & 1) + (((v >> 7) & 1) + 0)))))));
    assert (((v >> 1) & 1) + (((v >> 2) & 1) + (((v >> 3) & 1) + (((v >> 4) & 1) + (((v >> 5) & 1) + (((v >> 6) & 1) + (((v >> 7) & 1) + 0))))))) as int == CountBits(v, 1, 8);
    AddBit(v, 0, (((v >> 1) & 1) + (((v >> 2) & 1) + (((v >> 3) & 1) + (((v >> 4) & 1) + (((v >> 5) & 1) + (((v >> 6) & 1) + (((v >> 7) & 1) + 0))))))));
    assert (((v >> 0) & 1) + (((v >> 1) & 1) + (((v >> 2) & 1) + (((v >> 3) & 1) + (((v >> 4) & 1) + (((v >> 5) & 1) + (((v >> 6) & 1) + (((v >> 7) & 1) + 0)))))))) as int == CountBits(v, 0, 8);
  }
  lemma {:induction false} ByteSum1(v: bv64) ensures (((v >> 8) & 1) + (((v >> 9) & 1) + (((v >> 10) & 1) + (((v >> 11) & 1) + (((v >> 12) & 1) + (((v >> 13) & 1) + (((v >> 14) & 1) + (((v >> 15) & 1) + 0)))))))) as int == CountBits(v, 8, 16) {
    AddBit(v, 15, 0);
    assert (((v >> 15) & 1) + 0) as int == CountBits(v, 15, 16);
    AddBit(v, 14, (((v >> 15) & 1) + 0));
    assert (((v >> 14) & 1) + (((v >> 15) & 1) + 0)) as int == CountBits(v, 14, 16);
    AddBit(v, 13, (((v >> 14) & 1) + (((v >> 15) & 1) + 0)));
    assert (((v >> 13) & 1) + (((v >> 14) & 1) + (((v >> 15) & 1) + 0))) as int == CountBits(v, 13, 16);
    AddBit(v, 12, (((v >> 13) & 1) + (((v >> 14) & 1) + (((v >> 15) & 1) + 0))));
    assert (((v >> 12) & 1) + (((v >> 13) & 1) + (((v >> 14) & 1) + (((v >> 15) & 1) + 0)))) as int == CountBits(v, 12, 16);
    AddBit(v, 11, (((v >> 12) & 1) + (((v >> 13) & 1) + (((v >> 14) & 1) + (((v >> 15) & 1) + 0)))));
    assert (((v >> 11) & 1) + (((v >> 12) & 1) + (((v >> 13) & 1) + (((v >> 14) & 1) + (((v >> 15) & 1) + 0))))) as int == CountBits(v, 11, 16);
    AddBit(v, 10, (((v >> 11) & 1) + (((v >> 12) & 1) + (((v >> 13) & 1) + (((v >> 14) & 1) + (((v >> 15) & 1) + 0))))));
    assert (((v >> 10) & 1) + (((v >> 11) & 1) + (((v >> 12) & 1) + (((v >> 13) & 1) + (((v >> 14) & 1) + (((v >> 15) & 1) + 0)))))) as int == CountBits(v, 10, 16);
    AddBit(v, 9, (((v >> 10) & 1) + (((v >> 11) & 1) + (((v >> 12) & 1) + (((v >> 13) & 1) + (((v >> 14) & 1) + (((v >> 15) & 1) + 0)))))));
    assert (((v >> 9) & 1) + (((v >> 10) & 1) + (((v >> 11) & 1) + (((v >> 12) & 1) + (((v >> 13) & 1) + (((v >> 14) & 1) + (((v >> 15) & 1) + 0))))))) as int == CountBits(v, 9, 16);
    AddBit(v, 8, (((v >> 9) & 1) + (((v >> 10) & 1) + (((v >> 11) & 1) + (((v >> 12) & 1) + (((v >> 13) & 1) + (((v >> 14) & 1) + (((v >> 15) & 1) + 0))))))));
    assert (((v >> 8) & 1) + (((v >> 9) & 1) + (((v >> 10) & 1) + (((v >> 11) & 1) + (((v >> 12) & 1) + (((v >> 13) & 1) + (((v >> 14) & 1) + (((v >> 15) & 1) + 0)))))))) as int == CountBits(v, 8, 16);
  }
  lemma {:induction false} ByteSum2(v: bv64) ensures (((v >> 16) & 1) + (((v >> 17) & 1) + (((v >> 18) & 1) + (((v >> 19) & 1) + (((v >> 20) & 1) + (((v >> 21) & 1) + (((v >> 22) & 1) + (((v >> 23) & 1) + 0)))))))) as int == CountBits(v, 16, 24) {
    AddBit(v, 23, 0);
    assert (((v >> 23) & 1) + 0) as int == CountBits(v, 23, 24);
    AddBit(v, 22, (((v >> 23) & 1) + 0));
    assert (((v >> 22) & 1) + (((v >> 23) & 1) + 0)) as int == CountBits(v, 22, 24);
    AddBit(v, 21, (((v >> 22) & 1) + (((v >> 23) & 1) + 0)));
    assert (((v >> 21) & 1) + (((v >> 22) & 1) + (((v >> 23) & 1) + 0))) as int == CountBits(v, 21, 24);
    AddBit(v, 20, (((v >> 21) & 1) + (((v >> 22) & 1) + (((v >> 23) & 1) + 0))));
    assert (((v >> 20) & 1) + (((v >> 21) & 1) + (((v >> 22) & 1) + (((v >> 23) & 1) + 0)))) as int == CountBits(v, 20, 24);
    AddBit(v, 19, (((v >> 20) & 1) + (((v >> 21) & 1) + (((v >> 22) & 1) + (((v >> 23) & 1) + 0)))));
    assert (((v >> 19) & 1) + (((v >> 20) & 1) + (((v >> 21) & 1) + (((v >> 22) & 1) + (((v >> 23) & 1) + 0))))) as int == CountBits(v, 19, 24);
    AddBit(v, 18, (((v >> 19) & 1) + (((v >> 20) & 1) + (((v >> 21) & 1) + (((v >> 22) & 1) + (((v >> 23) & 1) + 0))))));
    assert (((v >> 18) & 1) + (((v >> 19) & 1) + (((v >> 20) & 1) + (((v >> 21) & 1) + (((v >> 22) & 1) + (((v >> 23) & 1) + 0)))))) as int == CountBits(v, 18, 24);
    AddBit(v, 17, (((v >> 18) & 1) + (((v >> 19) & 1) + (((v >> 20) & 1) + (((v >> 21) & 1) + (((v >> 22) & 1) + (((v >> 23) & 1) + 0)))))));
    assert (((v >> 17) & 1) + (((v >> 18) & 1) + (((v >> 19) & 1) + (((v >> 20) & 1) + (((v >> 21) & 1) + (((v >> 22) & 1) + (((v >> 23) & 1) + 0))))))) as int == CountBits(v, 17, 24);
    AddBit(v, 16, (((v >> 17) & 1) + (((v >> 18) & 1) + (((v >> 19) & 1) + (((v >> 20) & 1) + (((v >> 21) & 1) + (((v >> 22) & 1) + (((v >> 23) & 1) + 0))))))));
    assert (((v >> 16) & 1) + (((v >> 17) & 1) + (((v >> 18) & 1) + (((v >> 19) & 1) + (((v >> 20) & 1) + (((v >> 21) & 1) + (((v >> 22) & 1) + (((v >> 23) & 1) + 0)))))))) as int == CountBits(v, 16, 24);
  }
  lemma {:induction false} ByteSum3(v: bv64) ensures (((v >> 24) & 1) + (((v >> 25) & 1) + (((v >> 26) & 1) + (((v >> 27) & 1) + (((v >> 28) & 1) + (((v >> 29) & 1) + (((v >> 30) & 1) + (((v >> 31) & 1) + 0)))))))) as int == CountBits(v, 24, 32) {
    AddBit(v, 31, 0);
    assert (((v >> 31) & 1) + 0) as int == CountBits(v, 31, 32);
    AddBit(v, 30, (((v >> 31) & 1) + 0));
    assert (((v >> 30) & 1) + (((v >> 31) & 1) + 0)) as int == CountBits(v, 30, 32);
    AddBit(v, 29, (((v >> 30) & 1) + (((v >> 31) & 1) + 0)));
    assert (((v >> 29) & 1) + (((v >> 30) & 1) + (((v >> 31) & 1) + 0))) as int == CountBits(v, 29, 32);
    AddBit(v, 28, (((v >> 29) & 1) + (((v >> 30) & 1) + (((v >> 31) & 1) + 0))));
    assert (((v >> 28) & 1) + (((v >> 29) & 1) + (((v >> 30) & 1) + (((v >> 31) & 1) + 0)))) as int == CountBits(v, 28, 32);
    AddBit(v, 27, (((v >> 28) & 1) + (((v >> 29) & 1) + (((v >> 30) & 1) + (((v >> 31) & 1) + 0)))));
    assert (((v >> 27) & 1) + (((v >> 28) & 1) + (((v >> 29) & 1) + (((v >> 30) & 1) + (((v >> 31) & 1) + 0))))) as int == CountBits(v, 27, 32);
    AddBit(v, 26, (((v >> 27) & 1) + (((v >> 28) & 1) + (((v >> 29) & 1) + (((v >> 30) & 1) + (((v >> 31) & 1) + 0))))));
    assert (((v >> 26) & 1) + (((v >> 27) & 1) + (((v >> 28) & 1) + (((v >> 29) & 1) + (((v >> 30) & 1) + (((v >> 31) & 1) + 0)))))) as int == CountBits(v, 26, 32);
    AddBit(v, 25, (((v >> 26) & 1) + (((v >> 27) & 1) + (((v >> 28) & 1) + (((v >> 29) & 1) + (((v >> 30) & 1) + (((v >> 31) & 1) + 0)))))));
    assert (((v >> 25) & 1) + (((v >> 26) & 1) + (((v >> 27) & 1) + (((v >> 28) & 1) + (((v >> 29) & 1) + (((v >> 30) & 1) + (((v >> 31) & 1) + 0))))))) as int == CountBits(v, 25, 32);
    AddBit(v, 24, (((v >> 25) & 1) + (((v >> 26) & 1) + (((v >> 27) & 1) + (((v >> 28) & 1) + (((v >> 29) & 1) + (((v >> 30) & 1) + (((v >> 31) & 1) + 0))))))));
    assert (((v >> 24) & 1) + (((v >> 25) & 1) + (((v >> 26) & 1) + (((v >> 27) & 1) + (((v >> 28) & 1) + (((v >> 29) & 1) + (((v >> 30) & 1) + (((v >> 31) & 1) + 0)))))))) as int == CountBits(v, 24, 32);
  }
  lemma {:induction false} ByteSum4(v: bv64) ensures (((v >> 32) & 1) + (((v >> 33) & 1) + (((v >> 34) & 1) + (((v >> 35) & 1) + (((v >> 36) & 1) + (((v >> 37) & 1) + (((v >> 38) & 1) + (((v >> 39) & 1) + 0)))))))) as int == CountBits(v, 32, 40) {
    AddBit(v, 39, 0);
    assert (((v >> 39) & 1) + 0) as int == CountBits(v, 39, 40);
    AddBit(v, 38, (((v >> 39) & 1) + 0));
    assert (((v >> 38) & 1) + (((v >> 39) & 1) + 0)) as int == CountBits(v, 38, 40);
    AddBit(v, 37, (((v >> 38) & 1) + (((v >> 39) & 1) + 0)));
    assert (((v >> 37) & 1) + (((v >> 38) & 1) + (((v >> 39) & 1) + 0))) as int == CountBits(v, 37, 40);
    AddBit(v, 36, (((v >> 37) & 1) + (((v >> 38) & 1) + (((v >> 39) & 1) + 0))));
    assert (((v >> 36) & 1) + (((v >> 37) & 1) + (((v >> 38) & 1) + (((v >> 39) & 1) + 0)))) as int == CountBits(v, 36, 40);
    AddBit(v, 35, (((v >> 36) & 1) + (((v >> 37) & 1) + (((v >> 38) & 1) + (((v >> 39) & 1) + 0)))));
    assert (((v >> 35) & 1) + (((v >> 36) & 1) + (((v >> 37) & 1) + (((v >> 38) & 1) + (((v >> 39) & 1) + 0))))) as int == CountBits(v, 35, 40);
    AddBit(v, 34, (((v >> 35) & 1) + (((v >> 36) & 1) + (((v >> 37) & 1) + (((v >> 38) & 1) + (((v >> 39) & 1) + 0))))));
    assert (((v >> 34) & 1) + (((v >> 35) & 1) + (((v >> 36) & 1) + (((v >> 37) & 1) + (((v >> 38) & 1) + (((v >> 39) & 1) + 0)))))) as int == CountBits(v, 34, 40);
    AddBit(v, 33, (((v >> 34) & 1) + (((v >> 35) & 1) + (((v >> 36) & 1) + (((v >> 37) & 1) + (((v >> 38) & 1) + (((v >> 39) & 1) + 0)))))));
    assert (((v >> 33) & 1) + (((v >> 34) & 1) + (((v >> 35) & 1) + (((v >> 36) & 1) + (((v >> 37) & 1) + (((v >> 38) & 1) + (((v >> 39) & 1) + 0))))))) as int == CountBits(v, 33, 40);
    AddBit(v, 32, (((v >> 33) & 1) + (((v >> 34) & 1) + (((v >> 35) & 1) + (((v >> 36) & 1) + (((v >> 37) & 1) + (((v >> 38) & 1) + (((v >> 39) & 1) + 0))))))));
    assert (((v >> 32) & 1) + (((v >> 33) & 1) + (((v >> 34) & 1) + (((v >> 35) & 1) + (((v >> 36) & 1) + (((v >> 37) & 1) + (((v >> 38) & 1) + (((v >> 39) & 1) + 0)))))))) as int == CountBits(v, 32, 40);
  }
  lemma {:induction false} ByteSum5(v: bv64) ensures (((v >> 40) & 1) + (((v >> 41) & 1) + (((v >> 42) & 1) + (((v >> 43) & 1) + (((v >> 44) & 1) + (((v >> 45) & 1) + (((v >> 46) & 1) + (((v >> 47) & 1) + 0)))))))) as int == CountBits(v, 40, 48) {
    AddBit(v, 47, 0);
    assert (((v >> 47) & 1) + 0) as int == CountBits(v, 47, 48);
    AddBit(v, 46, (((v >> 47) & 1) + 0));
    assert (((v >> 46) & 1) + (((v >> 47) & 1) + 0)) as int == CountBits(v, 46, 48);
    AddBit(v, 45, (((v >> 46) & 1) + (((v >> 47) & 1) + 0)));
    assert (((v >> 45) & 1) + (((v >> 46) & 1) + (((v >> 47) & 1) + 0))) as int == CountBits(v, 45, 48);
    AddBit(v, 44, (((v >> 45) & 1) + (((v >> 46) & 1) + (((v >> 47) & 1) + 0))));
    assert (((v >> 44) & 1) + (((v >> 45) & 1) + (((v >> 46) & 1) + (((v >> 47) & 1) + 0)))) as int == CountBits(v, 44, 48);
    AddBit(v, 43, (((v >> 44) & 1) + (((v >> 45) & 1) + (((v >> 46) & 1) + (((v >> 47) & 1) + 0)))));
    assert (((v >> 43) & 1) + (((v >> 44) & 1) + (((v >> 45) & 1) + (((v >> 46) & 1) + (((v >> 47) & 1) + 0))))) as int == CountBits(v, 43, 48);
    AddBit(v, 42, (((v >> 43) & 1) + (((v >> 44) & 1) + (((v >> 45) & 1) + (((v >> 46) & 1) + (((v >> 47) & 1) + 0))))));
    assert (((v >> 42) & 1) + (((v >> 43) & 1) + (((v >> 44) & 1) + (((v >> 45) & 1) + (((v >> 46) & 1) + (((v >> 47) & 1) + 0)))))) as int == CountBits(v, 42, 48);
    AddBit(v, 41, (((v >> 42) & 1) + (((v >> 43) & 1) + (((v >> 44) & 1) + (((v >> 45) & 1) + (((v >> 46) & 1) + (((v >> 47) & 1) + 0)))))));
    assert (((v >> 41) & 1) + (((v >> 42) & 1) + (((v >> 43) & 1) + (((v >> 44) & 1) + (((v >> 45) & 1) + (((v >> 46) & 1) + (((v >> 47) & 1) + 0))))))) as int == CountBits(v, 41, 48);
    AddBit(v, 40, (((v >> 41) & 1) + (((v >> 42) & 1) + (((v >> 43) & 1) + (((v >> 44) & 1) + (((v >> 45) & 1) + (((v >> 46) & 1) + (((v >> 47) & 1) + 0))))))));
    assert (((v >> 40) & 1) + (((v >> 41) & 1) + (((v >> 42) & 1) + (((v >> 43) & 1) + (((v >> 44) & 1) + (((v >> 45) & 1) + (((v >> 46) & 1) + (((v >> 47) & 1) + 0)))))))) as int == CountBits(v, 40, 48);
  }
  lemma {:induction false} ByteSum6(v: bv64) ensures (((v >> 48) & 1) + (((v >> 49) & 1) + (((v >> 50) & 1) + (((v >> 51) & 1) + (((v >> 52) & 1) + (((v >> 53) & 1) + (((v >> 54) & 1) + (((v >> 55) & 1) + 0)))))))) as int == CountBits(v, 48, 56) {
    AddBit(v, 55, 0);
    assert (((v >> 55) & 1) + 0) as int == CountBits(v, 55, 56);
    AddBit(v, 54, (((v >> 55) & 1) + 0));
    assert (((v >> 54) & 1) + (((v >> 55) & 1) + 0)) as int == CountBits(v, 54, 56);
    AddBit(v, 53, (((v >> 54) & 1) + (((v >> 55) & 1) + 0)));
    assert (((v >> 53) & 1) + (((v >> 54) & 1) + (((v >> 55) & 1) + 0))) as int == CountBits(v, 53, 56);
    AddBit(v, 52, (((v >> 53) & 1) + (((v >> 54) & 1) + (((v >> 55) & 1) + 0))));
    assert (((v >> 52) & 1) + (((v >> 53) & 1) + (((v >> 54) & 1) + (((v >> 55) & 1) + 0)))) as int == CountBits(v, 52, 56);
    AddBit(v, 51, (((v >> 52) & 1) + (((v >> 53) & 1) + (((v >> 54) & 1) + (((v >> 55) & 1) + 0)))));
    assert (((v >> 51) & 1) + (((v >> 52) & 1) + (((v >> 53) & 1) + (((v >> 54) & 1) + (((v >> 55) & 1) + 0))))) as int == CountBits(v, 51, 56);
    AddBit(v, 50, (((v >> 51) & 1) + (((v >> 52) & 1) + (((v >> 53) & 1) + (((v >> 54) & 1) + (((v >> 55) & 1) + 0))))));
    assert (((v >> 50) & 1) + (((v >> 51) & 1) + (((v >> 52) & 1) + (((v >> 53) & 1) + (((v >> 54) & 1) + (((v >> 55) & 1) + 0)))))) as int == CountBits(v, 50, 56);
    AddBit(v, 49, (((v >> 50) & 1) + (((v >> 51) & 1) + (((v >> 52) & 1) + (((v >> 53) & 1) + (((v >> 54) & 1) + (((v >> 55) & 1) + 0)))))));
    assert (((v >> 49) & 1) + (((v >> 50) & 1) + (((v >> 51) & 1) + (((v >> 52) & 1) + (((v >> 53) & 1) + (((v >> 54) & 1) + (((v >> 55) & 1) + 0))))))) as int == CountBits(v, 49, 56);
    AddBit(v, 48, (((v >> 49) & 1) + (((v >> 50) & 1) + (((v >> 51) & 1) + (((v >> 52) & 1) + (((v >> 53) & 1) + (((v >> 54) & 1) + (((v >> 55) & 1) + 0))))))));
    assert (((v >> 48) & 1) + (((v >> 49) & 1) + (((v >> 50) & 1) + (((v >> 51) & 1) + (((v >> 52) & 1) + (((v >> 53) & 1) + (((v >> 54) & 1) + (((v >> 55) & 1) + 0)))))))) as int == CountBits(v, 48, 56);
  }
  lemma {:induction false} ByteSum7(v: bv64) ensures (((v >> 56) & 1) + (((v >> 57) & 1) + (((v >> 58) & 1) + (((v >> 59) & 1) + (((v >> 60) & 1) + (((v >> 61) & 1) + (((v >> 62) & 1) + (((v >> 63) & 1) + 0)))))))) as int == CountBits(v, 56, 64) {
    AddBit(v, 63, 0);
    assert (((v >> 63) & 1) + 0) as int == CountBits(v, 63, 64);
    AddBit(v, 62, (((v >> 63) & 1) + 0));
    assert (((v >> 62) & 1) + (((v >> 63) & 1) + 0)) as int == CountBits(v, 62, 64);
    AddBit(v, 61, (((v >> 62) & 1) + (((v >> 63) & 1) + 0)));
    assert (((v >> 61) & 1) + (((v >> 62) & 1) + (((v >> 63) & 1) + 0))) as int == CountBits(v, 61, 64);
    AddBit(v, 60, (((v >> 61) & 1) + (((v >> 62) & 1) + (((v >> 63) & 1) + 0))));
    assert (((v >> 60) & 1) + (((v >> 61) & 1) + (((v >> 62) & 1) + (((v >> 63) & 1) + 0)))) as int == CountBits(v, 60, 64);
    AddBit(v, 59, (((v >> 60) & 1) + (((v >> 61) & 1) + (((v >> 62) & 1) + (((v >> 63) & 1) + 0)))));
    assert (((v >> 59) & 1) + (((v >> 60) & 1) + (((v >> 61) & 1) + (((v >> 62) & 1) + (((v >> 63) & 1) + 0))))) as int == CountBits(v, 59, 64);
    AddBit(v, 58, (((v >> 59) & 1) + (((v >> 60) & 1) + (((v >> 61) & 1) + (((v >> 62) & 1) + (((v >> 63) & 1) + 0))))));
    assert (((v >> 58) & 1) + (((v >> 59) & 1) + (((v >> 60) & 1) + (((v >> 61) & 1) + (((v >> 62) & 1) + (((v >> 63) & 1) + 0)))))) as int == CountBits(v, 58, 64);
    AddBit(v, 57, (((v >> 58) & 1) + (((v >> 59) & 1) + (((v >> 60) & 1) + (((v >> 61) & 1) + (((v >> 62) & 1) + (((v >> 63) & 1) + 0)))))));
    assert (((v >> 57) & 1) + (((v >> 58) & 1) + (((v >> 59) & 1) + (((v >> 60) & 1) + (((v >> 61) & 1) + (((v >> 62) & 1) + (((v >> 63) & 1) + 0))))))) as int == CountBits(v, 57, 64);
    AddBit(v, 56, (((v >> 57) & 1) + (((v >> 58) & 1) + (((v >> 59) & 1) + (((v >> 60) & 1) + (((v >> 61) & 1) + (((v >> 62) & 1) + (((v >> 63) & 1) + 0))))))));
    assert (((v >> 56) & 1) + (((v >> 57) & 1) + (((v >> 58) & 1) + (((v >> 59) & 1) + (((v >> 60) & 1) + (((v >> 61) & 1) + (((v >> 62) & 1) + (((v >> 63) & 1) + 0)))))))) as int == CountBits(v, 56, 64);
  }
}

/**
 * The routines of src/utils.c that the engine's bit-board and file code
 * rests on, each stated against its specification.
 */
module Utils {
  import opened UtilsBits
  import opened BitCount

  // ---- pop_count ----

  /**
   * pop_count, portable branch: three SWAR steps leave the per-byte counts
   * in Nibbles(v); the multiply by KF adds them into the top byte.
   */
  function PopCount(v: bv64): (n: int)
    ensures 0 <= n < 256
  {
    TopByte(Nibbles(v) * KF)
  }

  /** The top byte of a word, as a number. */
  function TopByte(x: bv64): (t: int)
    ensures 0 <= t < 256
  {
    (x >> 56) as int
  }

  /** After the first three steps of pop_count, byte k holds the number of set bits of byte k of v. */
  lemma PopCountByteCounts(v: bv64)
    ensures ((Nibbles(v) >> 0) & 0xff) as int == CountBits(v, 0, 8)
    ensures ((Nibbles(v) >> 8) & 0xff) as int == CountBits(v, 8, 16)
    ensures ((Nibbles(v) >> 16) & 0xff) as int == CountBits(v, 16, 24)
    ensures ((Nibbles(v) >> 24) & 0xff) as int == CountBits(v, 24, 32)
    ensures ((Nibbles(v) >> 32) & 0xff) as int == CountBits(v, 32, 40)
    ensures ((Nibbles(v) >> 40) & 0xff) as int == CountBits(v, 40, 48)
    ensures ((Nibbles(v) >> 48) & 0xff) as int == CountBits(v, 48, 56)
    ensures ((Nibbles(v) >> 56) & 0xff) as int == CountBits(v, 56, 64)
  {
    NibbleByte0(v); ByteSum0(v);
    NibbleByte1(v); ByteSum1(v);
    NibbleByte2(v); ByteSum2(v);
    NibbleByte3(v); ByteSum3(v);
    NibbleByte4(v); ByteSum4(v);
    NibbleByte5(v); ByteSum5(v);
    NibbleByte6(v); ByteSum6(v);
    NibbleByte7(v); ByteSum7(v);
  }

  // ---- bitscan_forward ----

  /** bitscan_forward, portable branch: De Bruijn multiplication of the isolated lowest bit. */
  function BitscanForward(v: bv64): int
    requires v != 0
  {
    Index64((((v & -v) * DEBRUIJN) >> 58) as int)
  }

  /** bitscan_forward returns the index of the lowest set bit. */
  lemma BitscanForwardLowest(v: bv64)
    requires v != 0
    ensures LowestBit(v, BitscanForward(v))
  {
    var r := LowestBitExists(v);
    IsolateLowest(v, r);
    DeBruijnLookup(v & -v, r);
  }

  // ---- pop_bit ----

  /**
   * pop_bit: the index of the lowest set bit of v, and v with exactly that
   * bit cleared (the routine updates *v in place).
   */
  method PopBit(v: bv64) returns (index: int, rest: bv64)
    requires v != 0
    ensures LowestBit(v, index)
    ensures rest & ((1 as bv64) << index) == 0 && rest | ((1 as bv64) << index) == v
  {
    index := BitscanForward(v);
    BitscanForwardLowest(v);
    rest := v & !((1 as bv64) << index);
    ClearLowest(v, index);
  }

  // ---- read_uint16_le, read_uint32_le ----

  /** A byte, uint8_t. */
  type Byte = b: int | 0 <= b < 256

  /** The n bytes of x, least significant first. */
  function LittleEndian(x: nat, n: nat): (bytes: seq<Byte>)
    ensures |bytes| == n
  {
    if n == 0 then [] else [x % 256] + LittleEndian(x / 256, n - 1)
  }

  lemma LittleEndianCons(lo: Byte, hi: nat, n: nat)
    ensures LittleEndian(lo + 256 * hi, n + 1) == [lo] + LittleEndian(hi, n)
  {
    assert (lo + 256 * hi) % 256 == lo;
    assert (lo + 256 * hi) / 256 == hi;
  }

  /** read_uint16_le on a little-endian host: buffer[0] is the low byte. */
  function ReadUint16Le(buffer: seq<Byte>): (r: nat)
    requires |buffer| >= 2
    ensures r < 0x1_0000 && LittleEndian(r, 2) == buffer[..2]
  {
    LittleEndianCons(buffer[1], 0, 0);
    LittleEndianCons(buffer[0], buffer[1], 1);
    buffer[0] as int + 0x100 * buffer[1] as int
  }

  /** read_uint32_le on a little-endian host: byte i of the buffer weighs 256^i. */
  function ReadUint32Le(buffer: seq<Byte>): (r: nat)
    requires |buffer| >= 4
    ensures r < 0x1_0000_0000 && LittleEndian(r, 4) == buffer[..4]
  {
    LittleEndianCons(buffer[3], 0, 0);
    LittleEndianCons(buffer[2], buffer[3], 1);
    LittleEndianCons(buffer[1], buffer[2] as int + 0x100 * buffer[3] as int, 2);
    LittleEndianCons(buffer[0], buffer[1] as int + 0x100 * buffer[2] as int + 0x1_0000 * buffer[3] as int, 3);
    buffer[0] as int + 0x100 * buffer[1] as int + 0x1_0000 * buffer[2] as int + 0x100_0000 * buffer[3] as int
  }

  // ---- skip_whitespace ----

  /** isspace in the C locale: space, \t, \n, \v, \f, \r. */
  predicate IsSpace(c: char) {
    c == ' ' || ('\t' <= c <= '\r')
  }

  /**
   * skip_whitespace: the position of the first character at or after start
   * that is not white space; |s| stands for the terminating NUL.
   */
  method SkipWhitespace(s: string, start: nat) returns (i: nat)
    requires start <= |s|
    ensures start <= i <= |s|
    ensures forall k :: start <= k < i ==> IsSpace(s[k])
    ensures i < |s| ==> !IsSpace(s[i])
  {
    i := start;
    while i < |s| && IsSpace(s[i])
      invariant start <= i <= |s|
      invariant forall k :: start <= k < i ==> IsSpace(s[k])
    {
      i := i + 1;
    }
  }
}
