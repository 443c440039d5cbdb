/** The polynomials of the code: CRC-32 (RFC 1952 section 8), CRC-32C (RFC 3720 section 12.1) and CRC-64 (ECMA-182). */
module CrcPolynomials {
  import opened Gf2
  import opened CrcCombine

  /** The bits of an integer, low bit first. */
  function BitsOf(n: nat, w: nat): (r: Bits)
    ensures |r| == w
  {
    if w == 0 then [] else [n % 2 == 1] + BitsOf(n / 2, w - 1)
  }

  const CRC32_REFLECTED_POLY: nat := 0xedb88320
  const CRC32C_REFLECTED_POLY: nat := 0x82f63b78
  const CRC64_REFLECTED_POLY: nat := 0xc96c5795d7870f42

  lemma {:induction false} TopBit(n: nat, w: nat)
    requires w > 0 && Pow2(w - 1) <= n < Pow2(w)
    ensures BitsOf(n, w)[w - 1]
  {
    if w > 1 {
      assert Pow2(w) == 2 * Pow2(w - 1) && Pow2(w - 1) == 2 * Pow2(w - 2);
      TopBit(n / 2, w - 1);
    }
  }

  /** All three have a constant term, which is what the tables of powers need. */
  lemma HaveConstantTerm()
    ensures BitsOf(CRC32_REFLECTED_POLY, 32)[31] && BitsOf(CRC32C_REFLECTED_POLY, 32)[31]
    ensures BitsOf(CRC64_REFLECTED_POLY, 64)[63]
  {
    Pow2Values();
    HalfPower(63);
    assert Pow2(2) == 4 && Pow2(4) == 16;
    Pow2Add(4, 4, 8, 16, 16);
    Pow2Add(8, 8, 16, 0x100, 0x100);
    Pow2Add(16, 16, 32, 0x1_0000, 0x1_0000);
    HalfPower(31);
    TopBit(CRC32_REFLECTED_POLY, 32);
    TopBit(CRC32C_REFLECTED_POLY, 32);
    TopBit(CRC64_REFLECTED_POLY, 64);
  }

  lemma HalfPower(n: nat)
    ensures Pow2(n + 1) == 2 * Pow2(n)
  {
  }

  // ----- the exponents

  /** x to the power e, in a register of w bits with the highest power in the low bit. */
  function Term(e: nat, w: nat): nat
    requires e < w
  {
    Pow2(w - 1 - e)
  }

  /** As bits, a term is the one bit at its place. */
  lemma {:induction false} TermIsBit(e: nat, w: nat, p: nat)
    requires e < w && p == Term(e, w)
    ensures BitsOf(p, w) == seq(w, i requires 0 <= i < w => i == w - 1 - e)
  {
    if e == w - 1 {
      OnlyZeros(w - 1);
      assert p == 1 && BitsOf(1, w) == [true] + BitsOf(0, w - 1);
    } else {
      TermIsBit(e, w - 1, p / 2);
      assert p % 2 == 0;
    }
  }

  lemma {:induction false} OnlyZeros(w: nat)
    ensures BitsOf(0, w) == seq(w, _ => false)
  {
    if w > 0 { OnlyZeros(w - 1); }
  }

  /** The terms of CRC-32 below its degree, as its standard lists them. */
  lemma Crc32Terms()
    ensures CRC32_REFLECTED_POLY ==
            Term(26, 32) + Term(23, 32) + Term(22, 32) + Term(16, 32) + Term(12, 32) + Term(11, 32) + Term(10, 32) + Term(8, 32)
            + Term(7, 32) + Term(5, 32) + Term(4, 32) + Term(2, 32) + Term(1, 32) + Term(0, 32)
  {
    Powers();
  }

  /** The terms of CRC-32C below its degree, as its standard lists them. */
  lemma Crc32cTerms()
    ensures CRC32C_REFLECTED_POLY ==
            Term(28, 32) + Term(27, 32) + Term(26, 32) + Term(25, 32) + Term(23, 32) + Term(22, 32) + Term(20, 32) + Term(19, 32)
            + Term(18, 32) + Term(14, 32) + Term(13, 32) + Term(11, 32) + Term(10, 32) + Term(9, 32) + Term(8, 32) + Term(6, 32)
            + Term(0, 32)
  {
    Powers();
  }

  /** The terms of CRC-64 below its degree, as its standard lists them. */
  lemma Crc64Terms()
    ensures CRC64_REFLECTED_POLY ==
            Term(62, 64) + Term(57, 64) + Term(55, 64) + Term(54, 64) + Term(53, 64) + Term(52, 64) + Term(47, 64) + Term(46, 64)
            + Term(45, 64) + Term(40, 64) + Term(39, 64) + Term(38, 64) + Term(37, 64) + Term(35, 64) + Term(33, 64) + Term(32, 64)
            + Term(31, 64) + Term(29, 64) + Term(27, 64) + Term(24, 64) + Term(23, 64) + Term(22, 64) + Term(21, 64) + Term(19, 64)
            + Term(17, 64) + Term(13, 64) + Term(12, 64) + Term(10, 64) + Term(9, 64) + Term(7, 64) + Term(4, 64) + Term(1, 64)
            + Term(0, 64)
  {
    Powers();
  }

  lemma Powers()
    ensures Pow2(0) == 0x1 && Pow2(1) == 0x2 && Pow2(2) == 0x4 && Pow2(3) == 0x8
    ensures Pow2(4) == 0x10 && Pow2(5) == 0x20 && Pow2(6) == 0x40 && Pow2(7) == 0x80
    ensures Pow2(8) == 0x100 && Pow2(9) == 0x200 && Pow2(10) == 0x400 && Pow2(11) == 0x800
    ensures Pow2(12) == 0x1000 && Pow2(13) == 0x2000 && Pow2(14) == 0x4000 && Pow2(15) == 0x8000
    ensures Pow2(16) == 0x10000 && Pow2(17) == 0x20000 && Pow2(18) == 0x40000 && Pow2(19) == 0x80000
    ensures Pow2(20) == 0x100000 && Pow2(21) == 0x200000 && Pow2(22) == 0x400000 && Pow2(23) == 0x800000
    ensures Pow2(24) == 0x1000000 && Pow2(25) == 0x2000000 && Pow2(26) == 0x4000000 && Pow2(27) == 0x8000000
    ensures Pow2(28) == 0x10000000 && Pow2(29) == 0x20000000 && Pow2(30) == 0x40000000 && Pow2(31) == 0x80000000
    ensures Pow2(32) == 0x100000000 && Pow2(33) == 0x200000000 && Pow2(34) == 0x400000000 && Pow2(35) == 0x800000000
    ensures Pow2(36) == 0x1000000000 && Pow2(37) == 0x2000000000 && Pow2(38) == 0x4000000000 && Pow2(39) == 0x8000000000
    ensures Pow2(40) == 0x10000000000 && Pow2(41) == 0x20000000000 && Pow2(42) == 0x40000000000 && Pow2(43) == 0x80000000000
    ensures Pow2(44) == 0x100000000000 && Pow2(45) == 0x200000000000 && Pow2(46) == 0x400000000000 && Pow2(47) == 0x800000000000
    ensures Pow2(48) == 0x1000000000000 && Pow2(49) == 0x2000000000000 && Pow2(50) == 0x4000000000000 && Pow2(51) == 0x8000000000000
    ensures Pow2(52) == 0x10000000000000 && Pow2(53) == 0x20000000000000 && Pow2(54) == 0x40000000000000 && Pow2(55) == 0x80000000000000
    ensures Pow2(56) == 0x100000000000000 && Pow2(57) == 0x200000000000000 && Pow2(58) == 0x400000000000000 && Pow2(59) == 0x800000000000000
    ensures Pow2(60) == 0x1000000000000000 && Pow2(61) == 0x2000000000000000 && Pow2(62) == 0x4000000000000000 && Pow2(63) == 0x8000000000000000
  {
  }
}
