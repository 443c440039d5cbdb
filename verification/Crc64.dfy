/**
 * CRC-64 combination by field multiplication (crc64_init_power_buf, compute_crc64_combine_generic of
 * src/common/crc32.c), for any polynomial of degree 64 with a constant term.
 */
module Crc64 {
  import opened Gf2
  import opened CrcPartial
  import opened CrcCombine
  import opened GfMul
  import opened GfField

  /** The register for x^m. */
  function X(m: nat, p: Bits): (r: Bits)
    requires |p| > 0
    ensures |r| == |p|
  {
    Pow(m, One(|p|), p)
  }

  /** Below the degree, x^m is a single bit. */
  lemma SmallPower(m: nat, p: Bits)
    requires m < |p|
    ensures X(m, p) == Unit(|p|, |p| - 1 - m)
  {
    TimesXShifts(p);
    UnitIsPower(TimesX(p), |p|, m, |p| - 1 - m);
    IterIsPow(m, One(|p|), p);
  }

  /** At the degree, it is the polynomial. */
  lemma PolyIsPower(p: Bits)
    requires |p| > 0
    ensures X(|p|, p) == p
  {
    TimesXShifts(p);
    TopPower(TimesX(p), |p|);
    IterIsPow(|p|, One(|p|), p);
  }

  lemma TimesPowers(m: nat, n: nat, k: nat, p: Bits)
    requires |p| > 0 && k == m + n
    ensures Times(X(m, p), X(n, p), p) == X(k, p)
  {
    TimesPow(n, X(m, p), p);
    PowAdd(n, m, k, One(|p|), p);
  }

  // ----- the table

  /** Entry n of the table: x^(8 * 2^n + 63) and x^(8 * 2^n - 1). */
  predicate Entry(t: seq<Bits>, n: nat, p: Bits)
    requires |p| == 64 && 2 * n + 1 < |t|
  {
    t[2 * n] == X(8 * Pow2(n) + 63, p) && t[2 * n + 1] == X(8 * Pow2(n) - 1, p)
  }

  predicate PowerBuf(t: seq<Bits>, count: nat, p: Bits)
    requires |p| == 64
  {
    2 * count <= |t| && forall n :: 0 <= n < count ==> Entry(t, n, p)
  }

  /** What the loop computes from a = x^(8 * 2^n - 1). */
  lemma NextEntry(n: nat, m: nat, a: Bits, p: Bits)
    requires |p| == 64 && m == 8 * Pow2(n) - 1 && a == X(m, p)
    ensures Times(a, p, p) == X(8 * Pow2(n) + 63, p)
    ensures MulX(Times(a, a, p), p) == X(8 * Pow2(n + 1) - 1, p)
  {
    PolyIsPower(p);
    TimesPowers(m, 64, m + 64, p);
    TimesPowers(m, m, 2 * m, p);
    assert X(2 * m + 1, p) == MulX(X(2 * m, p), p);
    assert Pow2(n + 1) == 2 * Pow2(n);
  }

  /** crc64_init_power_buf. */
  method InitPowerBuf(t: array<Bits>, p: Bits)
    requires |p| == 64 && p[63] && t.Length == 126
    modifies t
    ensures PowerBuf(t[..], 63, p) && NonZero(t[125])
    ensures t[3] == Unit(64, 63 - 15) && t[5] == Unit(64, 63 - 31) && t[7] == Unit(64, 0)
  {
    var a := Unit(64, 63 - 7);
    SmallPower(7, p);
    for n := 0 to 63
      invariant |a| == 64 && a == X(8 * Pow2(n) - 1, p) && PowerBuf(t[..], n, p)
    {
      a := FillEntry(t, n, a, p);
    }
    FirstEntries(t[..], p);
    LastEntry(t[..], p);
  }

  /** One round of the loop: entry n, and the value that the next round starts from. */
  method FillEntry(t: array<Bits>, n: nat, a: Bits, p: Bits) returns (next: Bits)
    requires |p| == |a| == 64 && n < 63 && t.Length == 126 && a == X(8 * Pow2(n) - 1, p) && PowerBuf(t[..], n, p)
    modifies t
    ensures PowerBuf(t[..], n + 1, p) && next == X(8 * Pow2(n + 1) - 1, p)
  {
    NextEntry(n, 8 * Pow2(n) - 1, a, p);
    ghost var before := t[..];
    var b := Mul(a, p, p);
    t[2 * n], t[2 * n + 1] := b, a;
    assert t[..][..2 * n] == before[..2 * n];
    KeepEntries(before, t[..], n, p);
    next := Mul(a, a, p);
    next := MulX(next, p);
  }

  lemma KeepEntries(before: seq<Bits>, after: seq<Bits>, n: nat, p: Bits)
    requires |p| == 64 && PowerBuf(before, n, p) && |after| == |before| && 2 * n + 1 < |after|
    requires after[..2 * n] == before[..2 * n] && Entry(after, n, p)
    ensures PowerBuf(after, n + 1, p)
  {
    forall k | 0 <= k < n ensures Entry(after, k, p) {
      assert Entry(before, k, p);
      assert after[2 * k] == after[..2 * n][2 * k] && after[2 * k + 1] == after[..2 * n][2 * k + 1];
    }
  }

  lemma FirstEntries(t: seq<Bits>, p: Bits)
    requires |p| == 64 && PowerBuf(t, 63, p)
    ensures t[3] == Unit(64, 63 - 15) && t[5] == Unit(64, 63 - 31) && t[7] == Unit(64, 0)
  {
    assert Entry(t, 1, p) && Entry(t, 2, p) && Entry(t, 3, p);
    assert Pow2(1) == 2 && Pow2(2) == 4 && Pow2(3) == 8;
    SmallPower(15, p);
    SmallPower(31, p);
    SmallPower(63, p);
  }

  lemma LastEntry(t: seq<Bits>, p: Bits)
    requires |p| == 64 && p[63] && PowerBuf(t, 63, p)
    ensures NonZero(t[125])
  {
    var n := 62;
    assert Entry(t, n, p);
    assert One(64)[63];
    PowNonZero(8 * Pow2(n) - 1, One(64), p);
  }

  // ----- combining

  /** One factor of the combination: `gf64_mul (crc1, gf64_mulx (*p))` at entry n. */
  lemma FactorIsPow(t: seq<Bits>, n: nat, crc: Bits, p: Bits)
    requires |p| == |crc| == 64 && PowerBuf(t, 63, p) && n < 63
    ensures |t[2 * n + 1]| == 64 && Times(crc, MulX(t[2 * n + 1], p), p) == Pow(Pow2(n + 3), crc, p)
  {
    assert Entry(t, n, p);
    var m := 8 * Pow2(n) - 1;
    EightTimes(n);
    assert MulX(X(m, p), p) == X(m + 1, p);
    TimesPow(m + 1, crc, p);
  }

  lemma EightTimes(n: nat)
    ensures Pow2(n + 3) == 8 * Pow2(n)
  {
    assert Pow2(n + 3) == 2 * Pow2(n + 2) && Pow2(n + 2) == 2 * Pow2(n + 1) && Pow2(n + 1) == 2 * Pow2(n);
  }

  /** `n = __builtin_ffsll (len)` and `len >> n`: the number of zero bits at the end (n - 1), and what is above the lowest one. */
  function Lowest(len: nat): (r: (nat, nat))
    requires len > 0
    ensures len == Pow2(r.0) * (2 * r.1 + 1)
    decreases len
  {
    if len % 2 == 1 then (0, len / 2) else
      var q := Lowest(len / 2);
      Doubled(Pow2(q.0), 2 * q.1 + 1);
      (q.0 + 1, q.1)
  }

  lemma Doubled(a: nat, b: nat)
    ensures 2 * (a * b) == (2 * a) * b
  {
  }

  /** The zero bits at the end of the length are skipped. */
  lemma LeftSkip(n: nat, odd: nat, len: nat, crc: Bits, p: Bits, goal: Bits)
    requires Left(0, len, crc, p, goal) && len == Pow2(n) * odd
    ensures Left(n, odd, crc, p, goal)
  {
    EightTimes(n);
    EightTimes(0);
    Eightfold(Pow2(n), odd);
  }

  lemma Eightfold(a: nat, b: nat)
    ensures 8 * (a * b) == (8 * a) * b
  {
  }

  /** A positive length with n zero bits at the end is at least 2^n. */
  lemma LowestBelow(n: nat, rest: nat, len: nat, digits: nat)
    requires len == Pow2(n) * (2 * rest + 1) && len < Pow2(digits)
    ensures n < digits && rest < Pow2(digits - n - 1)
  {
    assert len >= Pow2(n) by { assert Pow2(n) * (2 * rest + 1) == Pow2(n) + 2 * (Pow2(n) * rest); }
    if digits <= n { Pow2Monotone(digits, n); }
    Pow2Add(n, digits - n, digits, Pow2(n), Pow2(digits - n));
    if rest >= Pow2(digits - n - 1) {
      assert 2 * rest + 1 >= Pow2(digits - n);
      Larger(Pow2(n), 2 * rest + 1, Pow2(digits - n));
    }
  }

  lemma {:induction false} Pow2Monotone(m: nat, n: nat)
    requires m <= n
    ensures Pow2(m) <= Pow2(n)
  {
    if m < n { Pow2Monotone(m, n - 1); }
  }

  lemma Larger(a: nat, b: nat, c: nat)
    requires b >= c
    ensures a * b >= a * c
  {
  }

  /** compute_crc64_combine_generic, past its first test. */
  method CombineProducts(t: array<Bits>, crc1: Bits, len2: nat, p: Bits) returns (crc: Bits)
    requires |p| == |crc1| == 64 && t.Length == 126 && PowerBuf(t[..], 63, p) && 0 < len2 && Int64(len2)
    ensures crc == Pow(8 * len2, crc1, p)
  {
    ghost var goal := Pow(8 * len2, crc1, p);
    ghost var digits: nat := Digits(len2);
    LeftStart(len2, crc1, p);
    var low := Lowest(len2);
    var n: nat, len: nat := low.0, low.1;
    FirstFactor(n, len, len2, digits, crc1, p, goal);
    crc := Factor(t, n, crc1, p);
    crc := CombineRest(t, crc, n + 1, len, p, digits - n - 1, goal);
  }

  lemma FirstFactor(n: nat, len: nat, len2: nat, digits: nat, crc: Bits, p: Bits, goal: Bits)
    requires len2 == Pow2(n) * (2 * len + 1) && len2 < Pow2(digits) && Left(0, len2, crc, p, goal)
    ensures n < digits && len < Pow2(digits - n - 1) && Left(n + 1, len, Pow(Pow2(n + 3), crc, p), p, goal)
  {
    LowestBelow(n, len, len2, digits);
    LeftSkip(n, 2 * len + 1, len2, crc, p, goal);
    LeftStep(n, 2 * len + 1, crc, p, goal, Pow(Pow2(n + 3), crc, p));
    assert (2 * len + 1) / 2 == len;
  }

  /** The loop over the remaining bits of the length; the next entry is n. */
  method CombineRest(t: array<Bits>, crc1: Bits, n1: nat, len1: nat, p: Bits, ghost digits1: nat, ghost goal: Bits)
    returns (crc: Bits)
    requires |p| == |crc1| == 64 && t.Length == 126 && PowerBuf(t[..], 63, p)
    requires n1 + digits1 <= 63 && len1 < Pow2(digits1) && Left(n1, len1, crc1, p, goal)
    ensures crc == goal
  {
    var n: nat, len: nat := n1, len1;
    ghost var digits: nat := digits1;
    crc := crc1;
    while len > 0
      invariant n + digits <= 63 && len < Pow2(digits) && Left(n, len, crc, p, goal)
      decreases len
    {
      assert digits > 0;
      HalfBelow(len, digits);
      ghost var before := crc;
      if len % 2 == 1 { crc := Factor(t, n, crc, p); }
      LeftStep(n, len, before, p, goal, crc);
      n, len, digits := n + 1, len / 2, digits - 1;
    }
    LeftEnds(n, crc, p, goal);
  }

  method Factor(t: array<Bits>, n: nat, crc: Bits, p: Bits) returns (r: Bits)
    requires |p| == |crc| == 64 && t.Length == 126 && PowerBuf(t[..], 63, p) && n < 63
    ensures r == Pow(Pow2(n + 3), crc, p)
  {
    FactorIsPow(t[..], n, crc, p);
    r := Mul(crc, MulX(t[2 * n + 1], p), p);
  }

  /** The static buffer of the code: empty, or complete. */
  class PowerBuffer {
    const poly: Bits
    const table: array<Bits>

    predicate Valid()
      reads this, table
    {
      && |poly| == 64 && poly[63] && table.Length == 126
      && (NonZero(table[125]) ==> PowerBuf(table[..], 63, poly))
    }

    constructor (poly: Bits)
      requires |poly| == 64 && poly[63]
      ensures Valid() && this.poly == poly && fresh(table)
    {
      this.poly := poly;
      table := new Bits[126](_ => Zero(64));
    }

    /** compute_crc64_combine_generic: agrees with the byte loop on every concatenation. */
    method Combine(crc1: Bits, crc2: Bits, len2: int) returns (crc: Bits)
      requires Valid() && |crc1| == |crc2| == 64 && Int64(len2)
      modifies table
      ensures Valid()
      ensures crc == if len2 <= 0 then crc1 else Xor(Pow(8 * len2, crc1, poly), crc2)
      ensures forall a: seq<Byte>, b: seq<Byte>, c: Bits ::
                |c| == 64 && len2 == |b| && crc1 == CrcBytes(a, c, poly) && crc2 == CrcBytes(b, Zero(64), poly) ==>
                  crc == CrcBytes(a + b, c, poly)
    {
      crc := crc1;
      if len2 > 0 {
        if !NonZero(table[125]) {
          InitPowerBuf(table, poly);
        }
        crc := CombineProducts(table, crc1, len2, poly);
        crc := Xor(crc, crc2);
      }
      forall a: seq<Byte>, b: seq<Byte>, c: Bits
        | |c| == 64 && len2 == |b| && crc1 == CrcBytes(a, c, poly) && crc2 == CrcBytes(b, Zero(64), poly)
        ensures crc == CrcBytes(a + b, c, poly)
      {
        CombineIsConcat(a, b, c, poly);
        if len2 == 0 { assert a + b == a; }
      }
    }
  }
}
