/**
 * Arithmetic of the CRC registers of src/common/crc32.c. A register is the list of its bits, bit 0
 * first; read as a polynomial over GF(2), bit 0 is the coefficient of the highest power. Everything
 * is generic in the width and in the CRC polynomial (given, as in the code, without its leading term).
 */
module Gf2 {

  type Bits = seq<bool>

  function Zero(w: nat): (r: Bits)
    ensures |r| == w && forall i :: 0 <= i < w ==> !r[i]
  {
    seq(w, _ => false)
  }

  function Unit(w: nat, k: nat): (r: Bits)
    requires k < w
    ensures |r| == w && forall i :: 0 <= i < w ==> (r[i] <==> i == k)
  {
    seq(w, i => i == k)
  }

  function Xor(a: Bits, b: Bits): (r: Bits)
    requires |a| == |b|
    ensures |r| == |a| && forall i {:trigger r[i]} :: 0 <= i < |a| ==> r[i] == (a[i] != b[i])
  {
    seq(|a|, i requires 0 <= i < |a| => a[i] != b[i])
  }

  /** `a` when the bit is set, else zero. */
  function If(bit: bool, a: Bits): (r: Bits)
    ensures |r| == |a|
  {
    if bit then a else Zero(|a|)
  }

  /** gf32_mulx, gf64_mulx: shift down by one place, and add the polynomial if a bit fell out. */
  function MulX(a: Bits, p: Bits): (r: Bits)
    requires |a| == |p| > 0
    ensures |r| == |a|
  {
    Xor(a[1..] + [false], If(a[0], p))
  }

  /** Multiplication by x to the power n. */
  function Pow(n: nat, a: Bits, p: Bits): (r: Bits)
    requires |a| == |p| > 0
    ensures |r| == |a|
  {
    if n == 0 then a else MulX(Pow(n - 1, a, p), p)
  }

  // ----- exclusive or

  lemma XorZero(a: Bits)
    ensures Xor(a, Zero(|a|)) == a && Xor(Zero(|a|), a) == a && Xor(a, a) == Zero(|a|)
  {
  }

  lemma XorAssoc(a: Bits, b: Bits, c: Bits)
    requires |a| == |b| == |c|
    ensures Xor(Xor(a, b), c) == Xor(a, Xor(b, c))
  {
  }

  /** Four terms in another order. */
  lemma XorSwap(a: Bits, b: Bits, c: Bits, d: Bits)
    requires |a| == |b| == |c| == |d|
    ensures Xor(Xor(a, b), Xor(c, d)) == Xor(Xor(a, c), Xor(b, d))
  {
  }

  // ----- multiplication by powers of x

  lemma MulXLinear(a: Bits, b: Bits, p: Bits)
    requires |a| == |b| == |p| > 0
    ensures MulX(Xor(a, b), p) == Xor(MulX(a, p), MulX(b, p))
  {
  }

  lemma {:induction false} PowLinear(n: nat, a: Bits, b: Bits, p: Bits)
    requires |a| == |b| == |p| > 0
    ensures Pow(n, Xor(a, b), p) == Xor(Pow(n, a, p), Pow(n, b, p))
  {
    if n > 0 {
      PowLinear(n - 1, a, b, p);
      MulXLinear(Pow(n - 1, a, p), Pow(n - 1, b, p), p);
    }
  }

  lemma MulXZero(p: Bits)
    requires |p| > 0
    ensures MulX(Zero(|p|), p) == Zero(|p|)
  {
  }

  lemma {:induction false} PowZero(n: nat, p: Bits)
    requires |p| > 0
    ensures Pow(n, Zero(|p|), p) == Zero(|p|)
  {
    if n > 0 {
      PowZero(n - 1, p);
      MulXZero(p);
    }
  }

  /** Pow(m + n) is Pow(m) after Pow(n). */
  lemma {:induction false} PowAdd(m: nat, n: nat, k: nat, a: Bits, p: Bits)
    requires |a| == |p| > 0 && k == m + n
    ensures Pow(k, a, p) == Pow(m, Pow(n, a, p), p)
  {
    if m > 0 { PowAdd(m - 1, n, k - 1, a, p); }
  }

  lemma PowFirst(n: nat, a: Bits, p: Bits)
    requires |a| == |p| > 0
    ensures Pow(n + 1, a, p) == Pow(n, MulX(a, p), p)
  {
    PowAdd(n, 1, n + 1, a, p);
    assert Pow(1, a, p) == MulX(Pow(0, a, p), p);
  }

  /** A word whose lowest n bits are clear is only shifted. */
  lemma {:induction false} PowShift(n: nat, b: Bits, p: Bits)
    requires n + |b| == |p| > 0
    ensures Pow(n, Zero(n) + b, p) == b + Zero(n)
  {
    if n == 0 {
      assert Zero(0) + b == b == b + Zero(0);
    } else {
      PowFirst(n - 1, Zero(n) + b, p);
      assert MulX(Zero(n) + b, p) == Zero(n - 1) + (b + [false]);
      PowShift(n - 1, b + [false], p);
      assert b + [false] + Zero(n - 1) == b + Zero(n);
    }
  }

  predicate NonZero(a: Bits) {
    exists i :: 0 <= i < |a| && a[i]
  }

  /** When the polynomial has a constant term, multiplication by x loses nothing. */
  lemma MulXNonZero(a: Bits, p: Bits)
    requires |a| == |p| > 0 && p[|p| - 1] && NonZero(a)
    ensures NonZero(MulX(a, p))
  {
    var k :| 0 <= k < |a| && a[k];
    var r := MulX(a, p);
    if a[0] { assert r[|a| - 1]; } else { assert r[k - 1]; }
  }

  lemma {:induction false} PowNonZero(n: nat, a: Bits, p: Bits)
    requires |a| == |p| > 0 && p[|p| - 1] && NonZero(a)
    ensures NonZero(Pow(n, a, p))
  {
    if n > 0 {
      PowNonZero(n - 1, a, p);
      MulXNonZero(Pow(n - 1, a, p), p);
    }
  }

  // ----- a word as the sum of its bits

  /** The first i bits of the vector. */
  function Prefix(v: Bits, i: nat): (r: Bits)
    requires i <= |v|
    ensures |r| == |v|
  {
    v[..i] + Zero(|v| - i)
  }

  lemma PrefixStep(v: Bits, i: nat)
    requires i < |v|
    ensures Prefix(v, i + 1) == Xor(Prefix(v, i), If(v[i], Unit(|v|, i)))
  {
  }
}
