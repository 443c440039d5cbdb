/**
 * What a CRC is: the remainder of a long division of polynomials over GF(2). The bit-by-bit register
 * computes that remainder; the table-driven code is measured against the register.
 */
module CrcDivision {
  import opened Gf2

  /** One message bit enters the register. */
  function BitStep(c: Bits, bit: bool, p: Bits): (r: Bits)
    requires |c| == |p| > 0
    ensures |r| == |p|
  {
    MulX(Xor(c, [bit] + Zero(|p| - 1)), p)
  }

  /** The register after the message bits `m`, from start value `c`. */
  function Crc(m: Bits, c: Bits, p: Bits): (r: Bits)
    requires |c| == |p| > 0
    ensures |r| == |p|
  {
    if |m| == 0 then c else Crc(m[1..], BitStep(c, m[0], p), p)
  }

  // ----- long division

  /** Adds `e` to the leading coefficients of `d`. */
  function AddFront(d: Bits, e: Bits): (r: Bits)
    requires |e| <= |d|
    ensures |r| == |d|
  {
    seq(|d|, i requires 0 <= i < |d| => if i < |e| then d[i] != e[i] else d[i])
  }

  /**
   * The remainder of the polynomial with coefficients `d`, highest power first, divided by the
   * polynomial of degree |p| with leading coefficient 1 and then coefficients `p`: while the
   * dividend is too long, its leading term is cancelled by subtracting a multiple of the divisor.
   */
  function Remainder(d: Bits, p: Bits): (r: Bits)
    requires |d| >= |p|
    ensures |r| == |p|
    decreases |d|
  {
    if |d| == |p| then d
    else if d[0] then Remainder(AddFront(d[1..], p), p)
    else Remainder(d[1..], p)
  }

  /** One step of the division moves one message bit into the register. */
  lemma DivisionStep(m: Bits, c: Bits, p: Bits)
    requires |m| > 0 && |c| == |p| > 0
    ensures var d := AddFront(m + Zero(|p|), c);
            (if d[0] then AddFront(d[1..], p) else d[1..]) == AddFront(m[1..] + Zero(|p|), BitStep(c, m[0], p))
  {
    var d := AddFront(m + Zero(|p|), c);
    var e := AddFront(m[1..] + Zero(|p|), BitStep(c, m[0], p));
    var l := if d[0] then AddFront(d[1..], p) else d[1..];
    forall i | 0 <= i < |l| ensures l[i] == e[i] { DivisionBit(m, c, p, d, l, e, i); }
  }

  lemma DivisionBit(m: Bits, c: Bits, p: Bits, d: Bits, l: Bits, e: Bits, i: nat)
    requires |m| > 0 && |c| == |p| > 0 && d == AddFront(m + Zero(|p|), c) && l == (if d[0] then AddFront(d[1..], p) else d[1..])
    requires e == AddFront(m[1..] + Zero(|p|), BitStep(c, m[0], p)) && i < |l|
    ensures l[i] == e[i]
  {
    assert (m + Zero(|p|))[1..] == m[1..] + Zero(|p|);
    if i < |p| { StepBit(c, m[0], p, i); }
  }

  lemma StepBit(c: Bits, bit: bool, p: Bits, i: nat)
    requires |c| == |p| > 0 && i < |p|
    ensures BitStep(c, bit, p)[i] == ((i + 1 < |p| && c[i + 1]) != ((c[0] != bit) && p[i]))
  {
  }

  /**
   * For every message and start value the register holds the remainder of the message polynomial,
   * multiplied by x^|p|, with the start value added to its leading coefficients.
   */
  lemma {:induction false} CrcIsRemainder(m: Bits, c: Bits, p: Bits)
    requires |c| == |p| > 0
    ensures Crc(m, c, p) == Remainder(AddFront(m + Zero(|p|), c), p)
    decreases |m|
  {
    if |m| == 0 {
      assert AddFront(m + Zero(|p|), c) == c;
    } else {
      DivisionStep(m, c, p);
      CrcIsRemainder(m[1..], BitStep(c, m[0], p), p);
    }
  }

  // ----- the register as powers of x

  lemma {:induction false} CrcConcat(a: Bits, b: Bits, c: Bits, p: Bits)
    requires |c| == |p| > 0
    ensures Crc(a + b, c, p) == Crc(b, Crc(a, c, p), p)
    decreases |a|
  {
    if |a| == 0 {
      assert a + b == b;
    } else {
      assert (a + b)[1..] == a[1..] + b;
      CrcConcat(a[1..], b, BitStep(c, a[0], p), p);
    }
  }

  /** The effect of the start value and that of the message add up. */
  lemma {:induction false} CrcLinear(m: Bits, c: Bits, p: Bits)
    requires |c| == |p| > 0
    ensures Crc(m, c, p) == Xor(Pow(|m|, c, p), Crc(m, Zero(|p|), p))
    decreases |m|
  {
    var z := Zero(|p|);
    if |m| == 0 {
      XorZero(c);
    } else {
      var n := |m| - 1;
      var c1, z1 := BitStep(c, m[0], p), BitStep(z, m[0], p);
      CrcLinear(m[1..], c1, p);
      CrcLinear(m[1..], z1, p);
      SplitStep(c, m[0], p);
      PowLinear(n, MulX(c, p), z1, p);
      PowFirst(n, c, p);
      XorAssoc(Pow(n, MulX(c, p), p), Pow(n, z1, p), Crc(m[1..], z, p));
    }
  }

  lemma SplitStep(c: Bits, bit: bool, p: Bits)
    requires |c| == |p| > 0
    ensures BitStep(c, bit, p) == Xor(MulX(c, p), BitStep(Zero(|p|), bit, p))
  {
    var u := [bit] + Zero(|p| - 1);
    MulXLinear(c, u, p);
    XorZero(u);
  }

  /** A message no longer than the register may be added to it at once. */
  lemma {:induction false} CrcShort(v: Bits, c: Bits, p: Bits)
    requires |v| <= |p| == |c| && |p| > 0
    ensures Crc(v, c, p) == Pow(|v|, Xor(c, v + Zero(|p| - |v|)), p)
    decreases |v|
  {
    var w := |p|;
    if |v| == 0 {
      assert v + Zero(w) == Zero(w);
      XorZero(c);
    } else {
      var x := Xor(c, v + Zero(w - |v|));
      var c1 := BitStep(c, v[0], p);
      CrcShort(v[1..], c1, p);
      PowFirst(|v| - 1, x, p);
      ShortStep(v, c, p);
    }
  }

  lemma ShortStep(v: Bits, c: Bits, p: Bits)
    requires 0 < |v| <= |p| == |c|
    ensures MulX(Xor(c, v + Zero(|p| - |v|)), p) == Xor(BitStep(c, v[0], p), v[1..] + Zero(|p| - |v| + 1))
  {
    var w := |p|;
    var l := MulX(Xor(c, v + Zero(w - |v|)), p);
    var r := Xor(BitStep(c, v[0], p), v[1..] + Zero(w - |v| + 1));
    forall i | 0 <= i < w ensures l[i] == r[i] { StepBit(c, v[0], p, i); }
  }
}
