/**
 * The product of registers is multiplication modulo the CRC polynomial: a commutative, associative,
 * distributive product with x^m times x^n equal to x^(m+n), where x^w is the polynomial itself. And
 * the loop of gf32_mul and gf64_mul computes it.
 */
module GfField {
  import opened Gf2
  import opened GfMul

  /** x to the power w is f applied to x to the power w - 1. */
  lemma TopPower(f: Bits -> Bits, w: nat)
    requires Shifts(f, w)
    ensures Iter(w, f, One(w)) == f(Unit(w, 0))
  {
    UnitIsPower(f, w, w - 1, 0);
  }

  lemma PowersCommute(m: nat, n: nat, f: Bits -> Bits, a: Bits)
    ensures Iter(m, f, Iter(n, f, a)) == Iter(n, f, Iter(m, f, a))
  {
    IterAdd(m, n, m + n, f, a);
    IterAdd(n, m, m + n, f, a);
  }

  /** n times f, as one linear operator. */
  function Power(n: nat, f: Bits -> Bits): Bits -> Bits {
    (v: Bits) => Iter(n, f, v)
  }

  lemma PowerLinear(n: nat, f: Bits -> Bits, w: nat)
    requires Linear(f, w)
    ensures Linear(Power(n, f), w)
  {
    forall x: Bits, y: Bits | |x| == w && |y| == w
      ensures |Iter(n, f, x)| == w && |Iter(n, f, y)| == w && Iter(n, f, Xor(x, y)) == Xor(Iter(n, f, x), Iter(n, f, y))
    {
      IterLinear(n, f, x, y, w);
    }
    forall x: Bits | |x| == w ensures |Iter(n, f, x)| == w { IterLength(n, f, x, w); }
  }

  /** The polynomial, as a register, is x to the power w: multiplying by it is w times multiplying by x. */
  lemma TimesPoly(a: Bits, f: Bits -> Bits, w: nat)
    requires |a| == w && Shifts(f, w)
    ensures |f(Unit(w, 0))| == w && Product(a, f(Unit(w, 0)), f, w) == Iter(w, f, a)
  {
    var poly := f(Unit(w, 0));
    var g, h := TimesRight(poly, f, w), Power(w, f);
    TimesLinear(poly, f, w);
    PowerLinear(w, f, w);
    forall k | 0 <= k < w ensures g(Unit(w, k)) == h(Unit(w, k)) {
      TimesPolyUnit(k, f, w);
    }
    Agree(g, h, w, a);
  }

  lemma TimesPolyUnit(k: nat, f: Bits -> Bits, w: nat)
    requires k < w && Shifts(f, w)
    ensures |f(Unit(w, 0))| == w && Product(Unit(w, k), f(Unit(w, 0)), f, w) == Iter(w, f, Unit(w, k))
  {
    var poly, j := f(Unit(w, 0)), w - 1 - k;
    UnitIsPower(f, w, j, k);
    ProductLeftPower(j, One(w), poly, f, w);
    OneTimes(poly, f, w);
    TopPower(f, w);
    PowersCommute(j, w, f, One(w));
  }

  lemma TimesXUnit(a: Bits, k: nat, f: Bits -> Bits, w: nat)
    requires |a| == w && k < w && Shifts(f, w)
    ensures |f(Unit(w, k))| == w && Product(a, f(Unit(w, k)), f, w) == f(Product(a, Unit(w, k), f, w))
  {
    ProductUnit(a, k, f, w);
    if k == 0 {
      TimesPoly(a, f, w);
    } else {
      assert f(Unit(w, k)) == Unit(w, k - 1);
      ProductUnit(a, k - 1, f, w);
    }
  }

  lemma ComposeLinear(g: Bits -> Bits, h: Bits -> Bits, w: nat)
    requires Linear(g, w) && Linear(h, w)
    ensures Linear((v: Bits) => g(h(v)), w)
  {
    forall x: Bits, y: Bits | |x| == w && |y| == w ensures g(h(Xor(x, y))) == Xor(g(h(x)), g(h(y))) {
      assert h(Xor(x, y)) == Xor(h(x), h(y));
      assert g(Xor(h(x), h(y))) == Xor(g(h(x)), g(h(y)));
    }
  }

  /** Multiplying the right factor by x multiplies the product by x: the reduction is right. */
  lemma ProductTimesX(a: Bits, b: Bits, f: Bits -> Bits, w: nat)
    requires |a| == |b| == w && Shifts(f, w)
    ensures |f(b)| == w && Product(a, f(b), f, w) == f(Product(a, b, f, w))
  {
    var t := TimesLeft(a, f, w);
    TimesLinear(a, f, w);
    ComposeLinear(t, f, w);
    ComposeLinear(f, t, w);
    var g, h := (v: Bits) => t(f(v)), (v: Bits) => f(t(v));
    forall k | 0 <= k < w ensures g(Unit(w, k)) == h(Unit(w, k)) { TimesXUnit(a, k, f, w); }
    Agree(g, h, w, b);
  }

  /** Multiplying the right factor by a power of x. */
  lemma {:induction false} ProductPower(k: nat, a: Bits, b: Bits, f: Bits -> Bits, w: nat)
    requires |a| == |b| == w && Shifts(f, w)
    ensures |Iter(k, f, b)| == w && Product(a, Iter(k, f, b), f, w) == Iter(k, f, Product(a, b, f, w))
  {
    IterLength(k, f, b, w);
    if k > 0 {
      ProductPower(k - 1, a, b, f, w);
      ProductTimesX(a, Iter(k - 1, f, b), f, w);
    }
  }

  lemma TimesOne(a: Bits, f: Bits -> Bits, w: nat)
    requires |a| == w && Shifts(f, w)
    ensures Product(a, One(w), f, w) == a
  {
    ProductUnit(a, w - 1, f, w);
  }

  /** Multiplying by x^k is k times multiplying by x. */
  lemma TimesPower(k: nat, a: Bits, f: Bits -> Bits, w: nat)
    requires |a| == w && Shifts(f, w)
    ensures |Iter(k, f, One(w))| == w && Product(a, Iter(k, f, One(w)), f, w) == Iter(k, f, a)
  {
    ProductPower(k, a, One(w), f, w);
    TimesOne(a, f, w);
  }

  /** x^m times x^n is x^(m+n). */
  lemma PowersMultiply(m: nat, n: nat, f: Bits -> Bits, w: nat)
    requires Shifts(f, w)
    ensures |Iter(m, f, One(w))| == w && |Iter(n, f, One(w))| == w
    ensures Product(Iter(m, f, One(w)), Iter(n, f, One(w)), f, w) == Iter(m + n, f, One(w))
  {
    IterLength(m, f, One(w), w);
    TimesPower(n, Iter(m, f, One(w)), f, w);
    IterAdd(n, m, m + n, f, One(w));
  }

  /** The product is commutative. */
  lemma ProductCommutes(a: Bits, b: Bits, f: Bits -> Bits, w: nat)
    requires |a| == |b| == w && Shifts(f, w)
    ensures Product(a, b, f, w) == Product(b, a, f, w)
  {
    var g, h := TimesLeft(a, f, w), TimesRight(a, f, w);
    TimesLinear(a, f, w);
    forall k | 0 <= k < w ensures g(Unit(w, k)) == h(Unit(w, k)) { CommutesUnit(a, k, f, w); }
    Agree(g, h, w, b);
  }

  lemma CommutesUnit(a: Bits, k: nat, f: Bits -> Bits, w: nat)
    requires |a| == w && k < w && Shifts(f, w)
    ensures Product(a, Unit(w, k), f, w) == Product(Unit(w, k), a, f, w)
  {
    ProductUnit(a, k, f, w);
    UnitIsPower(f, w, w - 1 - k, k);
    ProductLeftPower(w - 1 - k, One(w), a, f, w);
    OneTimes(a, f, w);
  }

  /** The product is associative. */
  lemma ProductAssociates(a: Bits, b: Bits, c: Bits, f: Bits -> Bits, w: nat)
    requires |a| == |b| == |c| == w && Shifts(f, w)
    ensures Product(Product(a, b, f, w), c, f, w) == Product(a, Product(b, c, f, w), f, w)
  {
    var t, u := TimesLeft(a, f, w), TimesLeft(b, f, w);
    var g, h := TimesLeft(Product(a, b, f, w), f, w), (v: Bits) => t(u(v));
    TimesLinear(a, f, w);
    TimesLinear(b, f, w);
    TimesLinear(Product(a, b, f, w), f, w);
    ComposeLinear(t, u, w);
    forall k | 0 <= k < w ensures g(Unit(w, k)) == h(Unit(w, k)) { AssociatesUnit(a, b, k, f, w); }
    Agree(g, h, w, c);
  }

  lemma AssociatesUnit(a: Bits, b: Bits, k: nat, f: Bits -> Bits, w: nat)
    requires |a| == |b| == w && k < w && Shifts(f, w)
    ensures Product(Product(a, b, f, w), Unit(w, k), f, w) == Product(a, Product(b, Unit(w, k), f, w), f, w)
  {
    ProductUnit(Product(a, b, f, w), k, f, w);
    ProductUnit(b, k, f, w);
    ProductPower(w - 1 - k, a, b, f, w);
  }

  // ----- the operator of a polynomial

  function TimesX(p: Bits): Bits -> Bits {
    (v: Bits) => if |v| == |p| > 0 then MulX(v, p) else v
  }

  lemma TimesXShifts(p: Bits)
    requires |p| > 0
    ensures Shifts(TimesX(p), |p|) && TimesX(p)(Unit(|p|, 0)) == p
  {
    var w, f := |p|, TimesX(p);
    forall x: Bits, y: Bits | |x| == w && |y| == w ensures f(Xor(x, y)) == Xor(f(x), f(y)) { MulXLinear(x, y, p); }
    forall i | 1 <= i < w ensures f(Unit(w, i)) == Unit(w, i - 1) { assert MulX(Unit(w, i), p) == Unit(w, i - 1); }
    assert MulX(Unit(w, 0), p) == p;
  }

  lemma {:induction false} IterIsPow(n: nat, a: Bits, p: Bits)
    requires |a| == |p| > 0
    ensures Iter(n, TimesX(p), a) == Pow(n, a, p)
  {
    if n > 0 { IterIsPow(n - 1, a, p); }
  }

  /** The product modulo the polynomial p. */
  ghost function Times(a: Bits, b: Bits, p: Bits): (r: Bits)
    requires |a| == |b| == |p| > 0
    ensures |r| == |p|
  {
    TimesXShifts(p);
    Product(a, b, TimesX(p), |p|)
  }

  /** Multiplying by x^k, for registers. */
  lemma TimesPow(k: nat, a: Bits, p: Bits)
    requires |a| == |p| > 0
    ensures Times(a, Pow(k, One(|p|), p), p) == Pow(k, a, p)
  {
    TimesXShifts(p);
    TimesPower(k, a, TimesX(p), |p|);
    IterIsPow(k, a, p);
    IterIsPow(k, One(|p|), p);
  }

  /** The variable x of the loop after i rounds. */
  ghost function Rounds(a: Bits, b: Bits, i: nat, p: Bits): (r: Bits)
    requires |a| == |b| == |p| > 0 && i <= |p|
    ensures |r| == |p|
  {
    TimesXShifts(p);
    Horner(a, b, i, TimesX(p), |p|)
  }

  lemma RoundsStep(a: Bits, b: Bits, i: nat, p: Bits, x: Bits)
    requires |a| == |b| == |p| > 0 && i < |p| && x == Rounds(a, b, i, p)
    ensures Rounds(a, b, i + 1, p) == Xor(MulX(x, p), If(b[i], a))
  {
    TimesXShifts(p);
  }

  lemma RoundsEnd(a: Bits, b: Bits, p: Bits)
    requires |a| == |b| == |p| > 0
    ensures Rounds(a, b, |p|, p) == Times(a, b, p)
  {
    TimesXShifts(p);
    HornerIsSum(a, b, |p|, 0, TimesX(p), |p|);
  }

  lemma ShiftRest(b: Bits, i: nat, rest: Bits)
    requires i < |b| && rest == b[i..] + Zero(i)
    ensures rest[0] == b[i] && rest[1..] + [false] == b[i + 1..] + Zero(i + 1)
  {
  }

  /** gf32_mul, gf64_mul. */
  method Mul(a: Bits, b: Bits, p: Bits) returns (x: Bits)
    requires |a| == |b| == |p| > 0
    ensures x == Times(a, b, p)
  {
    var rest := b;
    x := Zero(|p|);
    assert rest == b[0..] + Zero(0);
    for i := 0 to |p|
      invariant |x| == |p| && x == Rounds(a, b, i, p) && rest == b[i..] + Zero(i)
    {
      RoundsStep(a, b, i, p, x);
      ShiftRest(b, i, rest);
      x := MulX(x, p);
      XorZero(x);
      if rest[0] { x := Xor(x, a); }
      rest := rest[1..] + [false];
    }
    RoundsEnd(a, b, p);
  }
}
