/**
 * Multiplication of registers (gf32_mul, gf64_mul of src/common/crc32.c) and what it means: the
 * product of polynomials over GF(2) modulo the CRC polynomial. The laws are stated for any linear
 * operator f in the place of "times x".
 */
module GfMul {
  import opened Gf2

  /** n times f. */
  function Iter(n: nat, f: Bits -> Bits, a: Bits): Bits {
    if n == 0 then a else f(Iter(n - 1, f, a))
  }

  /** f maps registers of w bits to such registers and respects sums. */
  ghost predicate Linear(f: Bits -> Bits, w: nat) {
    && (forall a: Bits {:trigger f(a)} :: |a| == w ==> |f(a)| == w)
    && (forall a: Bits, b: Bits {:trigger f(Xor(a, b))} :: |a| == w && |b| == w ==> f(Xor(a, b)) == Xor(f(a), f(b)))
  }

  lemma {:induction false} IterLength(n: nat, f: Bits -> Bits, a: Bits, w: nat)
    requires Linear(f, w) && |a| == w
    ensures |Iter(n, f, a)| == w
  {
    if n > 0 { IterLength(n - 1, f, a, w); }
  }

  lemma {:induction false} IterAdd(m: nat, n: nat, k: nat, f: Bits -> Bits, a: Bits)
    requires k == m + n
    ensures Iter(k, f, a) == Iter(m, f, Iter(n, f, a))
  {
    if m > 0 { IterAdd(m - 1, n, k - 1, f, a); }
  }

  lemma IterFirst(n: nat, f: Bits -> Bits, a: Bits)
    ensures Iter(n + 1, f, a) == Iter(n, f, f(a))
  {
    IterAdd(n, 1, n + 1, f, a);
    assert Iter(1, f, a) == f(Iter(0, f, a));
  }

  lemma {:induction false} IterLinear(n: nat, f: Bits -> Bits, a: Bits, b: Bits, w: nat)
    requires Linear(f, w) && |a| == |b| == w
    ensures |Iter(n, f, a)| == |Iter(n, f, b)| == w
    ensures Iter(n, f, Xor(a, b)) == Xor(Iter(n, f, a), Iter(n, f, b))
  {
    IterLength(n, f, a, w);
    IterLength(n, f, b, w);
    if n > 0 { IterLinear(n - 1, f, a, b, w); }
  }

  lemma FixesZero(f: Bits -> Bits, w: nat)
    requires Linear(f, w)
    ensures f(Zero(w)) == Zero(w)
  {
    var z := Zero(w);
    XorZero(z);
    assert f(Xor(z, z)) == Xor(f(z), f(z));
    XorZero(f(z));
  }

  lemma {:induction false} IterZero(n: nat, f: Bits -> Bits, w: nat)
    requires Linear(f, w)
    ensures Iter(n, f, Zero(w)) == Zero(w)
  {
    if n > 0 {
      IterZero(n - 1, f, w);
      FixesZero(f, w);
    }
  }

  // ----- the product

  /** The sum, over the first i bits of b, of the powers of x they stand for times a. */
  ghost function Sum(a: Bits, b: Bits, i: nat, f: Bits -> Bits, w: nat): (r: Bits)
    requires |a| == |b| == w && i <= w && Linear(f, w)
    ensures |r| == w
  {
    if i == 0 then Zero(w) else IterLength(w - i, f, a, w); Xor(Sum(a, b, i - 1, f, w), If(b[i - 1], Iter(w - i, f, a)))
  }

  /** The product: every bit i of b is the coefficient of x to the power w - 1 - i. */
  ghost function Product(a: Bits, b: Bits, f: Bits -> Bits, w: nat): (r: Bits)
    requires |a| == |b| == w && Linear(f, w)
    ensures |r| == w
  {
    Sum(a, b, w, f, w)
  }

  /** The variable x of the loop after i rounds. */
  ghost function Horner(a: Bits, b: Bits, i: nat, f: Bits -> Bits, w: nat): (r: Bits)
    requires |a| == |b| == w && i <= w && Linear(f, w)
    ensures |r| == w
  {
    if i == 0 then Zero(w) else Xor(f(Horner(a, b, i - 1, f, w)), If(b[i - 1], a))
  }

  lemma IterIf(k: nat, bit: bool, u: Bits, f: Bits -> Bits, w: nat)
    requires |u| == w && Linear(f, w)
    ensures |Iter(k, f, u)| == w && Iter(k, f, If(bit, u)) == If(bit, Iter(k, f, u))
  {
    IterLength(k, f, u, w);
    IterZero(k, f, w);
  }

  lemma {:induction false} HornerIsSum(a: Bits, b: Bits, i: nat, k: nat, f: Bits -> Bits, w: nat)
    requires |a| == |b| == w && i + k == w && Linear(f, w)
    ensures Iter(k, f, Horner(a, b, i, f, w)) == Sum(a, b, i, f, w)
    decreases i
  {
    if i == 0 {
      IterZero(w, f, w);
    } else {
      var h := Horner(a, b, i - 1, f, w);
      HornerIsSum(a, b, i - 1, k + 1, f, w);
      IterFirst(k, f, h);
      IterLinear(k, f, f(h), If(b[i - 1], a), w);
      IterIf(k, b[i - 1], a, f, w);
    }
  }

  // ----- linear in both factors

  lemma IfXor(bit: bool, a: Bits, b: Bits)
    requires |a| == |b|
    ensures If(bit, Xor(a, b)) == Xor(If(bit, a), If(bit, b))
  {
    XorZero(Zero(|a|));
  }

  lemma {:induction false} SumLinearLeft(a: Bits, c: Bits, b: Bits, i: nat, f: Bits -> Bits, w: nat)
    requires |a| == |c| == |b| == w && i <= w && Linear(f, w)
    ensures Sum(Xor(a, c), b, i, f, w) == Xor(Sum(a, b, i, f, w), Sum(c, b, i, f, w))
  {
    if i == 0 {
      XorZero(Zero(w));
    } else {
      SumLinearLeft(a, c, b, i - 1, f, w);
      var k, bit := w - i, b[i - 1];
      IterLinear(k, f, a, c, w);
      var u, v := Iter(k, f, a), Iter(k, f, c);
      IfXor(bit, u, v);
      XorSwap(Sum(a, b, i - 1, f, w), Sum(c, b, i - 1, f, w), If(bit, u), If(bit, v));
    }
  }

  lemma IfBits(s: bool, t: bool, a: Bits)
    ensures If(s != t, a) == Xor(If(s, a), If(t, a))
  {
    XorZero(a);
    XorZero(Zero(|a|));
  }

  lemma {:induction false} SumLinearRight(a: Bits, b: Bits, c: Bits, i: nat, f: Bits -> Bits, w: nat)
    requires |a| == |c| == |b| == w && i <= w && Linear(f, w)
    ensures Sum(a, Xor(b, c), i, f, w) == Xor(Sum(a, b, i, f, w), Sum(a, c, i, f, w))
  {
    if i == 0 {
      XorZero(Zero(w));
    } else {
      SumLinearRight(a, b, c, i - 1, f, w);
      IterLength(w - i, f, a, w);
      var u := Iter(w - i, f, a);
      assert Xor(b, c)[i - 1] == (b[i - 1] != c[i - 1]);
      IfBits(b[i - 1], c[i - 1], u);
      XorSwap(Sum(a, b, i - 1, f, w), Sum(a, c, i - 1, f, w), If(b[i - 1], u), If(c[i - 1], u));
    }
  }

  /** Multiplying the left factor by x multiplies the sum by x. */
  lemma {:induction false} SumTimesX(a: Bits, b: Bits, i: nat, f: Bits -> Bits, w: nat)
    requires |a| == |b| == w && i <= w && Linear(f, w)
    ensures Sum(f(a), b, i, f, w) == f(Sum(a, b, i, f, w))
  {
    FixesZero(f, w);
    if i > 0 {
      SumTimesX(a, b, i - 1, f, w);
      var k, bit := w - i, b[i - 1];
      IterLength(k, f, a, w);
      IterFirst(k, f, a);
      var u := Iter(k, f, a);
      assert f(Xor(Sum(a, b, i - 1, f, w), If(bit, u))) == Xor(f(Sum(a, b, i - 1, f, w)), f(If(bit, u)));
    }
  }

  // ----- linear operators are determined by the single bits

  lemma {:induction false} AgreeOnPrefix(g: Bits -> Bits, h: Bits -> Bits, w: nat, v: Bits, i: nat)
    requires Linear(g, w) && Linear(h, w) && |v| == w && i <= w
    requires forall k :: 0 <= k < w ==> g(Unit(w, k)) == h(Unit(w, k))
    ensures g(Prefix(v, i)) == h(Prefix(v, i))
  {
    FixesZero(g, w);
    FixesZero(h, w);
    if i == 0 {
      assert Prefix(v, 0) == Zero(w);
    } else {
      AgreeOnPrefix(g, h, w, v, i - 1);
      PrefixStep(v, i - 1);
      var x, y := Prefix(v, i - 1), If(v[i - 1], Unit(w, i - 1));
      assert g(Xor(x, y)) == Xor(g(x), g(y)) && h(Xor(x, y)) == Xor(h(x), h(y));
    }
  }

  lemma Agree(g: Bits -> Bits, h: Bits -> Bits, w: nat, v: Bits)
    requires Linear(g, w) && Linear(h, w) && |v| == w
    requires forall k :: 0 <= k < w ==> g(Unit(w, k)) == h(Unit(w, k))
    ensures g(v) == h(v)
  {
    AgreeOnPrefix(g, h, w, v, w);
    assert Prefix(v, w) == v;
  }

  // ----- the operator "times x"

  /** The register that stands for the polynomial 1. */
  function One(w: nat): (r: Bits)
    requires w > 0
    ensures |r| == w
  {
    Unit(w, w - 1)
  }

  /** f moves every bit but the lowest one place down, as multiplication by x does. */
  ghost predicate Shifts(f: Bits -> Bits, w: nat) {
    Linear(f, w) && w > 0 && forall i {:trigger Unit(w, i)} :: 1 <= i < w ==> f(Unit(w, i)) == Unit(w, i - 1)
  }

  /** Bit i stands for x to the power w - 1 - i. */
  lemma {:induction false} UnitIsPower(f: Bits -> Bits, w: nat, j: nat, i: nat)
    requires Shifts(f, w) && i + j == w - 1
    ensures Iter(j, f, One(w)) == Unit(w, i)
    decreases j
  {
    if j > 0 { UnitIsPower(f, w, j - 1, i + 1); }
  }

  /** A single bit as right factor. */
  lemma {:induction false} SumUnit(a: Bits, i: nat, n: nat, f: Bits -> Bits, w: nat)
    requires |a| == w && i < w && n <= w && Linear(f, w)
    ensures Sum(a, Unit(w, i), n, f, w) == if n > i then Iter(w - 1 - i, f, a) else Zero(w)
  {
    if n > 0 {
      SumUnit(a, i, n - 1, f, w);
      IterLength(w - n, f, a, w);
      IterLength(w - 1 - i, f, a, w);
      XorZero(Sum(a, Unit(w, i), n - 1, f, w));
      XorZero(Iter(w - n, f, a));
    }
  }

  lemma ProductUnit(a: Bits, i: nat, f: Bits -> Bits, w: nat)
    requires |a| == w && i < w && Linear(f, w)
    ensures Product(a, Unit(w, i), f, w) == Iter(w - 1 - i, f, a)
  {
    SumUnit(a, i, w, f, w);
  }

  /** Multiplying the left factor by a power of x. */
  lemma {:induction false} ProductLeftPower(k: nat, a: Bits, b: Bits, f: Bits -> Bits, w: nat)
    requires |a| == |b| == w && Linear(f, w)
    ensures |Iter(k, f, a)| == w && Product(Iter(k, f, a), b, f, w) == Iter(k, f, Product(a, b, f, w))
  {
    IterLength(k, f, a, w);
    if k > 0 {
      ProductLeftPower(k - 1, a, b, f, w);
      SumTimesX(Iter(k - 1, f, a), b, w, f, w);
    }
  }

  /** The two ways to hold one factor fixed. */
  ghost function TimesRight(b: Bits, f: Bits -> Bits, w: nat): Bits -> Bits
    requires |b| == w && Linear(f, w)
  {
    (v: Bits) => if |v| == w then Product(v, b, f, w) else v
  }

  ghost function TimesLeft(a: Bits, f: Bits -> Bits, w: nat): Bits -> Bits
    requires |a| == w && Linear(f, w)
  {
    (v: Bits) => if |v| == w then Product(a, v, f, w) else v
  }

  lemma TimesLinear(a: Bits, f: Bits -> Bits, w: nat)
    requires |a| == w && Linear(f, w)
    ensures Linear(TimesRight(a, f, w), w) && Linear(TimesLeft(a, f, w), w)
  {
    forall x: Bits, y: Bits | |x| == w && |y| == w
      ensures Product(Xor(x, y), a, f, w) == Xor(Product(x, a, f, w), Product(y, a, f, w))
      ensures Product(a, Xor(x, y), f, w) == Xor(Product(a, x, f, w), Product(a, y, f, w))
    {
      SumLinearLeft(x, y, a, w, f, w);
      SumLinearRight(a, x, y, w, f, w);
    }
  }

  lemma IdentityLinear(w: nat)
    ensures Linear((v: Bits) => v, w)
  {
  }

  /** 1 times b is b. */
  lemma OneTimes(b: Bits, f: Bits -> Bits, w: nat)
    requires |b| == w && Shifts(f, w)
    ensures Product(One(w), b, f, w) == b
  {
    var g, id := TimesLeft(One(w), f, w), (v: Bits) => v;
    TimesLinear(One(w), f, w);
    IdentityLinear(w);
    forall k | 0 <= k < w ensures g(Unit(w, k)) == id(Unit(w, k)) { OneTimesUnit(f, w, k); }
    Agree(g, id, w, b);
  }

  lemma OneTimesUnit(f: Bits -> Bits, w: nat, k: nat)
    requires k < w && Shifts(f, w)
    ensures Product(One(w), Unit(w, k), f, w) == Unit(w, k)
  {
    ProductUnit(One(w), k, f, w);
    UnitIsPower(f, w, w - 1 - k, k);
  }
}
