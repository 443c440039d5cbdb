/**
 * crc32_combine without the data: GF(2) matrices of the operator "append zero bits", squared again
 * and again (gf32_matrix_times, gf32_matrix_square, gf32_compute_powers_generic,
 * gf32_combine_generic, compute_crc32_combine_generic, crc32c_combine_generic).
 */
module CrcCombine {
  import opened Gf2
  import opened CrcDivision
  import opened CrcPartial

  function Pow2(n: nat): (r: nat)
    ensures r > 0
  {
    if n == 0 then 1 else 2 * Pow2(n - 1)
  }

  // ----- matrices

  /** Column i of the matrix is the image of bit i under multiplication by x^k. */
  predicate Represents(m: seq<Bits>, k: nat, p: Bits) {
    |m| == |p| > 0 && forall i :: 0 <= i < |p| ==> m[i] == Pow(k, Unit(|p|, i), p)
  }

  /** The sum of the first i columns that the vector selects. */
  function TimesUpTo(m: seq<Bits>, v: Bits, i: nat, w: nat): (r: Bits)
    requires i <= |m| == |v| == w && forall j :: 0 <= j < w ==> |m[j]| == w
    ensures |r| == w
  {
    if i == 0 then Zero(w) else Xor(TimesUpTo(m, v, i - 1, w), If(v[i - 1], m[i - 1]))
  }

  lemma PowIf(k: nat, bit: bool, u: Bits, p: Bits)
    requires |u| == |p| > 0
    ensures Pow(k, If(bit, u), p) == If(bit, Pow(k, u, p))
  {
    PowZero(k, p);
  }

  lemma PrefixPow(k: nat, v: Bits, i: nat, next: nat, p: Bits, before: Bits, column: Bits)
    requires |v| == |p| && i < |v| && next == i + 1
    requires before == Pow(k, Prefix(v, i), p) && column == Pow(k, Unit(|p|, i), p)
    ensures Pow(k, Prefix(v, next), p) == Xor(before, If(v[i], column))
  {
    var u := Unit(|p|, i);
    PrefixStep(v, i);
    PowLinear(k, Prefix(v, i), If(v[i], u), p);
    PowIf(k, v[i], u, p);
  }

  lemma NoPrefix(k: nat, v: Bits, p: Bits)
    requires |v| == |p| > 0
    ensures Pow(k, Prefix(v, 0), p) == Zero(|p|)
  {
    assert Prefix(v, 0) == Zero(|p|);
    PowZero(k, p);
  }

  lemma {:induction false} TimesPrefix(m: seq<Bits>, k: nat, v: Bits, i: nat, p: Bits)
    requires Represents(m, k, p) && |v| == |p| && i <= |v|
    ensures TimesUpTo(m, v, i, |p|) == Pow(k, Prefix(v, i), p)
  {
    if i == 0 {
      NoPrefix(k, v, p);
    } else {
      TimesPrefix(m, k, v, i - 1, p);
      PrefixPow(k, v, i - 1, i, p, TimesUpTo(m, v, i - 1, |p|), m[i - 1]);
    }
  }

  /** Multiplying by the matrix is multiplying by the power of x. */
  lemma TimesIsPow(m: seq<Bits>, k: nat, v: Bits, p: Bits)
    requires Represents(m, k, p) && |v| == |p|
    ensures TimesUpTo(m, v, |p|, |p|) == Pow(k, v, p)
  {
    TimesPrefix(m, k, v, |p|, p);
    assert Prefix(v, |v|) == v;
  }

  /** Columns that are not selected add nothing. */
  lemma {:induction false} TimesRest(m: seq<Bits>, v: Bits, i: nat, n: nat, w: nat)
    requires i <= n <= |m| == |v| == w && forall j :: 0 <= j < w ==> |m[j]| == w
    requires forall j :: i <= j < n ==> !v[j]
    ensures TimesUpTo(m, v, n, w) == TimesUpTo(m, v, i, w)
    decreases n
  {
    if n > i {
      TimesRest(m, v, i, n - 1, w);
      XorZero(TimesUpTo(m, v, n - 1, w));
    }
  }

  /** gf32_matrix_times: walks over the bits of the vector until none is left. */
  method MatrixTimes(t: array<Bits>, base: nat, v: Bits, ghost k: nat, ghost p: Bits) returns (sum: Bits)
    requires |p| == |v| == 32 && base + 32 <= t.Length && Represents(t[base..base + 32], k, p)
    ensures sum == Pow(k, v, p)
  {
    ghost var m := t[base..base + 32];
    var vector, i := v, 0;
    sum := Zero(32);
    while vector != Zero(32)
      invariant i <= 32 && (i == 32 ==> vector == Zero(32)) && vector == v[i..] + Zero(i) && sum == TimesUpTo(m, v, i, 32)
      decreases 32 - i
    {
      assert vector[0] == v[i] && t[base + i] == m[i];
      if vector[0] { sum := Xor(sum, t[base + i]); } else { XorZero(sum); }
      assert v[i..][1..] == v[i + 1..];
      assert vector[1..] + [false] == v[i + 1..] + Zero(i + 1);
      vector := vector[1..] + [false];
      i := i + 1;
    }
    assert forall j :: i <= j < 32 ==> v[j] == vector[j - i];
    TimesRest(m, v, i, 32, 32);
    TimesIsPow(m, k, v, p);
  }

  /** gf32_matrix_square: the next matrix of the table. */
  method MatrixSquare(t: array<Bits>, dst: nat, src: nat, ghost k: nat, ghost p: Bits)
    requires |p| == 32 && dst + 32 <= t.Length && src + 32 <= dst && Represents(t[src..src + 32], k, p)
    modifies t
    ensures Represents(t[dst..dst + 32], 2 * k, p) && t[..dst] == old(t[..dst])
  {
    ghost var m := t[src..src + 32];
    for n := 0 to 32
      invariant t[..dst] == old(t[..dst]) && t[src..src + 32] == m
      invariant forall i :: 0 <= i < n ==> t[dst + i] == Pow(2 * k, Unit(32, i), p)
    {
      assert t[src + n] == m[n] == Pow(k, Unit(32, n), p);
      PowAdd(k, k, 2 * k, Unit(32, n), p);
      t[dst + n] := MatrixTimes(t, src, t[src + n], k, p);
    }
  }

  /** The matrix of one zero bit. */
  lemma FirstMatrix(m: seq<Bits>, p: Bits)
    requires |m| == |p| > 0 && m[0] == p && forall n :: 0 <= n < |p| - 1 ==> m[n + 1] == Unit(|p|, n)
    ensures Represents(m, 1, p)
  {
    forall i | 0 <= i < |p| ensures m[i] == Pow(1, Unit(|p|, i), p) {
      assert Pow(1, Unit(|p|, i), p) == MulX(Pow(0, Unit(|p|, i), p), p);
      if i > 0 { assert m[i - 1 + 1] == Unit(|p|, i - 1); }
    }
  }

  /** Matrix n of the table stands for 2^n zero bits. */
  predicate Table67(t: seq<Bits>, count: nat, p: Bits) {
    32 * count <= |t| && forall n :: 0 <= n < count ==> Represents(t[32 * n..32 * n + 32], Pow2(n), p)
  }

  /** The first loop of gf32_compute_powers_generic. */
  method FirstPowers(t: array<Bits>, p: Bits)
    requires |p| == 32 <= t.Length
    modifies t
    ensures Table67(t[..], 1, p)
  {
    t[0] := p;
    for n := 0 to 31
      invariant t[0] == p && forall i :: 0 <= i < n ==> t[i + 1] == Unit(32, i)
    {
      t[n + 1] := Unit(32, n);
    }
    FirstMatrix(t[0..32], p);
    assert t[..][32 * 0..32 * 0 + 32] == t[0..32];
  }

  /** gf32_compute_powers_generic. */
  method ComputePowers(t: array<Bits>, size: nat, p: Bits)
    requires |p| == 32 && p[31] && 32 <= size == t.Length && size % 32 == 0
    modifies t
    ensures Table67(t[..], size / 32, p) && NonZero(t[size - 1])
  {
    FirstPowers(t, p);
    for n := 1 to size / 32
      invariant Table67(t[..], n, p)
    {
      NextPower(t, n, p);
    }
    LastColumn(t[..], size / 32, p);
  }

  method NextPower(t: array<Bits>, n: nat, p: Bits)
    requires |p| == 32 && 0 < n && 32 * n + 32 <= t.Length && Table67(t[..], n, p)
    modifies t
    ensures Table67(t[..], n + 1, p)
  {
    ghost var before := t[..];
    var src, dst := 32 * (n - 1), 32 * n;
    assert Represents(before[src..src + 32], Pow2(n - 1), p);
    assert t[src..src + 32] == before[src..src + 32];
    MatrixSquare(t, dst, src, Pow2(n - 1), p);
    assert t[..][..dst] == t[..dst] && before[..dst] == t[..dst];
    assert t[..][dst..dst + 32] == t[dst..dst + 32];
    Kept(before, t[..], n, p);
  }

  lemma Kept(before: seq<Bits>, after: seq<Bits>, n: nat, p: Bits)
    requires Table67(before, n, p) && 32 * n + 32 <= |after| == |before| && after[..32 * n] == before[..32 * n]
    requires Represents(after[32 * n..32 * n + 32], Pow2(n), p)
    ensures Table67(after, n + 1, p)
  {
    forall j | 0 <= j < n + 1 ensures Represents(after[32 * j..32 * j + 32], Pow2(j), p) {
      if j < n { KeptAt(before, after, n, j, p); }
    }
  }

  lemma KeptAt(before: seq<Bits>, after: seq<Bits>, n: nat, j: nat, p: Bits)
    requires Table67(before, n, p) && j < n && 32 * n <= |after| == |before| && after[..32 * n] == before[..32 * n]
    ensures Represents(after[32 * j..32 * j + 32], Pow2(j), p)
  {
    SameSlice(before, after, 32 * n, 32 * j, 32 * j + 32);
  }

  lemma SameSlice(before: seq<Bits>, after: seq<Bits>, top: nat, lo: nat, hi: nat)
    requires lo <= hi <= top <= |after| == |before| && after[..top] == before[..top]
    ensures after[lo..hi] == before[lo..hi]
  {
    assert after[lo..hi] == after[..top][lo..hi];
    assert before[lo..hi] == before[..top][lo..hi];
  }

  /** The assertion at the end of the code: the last entry is not zero. */
  lemma LastColumn(t: seq<Bits>, count: nat, p: Bits)
    requires |p| == 32 && p[31] && count > 0 && Table67(t, count, p) && |t| == 32 * count
    ensures NonZero(t[|t| - 1])
  {
    var n := count - 1;
    var m := t[32 * n..32 * n + 32];
    assert Represents(m, Pow2(n), p);
    assert t[|t| - 1] == m[31];
    assert Unit(32, 31)[31];
    PowNonZero(Pow2(n), Unit(32, 31), p);
  }

  // ----- combining

  /** One bit of the length: 2^(t+3) zero bits for every unit of it. */
  lemma LengthStep(t: nat, len: nat, crc: Bits, p: Bits)
    requires |crc| == |p| > 0
    ensures var a := Pow2(t + 3);
            Pow(a * len, crc, p) == Pow(Pow2(t + 4) * (len / 2), if len % 2 == 1 then Pow(a, crc, p) else crc, p)
  {
    var a, h := Pow2(t + 3), len / 2;
    assert Pow2(t + 4) == 2 * a;
    var n := 2 * a * h;
    if len % 2 == 1 {
      assert len == 2 * h + 1;
      assert a * len == n + a;
      PowAdd(n, a, a * len, crc, p);
    } else {
      assert len == 2 * h;
      assert a * len == n;
    }
  }

  /** Positive values of an int64_t. */
  predicate Int64(n: int) {
    n < 0x8000_0000_0000_0000
  }

  /** The value has at most 63 binary digits. */
  lemma Digits(n: nat) returns (digits: nat)
    requires Int64(n)
    ensures digits <= 63 && n < Pow2(digits)
  {
    Pow2Values();
    digits := 63;
  }

  lemma Pow2Values()
    ensures Pow2(63) == 0x8000_0000_0000_0000 && Pow2(3) == 8
  {
    assert Pow2(2) == 4;
    assert Pow2(4) == 16;
    Pow2Add(4, 4, 8, 16, 16);
    Pow2Add(8, 8, 16, 0x100, 0x100);
    Pow2Add(16, 16, 32, 0x1_0000, 0x1_0000);
    Pow2Add(32, 16, 48, 0x1_0000_0000, 0x1_0000);
    Pow2Add(48, 8, 56, 0x1_0000_0000_0000, 0x100);
    Pow2Add(56, 4, 60, 0x100_0000_0000_0000, 16);
    Pow2Add(60, 3, 63, 0x1000_0000_0000_0000, 8);
  }

  lemma {:induction false} Pow2Add(m: nat, n: nat, k: nat, a: nat, b: nat)
    requires k == m + n && a == Pow2(m) && b == Pow2(n)
    ensures Pow2(k) == a * b
  {
    if n > 0 {
      Pow2Add(m, n - 1, k - 1, a, b / 2);
      assert a * b == 2 * (a * (b / 2));
    }
  }

  lemma HalfBelow(len: nat, n: nat)
    requires n > 0 && len < Pow2(n)
    ensures len / 2 < Pow2(n - 1)
  {
  }

  /** The value of the product that is left to apply. */
  predicate Left(n: nat, len: nat, crc: Bits, p: Bits, goal: Bits) {
    |crc| == |p| > 0 && Pow(Pow2(n + 3) * len, crc, p) == goal
  }

  lemma LeftStart(len: nat, crc: Bits, p: Bits)
    requires |crc| == |p| > 0
    ensures Left(0, len, crc, p, Pow(8 * len, crc, p))
  {
    Pow2Values();
  }

  lemma LeftStep(n: nat, len: nat, crc: Bits, p: Bits, goal: Bits, crc': Bits)
    requires Left(n, len, crc, p, goal) && crc' == (if len % 2 == 1 then Pow(Pow2(n + 3), crc, p) else crc)
    ensures Left(n + 1, len / 2, crc', p, goal)
  {
    LengthStep(n, len, crc, p);
  }

  lemma LeftEnds(n: nat, crc: Bits, p: Bits, goal: Bits)
    requires Left(n, 0, crc, p, goal)
    ensures crc == goal
  {
    assert Pow2(n + 3) * 0 == 0;
  }

  lemma MatrixAt(t: seq<Bits>, n: nat, at: nat, p: Bits)
    requires Table67(t, 67, p) && n < 67 && at == 32 * n
    ensures at + 32 <= |t| && Represents(t[at..at + 32], Pow2(n), p)
  {
  }

  /** One bit of the length: the matrix at `at` is applied if the bit is set. */
  method CombineBit(t: array<Bits>, at: nat, len: nat, crc: Bits, p: Bits, ghost n: nat, ghost goal: Bits) returns (r: Bits)
    requires |p| == |crc| == 32 && Table67(t[..], 67, p) && n + 3 < 67 && at == 32 * (n + 3) && Left(n, len, crc, p, goal)
    ensures |r| == 32 && Left(n + 1, len / 2, r, p, goal)
  {
    r := crc;
    if len % 2 == 1 {
      MatrixAt(t[..], n + 3, at, p);
      assert t[..][at..at + 32] == t[at..at + 32];
      r := MatrixTimes(t, at, crc, Pow2(n + 3), p);
    }
    LeftStep(n, len, crc, p, goal, r);
  }

  /** gf32_combine_generic: the zero-bit operator to the power 8 * len2, by the bits of len2. */
  method CombinePowers(t: array<Bits>, crc1: Bits, len2: nat, p: Bits) returns (crc: Bits)
    requires |p| == |crc1| == 32 && t.Length == 32 * 67 && Table67(t[..], 67, p) && Int64(len2)
    ensures crc == Pow(8 * len2, crc1, p)
  {
    ghost var digits := Digits(len2);
    LeftStart(len2, crc1, p);
    crc := CombineLoop(t, crc1, len2, p, digits, Pow(8 * len2, crc1, p));
  }

  method CombineLoop(t: array<Bits>, crc1: Bits, len2: nat, p: Bits, ghost most: nat, ghost goal: Bits) returns (crc: Bits)
    requires |p| == 32 && Table67(t[..], 67, p) && Going(0, most, len2, crc1, p, goal)
    ensures crc == goal
  {
    ghost var digits := most;
    var n: nat, len: nat := 0, len2;
    crc := crc1;
    while true
      invariant Going(n, digits, len, crc, p, goal)
      decreases digits
    {
      crc := CombineBit(t, 32 * (n + 3), len, crc, p, n, goal);
      if len / 2 == 0 { break; }
      GoingOn(n, digits, len, crc, p, goal);
      n, len, digits := n + 1, len / 2, digits - 1;
    }
    LeftEnds(n + 1, crc, p, goal);
  }

  /** At the start of a turn of the loop. */
  predicate Going(n: nat, digits: nat, len: nat, crc: Bits, p: Bits, goal: Bits) {
    n + digits <= 63 && len < Pow2(digits) && |crc| == 32 && Left(n, len, crc, p, goal)
  }

  lemma GoingOn(n: nat, digits: nat, len: nat, crc: Bits, p: Bits, goal: Bits)
    requires n + digits <= 63 && len < Pow2(digits) && len / 2 != 0 && |crc| == 32 && Left(n + 1, len / 2, crc, p, goal)
    ensures digits > 0 && Going(n + 1, digits - 1, len / 2, crc, p, goal)
  {
    assert Pow2(0) == 1;
    HalfBelow(len, digits);
  }

  /** Appending the data of length |b| to data with CRC `crc1`. */
  lemma CombineIsConcat(a: seq<Byte>, b: seq<Byte>, c: Bits, p: Bits)
    requires |c| == |p| > 0
    ensures CrcBytes(a + b, c, p) == Xor(Pow(8 * |b|, CrcBytes(a, c, p), p), CrcBytes(b, Zero(|p|), p))
  {
    FlattenConcat(a, b);
    CrcConcat(Flatten(a), Flatten(b), c, p);
    CrcLinear(Flatten(b), Crc(Flatten(a), c, p), p);
  }

  /** The static table of compute_crc32_combine_generic and crc32c_combine_generic: empty, or complete. */
  class Powers {
    const poly: Bits
    const table: array<Bits>

    predicate Valid()
      reads this, table
    {
      && |poly| == 32 && poly[31] && table.Length == 32 * 67
      && (NonZero(table[32 * 67 - 1]) ==> Table67(table[..], 67, poly))
    }

    constructor (poly: Bits)
      requires |poly| == 32 && poly[31]
      ensures Valid() && this.poly == poly && fresh(table)
    {
      this.poly := poly;
      table := new Bits[32 * 67](_ => Zero(32));
    }

    /** The CRC of two pieces of data from the CRC of each, for every length an int64 can give. */
    method Combine(crc1: Bits, crc2: Bits, len2: int) returns (crc: Bits)
      requires Valid() && |crc1| == |crc2| == 32 && Int64(len2)
      modifies table
      ensures Valid()
      ensures crc == if len2 <= 0 then crc1 else Xor(Pow(8 * len2, crc1, poly), crc2)
      ensures forall a: seq<Byte>, b: seq<Byte>, c: Bits ::
                |c| == 32 && len2 == |b| && crc1 == CrcBytes(a, c, poly) && crc2 == CrcBytes(b, Zero(32), poly) ==>
                  crc == CrcBytes(a + b, c, poly)
    {
      crc := crc1;
      if len2 > 0 {
        if !NonZero(table[32 * 67 - 1]) {
          ComputePowers(table, 32 * 67, poly);
        }
        crc := CombinePowers(table, crc1, len2, poly);
        crc := Xor(crc, crc2);
      }
      forall a: seq<Byte>, b: seq<Byte>, c: Bits
        | |c| == 32 && len2 == |b| && crc1 == CrcBytes(a, c, poly) && crc2 == CrcBytes(b, Zero(32), poly)
        ensures crc == CrcBytes(a + b, c, poly)
      {
        CombineIsConcat(a, b, c, poly);
        if len2 == 0 { assert a + b == a; }
      }
    }
  }
}
