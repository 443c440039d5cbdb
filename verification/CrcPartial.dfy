/**
 * The table-driven CRC loops: crc32_partial_generic and crc32c_partial_four_tables (four tables, a
 * word at a time, any polynomial of degree 32) and crc64_partial_one_table. The tables are given by
 * the function that generates their entries.
 */
module CrcPartial {
  import opened Gf2
  import opened CrcDivision

  type Byte = b: Bits | |b| == 8 witness [false, false, false, false, false, false, false, false]

  /** The bits of the data in the order of transmission: low bit of each byte first. */
  function Flatten(data: seq<Byte>): (r: Bits)
    ensures |r| == 8 * |data|
  {
    if |data| == 0 then [] else data[0] + Flatten(data[1..])
  }

  lemma {:induction false} FlattenConcat(a: seq<Byte>, b: seq<Byte>)
    ensures Flatten(a + b) == Flatten(a) + Flatten(b)
  {
    if |a| == 0 {
      assert a + b == b;
    } else {
      assert (a + b)[1..] == a[1..] + b;
      FlattenConcat(a[1..], b);
      assert a[0] + (Flatten(a[1..]) + Flatten(b)) == (a[0] + Flatten(a[1..])) + Flatten(b);
    }
  }

  /** Entry `i` of the table for k bytes ahead: crc32_table is k = 1, crc32_table2, 1 and 0 are k = 2, 3 and 4. */
  function Table(k: nat, i: Byte, p: Bits): (r: Bits)
    requires |p| >= 8
    ensures |r| == |p|
  {
    Pow(8 * k, i + Zero(|p| - 8), p)
  }

  // ----- one byte

  /** `table[(crc ^ b) & 0xff] ^ (crc >> 8)`. */
  function ByteUpdate(c: Bits, b: Byte, p: Bits): (r: Bits)
    requires |c| == |p| >= 8
    ensures |r| == |p|
  {
    Xor(Table(1, Xor(c[..8], b), p), c[8..] + Zero(8))
  }

  lemma ByteUpdateIsCrc(c: Bits, b: Byte, p: Bits)
    requires |c| == |p| >= 8
    ensures ByteUpdate(c, b, p) == Crc(b, c, p)
  {
    var w := |p|;
    var low, high := Xor(c[..8], b) + Zero(w - 8), Zero(8) + c[8..];
    CrcShort(b, c, p);
    LowByte(c, b, low, high);
    PowLinear(8, low, high, p);
    PowShift(8, c[8..], p);
  }

  lemma LowByte(c: Bits, b: Byte, low: Bits, high: Bits)
    requires |c| >= 8 && low == Xor(c[..8], b) + Zero(|c| - 8) && high == Zero(8) + c[8..]
    ensures Xor(c, b + Zero(|c| - 8)) == Xor(low, high)
  {
  }

  // ----- one word of four bytes

  /** DO_ONE of the code. */
  function WordUpdate(c: Bits, v: Bits, p: Bits): (r: Bits)
    requires |c| == |v| == |p| == 32
    ensures |r| == |p|
  {
    var x := Xor(c, v);
    Xor(Xor(Xor(Table(4, x[..8], p), Table(3, x[8..16], p)), Table(2, x[16..24], p)), Table(1, x[24..], p))
  }

  /** A byte that stands above `low` zeros reaches the table of the places that are left. */
  lemma Placed(b: Byte, k: nat, low: nat, high: nat, p: Bits, x: Bits)
    requires |p| == 32 && 0 < k && low + 8 * k == 32 && low + high == 24 && x == Zero(low) + (b + Zero(high))
    ensures Pow(|p|, x, p) == Table(k, b, p)
  {
    PowAdd(8 * k, low, |p|, x, p);
    PowShift(low, b + Zero(high), p);
    assert b + Zero(high) + Zero(low) == b + Zero(24);
  }

  lemma WordUpdateIsCrc(c: Bits, v: Bits, p: Bits)
    requires |c| == |v| == |p| == 32
    ensures WordUpdate(c, v, p) == Crc(v, c, p)
  {
    var x := Xor(c, v);
    CrcShort(v, c, p);
    assert v + Zero(0) == v;
    var y0, y1, y2, y3 := x[..8], x[8..16], x[16..24], x[24..];
    var b0, b1 := Zero(0) + (y0 + Zero(24)), Zero(8) + (y1 + Zero(16));
    var b2, b3 := Zero(16) + (y2 + Zero(8)), Zero(24) + (y3 + Zero(0));
    SumOfBytes(x, b0, b1, b2, b3);
    FourBytes(4, p, y0, y1, y2, y3, b0, b1, b2, b3);
  }

  lemma FourBytes(k: nat, p: Bits, y0: Byte, y1: Byte, y2: Byte, y3: Byte, b0: Bits, b1: Bits, b2: Bits, b3: Bits)
    requires k == 4 && |p| == 32 && b0 == Zero(0) + (y0 + Zero(24)) && b1 == Zero(8) + (y1 + Zero(16))
    requires b2 == Zero(16) + (y2 + Zero(8)) && b3 == Zero(24) + (y3 + Zero(0))
    ensures Pow(|p|, Xor(Xor(Xor(b0, b1), b2), b3), p) ==
            Xor(Xor(Xor(Table(k, y0, p), Table(k - 1, y1, p)), Table(k - 2, y2, p)), Table(k - 3, y3, p))
  {
    Placed(y0, k, 0, 24, p, b0);
    Placed(y1, k - 1, 8, 16, p, b1);
    Placed(y2, k - 2, 16, 8, p, b2);
    Placed(y3, k - 3, 24, 0, p, b3);
    PowFour(|p|, b0, b1, b2, b3, p, Table(k, y0, p), Table(k - 1, y1, p), Table(k - 2, y2, p), Table(k - 3, y3, p));
  }

  /** A sum of four, term by term. */
  lemma PowFour(n: nat, a: Bits, b: Bits, c: Bits, d: Bits, p: Bits, a': Bits, b': Bits, c': Bits, d': Bits)
    requires |a| == |b| == |c| == |d| == |p| > 0
    requires a' == Pow(n, a, p) && b' == Pow(n, b, p) && c' == Pow(n, c, p) && d' == Pow(n, d, p)
    ensures Pow(n, Xor(Xor(Xor(a, b), c), d), p) == Xor(Xor(Xor(a', b'), c'), d')
  {
    PowLinear(n, Xor(Xor(a, b), c), d, p);
    PowLinear(n, Xor(a, b), c, p);
    PowLinear(n, a, b, p);
  }

  lemma SumOfBytes(x: Bits, b0: Bits, b1: Bits, b2: Bits, b3: Bits)
    requires |x| == 32 && b0 == Zero(0) + (x[..8] + Zero(24)) && b1 == Zero(8) + (x[8..16] + Zero(16))
    requires b2 == Zero(16) + (x[16..24] + Zero(8)) && b3 == Zero(24) + (x[24..] + Zero(0))
    ensures x == Xor(Xor(Xor(b0, b1), b2), b3)
  {
    var r := Xor(Xor(Xor(b0, b1), b2), b3);
    forall i | 0 <= i < 32 ensures r[i] == x[i] {
      assert b0[i] == (i < 8 && x[i]);
      assert b1[i] == (8 <= i < 16 && x[i]);
      assert b2[i] == (16 <= i < 24 && x[i]);
      assert b3[i] == (24 <= i && x[i]);
    }
  }

  // ----- the loops

  /** The CRC of the data from a start value. */
  function CrcBytes(data: seq<Byte>, crc: Bits, p: Bits): (r: Bits)
    requires |crc| == |p| > 0
    ensures |r| == |p|
  {
    Crc(Flatten(data), crc, p)
  }

  /** DO_ONE (p[0]). */
  method DoOne(data: seq<Byte>, pos: nat, crc0: Bits, crc: Bits, p: Bits) returns (r: Bits)
    requires |crc0| == |crc| == |p| == 32 && pos + 4 <= |data| && crc == CrcBytes(data[..pos], crc0, p)
    ensures r == CrcBytes(data[..pos + 4], crc0, p)
  {
    var v := Flatten(data[pos..pos + 4]);
    r := WordUpdate(crc, v, p);
    WordUpdateIsCrc(crc, v, p);
    Slices(data, pos, 4);
    Extend(data[..pos], data[pos..pos + 4], data[..pos + 4], crc0, p);
  }

  lemma Slices(data: seq<Byte>, pos: nat, n: nat)
    requires pos + n <= |data|
    ensures data[..pos + n] == data[..pos] + data[pos..pos + n]
  {
  }

  lemma Extend(a: seq<Byte>, b: seq<Byte>, whole: seq<Byte>, crc0: Bits, p: Bits)
    requires |crc0| == |p| > 0 && whole == a + b
    ensures CrcBytes(whole, crc0, p) == Crc(Flatten(b), CrcBytes(a, crc0, p), p)
  {
    FlattenConcat(a, b);
    CrcConcat(Flatten(a), Flatten(b), crc0, p);
  }

  /** DO_FOUR (p). */
  method DoFour(data: seq<Byte>, pos: nat, crc0: Bits, crc: Bits, p: Bits) returns (r: Bits)
    requires |crc0| == |crc| == |p| == 32 && pos + 16 <= |data| && crc == CrcBytes(data[..pos], crc0, p)
    ensures r == CrcBytes(data[..pos + 16], crc0, p)
  {
    r := DoOne(data, pos, crc0, crc, p);
    r := DoOne(data, pos + 4, crc0, r, p);
    r := DoOne(data, pos + 8, crc0, r, p);
    r := DoOne(data, pos + 12, crc0, r, p);
  }

  /** One byte through the single table. */
  method DoByte(data: seq<Byte>, pos: nat, crc0: Bits, crc: Bits, p: Bits) returns (r: Bits)
    requires |crc0| == |crc| == |p| >= 8 && pos < |data| && crc == CrcBytes(data[..pos], crc0, p)
    ensures r == CrcBytes(data[..pos + 1], crc0, p)
  {
    r := ByteUpdate(crc, data[pos], p);
    ByteUpdateIsCrc(crc, data[pos], p);
    FlattenOne(data[pos]);
    Slices(data, pos, 1);
    assert data[pos..pos + 1] == [data[pos]];
    Extend(data[..pos], [data[pos]], data[..pos + 1], crc0, p);
  }

  lemma FlattenOne(b: Byte)
    ensures Flatten([b]) == b
  {
    assert [b][1..] == [];
    assert b + [] == b;
  }

  /** crc32_partial_generic, crc32c_partial_four_tables. */
  method PartialFourTables(data: seq<Byte>, crc0: Bits, p: Bits) returns (crc: Bits)
    requires |crc0| == |p| == 32
    ensures crc == CrcBytes(data, crc0, p)
  {
    var len, pos: nat := |data|, 0;
    crc := crc0;
    var x: nat := len / 32;
    while x > 0
      invariant pos + 32 * x + len % 32 == len && |crc| == 32
      invariant crc == CrcBytes(data[..pos], crc0, p)
    {
      crc := DoFour(data, pos, crc0, crc, p);
      crc := DoFour(data, pos + 16, crc0, crc, p);
      pos := pos + 32;
      x := x - 1;
    }
    Half16(len);
    if len / 16 % 2 == 1 {
      crc := DoFour(data, pos, crc0, crc, p);
      pos := pos + 16;
    }
    crc, pos := PartialWords(data, pos, crc0, crc, p);
    crc := PartialRest(data, pos, crc0, crc, p);
  }

  lemma Half16(len: nat)
    ensures len % 32 == 16 * (len / 16 % 2) + len % 16
  {
    Split16(len, len / 16 / 2, len / 16 % 2, len % 16);
  }

  lemma Split16(len: nat, h: nat, bit: nat, r: nat)
    requires len == 16 * (2 * h + bit) + r && bit < 2 && r < 16
    ensures len % 32 == 16 * bit + r
  {
    assert len == 32 * h + (16 * bit + r);
  }

  lemma Half8(len: nat)
    ensures len % 16 == 8 * (len / 8 % 2) + len % 8
  {
    Split8(len, len / 8 / 2, len / 8 % 2, len % 8);
  }

  lemma Split8(len: nat, h: nat, bit: nat, r: nat)
    requires len == 8 * (2 * h + bit) + r && bit < 2 && r < 8
    ensures len % 16 == 8 * bit + r
  {
    assert len == 16 * h + (8 * bit + r);
  }

  lemma Half4(len: nat)
    ensures len % 8 == 4 * (len / 4 % 2) + len % 4
  {
    Split4(len, len / 4 / 2, len / 4 % 2, len % 4);
  }

  lemma Split4(len: nat, h: nat, bit: nat, r: nat)
    requires len == 4 * (2 * h + bit) + r && bit < 2 && r < 4
    ensures len % 8 == 4 * bit + r
  {
    assert len == 8 * h + (4 * bit + r);
  }

  lemma Half2(len: nat)
    ensures len % 4 == 2 * (len / 2 % 2) + len % 2
  {
    Split2(len, len / 2 / 2, len / 2 % 2, len % 2);
  }

  lemma Split2(len: nat, h: nat, bit: nat, r: nat)
    requires len == 2 * (2 * h + bit) + r && bit < 2 && r < 2
    ensures len % 4 == 2 * bit + r
  {
    assert len == 4 * h + (2 * bit + r);
  }

  /** What is left after the blocks of sixteen, down to less than a word. */
  method PartialWords(data: seq<Byte>, start: nat, crc0: Bits, crc1: Bits, p: Bits) returns (crc: Bits, pos: nat)
    requires |crc0| == |p| == 32 == |crc1| && start + |data| % 16 == |data| && crc1 == CrcBytes(data[..start], crc0, p)
    ensures pos + |data| % 4 == |data| && crc == CrcBytes(data[..pos], crc0, p)
  {
    var len := |data|;
    crc, pos := crc1, start;
    Half8(len);
    if len / 8 % 2 == 1 {
      crc := DoOne(data, pos, crc0, crc, p);
      crc := DoOne(data, pos + 4, crc0, crc, p);
      pos := pos + 8;
    }
    Half4(len);
    if len / 4 % 2 == 1 {
      crc := DoOne(data, pos, crc0, crc, p);
      pos := pos + 4;
    }
  }

  /** The last three bytes at most. */
  method PartialRest(data: seq<Byte>, start: nat, crc0: Bits, crc1: Bits, p: Bits) returns (crc: Bits)
    requires |crc0| == |p| == 32 == |crc1| && start + |data| % 4 == |data| && crc1 == CrcBytes(data[..start], crc0, p)
    ensures crc == CrcBytes(data, crc0, p)
  {
    var len, pos := |data|, start;
    crc := crc1;
    Half2(len);
    if len / 2 % 2 == 1 {
      crc := DoByte(data, pos, crc0, crc, p);
      crc := DoByte(data, pos + 1, crc0, crc, p);
      pos := pos + 2;
    }
    if len % 2 == 1 {
      crc := DoByte(data, pos, crc0, crc, p);
      pos := pos + 1;
    }
    assert data[..pos] == data;
  }

  /** crc64_partial_one_table, for any width. */
  method PartialOneTable(data: seq<Byte>, crc0: Bits, p: Bits) returns (crc: Bits)
    requires |crc0| == |p| >= 8
    ensures crc == CrcBytes(data, crc0, p)
  {
    crc := crc0;
    for pos := 0 to |data|
      invariant |crc| == |p| && crc == CrcBytes(data[..pos], crc0, p)
    {
      crc := DoByte(data, pos, crc0, crc, p);
    }
    assert data[..|data|] == data;
  }
}
