/** The MD5 message digest as RFC 1321 defines it (sections 3.1 to 3.5), on 32-bit words. */
module Md5Spec {

  type Byte = bv8

  datatype Chaining = Chaining(a: bv32, b: bv32, c: bv32, d: bv32)

  /** Section 3.3: the initial words. */
  const INITIAL: Chaining := Chaining(0x67452301, 0xefcdab89, 0x98badcfe, 0x10325476)

  // ----- section 3.4

  function F(x: bv32, y: bv32, z: bv32): bv32 { (x & y) | (!x & z) }
  function G(x: bv32, y: bv32, z: bv32): bv32 { (x & z) | (y & !z) }
  function H(x: bv32, y: bv32, z: bv32): bv32 { x ^ y ^ z }
  function I(x: bv32, y: bv32, z: bv32): bv32 { y ^ (x | !z) }

  /** The auxiliary function of step i. */
  function Mix(i: nat): (bv32, bv32, bv32) -> bv32 {
    if i < 16 then F else if i < 32 then G else if i < 48 then H else I
  }

  /** The message word that step i uses. */
  function WordIndex(i: nat): (k: nat)
    ensures k < 16
  {
    if i < 16 then i else if i < 32 then (5 * i + 1) % 16 else if i < 48 then (3 * i + 5) % 16 else (7 * i) % 16
  }

  function Shift(i: nat): nat {
    var j := i % 4;
    if i < 16 then (if j == 0 then 7 else if j == 1 then 12 else if j == 2 then 17 else 22)
    else if i < 32 then (if j == 0 then 5 else if j == 1 then 9 else if j == 2 then 14 else 20)
    else if i < 48 then (if j == 0 then 4 else if j == 1 then 11 else if j == 2 then 16 else 23)
    else (if j == 0 then 6 else if j == 1 then 10 else if j == 2 then 15 else 21)
  }

  /** The table T: the integer part of 2^32 times |sin(i + 1)|. */
  function T(i: nat): bv32 {
    if i < 16 then T1(i) else if i < 32 then T2(i - 16) else if i < 48 then T3(i - 32) else T4(i - 48)
  }

  function T1(i: nat): bv32 {
    match i
    case 0 => 0xd76aa478
    case 1 => 0xe8c7b756
    case 2 => 0x242070db
    case 3 => 0xc1bdceee
    case 4 => 0xf57c0faf
    case 5 => 0x4787c62a
    case 6 => 0xa8304613
    case 7 => 0xfd469501
    case 8 => 0x698098d8
    case 9 => 0x8b44f7af
    case 10 => 0xffff5bb1
    case 11 => 0x895cd7be
    case 12 => 0x6b901122
    case 13 => 0xfd987193
    case 14 => 0xa679438e
    case 15 => 0x49b40821
    case _ => 0
  }

  function T2(i: nat): bv32 {
    match i
    case 0 => 0xf61e2562
    case 1 => 0xc040b340
    case 2 => 0x265e5a51
    case 3 => 0xe9b6c7aa
    case 4 => 0xd62f105d
    case 5 => 0x02441453
    case 6 => 0xd8a1e681
    case 7 => 0xe7d3fbc8
    case 8 => 0x21e1cde6
    case 9 => 0xc33707d6
    case 10 => 0xf4d50d87
    case 11 => 0x455a14ed
    case 12 => 0xa9e3e905
    case 13 => 0xfcefa3f8
    case 14 => 0x676f02d9
    case 15 => 0x8d2a4c8a
    case _ => 0
  }

  function T3(i: nat): bv32 {
    match i
    case 0 => 0xfffa3942
    case 1 => 0x8771f681
    case 2 => 0x6d9d6122
    case 3 => 0xfde5380c
    case 4 => 0xa4beea44
    case 5 => 0x4bdecfa9
    case 6 => 0xf6bb4b60
    case 7 => 0xbebfbc70
    case 8 => 0x289b7ec6
    case 9 => 0xeaa127fa
    case 10 => 0xd4ef3085
    case 11 => 0x04881d05
    case 12 => 0xd9d4d039
    case 13 => 0xe6db99e5
    case 14 => 0x1fa27cf8
    case 15 => 0xc4ac5665
    case _ => 0
  }

  function T4(i: nat): bv32 {
    match i
    case 0 => 0xf4292244
    case 1 => 0x432aff97
    case 2 => 0xab9423a7
    case 3 => 0xfc93a039
    case 4 => 0x655b59c3
    case 5 => 0x8f0ccc92
    case 6 => 0xffeff47d
    case 7 => 0x85845dd1
    case 8 => 0x6fa87e4f
    case 9 => 0xfe2ce6e0
    case 10 => 0xa3014314
    case 11 => 0x4e0811a1
    case 12 => 0xf7537e82
    case 13 => 0xbd3af235
    case 14 => 0x2ad7d2bb
    case 15 => 0xeb86d391
    case _ => 0
  }

  /** Circular shifts to the left, for the sixteen distances in use. */
  function Rotl4(x: bv32): bv32 { (x << 4) | (x >> 28) }
  function Rotl5(x: bv32): bv32 { (x << 5) | (x >> 27) }
  function Rotl6(x: bv32): bv32 { (x << 6) | (x >> 26) }
  function Rotl7(x: bv32): bv32 { (x << 7) | (x >> 25) }
  function Rotl9(x: bv32): bv32 { (x << 9) | (x >> 23) }
  function Rotl10(x: bv32): bv32 { (x << 10) | (x >> 22) }
  function Rotl11(x: bv32): bv32 { (x << 11) | (x >> 21) }
  function Rotl12(x: bv32): bv32 { (x << 12) | (x >> 20) }
  function Rotl14(x: bv32): bv32 { (x << 14) | (x >> 18) }
  function Rotl15(x: bv32): bv32 { (x << 15) | (x >> 17) }
  function Rotl16(x: bv32): bv32 { (x << 16) | (x >> 16) }
  function Rotl17(x: bv32): bv32 { (x << 17) | (x >> 15) }
  function Rotl20(x: bv32): bv32 { (x << 20) | (x >> 12) }
  function Rotl21(x: bv32): bv32 { (x << 21) | (x >> 11) }
  function Rotl22(x: bv32): bv32 { (x << 22) | (x >> 10) }
  function Rotl23(x: bv32): bv32 { (x << 23) | (x >> 9) }
  function RotlNone(x: bv32): bv32 { x }

  function Rotl(s: nat): bv32 -> bv32 {
    match s
    case 4 => Rotl4
    case 5 => Rotl5
    case 6 => Rotl6
    case 7 => Rotl7
    case 9 => Rotl9
    case 10 => Rotl10
    case 11 => Rotl11
    case 12 => Rotl12
    case 14 => Rotl14
    case 15 => Rotl15
    case 16 => Rotl16
    case 17 => Rotl17
    case 20 => Rotl20
    case 21 => Rotl21
    case 22 => Rotl22
    case 23 => Rotl23
    case _ => RotlNone
  }

  /** Word k of a block, low byte first. */
  function Word(block: seq<Byte>, k: nat): bv32
    requires |block| == 64 && k < 16
  {
    WordOf(block[4 * k], block[4 * k + 1], block[4 * k + 2], block[4 * k + 3])
  }

  function WordOf(b0: Byte, b1: Byte, b2: Byte, b3: Byte): bv32 {
    b0 as bv32 | ((b1 as bv32) << 8) | ((b2 as bv32) << 16) | ((b3 as bv32) << 24)
  }

  /** Addition modulo 2^32. */
  function Plus(v: bv32, w: bv32): bv32 { v + w }

  /** One operation; the roles of the registers rotate. */
  function Step(h: Chaining, block: seq<Byte>, i: nat): Chaining
    requires |block| == 64
  {
    var sum := Plus(Plus(Plus(h.a, Mix(i)(h.b, h.c, h.d)), Word(block, WordIndex(i))), T(i));
    Chaining(h.d, Plus(Rotl(Shift(i))(sum), h.b), h.b, h.c)
  }

  function Steps(h: Chaining, block: seq<Byte>, n: nat): Chaining
    requires |block| == 64
  {
    if n == 0 then h else Step(Steps(h, block, n - 1), block, n - 1)
  }

  /** All the operations of a block; there are as many as the block has bytes. */
  function Compress(h: Chaining, block: seq<Byte>): Chaining
    requires |block| == 64
  {
    var r := Steps(h, block, |block|);
    Chaining(Plus(h.a, r.a), Plus(h.b, r.b), Plus(h.c, r.c), Plus(h.d, r.d))
  }

  /** What a block does to the chaining value. */
  type BlockStep = (Chaining, seq<Byte>) -> Chaining

  /** The chaining value after the whole blocks of `m`. */
  function Fold(f: BlockStep, h: Chaining, m: seq<Byte>): Chaining {
    if |m| < 64 then h else f(Fold(f, h, m[..|m| - 64]), m[|m| - 64..])
  }

  function Compression(): BlockStep {
    (h: Chaining, b: seq<Byte>) => if |b| == 64 then Compress(h, b) else h
  }

  function Chain(m: seq<Byte>): Chaining {
    Fold(Compression(), INITIAL, m)
  }

  // ----- sections 3.1, 3.2 and 3.5

  function ByteOf(n: nat): Byte {
    (n % 256) as bv8
  }

  /** The length in bits, modulo 2^64, low byte first. */
  function LengthBytes(len: nat): (r: seq<Byte>)
    ensures |r| == 8
  {
    var n := 8 * len;
    [ByteOf(n), ByteOf(n / 0x100), ByteOf(n / 0x1_0000), ByteOf(n / 0x100_0000),
     ByteOf(n / 0x1_0000_0000), ByteOf(n / 0x100_0000_0000), ByteOf(n / 0x1_0000_0000_0000), ByteOf(n / 0x100_0000_0000_0000)]
  }

  /** How many bytes of padding bring the length to 56 modulo 64, at least one. */
  function PadLength(len: nat): (n: nat)
    ensures 1 <= n <= 64 && (len + n) % 64 == 56
  {
    var last := len % 64;
    if last < 56 then 56 - last else 120 - last
  }

  function Padding(n: nat): (r: seq<Byte>)
    requires n >= 1
    ensures |r| == n
  {
    [0x80] + seq(n - 1, _ => 0)
  }

  function Padded(msg: seq<Byte>): (r: seq<Byte>)
    ensures |r| % 64 == 0
  {
    var pad := Padding(PadLength(|msg|));
    assert (|msg| + |pad| + 8) % 64 == 0;
    msg + pad + LengthBytes(|msg|)
  }

  function WordBytes(x: bv32): seq<Byte> {
    [(x & 0xff) as bv8, ((x >> 8) & 0xff) as bv8, ((x >> 16) & 0xff) as bv8, ((x >> 24) & 0xff) as bv8]
  }

  /** The digest of a message. */
  function Digest(msg: seq<Byte>): seq<Byte> {
    var h := Chain(Padded(msg));
    WordBytes(h.a) + WordBytes(h.b) + WordBytes(h.c) + WordBytes(h.d)
  }
}
