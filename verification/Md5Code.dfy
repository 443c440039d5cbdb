/**
 * md5_process of src/common/md5.c. The code keeps its words in `unsigned long`, 64 bits wide, and
 * never masks them; the upper halves fill with garbage. What counts are the lower halves: they
 * follow the 32-bit words of the definition through every operation.
 */
module Md5Code {
  import opened Md5Spec

  // ----- the macros

  function Add(x: bv64, y: bv64): bv64 { x + y }

  /** S (x, n), for each n. */
  function S4(x: bv64): bv64 { (x << 4) | ((x & 0xffff_ffff) >> 28) }
  function S5(x: bv64): bv64 { (x << 5) | ((x & 0xffff_ffff) >> 27) }
  function S6(x: bv64): bv64 { (x << 6) | ((x & 0xffff_ffff) >> 26) }
  function S7(x: bv64): bv64 { (x << 7) | ((x & 0xffff_ffff) >> 25) }
  function S9(x: bv64): bv64 { (x << 9) | ((x & 0xffff_ffff) >> 23) }
  function S10(x: bv64): bv64 { (x << 10) | ((x & 0xffff_ffff) >> 22) }
  function S11(x: bv64): bv64 { (x << 11) | ((x & 0xffff_ffff) >> 21) }
  function S12(x: bv64): bv64 { (x << 12) | ((x & 0xffff_ffff) >> 20) }
  function S14(x: bv64): bv64 { (x << 14) | ((x & 0xffff_ffff) >> 18) }
  function S15(x: bv64): bv64 { (x << 15) | ((x & 0xffff_ffff) >> 17) }
  function S16(x: bv64): bv64 { (x << 16) | ((x & 0xffff_ffff) >> 16) }
  function S17(x: bv64): bv64 { (x << 17) | ((x & 0xffff_ffff) >> 15) }
  function S20(x: bv64): bv64 { (x << 20) | ((x & 0xffff_ffff) >> 12) }
  function S21(x: bv64): bv64 { (x << 21) | ((x & 0xffff_ffff) >> 11) }
  function S22(x: bv64): bv64 { (x << 22) | ((x & 0xffff_ffff) >> 10) }
  function S23(x: bv64): bv64 { (x << 23) | ((x & 0xffff_ffff) >> 9) }

  /** The four definitions of F (x, y, z). */
  function Fun1(x: bv64, y: bv64, z: bv64): bv64 { z ^ (x & (y ^ z)) }
  function Fun2(x: bv64, y: bv64, z: bv64): bv64 { y ^ (z & (x ^ y)) }
  function Fun3(x: bv64, y: bv64, z: bv64): bv64 { x ^ y ^ z }
  function Fun4(x: bv64, y: bv64, z: bv64): bv64 { y ^ (x | !z) }

  /** GET_ULONG_LE. */
  function GetWord(b0: Byte, b1: Byte, b2: Byte, b3: Byte): bv64 {
    b0 as bv64 | ((b1 as bv64) << 8) | ((b2 as bv64) << 16) | ((b3 as bv64) << 24)
  }

  /** PUT_ULONG_LE. */
  function PutWord(x: bv64): seq<Byte> {
    [(x & 0xff) as bv8, ((x >> 8) & 0xff) as bv8, ((x >> 16) & 0xff) as bv8, ((x >> 24) & 0xff) as bv8]
  }

  /** A 32-bit constant as an unsigned long. */
  function Extend(w: bv32): bv64 { w as bv64 }

  // ----- lower halves

  lemma LowAdd(x: bv64, y: bv64, v: bv32, w: bv32)
    requires x & 0xffff_ffff == v as bv64 && y & 0xffff_ffff == w as bv64
    ensures (x + y) & 0xffff_ffff == (v + w) as bv64
  {
  }

  lemma LowBits1(x: bv64, y: bv64, z: bv64, u: bv32, v: bv32, w: bv32, f: bv64, g: bv32)
    requires x & 0xffff_ffff == u as bv64 && y & 0xffff_ffff == v as bv64 && z & 0xffff_ffff == w as bv64
    requires f == z ^ (x & (y ^ z)) && g == (u & v) | (!u & w)
    ensures f & 0xffff_ffff == g as bv64
  {
  }

  lemma LowBits2(x: bv64, y: bv64, z: bv64, u: bv32, v: bv32, w: bv32, f: bv64, g: bv32)
    requires x & 0xffff_ffff == u as bv64 && y & 0xffff_ffff == v as bv64 && z & 0xffff_ffff == w as bv64
    requires f == y ^ (z & (x ^ y)) && g == (u & w) | (v & !w)
    ensures f & 0xffff_ffff == g as bv64
  {
  }

  lemma LowBits3(x: bv64, y: bv64, z: bv64, u: bv32, v: bv32, w: bv32, f: bv64, g: bv32)
    requires x & 0xffff_ffff == u as bv64 && y & 0xffff_ffff == v as bv64 && z & 0xffff_ffff == w as bv64
    requires f == x ^ y ^ z && g == u ^ v ^ w
    ensures f & 0xffff_ffff == g as bv64
  {
  }

  lemma LowBits4(x: bv64, y: bv64, z: bv64, u: bv32, v: bv32, w: bv32, f: bv64, g: bv32)
    requires x & 0xffff_ffff == u as bv64 && y & 0xffff_ffff == v as bv64 && z & 0xffff_ffff == w as bv64
    requires f == y ^ (x | !z) && g == v ^ (u | !w)
    ensures f & 0xffff_ffff == g as bv64
  {
  }

  lemma LowRotate4(x: bv64, w: bv32, s: bv64, r: bv32)
    requires x & 0xffff_ffff == w as bv64 && s == (x << 4) | ((x & 0xffff_ffff) >> 28) && r == (w << 4) | (w >> 28)
    ensures s & 0xffff_ffff == r as bv64
  {
  }

  lemma LowRotate5(x: bv64, w: bv32, s: bv64, r: bv32)
    requires x & 0xffff_ffff == w as bv64 && s == (x << 5) | ((x & 0xffff_ffff) >> 27) && r == (w << 5) | (w >> 27)
    ensures s & 0xffff_ffff == r as bv64
  {
  }

  lemma LowRotate6(x: bv64, w: bv32, s: bv64, r: bv32)
    requires x & 0xffff_ffff == w as bv64 && s == (x << 6) | ((x & 0xffff_ffff) >> 26) && r == (w << 6) | (w >> 26)
    ensures s & 0xffff_ffff == r as bv64
  {
  }

  lemma LowRotate7(x: bv64, w: bv32, s: bv64, r: bv32)
    requires x & 0xffff_ffff == w as bv64 && s == (x << 7) | ((x & 0xffff_ffff) >> 25) && r == (w << 7) | (w >> 25)
    ensures s & 0xffff_ffff == r as bv64
  {
  }

  lemma LowRotate9(x: bv64, w: bv32, s: bv64, r: bv32)
    requires x & 0xffff_ffff == w as bv64 && s == (x << 9) | ((x & 0xffff_ffff) >> 23) && r == (w << 9) | (w >> 23)
    ensures s & 0xffff_ffff == r as bv64
  {
  }

  lemma LowRotate10(x: bv64, w: bv32, s: bv64, r: bv32)
    requires x & 0xffff_ffff == w as bv64 && s == (x << 10) | ((x & 0xffff_ffff) >> 22) && r == (w << 10) | (w >> 22)
    ensures s & 0xffff_ffff == r as bv64
  {
  }

  lemma LowRotate11(x: bv64, w: bv32, s: bv64, r: bv32)
    requires x & 0xffff_ffff == w as bv64 && s == (x << 11) | ((x & 0xffff_ffff) >> 21) && r == (w << 11) | (w >> 21)
    ensures s & 0xffff_ffff == r as bv64
  {
  }

  lemma LowRotate12(x: bv64, w: bv32, s: bv64, r: bv32)
    requires x & 0xffff_ffff == w as bv64 && s == (x << 12) | ((x & 0xffff_ffff) >> 20) && r == (w << 12) | (w >> 20)
    ensures s & 0xffff_ffff == r as bv64
  {
  }

  lemma LowRotate14(x: bv64, w: bv32, s: bv64, r: bv32)
    requires x & 0xffff_ffff == w as bv64 && s == (x << 14) | ((x & 0xffff_ffff) >> 18) && r == (w << 14) | (w >> 18)
    ensures s & 0xffff_ffff == r as bv64
  {
  }

  lemma LowRotate15(x: bv64, w: bv32, s: bv64, r: bv32)
    requires x & 0xffff_ffff == w as bv64 && s == (x << 15) | ((x & 0xffff_ffff) >> 17) && r == (w << 15) | (w >> 17)
    ensures s & 0xffff_ffff == r as bv64
  {
  }

  lemma LowRotate16(x: bv64, w: bv32, s: bv64, r: bv32)
    requires x & 0xffff_ffff == w as bv64 && s == (x << 16) | ((x & 0xffff_ffff) >> 16) && r == (w << 16) | (w >> 16)
    ensures s & 0xffff_ffff == r as bv64
  {
  }

  lemma LowRotate17(x: bv64, w: bv32, s: bv64, r: bv32)
    requires x & 0xffff_ffff == w as bv64 && s == (x << 17) | ((x & 0xffff_ffff) >> 15) && r == (w << 17) | (w >> 15)
    ensures s & 0xffff_ffff == r as bv64
  {
  }

  lemma LowRotate20(x: bv64, w: bv32, s: bv64, r: bv32)
    requires x & 0xffff_ffff == w as bv64 && s == (x << 20) | ((x & 0xffff_ffff) >> 12) && r == (w << 20) | (w >> 12)
    ensures s & 0xffff_ffff == r as bv64
  {
  }

  lemma LowRotate21(x: bv64, w: bv32, s: bv64, r: bv32)
    requires x & 0xffff_ffff == w as bv64 && s == (x << 21) | ((x & 0xffff_ffff) >> 11) && r == (w << 21) | (w >> 11)
    ensures s & 0xffff_ffff == r as bv64
  {
  }

  lemma LowRotate22(x: bv64, w: bv32, s: bv64, r: bv32)
    requires x & 0xffff_ffff == w as bv64 && s == (x << 22) | ((x & 0xffff_ffff) >> 10) && r == (w << 22) | (w >> 10)
    ensures s & 0xffff_ffff == r as bv64
  {
  }

  lemma LowRotate23(x: bv64, w: bv32, s: bv64, r: bv32)
    requires x & 0xffff_ffff == w as bv64 && s == (x << 23) | ((x & 0xffff_ffff) >> 9) && r == (w << 23) | (w >> 9)
    ensures s & 0xffff_ffff == r as bv64
  {
  }

  lemma LowBytes(b0: Byte, b1: Byte, b2: Byte, b3: Byte)
    ensures (b0 as bv64 | ((b1 as bv64) << 8) | ((b2 as bv64) << 16) | ((b3 as bv64) << 24)) & 0xffff_ffff ==
            (b0 as bv32 | ((b1 as bv32) << 8) | ((b2 as bv32) << 16) | ((b3 as bv32) << 24)) as bv64
  {
  }

  lemma LowPut(x: bv64, w: bv32)
    requires x & 0xffff_ffff == w as bv64
    ensures (x & 0xff) as bv8 == (w & 0xff) as bv8 && ((x >> 8) & 0xff) as bv8 == ((w >> 8) & 0xff) as bv8
    ensures ((x >> 16) & 0xff) as bv8 == ((w >> 16) & 0xff) as bv8 && ((x >> 24) & 0xff) as bv8 == ((w >> 24) & 0xff) as bv8
  {
  }

  lemma LowExtend(w: bv32)
    ensures (w as bv64) & 0xffff_ffff == w as bv64
  {
  }

  // ----- the relation

  /** Says that a word of the code stands for a word of the definition. */
  type Relation = (bv64, bv32) -> bool

  ghost predicate AddLaw(rel: Relation) {
    forall x: bv64, y: bv64, v: bv32, w: bv32 {:trigger Add(x, y), Plus(v, w)} ::
      rel(x, v) && rel(y, w) ==> rel(Add(x, y), Plus(v, w))
  }

  ghost predicate ShiftLaw(rel: Relation, s: bv64 -> bv64, r: bv32 -> bv32) {
    forall x: bv64, w: bv32 {:trigger s(x), r(w)} :: rel(x, w) ==> rel(s(x), r(w))
  }

  ghost predicate ShiftLaws(rel: Relation) {
    && ShiftLaw(rel, S7, Rotl7) && ShiftLaw(rel, S12, Rotl12) && ShiftLaw(rel, S17, Rotl17) && ShiftLaw(rel, S22, Rotl22)
    && ShiftLaw(rel, S5, Rotl5) && ShiftLaw(rel, S9, Rotl9) && ShiftLaw(rel, S14, Rotl14) && ShiftLaw(rel, S20, Rotl20)
    && ShiftLaw(rel, S4, Rotl4) && ShiftLaw(rel, S11, Rotl11) && ShiftLaw(rel, S16, Rotl16) && ShiftLaw(rel, S23, Rotl23)
    && ShiftLaw(rel, S6, Rotl6) && ShiftLaw(rel, S10, Rotl10) && ShiftLaw(rel, S15, Rotl15) && ShiftLaw(rel, S21, Rotl21)
  }

  ghost predicate FunLaw(rel: Relation, f: (bv64, bv64, bv64) -> bv64, g: (bv32, bv32, bv32) -> bv32) {
    forall x: bv64, y: bv64, z: bv64, u: bv32, v: bv32, w: bv32 {:trigger f(x, y, z), g(u, v, w)} ::
      rel(x, u) && rel(y, v) && rel(z, w) ==> rel(f(x, y, z), g(u, v, w))
  }

  ghost predicate InputLaw(rel: Relation) {
    && (forall b0: Byte, b1: Byte, b2: Byte, b3: Byte {:trigger GetWord(b0, b1, b2, b3)} ::
          rel(GetWord(b0, b1, b2, b3), WordOf(b0, b1, b2, b3)))
    && (forall w: bv32 {:trigger Extend(w)} :: rel(Extend(w), w))
  }

  ghost predicate OutputLaw(rel: Relation) {
    forall x: bv64, w: bv32 {:trigger PutWord(x), WordBytes(w)} :: rel(x, w) ==> PutWord(x) == WordBytes(w)
  }

  /** Every operation of the code follows the operation of the definition. */
  ghost predicate Laws(rel: Relation) {
    && AddLaw(rel) && ShiftLaws(rel) && InputLaw(rel) && OutputLaw(rel)
    && FunLaw(rel, Fun1, F) && FunLaw(rel, Fun2, G) && FunLaw(rel, Fun3, H) && FunLaw(rel, Fun4, I)
  }

  /** The lower half of x is w. */
  predicate Low(x: bv64, w: bv32) {
    x & 0xffff_ffff == w as bv64
  }

  function LowHalf(): Relation {
    (x: bv64, w: bv32) => Low(x, w)
  }

  lemma AddHolds()
    ensures AddLaw(LowHalf())
  {
    forall x: bv64, y: bv64, v: bv32, w: bv32 | LowHalf()(x, v) && LowHalf()(y, w)
      ensures LowHalf()(Add(x, y), Plus(v, w))
    {
      LowAdd(x, y, v, w);
    }
  }

  lemma Shift4Holds()
    ensures ShiftLaw(LowHalf(), S4, Rotl4)
  {
    forall x: bv64, w: bv32 | LowHalf()(x, w) ensures LowHalf()(S4(x), Rotl4(w)) { LowRotate4(x, w, S4(x), Rotl4(w)); }
  }

  lemma Shift5Holds()
    ensures ShiftLaw(LowHalf(), S5, Rotl5)
  {
    forall x: bv64, w: bv32 | LowHalf()(x, w) ensures LowHalf()(S5(x), Rotl5(w)) { LowRotate5(x, w, S5(x), Rotl5(w)); }
  }

  lemma Shift6Holds()
    ensures ShiftLaw(LowHalf(), S6, Rotl6)
  {
    forall x: bv64, w: bv32 | LowHalf()(x, w) ensures LowHalf()(S6(x), Rotl6(w)) { LowRotate6(x, w, S6(x), Rotl6(w)); }
  }

  lemma Shift7Holds()
    ensures ShiftLaw(LowHalf(), S7, Rotl7)
  {
    forall x: bv64, w: bv32 | LowHalf()(x, w) ensures LowHalf()(S7(x), Rotl7(w)) { LowRotate7(x, w, S7(x), Rotl7(w)); }
  }

  lemma Shift9Holds()
    ensures ShiftLaw(LowHalf(), S9, Rotl9)
  {
    forall x: bv64, w: bv32 | LowHalf()(x, w) ensures LowHalf()(S9(x), Rotl9(w)) { LowRotate9(x, w, S9(x), Rotl9(w)); }
  }

  lemma Shift10Holds()
    ensures ShiftLaw(LowHalf(), S10, Rotl10)
  {
    forall x: bv64, w: bv32 | LowHalf()(x, w) ensures LowHalf()(S10(x), Rotl10(w)) { LowRotate10(x, w, S10(x), Rotl10(w)); }
  }

  lemma Shift11Holds()
    ensures ShiftLaw(LowHalf(), S11, Rotl11)
  {
    forall x: bv64, w: bv32 | LowHalf()(x, w) ensures LowHalf()(S11(x), Rotl11(w)) { LowRotate11(x, w, S11(x), Rotl11(w)); }
  }

  lemma Shift12Holds()
    ensures ShiftLaw(LowHalf(), S12, Rotl12)
  {
    forall x: bv64, w: bv32 | LowHalf()(x, w) ensures LowHalf()(S12(x), Rotl12(w)) { LowRotate12(x, w, S12(x), Rotl12(w)); }
  }

  lemma Shift14Holds()
    ensures ShiftLaw(LowHalf(), S14, Rotl14)
  {
    forall x: bv64, w: bv32 | LowHalf()(x, w) ensures LowHalf()(S14(x), Rotl14(w)) { LowRotate14(x, w, S14(x), Rotl14(w)); }
  }

  lemma Shift15Holds()
    ensures ShiftLaw(LowHalf(), S15, Rotl15)
  {
    forall x: bv64, w: bv32 | LowHalf()(x, w) ensures LowHalf()(S15(x), Rotl15(w)) { LowRotate15(x, w, S15(x), Rotl15(w)); }
  }

  lemma Shift16Holds()
    ensures ShiftLaw(LowHalf(), S16, Rotl16)
  {
    forall x: bv64, w: bv32 | LowHalf()(x, w) ensures LowHalf()(S16(x), Rotl16(w)) { LowRotate16(x, w, S16(x), Rotl16(w)); }
  }

  lemma Shift17Holds()
    ensures ShiftLaw(LowHalf(), S17, Rotl17)
  {
    forall x: bv64, w: bv32 | LowHalf()(x, w) ensures LowHalf()(S17(x), Rotl17(w)) { LowRotate17(x, w, S17(x), Rotl17(w)); }
  }

  lemma Shift20Holds()
    ensures ShiftLaw(LowHalf(), S20, Rotl20)
  {
    forall x: bv64, w: bv32 | LowHalf()(x, w) ensures LowHalf()(S20(x), Rotl20(w)) { LowRotate20(x, w, S20(x), Rotl20(w)); }
  }

  lemma Shift21Holds()
    ensures ShiftLaw(LowHalf(), S21, Rotl21)
  {
    forall x: bv64, w: bv32 | LowHalf()(x, w) ensures LowHalf()(S21(x), Rotl21(w)) { LowRotate21(x, w, S21(x), Rotl21(w)); }
  }

  lemma Shift22Holds()
    ensures ShiftLaw(LowHalf(), S22, Rotl22)
  {
    forall x: bv64, w: bv32 | LowHalf()(x, w) ensures LowHalf()(S22(x), Rotl22(w)) { LowRotate22(x, w, S22(x), Rotl22(w)); }
  }

  lemma Shift23Holds()
    ensures ShiftLaw(LowHalf(), S23, Rotl23)
  {
    forall x: bv64, w: bv32 | LowHalf()(x, w) ensures LowHalf()(S23(x), Rotl23(w)) { LowRotate23(x, w, S23(x), Rotl23(w)); }
  }

  lemma LowFun1(x: bv64, y: bv64, z: bv64, u: bv32, v: bv32, w: bv32)
    requires Low(x, u) && Low(y, v) && Low(z, w)
    ensures Low(Fun1(x, y, z), F(u, v, w))
  {
    LowBits1(x, y, z, u, v, w, Fun1(x, y, z), F(u, v, w));
  }

  lemma Fun1Holds()
    ensures FunLaw(LowHalf(), Fun1, F)
  {
    forall x: bv64, y: bv64, z: bv64, u: bv32, v: bv32, w: bv32 | LowHalf()(x, u) && LowHalf()(y, v) && LowHalf()(z, w)
      ensures LowHalf()(Fun1(x, y, z), F(u, v, w))
    {
      LowFun1(x, y, z, u, v, w);
    }
  }

  lemma LowFun2(x: bv64, y: bv64, z: bv64, u: bv32, v: bv32, w: bv32)
    requires Low(x, u) && Low(y, v) && Low(z, w)
    ensures Low(Fun2(x, y, z), G(u, v, w))
  {
    LowBits2(x, y, z, u, v, w, Fun2(x, y, z), G(u, v, w));
  }

  lemma Fun2Holds()
    ensures FunLaw(LowHalf(), Fun2, G)
  {
    forall x: bv64, y: bv64, z: bv64, u: bv32, v: bv32, w: bv32 | LowHalf()(x, u) && LowHalf()(y, v) && LowHalf()(z, w)
      ensures LowHalf()(Fun2(x, y, z), G(u, v, w))
    {
      LowFun2(x, y, z, u, v, w);
    }
  }

  lemma LowFun3(x: bv64, y: bv64, z: bv64, u: bv32, v: bv32, w: bv32)
    requires Low(x, u) && Low(y, v) && Low(z, w)
    ensures Low(Fun3(x, y, z), H(u, v, w))
  {
    LowBits3(x, y, z, u, v, w, Fun3(x, y, z), H(u, v, w));
  }

  lemma Fun3Holds()
    ensures FunLaw(LowHalf(), Fun3, H)
  {
    forall x: bv64, y: bv64, z: bv64, u: bv32, v: bv32, w: bv32 | LowHalf()(x, u) && LowHalf()(y, v) && LowHalf()(z, w)
      ensures LowHalf()(Fun3(x, y, z), H(u, v, w))
    {
      LowFun3(x, y, z, u, v, w);
    }
  }

  lemma LowFun4(x: bv64, y: bv64, z: bv64, u: bv32, v: bv32, w: bv32)
    requires Low(x, u) && Low(y, v) && Low(z, w)
    ensures Low(Fun4(x, y, z), I(u, v, w))
  {
    LowBits4(x, y, z, u, v, w, Fun4(x, y, z), I(u, v, w));
  }

  lemma Fun4Holds()
    ensures FunLaw(LowHalf(), Fun4, I)
  {
    forall x: bv64, y: bv64, z: bv64, u: bv32, v: bv32, w: bv32 | LowHalf()(x, u) && LowHalf()(y, v) && LowHalf()(z, w)
      ensures LowHalf()(Fun4(x, y, z), I(u, v, w))
    {
      LowFun4(x, y, z, u, v, w);
    }
  }

  lemma InputHolds()
    ensures InputLaw(LowHalf())
  {
    forall b0: Byte, b1: Byte, b2: Byte, b3: Byte ensures LowHalf()(GetWord(b0, b1, b2, b3), WordOf(b0, b1, b2, b3)) {
      LowBytes(b0, b1, b2, b3);
    }
    forall w: bv32 ensures LowHalf()(Extend(w), w) { LowExtend(w); }
  }

  lemma OutputHolds()
    ensures OutputLaw(LowHalf())
  {
    forall x: bv64, w: bv32 | LowHalf()(x, w) ensures PutWord(x) == WordBytes(w) { LowPut(x, w); }
  }

  /** The unmasked 64-bit operations agree with 32-bit arithmetic on the lower halves. */
  lemma LowHalfLaws()
    ensures Laws(LowHalf())
  {
    AddHolds();
    Shift4Holds();
    Shift5Holds();
    Shift6Holds();
    Shift7Holds();
    Shift9Holds();
    Shift10Holds();
    Shift11Holds();
    Shift12Holds();
    Shift14Holds();
    Shift15Holds();
    Shift16Holds();
    Shift17Holds();
    Shift20Holds();
    Shift21Holds();
    Shift22Holds();
    Shift23Holds();
    Fun1Holds();
    Fun2Holds();
    Fun3Holds();
    Fun4Holds();
    InputHolds();
    OutputHolds();
  }

  // ----- md5_process

  datatype Words = Words(A: bv64, B: bv64, C: bv64, D: bv64)

  predicate Stands(rel: Relation, x: Words, h: Chaining) {
    rel(x.A, h.a) && rel(x.B, h.b) && rel(x.C, h.c) && rel(x.D, h.d)
  }

  predicate Loaded(rel: Relation, x: seq<bv64>, block: seq<Byte>) {
    |x| == 16 && |block| == 64 && forall k {:trigger x[k]} :: 0 <= k < 16 ==> rel(x[k], Word(block, k))
  }

  /** The arguments of call number i are those the definition gives to step i. */
  ghost predicate ArgsOk(rel: Relation, i: nat, k: nat, s: bv64 -> bv64, t: bv32, f: (bv64, bv64, bv64) -> bv64) {
    k == WordIndex(i) && t == T(i) && ShiftLaw(rel, s, Rotl(Shift(i))) && FunLaw(rel, f, Mix(i))
  }

  lemma Args0(rel: Relation, i: nat)
    requires Laws(rel) && i == 0
    ensures ArgsOk(rel, i, 0, S7, 0xd76aa478, Fun1) && ArgsOk(rel, i + 1, 1, S12, 0xe8c7b756, Fun1)
    ensures ArgsOk(rel, i + 2, 2, S17, 0x242070db, Fun1) && ArgsOk(rel, i + 3, 3, S22, 0xc1bdceee, Fun1)
  {
    assert T(0) == 0xd76aa478 && T(1) == 0xe8c7b756 && T(2) == 0x242070db && T(3) == 0xc1bdceee;
  }

  lemma Args1(rel: Relation, i: nat)
    requires Laws(rel) && i == 4
    ensures ArgsOk(rel, i, 4, S7, 0xf57c0faf, Fun1) && ArgsOk(rel, i + 1, 5, S12, 0x4787c62a, Fun1)
    ensures ArgsOk(rel, i + 2, 6, S17, 0xa8304613, Fun1) && ArgsOk(rel, i + 3, 7, S22, 0xfd469501, Fun1)
  {
    assert T(4) == 0xf57c0faf && T(5) == 0x4787c62a && T(6) == 0xa8304613 && T(7) == 0xfd469501;
  }

  lemma Args2(rel: Relation, i: nat)
    requires Laws(rel) && i == 8
    ensures ArgsOk(rel, i, 8, S7, 0x698098d8, Fun1) && ArgsOk(rel, i + 1, 9, S12, 0x8b44f7af, Fun1)
    ensures ArgsOk(rel, i + 2, 10, S17, 0xffff5bb1, Fun1) && ArgsOk(rel, i + 3, 11, S22, 0x895cd7be, Fun1)
  {
    assert T(8) == 0x698098d8 && T(9) == 0x8b44f7af && T(10) == 0xffff5bb1 && T(11) == 0x895cd7be;
  }

  lemma Args3(rel: Relation, i: nat)
    requires Laws(rel) && i == 12
    ensures ArgsOk(rel, i, 12, S7, 0x6b901122, Fun1) && ArgsOk(rel, i + 1, 13, S12, 0xfd987193, Fun1)
    ensures ArgsOk(rel, i + 2, 14, S17, 0xa679438e, Fun1) && ArgsOk(rel, i + 3, 15, S22, 0x49b40821, Fun1)
  {
    assert T(12) == 0x6b901122 && T(13) == 0xfd987193 && T(14) == 0xa679438e && T(15) == 0x49b40821;
  }

  lemma Args4(rel: Relation, i: nat)
    requires Laws(rel) && i == 16
    ensures ArgsOk(rel, i, 1, S5, 0xf61e2562, Fun2) && ArgsOk(rel, i + 1, 6, S9, 0xc040b340, Fun2)
    ensures ArgsOk(rel, i + 2, 11, S14, 0x265e5a51, Fun2) && ArgsOk(rel, i + 3, 0, S20, 0xe9b6c7aa, Fun2)
  {
    assert T(16) == 0xf61e2562 && T(17) == 0xc040b340 && T(18) == 0x265e5a51 && T(19) == 0xe9b6c7aa;
  }

  lemma Args5(rel: Relation, i: nat)
    requires Laws(rel) && i == 20
    ensures ArgsOk(rel, i, 5, S5, 0xd62f105d, Fun2) && ArgsOk(rel, i + 1, 10, S9, 0x02441453, Fun2)
    ensures ArgsOk(rel, i + 2, 15, S14, 0xd8a1e681, Fun2) && ArgsOk(rel, i + 3, 4, S20, 0xe7d3fbc8, Fun2)
  {
    assert T(20) == 0xd62f105d && T(21) == 0x02441453 && T(22) == 0xd8a1e681 && T(23) == 0xe7d3fbc8;
  }

  lemma Args6(rel: Relation, i: nat)
    requires Laws(rel) && i == 24
    ensures ArgsOk(rel, i, 9, S5, 0x21e1cde6, Fun2) && ArgsOk(rel, i + 1, 14, S9, 0xc33707d6, Fun2)
    ensures ArgsOk(rel, i + 2, 3, S14, 0xf4d50d87, Fun2) && ArgsOk(rel, i + 3, 8, S20, 0x455a14ed, Fun2)
  {
    assert T(24) == 0x21e1cde6 && T(25) == 0xc33707d6 && T(26) == 0xf4d50d87 && T(27) == 0x455a14ed;
  }

  lemma Args7(rel: Relation, i: nat)
    requires Laws(rel) && i == 28
    ensures ArgsOk(rel, i, 13, S5, 0xa9e3e905, Fun2) && ArgsOk(rel, i + 1, 2, S9, 0xfcefa3f8, Fun2)
    ensures ArgsOk(rel, i + 2, 7, S14, 0x676f02d9, Fun2) && ArgsOk(rel, i + 3, 12, S20, 0x8d2a4c8a, Fun2)
  {
    assert T(28) == 0xa9e3e905 && T(29) == 0xfcefa3f8 && T(30) == 0x676f02d9 && T(31) == 0x8d2a4c8a;
  }

  lemma Args8(rel: Relation, i: nat)
    requires Laws(rel) && i == 32
    ensures ArgsOk(rel, i, 5, S4, 0xfffa3942, Fun3) && ArgsOk(rel, i + 1, 8, S11, 0x8771f681, Fun3)
    ensures ArgsOk(rel, i + 2, 11, S16, 0x6d9d6122, Fun3) && ArgsOk(rel, i + 3, 14, S23, 0xfde5380c, Fun3)
  {
    assert T(32) == 0xfffa3942 && T(33) == 0x8771f681 && T(34) == 0x6d9d6122 && T(35) == 0xfde5380c;
  }

  lemma Args9(rel: Relation, i: nat)
    requires Laws(rel) && i == 36
    ensures ArgsOk(rel, i, 1, S4, 0xa4beea44, Fun3) && ArgsOk(rel, i + 1, 4, S11, 0x4bdecfa9, Fun3)
    ensures ArgsOk(rel, i + 2, 7, S16, 0xf6bb4b60, Fun3) && ArgsOk(rel, i + 3, 10, S23, 0xbebfbc70, Fun3)
  {
    assert T(36) == 0xa4beea44 && T(37) == 0x4bdecfa9 && T(38) == 0xf6bb4b60 && T(39) == 0xbebfbc70;
  }

  lemma Args10(rel: Relation, i: nat)
    requires Laws(rel) && i == 40
    ensures ArgsOk(rel, i, 13, S4, 0x289b7ec6, Fun3) && ArgsOk(rel, i + 1, 0, S11, 0xeaa127fa, Fun3)
    ensures ArgsOk(rel, i + 2, 3, S16, 0xd4ef3085, Fun3) && ArgsOk(rel, i + 3, 6, S23, 0x04881d05, Fun3)
  {
    assert T(40) == 0x289b7ec6 && T(41) == 0xeaa127fa && T(42) == 0xd4ef3085 && T(43) == 0x04881d05;
  }

  lemma Args11(rel: Relation, i: nat)
    requires Laws(rel) && i == 44
    ensures ArgsOk(rel, i, 9, S4, 0xd9d4d039, Fun3) && ArgsOk(rel, i + 1, 12, S11, 0xe6db99e5, Fun3)
    ensures ArgsOk(rel, i + 2, 15, S16, 0x1fa27cf8, Fun3) && ArgsOk(rel, i + 3, 2, S23, 0xc4ac5665, Fun3)
  {
    assert T(44) == 0xd9d4d039 && T(45) == 0xe6db99e5 && T(46) == 0x1fa27cf8 && T(47) == 0xc4ac5665;
  }

  lemma Args12(rel: Relation, i: nat)
    requires Laws(rel) && i == 48
    ensures ArgsOk(rel, i, 0, S6, 0xf4292244, Fun4) && ArgsOk(rel, i + 1, 7, S10, 0x432aff97, Fun4)
    ensures ArgsOk(rel, i + 2, 14, S15, 0xab9423a7, Fun4) && ArgsOk(rel, i + 3, 5, S21, 0xfc93a039, Fun4)
  {
    assert T(48) == 0xf4292244 && T(49) == 0x432aff97 && T(50) == 0xab9423a7 && T(51) == 0xfc93a039;
  }

  lemma Args13(rel: Relation, i: nat)
    requires Laws(rel) && i == 52
    ensures ArgsOk(rel, i, 12, S6, 0x655b59c3, Fun4) && ArgsOk(rel, i + 1, 3, S10, 0x8f0ccc92, Fun4)
    ensures ArgsOk(rel, i + 2, 10, S15, 0xffeff47d, Fun4) && ArgsOk(rel, i + 3, 1, S21, 0x85845dd1, Fun4)
  {
    assert T(52) == 0x655b59c3 && T(53) == 0x8f0ccc92 && T(54) == 0xffeff47d && T(55) == 0x85845dd1;
  }

  lemma Args14(rel: Relation, i: nat)
    requires Laws(rel) && i == 56
    ensures ArgsOk(rel, i, 8, S6, 0x6fa87e4f, Fun4) && ArgsOk(rel, i + 1, 15, S10, 0xfe2ce6e0, Fun4)
    ensures ArgsOk(rel, i + 2, 6, S15, 0xa3014314, Fun4) && ArgsOk(rel, i + 3, 13, S21, 0x4e0811a1, Fun4)
  {
    assert T(56) == 0x6fa87e4f && T(57) == 0xfe2ce6e0 && T(58) == 0xa3014314 && T(59) == 0x4e0811a1;
  }

  lemma Args15(rel: Relation, i: nat)
    requires Laws(rel) && i == 60
    ensures ArgsOk(rel, i, 4, S6, 0xf7537e82, Fun4) && ArgsOk(rel, i + 1, 11, S10, 0xbd3af235, Fun4)
    ensures ArgsOk(rel, i + 2, 2, S15, 0x2ad7d2bb, Fun4) && ArgsOk(rel, i + 3, 9, S21, 0xeb86d391, Fun4)
  {
    assert T(60) == 0xf7537e82 && T(61) == 0xbd3af235 && T(62) == 0x2ad7d2bb && T(63) == 0xeb86d391;
  }

  /** P (a, b, c, d, k, s, t) as call number i; the registers rotate with the calls. */
  method P(w: Words, x: seq<bv64>, ghost i: nat, k: nat, s: bv64 -> bv64, t: bv32, f: (bv64, bv64, bv64) -> bv64,
           ghost rel: Relation, ghost h: Chaining, ghost block: seq<Byte>) returns (r: Words)
    requires i < 64 && Loaded(rel, x, block) && Stands(rel, w, Steps(h, block, i))
    requires AddLaw(rel) && InputLaw(rel) && ArgsOk(rel, i, k, s, t, f)
    ensures Stands(rel, r, Steps(h, block, i + 1))
  {
    ghost var g := Steps(h, block, i);
    var a := Add(w.A, f(w.B, w.C, w.D));
    ghost var m := Plus(g.a, Mix(i)(g.b, g.c, g.d));
    assert rel(a, m);
    a := Add(a, x[k]);
    m := Plus(m, Word(block, k));
    assert rel(a, m);
    a := Add(a, Extend(t));
    m := Plus(m, t);
    assert rel(a, m);
    r := Words(w.D, Add(s(a), w.B), w.B, w.C);
    assert rel(Add(s(a), w.B), Plus(Rotl(Shift(i))(m), g.b));
  }

  /** Four calls in a row. */
  method PFour(w0: Words, x: seq<bv64>, ghost i: nat, k0: nat, k1: nat, k2: nat, k3: nat,
               s0: bv64 -> bv64, s1: bv64 -> bv64, s2: bv64 -> bv64, s3: bv64 -> bv64,
               t0: bv32, t1: bv32, t2: bv32, t3: bv32, f: (bv64, bv64, bv64) -> bv64,
               ghost rel: Relation, ghost h: Chaining, ghost block: seq<Byte>) returns (w: Words)
    requires i + 3 < 64 && Loaded(rel, x, block) && Stands(rel, w0, Steps(h, block, i))
    requires AddLaw(rel) && InputLaw(rel)
    requires ArgsOk(rel, i, k0, s0, t0, f) && ArgsOk(rel, i + 1, k1, s1, t1, f)
    requires ArgsOk(rel, i + 2, k2, s2, t2, f) && ArgsOk(rel, i + 3, k3, s3, t3, f)
    ensures Stands(rel, w, Steps(h, block, i + 4))
  {
    w := P(w0, x, i, k0, s0, t0, f, rel, h, block);
    w := P(w, x, i + 1, k1, s1, t1, f, rel, h, block);
    w := P(w, x, i + 2, k2, s2, t2, f, rel, h, block);
    w := P(w, x, i + 3, k3, s3, t3, f, rel, h, block);
  }

  method Round1(w0: Words, x: seq<bv64>, ghost base: nat, ghost rel: Relation, ghost h: Chaining, ghost block: seq<Byte>)
    returns (w: Words)
    requires base == 0 && Laws(rel) && Loaded(rel, x, block) && Stands(rel, w0, Steps(h, block, base))
    ensures Stands(rel, w, Steps(h, block, base + 16))
  {
    w := w0;
    Args0(rel, base);
    w := PFour(w, x, base, 0, 1, 2, 3, S7, S12, S17, S22, 0xd76aa478, 0xe8c7b756, 0x242070db, 0xc1bdceee, Fun1, rel, h, block);
    Args1(rel, base + 4);
    w := PFour(w, x, base + 4, 4, 5, 6, 7, S7, S12, S17, S22, 0xf57c0faf, 0x4787c62a, 0xa8304613, 0xfd469501, Fun1, rel, h, block);
    Args2(rel, base + 8);
    w := PFour(w, x, base + 8, 8, 9, 10, 11, S7, S12, S17, S22, 0x698098d8, 0x8b44f7af, 0xffff5bb1, 0x895cd7be, Fun1, rel, h, block);
    Args3(rel, base + 12);
    w := PFour(w, x, base + 12, 12, 13, 14, 15, S7, S12, S17, S22, 0x6b901122, 0xfd987193, 0xa679438e, 0x49b40821, Fun1, rel, h, block);
  }

  method Round2(w0: Words, x: seq<bv64>, ghost base: nat, ghost rel: Relation, ghost h: Chaining, ghost block: seq<Byte>)
    returns (w: Words)
    requires base == 16 && Laws(rel) && Loaded(rel, x, block) && Stands(rel, w0, Steps(h, block, base))
    ensures Stands(rel, w, Steps(h, block, base + 16))
  {
    w := w0;
    Args4(rel, base);
    w := PFour(w, x, base, 1, 6, 11, 0, S5, S9, S14, S20, 0xf61e2562, 0xc040b340, 0x265e5a51, 0xe9b6c7aa, Fun2, rel, h, block);
    Args5(rel, base + 4);
    w := PFour(w, x, base + 4, 5, 10, 15, 4, S5, S9, S14, S20, 0xd62f105d, 0x02441453, 0xd8a1e681, 0xe7d3fbc8, Fun2, rel, h, block);
    Args6(rel, base + 8);
    w := PFour(w, x, base + 8, 9, 14, 3, 8, S5, S9, S14, S20, 0x21e1cde6, 0xc33707d6, 0xf4d50d87, 0x455a14ed, Fun2, rel, h, block);
    Args7(rel, base + 12);
    w := PFour(w, x, base + 12, 13, 2, 7, 12, S5, S9, S14, S20, 0xa9e3e905, 0xfcefa3f8, 0x676f02d9, 0x8d2a4c8a, Fun2, rel, h, block);
  }

  method Round3(w0: Words, x: seq<bv64>, ghost base: nat, ghost rel: Relation, ghost h: Chaining, ghost block: seq<Byte>)
    returns (w: Words)
    requires base == 32 && Laws(rel) && Loaded(rel, x, block) && Stands(rel, w0, Steps(h, block, base))
    ensures Stands(rel, w, Steps(h, block, base + 16))
  {
    w := w0;
    Args8(rel, base);
    w := PFour(w, x, base, 5, 8, 11, 14, S4, S11, S16, S23, 0xfffa3942, 0x8771f681, 0x6d9d6122, 0xfde5380c, Fun3, rel, h, block);
    Args9(rel, base + 4);
    w := PFour(w, x, base + 4, 1, 4, 7, 10, S4, S11, S16, S23, 0xa4beea44, 0x4bdecfa9, 0xf6bb4b60, 0xbebfbc70, Fun3, rel, h, block);
    Args10(rel, base + 8);
    w := PFour(w, x, base + 8, 13, 0, 3, 6, S4, S11, S16, S23, 0x289b7ec6, 0xeaa127fa, 0xd4ef3085, 0x04881d05, Fun3, rel, h, block);
    Args11(rel, base + 12);
    w := PFour(w, x, base + 12, 9, 12, 15, 2, S4, S11, S16, S23, 0xd9d4d039, 0xe6db99e5, 0x1fa27cf8, 0xc4ac5665, Fun3, rel, h, block);
  }

  method Round4(w0: Words, x: seq<bv64>, ghost base: nat, ghost rel: Relation, ghost h: Chaining, ghost block: seq<Byte>)
    returns (w: Words)
    requires base == 48 && Laws(rel) && Loaded(rel, x, block) && Stands(rel, w0, Steps(h, block, base))
    ensures Stands(rel, w, Steps(h, block, base + 16))
  {
    w := w0;
    Args12(rel, base);
    w := PFour(w, x, base, 0, 7, 14, 5, S6, S10, S15, S21, 0xf4292244, 0x432aff97, 0xab9423a7, 0xfc93a039, Fun4, rel, h, block);
    Args13(rel, base + 4);
    w := PFour(w, x, base + 4, 12, 3, 10, 1, S6, S10, S15, S21, 0x655b59c3, 0x8f0ccc92, 0xffeff47d, 0x85845dd1, Fun4, rel, h, block);
    Args14(rel, base + 8);
    w := PFour(w, x, base + 8, 8, 15, 6, 13, S6, S10, S15, S21, 0x6fa87e4f, 0xfe2ce6e0, 0xa3014314, 0x4e0811a1, Fun4, rel, h, block);
    Args15(rel, base + 12);
    w := PFour(w, x, base + 12, 4, 11, 2, 9, S6, S10, S15, S21, 0xf7537e82, 0xbd3af235, 0x2ad7d2bb, 0xeb86d391, Fun4, rel, h, block);
  }

  lemma LoadedWords(rel: Relation, x: seq<bv64>, data: seq<Byte>)
    requires InputLaw(rel) && |data| == 64 && |x| == 16
    requires forall k :: 0 <= k < 16 ==> x[k] == GetWord(data[4 * k], data[4 * k + 1], data[4 * k + 2], data[4 * k + 3])
    ensures Loaded(rel, x, data)
  {
  }

  method FirstHalf(w0: Words, x: seq<bv64>, ghost base: nat, ghost mid: nat, ghost end: nat, ghost goal: Chaining,
                   ghost rel: Relation, ghost h: Chaining, ghost block: seq<Byte>) returns (w: Words)
    requires base == 0 && mid == base + 16 && end == mid + 16 && Laws(rel) && Loaded(rel, x, block)
    requires Stands(rel, w0, Steps(h, block, base)) && goal == Steps(h, block, end)
    ensures Stands(rel, w, goal)
  {
    w := Round1(w0, x, base, rel, h, block);
    w := Round2(w, x, mid, rel, h, block);
  }

  method SecondHalf(w0: Words, x: seq<bv64>, ghost base: nat, ghost mid: nat, ghost end: nat, ghost goal: Chaining,
                    ghost rel: Relation, ghost h: Chaining, ghost block: seq<Byte>) returns (w: Words)
    requires base == 32 && mid == base + 16 && end == mid + 16 && Laws(rel) && Loaded(rel, x, block)
    requires Stands(rel, w0, Steps(h, block, base)) && goal == Steps(h, block, end)
    ensures Stands(rel, w, goal)
  {
    w := Round3(w0, x, base, rel, h, block);
    w := Round4(w, x, mid, rel, h, block);
  }

  method AllRounds(w0: Words, x: seq<bv64>, ghost zero: nat, ghost half: nat, ghost end: nat, ghost rel: Relation, ghost h: Chaining,
                   ghost block: seq<Byte>) returns (w: Words)
    requires zero == 0 && half == 32 && end == 64 && Laws(rel) && Loaded(rel, x, block) && Stands(rel, w0, h)
    ensures Stands(rel, w, Steps(h, block, end))
  {
    w := FirstHalf(w0, x, zero, zero + 16, half, Steps(h, block, half), rel, h, block);
    w := SecondHalf(w, x, half, half + 16, end, Steps(h, block, end), rel, h, block);
  }

  /** md5_process: one block into the chaining words. */
  method Process(state: Words, data: seq<Byte>, ghost rel: Relation, ghost h: Chaining) returns (r: Words)
    requires Laws(rel) && |data| == 64 && Stands(rel, state, h)
    ensures Stands(rel, r, Compress(h, data))
  {
    var x := seq(16, k requires 0 <= k < 16 => GetWord(data[4 * k], data[4 * k + 1], data[4 * k + 2], data[4 * k + 3]));
    LoadedWords(rel, x, data);
    var w := AllRounds(state, x, 0, 32, |data|, rel, h, data);
    r := Words(Add(state.A, w.A), Add(state.B, w.B), Add(state.C, w.C), Add(state.D, w.D));
    Feedback(rel, state, h, w, Steps(h, data, |data|));
  }

  lemma Feedback(rel: Relation, x: Words, h: Chaining, y: Words, g: Chaining)
    requires AddLaw(rel) && Stands(rel, x, h) && Stands(rel, y, g)
    ensures Stands(rel, Words(Add(x.A, y.A), Add(x.B, y.B), Add(x.C, y.C), Add(x.D, y.D)),
                   Chaining(Plus(h.a, g.a), Plus(h.b, g.b), Plus(h.c, g.c), Plus(h.d, g.d)))
  {
  }
}
