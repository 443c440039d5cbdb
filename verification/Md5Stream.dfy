/**
 * The streaming part of src/common/md5.c: the context with its 64-byte buffer and its length, fed
 * piece by piece. However the input is cut, the digest is that of the whole message.
 */
module Md5Stream {
  import opened Md5Spec
  import opened Md5Code

  // ----- lengths

  /** Where the whole blocks of a message end. */
  function Whole(len: nat): (r: nat)
    ensures r <= len && r % 64 == 0 && len - r == len % 64
  {
    len - len % 64
  }

  /** f is the compression function; instances are made where Compress is mentioned. */
  ghost predicate IsCompression(f: BlockStep) {
    forall h: Chaining, b: seq<Byte> {:trigger Compress(h, b)} :: |b| == 64 ==> f(h, b) == Compress(h, b)
  }

  lemma {:induction false} FoldSame(f: BlockStep, g: BlockStep, h: Chaining, m: seq<Byte>)
    requires forall k: Chaining, b: seq<Byte> {:trigger f(k, b)} :: |b| == 64 ==> f(k, b) == g(k, b)
    ensures Fold(f, h, m) == Fold(g, h, m)
    decreases |m|
  {
    if |m| >= 64 { FoldSame(f, g, h, m[..|m| - 64]); }
  }

  lemma FoldIsChain(f: BlockStep, m: seq<Byte>)
    requires IsCompression(f)
    ensures Fold(f, INITIAL, m) == Chain(m)
  {
    forall k: Chaining, b: seq<Byte> | |b| == 64 ensures f(k, b) == Compression()(k, b) { assert f(k, b) == Compress(k, b); }
    FoldSame(f, Compression(), INITIAL, m);
  }

  // ----- the length in the last block

  /** PUT_ULONG_LE: the four low bytes of a number, lowest first. */
  function FourBytes(n: nat): (r: seq<Byte>)
    ensures |r| == 4
  {
    [ByteOf(n), ByteOf(n / 0x100), ByteOf(n / 0x1_0000), ByteOf(n / 0x100_0000)]
  }

  /** `low` of md5_finish as PUT_ULONG_LE writes it: four bytes of eight times total[0]. */
  function LowLength(total0: nat): (r: seq<Byte>)
    ensures |r| == 4
  {
    FourBytes(8 * total0)
  }

  /** `high`: the three bits above, and eight times total[1]; the two parts share no bit. */
  function HighLength(total0: nat, total1: nat): (r: seq<Byte>)
    ensures |r| == 4
  {
    FourBytes(total0 / 0x2000_0000 + 8 * total1)
  }

  /** Multiples of 2^32 do not show in the low bytes. */
  lemma LowByte(k: nat, a: nat, n: nat)
    requires n == 0x1_0000_0000 * k + a
    ensures n % 256 == a % 256 && n / 0x100 % 256 == a / 0x100 % 256
    ensures n / 0x1_0000 % 256 == a / 0x1_0000 % 256 && n / 0x100_0000 % 256 == a / 0x100_0000 % 256
  {
    ByteShift(n, a, 0x100_0000 * k);
    ByteShift(n / 0x100, a / 0x100, 0x1_0000 * k);
    ByteShift(n / 0x1_0000, a / 0x1_0000, 0x100 * k);
    ByteShift(n / 0x100_0000, a / 0x100_0000, k);
  }

  lemma ByteShift(n: nat, a: nat, k: nat)
    requires n == 256 * k + a
    ensures n % 256 == a % 256
  {
  }

  lemma LengthSplit(len: nat, total0: nat, total1: nat)
    requires total0 == len % 0x1_0000_0000 && total1 == len / 0x1_0000_0000
    ensures LengthBytes(len) == LowLength(total0) + HighLength(total0, total1)
  {
    var n, h := 8 * len, total0 / 0x2000_0000 + 8 * total1;
    LowFour(8 * total1, 8 * total0, n);
    HighFour(n, total0, total1, h);
    TwoHalves(len, n);
  }

  /** The next four bytes. */
  function UpperBytes(n: nat): (r: seq<Byte>)
    ensures |r| == 4
  {
    [ByteOf(n / 0x1_0000_0000), ByteOf(n / 0x100_0000_0000), ByteOf(n / 0x1_0000_0000_0000), ByteOf(n / 0x100_0000_0000_0000)]
  }

  lemma TwoHalves(len: nat, n: nat)
    requires n == 8 * len
    ensures LengthBytes(len) == FourBytes(n) + UpperBytes(n)
  {
  }

  lemma LowFour(k: nat, a: nat, n: nat)
    requires n == 0x1_0000_0000 * k + a
    ensures FourBytes(n) == FourBytes(a)
  {
    LowByte(k, a, n);
  }

  lemma HighFour(n: nat, total0: nat, total1: nat, h: nat)
    requires n == 8 * (0x1_0000_0000 * total1 + total0) && h == total0 / 0x2000_0000 + 8 * total1 && total0 < 0x1_0000_0000
    ensures UpperBytes(n) == FourBytes(h)
  {
    HighPart(n, total0, total1, h);
  }

  lemma HighPart(n: nat, total0: nat, total1: nat, h: nat)
    requires n == 8 * (0x1_0000_0000 * total1 + total0) && h == total0 / 0x2000_0000 + 8 * total1 && total0 < 0x1_0000_0000
    ensures n / 0x1_0000_0000 == h && n / 0x100_0000_0000 == h / 0x100
    ensures n / 0x1_0000_0000_0000 == h / 0x1_0000 && n / 0x100_0000_0000_0000 == h / 0x100_0000
  {
    var r := 8 * (total0 % 0x2000_0000);
    assert n == 0x1_0000_0000 * h + r && r < 0x1_0000_0000;
    assert n / 0x1_0000_0000 == h;
  }

  // ----- the context

  /** One more whole block of the message. */
  lemma NextBlock(f: BlockStep, m: seq<Byte>, d: nat, block: seq<Byte>)
    requires d + 64 <= |m| && block == m[d..d + 64]
    ensures Fold(f, INITIAL, m[..d + 64]) == f(Fold(f, INITIAL, m[..d]), block)
  {
    var p := m[..d + 64];
    assert p[..|p| - 64] == m[..d] && p[|p| - 64..] == block;
  }

  lemma LowSixBits(len: nat)
    ensures len % 0x1_0000_0000 % 64 == len % 64
  {
    var q, r := len / 0x1_0000_0000, len % 0x1_0000_0000;
    assert len == 64 * (0x400_0000 * q) + r;
  }

  /** The carry test of md5_update: the low word has become smaller than what was added exactly when it overflowed. */
  lemma Carry(len: nat, n: nat, t0: nat, t1: nat)
    requires n < 0x8000_0000 && t0 == len % 0x1_0000_0000 && t1 == len / 0x1_0000_0000
    ensures var s := (t0 + n) % 0x1_0000_0000;
            s == (len + n) % 0x1_0000_0000 && t1 + (if s < n then 1 else 0) == (len + n) / 0x1_0000_0000
  {
    assert len == 0x1_0000_0000 * t1 + t0;
    if t0 + n < 0x1_0000_0000 {
      Unique(len + n, t1, t0 + n);
    } else {
      Unique(len + n, t1 + 1, t0 + n - 0x1_0000_0000);
    }
  }

  lemma Unique(n: nat, q: nat, r: nat)
    requires n == 0x1_0000_0000 * q + r && r < 0x1_0000_0000
    ensures n / 0x1_0000_0000 == q && n % 0x1_0000_0000 == r
  {
  }

  class Context {
    var total0: nat
    var total1: nat
    var state: Words
    const buffer: array<Byte>
    ghost var msg: seq<Byte>      // what has been fed in so far
    ghost const rel: Relation     // how the words of `state` are to be read
    ghost const f: BlockStep      // the compression function

    /** The state stands for the chaining value after the first d bytes of m. */
    ghost predicate Reached(m: seq<Byte>, d: nat)
      reads this
    {
      d <= |m| && d % 64 == 0 && Stands(rel, state, Fold(f, INITIAL, m[..d]))
    }

    ghost predicate Counted(n: nat)
      reads this
    {
      total0 == n % 0x1_0000_0000 && total1 == n / 0x1_0000_0000
    }

    ghost predicate Valid()
      reads this, buffer
    {
      && buffer.Length == 64 && Laws(rel) && IsCompression(f) && Counted(|msg|) && Reached(msg, Whole(|msg|))
      && buffer[..|msg| % 64] == msg[Whole(|msg|)..]
    }

    /** md5_starts. */
    constructor ()
      ensures Valid() && msg == [] && fresh(buffer)
    {
      total0, total1 := 0, 0;
      state := Words(Extend(0x67452301), Extend(0xefcdab89), Extend(0x98badcfe), Extend(0x10325476));
      buffer := new Byte[64](_ => 0);
      msg := [];
      rel, f := LowHalf(), Compression();
      new;
      LowHalfLaws();
    }

    /** md5_process on the block at d of the message m. */
    method Absorb(data: seq<Byte>, ghost m: seq<Byte>, ghost d: nat)
      requires Laws(rel) && IsCompression(f) && Reached(m, d) && d + 64 <= |m| && data == m[d..d + 64]
      modifies this`state
      ensures Reached(m, d + 64)
    {
      NextBlock(f, m, d, data);
      ghost var h := Fold(f, INITIAL, m[..d]);
      state := Process(state, data, rel, h);
      assert f(h, data) == Compress(h, data);
    }

    /** The loop of md5_update: whole blocks straight from the input. */
    method Blocks(input: seq<Byte>, start: nat, ghost m: seq<Byte>, ghost d0: nat) returns (pos: nat, ghost d: nat)
      requires Laws(rel) && IsCompression(f) && start <= |input| && Reached(m, d0) && m[d0..] == input[start..] && d0 <= |m|
      modifies this`state
      ensures start <= pos <= |input| < pos + 64 && d == d0 + (pos - start) && Reached(m, d) && m[d..] == input[pos..]
    {
      pos, d := start, d0;
      while |input| - pos >= 64
        invariant start <= pos <= |input| && d == d0 + (pos - start) && Reached(m, d) && m[d..] == input[pos..]
      {
        assert m[d..d + 64] == m[d..][..64] == input[pos..][..64] == input[pos..pos + 64];
        Absorb(input[pos..pos + 64], m, d);
        assert m[d + 64..] == m[d..][64..] && input[pos + 64..] == input[pos..][64..];
        pos, d := pos + 64, d + 64;
      }
    }

    /** `memcpy (ctx->buffer + left, data, n)`. */
    method CopyIn(data: seq<Byte>, left: nat)
      requires left + |data| <= 64 == buffer.Length
      modifies buffer
      ensures buffer[..left + |data|] == old(buffer[..left]) + data
    {
      forall i | 0 <= i < |data| { buffer[left + i] := data[i]; }
    }

    /** The part of md5_update that completes the block in the buffer. */
    method CompleteBlock(input: seq<Byte>, left: nat, ghost m: seq<Byte>, ghost d: nat)
      requires Laws(rel) && IsCompression(f) && buffer.Length == 64 && 0 < left < 64 && 64 - left <= |input| && Reached(m, d)
      requires m[d..] == buffer[..left] + input
      modifies this`state, buffer
      ensures Reached(m, d + 64) && m[d + 64..] == input[64 - left..]
    {
      var fill := 64 - left;
      CopyIn(input[..fill], left);
      ghost var before := old(buffer[..left]);
      assert m[d..d + 64] == m[d..][..64] == before + input[..fill];
      assert buffer[..] == buffer[..64];
      Absorb(buffer[..], m, d);
      assert m[d + 64..] == m[d..][64..] == input[fill..];
    }

    /** md5_update: any piece of input, of any length an int can give. */
    method Update(input: seq<Byte>, ilen: int)
      requires Valid() && ilen <= |input| && ilen < 0x8000_0000
      modifies this`total0, this`total1, this`state, this`msg, buffer
      ensures Valid() && msg == old(msg) + (if ilen > 0 then input[..ilen] else [])
    {
      if ilen <= 0 {
        assert msg == old(msg) + [];
        return;
      }
      var data := input[..ilen];
      ghost var m := msg + data;
      var left := AddLength(ilen, |msg|, |m|);
      Lengthen(data, left, m);
      msg := m;
    }

    /** The buffer and the chaining words, from the message so far to a longer one. */
    method Lengthen(data: seq<Byte>, left: nat, ghost m: seq<Byte>)
      requires Laws(rel) && IsCompression(f) && buffer.Length == 64 && left == |msg| % 64 && m == msg + data
      requires Reached(msg, Whole(|msg|)) && buffer[..left] == msg[Whole(|msg|)..]
      modifies this`state, buffer
      ensures Reached(m, Whole(|m|)) && buffer[..|m| % 64] == m[Whole(|m|)..]
    {
      Cut(msg, data, Whole(|msg|));
      Feed(data, left, m, Whole(|msg|));
    }

    /** `left = total[0] & 0x3f`, then the length goes up with carry. */
    method AddLength(ilen: nat, ghost n: nat, ghost total: nat) returns (left: nat)
      requires Counted(n) && ilen < 0x8000_0000 && total == n + ilen
      modifies this`total0, this`total1
      ensures left == n % 64 && Counted(total)
    {
      LowSixBits(n);
      Carry(n, ilen, total0, total1);
      left := total0 % 64;
      total0 := (total0 + ilen) % 0x1_0000_0000;
      if total0 < ilen { total1 := total1 + 1; }
    }

    /** The rest of md5_update: from the bytes in the buffer and the input to the new state and buffer. */
    method Feed(data: seq<Byte>, left: nat, ghost m: seq<Byte>, ghost d: nat)
      requires Laws(rel) && IsCompression(f) && buffer.Length == 64 && left < 64 && Reached(m, d) && m[d..] == buffer[..left] + data
      modifies this`state, buffer
      ensures Reached(m, Whole(|m|)) && buffer[..|m| % 64] == m[Whole(|m|)..]
    {
      if left > 0 && |data| < 64 - left {
        assert |m| == d + left + |data|;
        AtWhole(|m|, d);
        CopyIn(data, left);
      } else if left > 0 {
        CompleteBlock(data, left, m, d);
        FeedBlocks(data, 64 - left, m, d + 64);
      } else {
        assert buffer[..0] + data == data && data[0..] == data;
        FeedBlocks(data, 0, m, d);
      }
    }

    /** Whole blocks from the input, then what is left into the buffer. */
    method FeedBlocks(data: seq<Byte>, start: nat, ghost m: seq<Byte>, ghost d: nat)
      requires Laws(rel) && IsCompression(f) && buffer.Length == 64 && start <= |data| && Reached(m, d) && m[d..] == data[start..]
      modifies this`state, buffer
      ensures Reached(m, Whole(|m|)) && buffer[..|m| % 64] == m[Whole(|m|)..]
    {
      var pos, e := Blocks(data, start, m, d);
      KeepRest(data[pos..], m, e);
    }

    /** The bytes after the last whole block go to the front of the buffer. */
    method KeepRest(rest: seq<Byte>, ghost m: seq<Byte>, ghost d: nat)
      requires buffer.Length == 64 && |rest| < 64 && Reached(m, d) && m[d..] == rest
      modifies buffer
      ensures Reached(m, Whole(|m|)) && buffer[..|m| % 64] == m[Whole(|m|)..]
    {
      assert |m| == d + |rest|;
      AtWhole(|m|, d);
      CopyIn(rest, 0);
      assert buffer[..|rest|] == rest;
    }

    /** md5_update with all of a short input. */
    method Append(input: seq<Byte>)
      requires Valid() && |input| < 0x8000_0000
      modifies this`total0, this`total1, this`state, this`msg, buffer
      ensures Valid() && msg == old(msg) + input
    {
      Update(input, |input|);
      assert input[..|input|] == input;
    }

    /** md5_finish: the digest of everything that was fed in. */
    method Finish() returns (output: seq<Byte>)
      requires Valid()
      modifies this`total0, this`total1, this`state, this`msg, buffer
      ensures output == Digest(old(msg))
    {
      ghost var m := msg;
      var padding, msglen := FinalBytes(total0, total1, |m|);
      Append(padding);
      Append(msglen);
      ghost var whole := Padded(m);
      assert msg == whole && msg[..Whole(|msg|)] == msg;
      FoldIsChain(f, msg);
      output := PutWord(state.A) + PutWord(state.B) + PutWord(state.C) + PutWord(state.D);
    }
  }

  /** The bytes that md5_finish appends: padding, then the length of the message in bits. */
  method FinalBytes(total0: nat, total1: nat, ghost n: nat) returns (padding: seq<Byte>, msglen: seq<Byte>)
    requires total0 == n % 0x1_0000_0000 && total1 == n / 0x1_0000_0000
    ensures |padding| <= 64 && |msglen| == 8
    ensures forall m: seq<Byte> {:trigger Padded(m)} :: |m| == n ==> m + padding + msglen == Padded(m)
  {
    LengthSplit(n, total0, total1);
    msglen := LowLength(total0) + HighLength(total0, total1);
    LowSixBits(n);
    var last := total0 % 64;
    var padn := if last < 56 then 56 - last else 120 - last;
    padding := Padding(64)[..padn];
    assert padding == Padding(PadLength(n));
  }

  function Concat(pieces: seq<seq<Byte>>): seq<Byte> {
    if |pieces| == 0 then [] else Concat(pieces[..|pieces| - 1]) + pieces[|pieces| - 1]
  }

  /** Whatever pieces the input comes in, also empty ones, the digest is that of their concatenation. */
  method DigestOfPieces(pieces: seq<seq<Byte>>) returns (output: seq<Byte>)
    requires forall i :: 0 <= i < |pieces| ==> |pieces[i]| < 0x8000_0000
    ensures output == Digest(Concat(pieces))
  {
    var ctx := new Context();
    for i := 0 to |pieces|
      invariant ctx.Valid() && fresh(ctx) && fresh(ctx.buffer) && ctx.msg == Concat(pieces[..i])
    {
      ghost var before := ctx.msg;
      ctx.Append(pieces[i]);
      assert ctx.msg == before + pieces[i];
      assert pieces[..i + 1][..i] == pieces[..i];
    }
    assert pieces[..|pieces|] == pieces;
    output := ctx.Finish();
  }

  lemma Cut(a: seq<Byte>, b: seq<Byte>, d: nat)
    requires d <= |a|
    ensures (a + b)[..d] == a[..d] && (a + b)[d..] == a[d..] + b
  {
  }

  /** The end of the whole blocks, recognised by its distance from the end. */
  lemma AtWhole(len: nat, d: nat)
    requires d <= len < d + 64 && d % 64 == 0
    ensures Whole(len) == d && len % 64 == len - d
  {
  }
}
