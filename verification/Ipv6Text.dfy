/** The text of an IPv6 address as src/net/net-events.c prints it, and the reading of src/mtproto/mtproto-proxy-http.c. */
module Ipv6Text {

  type byte = x: int | 0 <= x < 256
  type Group = x: int | 0 <= x < 0x1_0000

  // ----- digits

  function Digit(d: int): char
    requires 0 <= d < 16
  {
    "0123456789abcdef"[d]
  }

  /** `%x`. */
  function Hex(n: nat): string {
    if n < 16 then [Digit(n)] else Hex(n / 16) + [Digit(n % 16)]
  }

  /** `%d`. */
  function Dec(n: nat): string {
    if n < 10 then [Digit(n)] else Dec(n / 10) + [Digit(n % 10)]
  }

  predicate IsHex(c: char) {
    '0' <= c <= '9' || 'A' <= c <= 'F' || 'a' <= c <= 'f'
  }

  /** The digits that `%x` and `%d` write. */
  predicate Lower(c: char) {
    '0' <= c <= '9' || 'a' <= c <= 'f'
  }

  function HexValue(c: char): int
    requires IsHex(c)
  {
    if c <= '9' then c as int - '0' as int else if c <= 'F' then c as int - 'A' as int + 10 else c as int - 'a' as int + 10
  }

  lemma DigitIsHex(d: int)
    requires 0 <= d < 16
    ensures IsHex(Digit(d)) && HexValue(Digit(d)) == d && Lower(Digit(d))
  {
  }

  // ----- printing

  /** The zero block that is compressed: groups k-l .. k-1 (none when l is 0). */
  datatype Gap = Gap(l: nat, k: nat)

  /** Groups from..to-1 are zero. */
  predicate Zeros(g: seq<Group>, from: nat, to: nat) {
    from <= to <= |g| && forall i :: from <= i < to ==> g[i] == 0
  }

  /** A block of zero groups that ends right before a non-zero group. */
  predicate Block(g: seq<Group>, l: nat, k: nat) {
    l <= k < |g| && Zeros(g, k - l, k) && g[k] != 0
  }

  /** The longest such block, and the first of that length. */
  ghost predicate FirstLongest(g: seq<Group>, gap: Gap) {
    && (gap.l > 0 ==> Block(g, gap.l, gap.k))
    && (forall l: nat, k: nat :: Block(g, l, k) ==> l <= gap.l)
    && (forall l: nat, k: nat :: Block(g, l, k) && l == gap.l && l > 0 ==> gap.k <= k)
  }

  predicate AllZero(g: seq<Group>) {
    Zeros(g, 0, |g|)
  }

  /** The form that is printed with a dotted tail. */
  predicate Mapped(g: seq<Group>)
    requires |g| == 8
  {
    Zeros(g, 0, 5) && g[5] == 0xffff
  }

  /** ":x" for each group. */
  function Tail(g: seq<Group>): string {
    if |g| == 0 then "" else ":" + Hex(g[0]) + Tail(g[1..])
  }

  /** "x:" for each group. */
  function Lead(g: seq<Group>): string {
    if |g| == 0 then "" else Lead(g[..|g| - 1]) + Hex(g[|g| - 1]) + ":"
  }

  function Dotted(g: seq<Group>): string
    requires |g| == 8
  {
    "::ffff:" + Dec(g[6] / 256) + "." + Dec(g[6] % 256) + "." + Dec(g[7] / 256) + "." + Dec(g[7] % 256)
  }

  function Print(g: seq<Group>, gap: Gap): string
    requires |g| == 8 && gap.l <= gap.k <= 8
  {
    if AllZero(g) then "::"
    else if gap.l == 5 && g[5] == 0xffff then Dotted(g)
    else if gap.l > 0 then Lead(g[..gap.k - gap.l]) + (if gap.k == gap.l then ":" else "") + Tail(g[gap.k..])
    else Lead(g[..7]) + Hex(g[7])
  }

  /** The first loop of conv_ipv6_internal. */
  method FindGap(g: seq<Group>) returns (j: nat, gap: Gap)
    requires |g| == 8
    ensures FirstLongest(g, gap) && gap.l <= gap.k <= 8
    ensures j == 8 <==> AllZero(g)
  {
    var k, l := 0, 0;
    j := 0;
    for i := 0 to 8
      invariant j <= i && Zeros(g, i - j, i) && (j < i ==> g[i - j - 1] != 0)
      invariant l <= k <= i && (l > 0 ==> k < 8 && Block(g, l, k))
      invariant forall m: nat, e: nat :: e < i && Block(g, m, e) ==> m <= l
      invariant forall m: nat, e: nat :: e < i && Block(g, m, e) && m == l && m > 0 ==> k <= e
    {
      if g[i] != 0 {
        assert forall m: nat :: Block(g, m, i) ==> m <= j;
        if j > l {
          l := j;
          k := i;
        }
        j := 0;
      } else {
        j := j + 1;
      }
    }
    gap := Gap(l, k);
  }

  /** The text leaves out the first longest block of zeros that ends before the last group. */
  ghost predicate PrintedAs(g: seq<Group>, buf: string)
    requires |g| == 8
  {
    exists gap: Gap :: FirstLongest(g, gap) && gap.l <= gap.k <= 8 && buf == Print(g, gap)
  }

  /** conv_ipv6_internal, on the eight groups in network order. */
  method ConvIpv6(g: seq<Group>) returns (buf: string)
    requires |g| == 8
    ensures PrintedAs(g, buf)
  {
    var j, gap := FindGap(g);
    var l, k := gap.l, gap.k;
    if j == 8 {
      buf := "::";
    } else if l == 5 && g[5] == 0xffff {
      buf := "::ffff:" + Dec(g[6] / 256) + "." + Dec(g[6] % 256) + "." + Dec(g[7] / 256) + "." + Dec(g[7] % 256);
    } else if l > 0 {
      buf := PrintGap(g, l, k);
    } else {
      buf := PrintLead(g, 7);
      buf := buf + Hex(g[7]);
    }
    assert buf == Print(g, gap);
  }

  /** The loop that writes "%x:" for the first `n` groups. */
  method PrintLead(g: seq<Group>, n: nat) returns (buf: string)
    requires n <= |g|
    ensures buf == Lead(g[..n])
  {
    buf := "";
    for i := 0 to n
      invariant buf == Lead(g[..i])
    {
      assert g[..i + 1][..i] == g[..i];
      buf := buf + Hex(g[i]) + ":";
    }
  }

  /** The branch that leaves out the groups k-l .. k-1. */
  method PrintGap(g: seq<Group>, l: nat, k: nat) returns (buf: string)
    requires |g| == 8 && 0 < l <= k < 8
    ensures buf == Lead(g[..k - l]) + (if k == l then ":" else "") + Tail(g[k..])
  {
    buf := PrintLead(g, k - l);
    assert Lead(g[..k - l]) + "" == Lead(g[..k - l]);
    if k - l == 0 || k == 8 { buf := buf + ":"; }
    buf := PrintTail(buf, g, k);
  }

  /** The loop that writes ":%x" for the groups from `k` on. */
  method PrintTail(head: string, g: seq<Group>, k: nat) returns (buf: string)
    requires k <= |g|
    ensures buf == head + Tail(g[k..])
  {
    buf := head;
    for i := k to |g|
      invariant head + Tail(g[k..]) == buf + Tail(g[i..])
    {
      assert g[i..][1..] == g[i + 1..];
      assert buf + (":" + Hex(g[i]) + Tail(g[i + 1..])) == (buf + ":" + Hex(g[i])) + Tail(g[i + 1..]);
      buf := buf + ":" + Hex(g[i]);
    }
    assert buf + Tail(g[|g|..]) == buf;
  }
}
