/** Reading back what the IPv6 reader rejects: the dotted form of a mapped address. No two addresses print alike. */
module Ipv6Dotted {
  import opened Ipv6Text
  import opened Ipv6Parse
  import opened Ipv6RoundTrip

  // ----- decimal numbers

  predicate Decimal(s: string) {
    |s| > 0 && forall i :: 0 <= i < |s| ==> '0' <= s[i] <= '9'
  }

  /** The number that decimal digits stand for. */
  function DecValue(s: string): nat
    requires forall i :: 0 <= i < |s| ==> '0' <= s[i] <= '9'
  {
    if |s| == 0 then 0 else 10 * DecValue(s[..|s| - 1]) + (s[|s| - 1] as int - '0' as int)
  }

  /** A numeral without leading zeros. */
  predicate Numeral(s: string) {
    Decimal(s) && (s[0] == '0' ==> |s| == 1)
  }

  lemma DecLast(n: nat)
    ensures |Dec(n)| > 0 && Dec(n)[|Dec(n)| - 1] == Digit(n % 10)
    ensures if n < 10 then |Dec(n)| == 1 else Dec(n)[..|Dec(n)| - 1] == Dec(n / 10)
  {
  }

  /** `%d` writes a numeral that stands for its number. */
  lemma {:induction false} DecReads(n: nat)
    ensures Numeral(Dec(n)) && DecValue(Dec(n)) == n && (Dec(n)[0] == '0' <==> n == 0)
  {
    DecLast(n);
    if n >= 10 {
      DecReads(n / 10);
      assert Dec(n)[0] == Dec(n / 10)[0];
    }
  }

  lemma NoDot(s: string)
    requires Decimal(s)
    ensures '.' !in s
  {
  }

  // ----- fields

  /** The parts between the dots. */
  function Fields(s: string): (r: seq<string>)
    ensures |r| > 0
  {
    if |s| == 0 then [""]
    else if s[0] == '.' then [""] + Fields(s[1..])
    else var r := Fields(s[1..]); [[s[0]] + r[0]] + r[1..]
  }

  lemma {:induction false} LastField(a: string)
    requires '.' !in a
    ensures Fields(a) == [a]
  {
    if |a| > 0 {
      LastField(a[1..]);
      assert [a[0]] + a[1..] == a;
    }
  }

  lemma {:induction false} FirstField(a: string, rest: string, s: string)
    requires '.' !in a && s == a + "." + rest
    ensures Fields(s) == [a] + Fields(rest)
  {
    if |a| == 0 {
      assert s[0] == '.' && s[1..] == rest;
    } else {
      assert s[0] == a[0] && s[1..] == a[1..] + "." + rest;
      FirstField(a[1..], rest, s[1..]);
      var r := Fields(s[1..]);
      assert r[0] == a[1..] && r[1..] == Fields(rest);
      assert [a[0]] + a[1..] == a;
    }
  }

  lemma FourFields(a: string, b: string, c: string, d: string)
    requires Decimal(a) && Decimal(b) && Decimal(c) && Decimal(d)
    ensures Fields(a + "." + (b + "." + (c + "." + d))) == [a, b, c, d]
  {
    NoDot(a);
    NoDot(b);
    NoDot(c);
    NoDot(d);
    var cd := c + "." + d;
    var bcd := b + "." + cd;
    LastField(d);
    FirstField(c, d, cd);
    FirstField(b, cd, bcd);
    FirstField(a, bcd, a + "." + bcd);
  }

  /** The text is these bytes as numerals with dots between them. */
  predicate Quad(s: string, bs: seq<byte>) {
    var f := Fields(s);
    |f| == |bs| && forall i :: 0 <= i < |f| ==> Numeral(f[i]) && DecValue(f[i]) == bs[i]
  }

  lemma QuadIs(a: byte, b: byte, c: byte, d: byte)
    ensures Quad(Dec(a) + "." + (Dec(b) + "." + (Dec(c) + "." + Dec(d))), [a, b, c, d])
  {
    DecReads(a);
    DecReads(b);
    DecReads(c);
    DecReads(d);
    FourFields(Dec(a), Dec(b), Dec(c), Dec(d));
  }

  lemma DottedText(g: seq<Group>)
    requires |g| == 8
    ensures |Dotted(g)| >= 7 && Dotted(g)[..7] == "::ffff:"
    ensures Dotted(g)[7..] == Dec(g[6] / 256) + "." + (Dec(g[6] % 256) + "." + (Dec(g[7] / 256) + "." + Dec(g[7] % 256)))
  {
    Dots(Dec(g[6] / 256), Dec(g[6] % 256), Dec(g[7] / 256), Dec(g[7] % 256));
  }

  lemma Dots(a: string, b: string, c: string, d: string)
    ensures var s := "::ffff:" + a + "." + b + "." + c + "." + d;
            s[..7] == "::ffff:" && s[7..] == a + "." + (b + "." + (c + "." + d))
  {
  }

  // ----- addresses

  lemma GroupBytes(b: seq<byte>)
    requires |b| == 16
    ensures Groups(b)[6] == Pair(b[12], b[13]) && Groups(b)[7] == Pair(b[14], b[15])
  {
    var c := b[..14];
    assert Groups(b) == Groups(c) + [Pair(b[14], b[15])];
    assert Groups(c) == Groups(c[..12]) + [Pair(c[12], c[13])];
  }

  lemma MappedText(g: seq<Group>, buf: string)
    requires |g| == 8 && Mapped(g) && PrintedAs(g, buf)
    ensures buf == Dotted(g)
  {
    var gap: Gap :| FirstLongest(g, gap) && gap.l <= gap.k <= 8 && buf == Print(g, gap);
    MappedGap(g, gap);
    assert g[5] != 0 && !AllZero(g);
  }

  lemma DottedQuad(b: seq<byte>, g: seq<Group>, buf: string)
    requires |b| == 16 && g == Groups(b) && buf == Dotted(g)
    ensures |buf| >= 7 && buf[..7] == "::ffff:" && Quad(buf[7..], b[12..16])
  {
    DottedText(g);
    GroupBytes(b);
    PairParts(b[12], b[13]);
    PairParts(b[14], b[15]);
    QuadIs(b[12], b[13], b[14], b[15]);
    assert b[12..16] == [b[12], b[13], b[14], b[15]];
  }

  /** A mapped address prints as its last four bytes, in order, in decimal, after "::ffff:". */
  lemma MappedPrints(b: seq<byte>, buf: string)
    requires |b| == 16 && Mapped(Groups(b)) && PrintedAs(Groups(b), buf)
    ensures |buf| >= 7 && buf[..7] == "::ffff:" && Quad(buf[7..], b[12..16])
  {
    MappedText(Groups(b), buf);
    DottedQuad(b, Groups(b), buf);
  }

  lemma QuadUnique(s: string, x: seq<byte>, y: seq<byte>)
    requires Quad(s, x) && Quad(s, y)
    ensures x == y
  {
    forall i | 0 <= i < |x| ensures x[i] == y[i] { assert DecValue(Fields(s)[i]) == x[i]; }
  }

  lemma MappedFromEnd(b: seq<byte>, c: seq<byte>)
    requires |b| == |c| == 16 && Mapped(Groups(b)) && Mapped(Groups(c))
    requires b[12] == c[12] && b[13] == c[13] && b[14] == c[14] && b[15] == c[15]
    ensures b == c
  {
    GroupBytes(b);
    GroupBytes(c);
    SameMapped(Groups(b), Groups(c));
    BytesOfGroups(b);
    BytesOfGroups(c);
  }

  lemma SameMapped(g: seq<Group>, h: seq<Group>)
    requires |g| == |h| == 8 && Mapped(g) && Mapped(h) && g[6] == h[6] && g[7] == h[7]
    ensures g == h
  {
  }

  lemma LastFour(b: seq<byte>, c: seq<byte>)
    requires |b| == |c| == 16 && b[12..16] == c[12..16]
    ensures b[12] == c[12] && b[13] == c[13] && b[14] == c[14] && b[15] == c[15]
  {
    forall i | 12 <= i < 16 ensures b[i] == c[i] { assert b[12..16][i - 12] == b[i] && c[12..16][i - 12] == c[i]; }
  }

  /** Two different addresses never print alike. */
  lemma PrintsApart(b: seq<byte>, c: seq<byte>, buf: string)
    requires |b| == |c| == 16 && PrintedAs(Groups(b), buf) && PrintedAs(Groups(c), buf)
    ensures b == c
  {
    AddressRoundTrip(b, buf);
    AddressRoundTrip(c, buf);
    if Mapped(Groups(b)) && Mapped(Groups(c)) {
      MappedPrints(b, buf);
      MappedPrints(c, buf);
      QuadUnique(buf[7..], b[12..16], c[12..16]);
      LastFour(b, c);
      MappedFromEnd(b, c);
    }
  }
}
