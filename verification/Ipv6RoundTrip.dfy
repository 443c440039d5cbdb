/** Reading back what was printed: printed texts are texts of the grammar. */
module Ipv6RoundTrip {
  import opened Ipv6Text
  import opened Ipv6Parse
  import opened Ipv6Grammar

  // ----- the words of a printed text

  lemma HexLast(n: nat)
    ensures |Hex(n)| > 0 && Hex(n)[|Hex(n)| - 1] == Digit(n % 16)
    ensures if n < 16 then |Hex(n)| == 1 else Hex(n)[..|Hex(n)| - 1] == Hex(n / 16)
  {
  }

  /** A printed group is a word without leading zeros, and its number is the group. */
  lemma {:induction false} HexIsWord(n: nat, d: nat)
    requires d <= 4 && n < Power16(d) && d > 0
    ensures |Hex(n)| <= d && Word(Hex(n)) && Number(Hex(n)) == n && (Hex(n)[0] == '0' <==> n == 0)
  {
    HexLast(n);
    DigitIsHex(n % 16);
    if n >= 16 {
      HexIsWord(n / 16, d - 1);
      assert Hex(n)[0] == Hex(n / 16)[0];
    }
  }

  function Printed(g: seq<Group>): (ws: seq<string>)
    ensures |ws| == |g|
  {
    seq(|g|, i requires 0 <= i < |g| => Hex(g[i]))
  }

  lemma PrintedWords(g: seq<Group>)
    ensures Words(Printed(g)) && Numbers(Printed(g)) == g
  {
    forall i | 0 <= i < |g| ensures Word(Hex(g[i])) && Number(Hex(g[i])) == g[i] { HexIsWord(g[i], 4); }
  }

  /** The first word and the rest. */
  lemma TextStep(g: seq<Group>, x: Group, r: seq<Group>, i: nat, k: int, t: string)
    requires g == [x] + r && t == Text(Printed(r), i + 1, k)
    ensures Text(Printed(g), i, k) == Mark(i, k) + (Hex(x) + t)
  {
    assert Printed(g)[1..] == Printed(r);
  }

  lemma {:induction false} TailText(r: seq<Group>, i: nat, k: int)
    requires i > 0 && k < i
    ensures Text(Printed(r), i, k) == Tail(r)
  {
    if |r| > 0 {
      TailText(r[1..], i + 1, k);
      TextStep(r, r[0], r[1..], i, k, Tail(r[1..]));
      Joined(":", Hex(r[0]), Tail(r[1..]));
    }
  }

  lemma Joined(x: string, y: string, z: string)
    ensures x + (y + z) == x + y + z
  {
  }

  /** "::" before the groups. */
  lemma DoubleText(b: seq<Group>, i: nat)
    requires |b| > 0
    ensures Text(Printed(b), i, i) == ":" + Tail(b)
  {
    TailText(b[1..], i + 1, i);
    TextStep(b, b[0], b[1..], i, i, Tail(b[1..]));
    Doubled(Hex(b[0]), Tail(b[1..]));
  }

  lemma Doubled(x: string, y: string)
    ensures "::" + (x + y) == ":" + (":" + x + y)
  {
  }

  /** Groups, "::" and more groups. */
  lemma {:induction false} GapText(a: seq<Group>, b: seq<Group>, i: nat, k: nat, all: seq<Group>)
    requires i > 0 && |b| > 0 && all == a + b && k == i + |a|
    ensures Text(Printed(all), i, k) == Tail(a) + (":" + Tail(b))
    decreases |a|
  {
    if |a| == 0 {
      assert all == b;
      DoubleText(b, i);
    } else {
      var r := a[1..] + b;
      assert all == [a[0]] + r;
      GapText(a[1..], b, i + 1, k, r);
      TextStep(all, a[0], r, i, k, Tail(a[1..]) + (":" + Tail(b)));
      Regrouped(Hex(a[0]), Tail(a[1..]), ":" + Tail(b));
    }
  }

  lemma Regrouped(x: string, y: string, z: string)
    ensures ":" + (x + (y + z)) == (":" + x + y) + z
  {
  }

  // ----- the printed forms

  lemma {:induction false} TailSnoc(b: seq<Group>, x: Group)
    ensures Tail(b + [x]) == Tail(b) + ":" + Hex(x)
  {
    if |b| == 0 {
      assert b + [x] == [x];
      assert [x][1..] == [];
    } else {
      assert (b + [x])[1..] == b[1..] + [x];
      TailSnoc(b[1..], x);
      assert (":" + Hex(b[0])) + (Tail(b[1..]) + ":" + Hex(x)) == (":" + Hex(b[0]) + Tail(b[1..])) + ":" + Hex(x);
    }
  }

  lemma {:induction false} LeadAsTail(a: seq<Group>)
    requires |a| >= 1
    ensures Lead(a) == Hex(a[0]) + Tail(a[1..]) + ":"
  {
    var n := |a| - 1;
    if n == 0 {
      assert a[..0] == [] && a[1..] == [];
    } else {
      var b := a[..n];
      LeadAsTail(b);
      assert b[1..] + [a[n]] == a[1..];
      TailSnoc(b[1..], a[n]);
      Appended(Hex(a[0]), Tail(b[1..]), Hex(a[n]));
    }
  }

  lemma Appended(x: string, y: string, z: string)
    ensures (x + y + ":") + z + ":" == x + (y + ":" + z) + ":"
  {
  }

  /** No zero block: eight groups. */
  lemma FullForm(g: seq<Group>)
    requires |g| == 8
    ensures Parse(Lead(g[..7]) + Hex(g[7])) == Parsed(g)
  {
    FullText(g);
    PrintedWords(g);
    SpelledIsParsed(Text(Printed(g), 0, -1), Printed(g), -1);
  }

  lemma FullText(g: seq<Group>)
    requires |g| == 8
    ensures Text(Printed(g), 0, -1) == Lead(g[..7]) + Hex(g[7])
  {
    var a := g[..7];
    LeadAsTail(a);
    assert a[1..] + [g[7]] == g[1..];
    TailSnoc(a[1..], g[7]);
    TailText(g[1..], 1, -1);
    TextStep(g, g[0], g[1..], 0, -1, Tail(g[1..]));
    Separated(Hex(g[0]), Tail(a[1..]), Hex(g[7]));
  }

  lemma Separated(x: string, y: string, z: string)
    ensures "" + (x + (y + ":" + z)) == (x + y + ":") + z && "" + (x + (y + (":" + z))) == (x + y + ":") + z
  {
  }

  /** A zero block at the front. */
  lemma FrontForm(g: seq<Group>, k: nat)
    requires |g| == 8 && 0 < k < 8 && Zeros(g, 0, k)
    ensures Parse(":" + Tail(g[k..])) == Parsed(g)
  {
    DoubleText(g[k..], 0);
    PrintedWords(g[k..]);
    SpelledIsParsed(Text(Printed(g[k..]), 0, 0), Printed(g[k..]), 0);
    FrontExpand(g, k);
  }

  lemma FrontExpand(g: seq<Group>, k: nat)
    requires |g| == 8 && 0 < k < 8 && Zeros(g, 0, k)
    ensures Expand(0, g[k..]) == g
  {
  }

  /** A zero block after `n` groups. */
  lemma MiddleForm(g: seq<Group>, n: nat, k: nat)
    requires |g| == 8 && 0 < n < k < 8 && Zeros(g, n, k)
    ensures Parse(Lead(g[..n]) + Tail(g[k..])) == Parsed(g)
  {
    var gs := g[..n] + g[k..];
    MiddleText(g[..n], g[k..], gs);
    PrintedWords(gs);
    SpelledIsParsed(Text(Printed(gs), 0, n), Printed(gs), n);
    MiddleExpand(g, n, k, gs);
  }

  lemma MiddleText(a: seq<Group>, b: seq<Group>, all: seq<Group>)
    requires |a| > 0 && |b| > 0 && all == a + b
    ensures Text(Printed(all), 0, |a|) == Lead(a) + Tail(b)
  {
    var x, r := a[0], a[1..];
    LeadAsTail(a);
    HeadRest(a, r, b, r + b, all);
    FirstThenGap(x, r, b, r + b, all, |a|);
    Separated(Hex(x), Tail(r), Tail(b));
  }

  lemma HeadRest(a: seq<Group>, r: seq<Group>, b: seq<Group>, rest: seq<Group>, all: seq<Group>)
    requires |a| > 0 && r == a[1..] && rest == r + b && all == a + b
    ensures all == [a[0]] + rest
  {
  }

  lemma FirstThenGap(x: Group, r: seq<Group>, b: seq<Group>, rest: seq<Group>, all: seq<Group>, k: nat)
    requires |b| > 0 && rest == r + b && all == [x] + rest && k == 1 + |r|
    ensures Text(Printed(all), 0, k) == "" + (Hex(x) + (Tail(r) + (":" + Tail(b))))
  {
    GapText(r, b, 1, k, rest);
    TextStep(all, x, rest, 0, k, Tail(r) + (":" + Tail(b)));
  }

  lemma MiddleExpand(g: seq<Group>, n: nat, k: nat, gs: seq<Group>)
    requires |g| == 8 && 0 < n < k < 8 && Zeros(g, n, k) && gs == g[..n] + g[k..]
    ensures Expand(n, gs) == g
  {
    assert gs[..n] == g[..n] && gs[n..] == g[k..];
  }

  // ----- the dotted form

  lemma {:induction false} NoDots(ws: seq<string>, i: nat, k: int)
    requires Words(ws)
    ensures '.' !in Text(ws, i, k)
  {
    if |ws| > 0 { NoDots(ws[1..], i + 1, k); }
  }

  /** The reader rejects everything with a dot. */
  lemma DottedForm(s: string)
    requires '.' in s
    ensures Parse(s) == Rejected
  {
    if Parse(s).Parsed? {
      var ws, k := ParsedIsSpelled(s);
      NoDots(ws, 0, k);
    }
  }

  /** The dotted branch is taken exactly for the mapped addresses. */
  lemma MappedGap(g: seq<Group>, gap: Gap)
    requires |g| == 8 && FirstLongest(g, gap)
    ensures gap.l == 5 && g[5] == 0xffff <==> Mapped(g)
  {
    if Mapped(g) { assert Block(g, 5, 5); }
  }

  /** Every text the printer writes is read back as the same address exactly when it is not a mapped one; those are rejected. */
  lemma RoundTripIff(g: seq<Group>, gap: Gap)
    requires |g| == 8 && FirstLongest(g, gap) && gap.l <= gap.k <= 8
    ensures Parse(Print(g, gap)) == Parsed(g) <==> !Mapped(g)
    ensures Mapped(g) ==> Parse(Print(g, gap)) == Rejected
  {
    MappedGap(g, gap);
    if AllZero(g) {
      ZeroForm(g);
    } else if gap.l == 5 && g[5] == 0xffff {
      MappedForm(g);
    } else if gap.l > 0 {
      GapForm(g, gap);
    } else {
      FullForm(g);
    }
  }

  lemma ZeroForm(g: seq<Group>)
    requires |g| == 8 && AllZero(g)
    ensures Parse("::") == Parsed(g)
  {
    SpelledIsParsed("::", [], 0);
    assert Expand(0, Numbers([])) == g;
  }

  lemma MappedForm(g: seq<Group>)
    requires |g| == 8
    ensures Parse(Dotted(g)) == Rejected
  {
    var s := Dotted(g);
    assert s[7 + |Dec(g[6] / 256)|] == '.';
    DottedForm(s);
  }

  lemma GapForm(g: seq<Group>, gap: Gap)
    requires |g| == 8 && gap.l > 0 && Block(g, gap.l, gap.k)
    ensures Parse(Lead(g[..gap.k - gap.l]) + (if gap.k == gap.l then ":" else "") + Tail(g[gap.k..])) == Parsed(g)
  {
    var n := gap.k - gap.l;
    if n == 0 {
      assert g[..0] == [];
      assert "" + ":" == ":";
      FrontForm(g, gap.k);
    } else {
      assert Lead(g[..n]) + "" == Lead(g[..n]);
      MiddleForm(g, n, gap.k);
    }
  }

  /** The groups that the text of an address names: all but those of the block that is left out. */
  function Named(g: seq<Group>, gap: Gap): seq<Group>
    requires |g| == 8 && gap.l <= gap.k <= 8
  {
    if AllZero(g) then [] else g[..gap.k - gap.l] + g[gap.k..]
  }

  /** The printed text spells out exactly the groups outside the first longest block, with "::" in its place. */
  lemma PrintedSpells(g: seq<Group>, gap: Gap)
    requires |g| == 8 && FirstLongest(g, gap) && gap.l <= gap.k <= 8 && !Mapped(g)
    ensures var k := if AllZero(g) then 0 else if gap.l == 0 then -1 else gap.k - gap.l;
            Spells(Print(g, gap), Printed(Named(g, gap)), k)
  {
    MappedGap(g, gap);
    PrintedWords(Named(g, gap));
    if !AllZero(g) {
      if gap.l == 0 {
        assert g[..gap.k] + g[gap.k..] == g;
        FullText(g);
      } else if gap.k == gap.l {
        FrontSpells(g, gap.k);
      } else {
        MiddleText(g[..gap.k - gap.l], g[gap.k..], Named(g, gap));
        assert Lead(g[..gap.k - gap.l]) + "" == Lead(g[..gap.k - gap.l]);
      }
    }
  }

  lemma FrontSpells(g: seq<Group>, k: nat)
    requires |g| == 8 && 0 < k < 8
    ensures g[..0] + g[k..] == g[k..] && Text(Printed(g[k..]), 0, 0) == Lead(g[..0]) + ":" + Tail(g[k..])
  {
    DoubleText(g[k..], 0);
    assert g[..0] == [];
    assert "" + ":" + Tail(g[k..]) == ":" + Tail(g[k..]);
  }

  // ----- addresses

  function Pair(hi: byte, lo: byte): Group {
    hi * 256 + lo
  }

  /** The groups of an address. */
  function Groups(b: seq<byte>): (r: seq<Group>)
    requires |b| % 2 == 0
    ensures |r| == |b| / 2
  {
    if |b| == 0 then [] else Groups(b[..|b| - 2]) + [Pair(b[|b| - 2], b[|b| - 1])]
  }

  lemma {:induction false} BytesOfGroups(b: seq<byte>)
    requires |b| % 2 == 0
    ensures Bytes(Groups(b)) == b
  {
    if |b| > 0 {
      var front := b[..|b| - 2];
      var hi, lo := b[|b| - 2], b[|b| - 1];
      BytesOfGroups(front);
      PairParts(hi, lo);
      BytesSnoc(Groups(front), Pair(hi, lo));
      LastTwo(b);
    }
  }

  lemma LastTwo(b: seq<byte>)
    requires |b| >= 2
    ensures b == b[..|b| - 2] + [b[|b| - 2], b[|b| - 1]]
  {
  }

  lemma BytesSnoc(gs: seq<Group>, x: Group)
    ensures Bytes(gs + [x]) == Bytes(gs) + [x / 256, x % 256]
  {
    assert (gs + [x])[..|gs|] == gs;
  }

  lemma PairParts(hi: byte, lo: byte)
    ensures Pair(hi, lo) / 256 == hi && Pair(hi, lo) % 256 == lo
  {
  }

  /**
   * For every 16-byte address and the text printed for it: the reader consumes the text and puts
   * back the same 16 bytes, unless the address is mapped, and then it rejects the text.
   */
  lemma AddressRoundTrip(b: seq<byte>, buf: string)
    requires |b| == 16 && PrintedAs(Groups(b), buf)
    ensures var r := Parse(buf);
            if Mapped(Groups(b)) then r == Rejected else r.Parsed? && Bytes(r.groups) == b
  {
    var gap: Gap :| FirstLongest(Groups(b), gap) && gap.l <= gap.k <= 8 && buf == Print(Groups(b), gap);
    RoundTripIff(Groups(b), gap);
    BytesOfGroups(b);
  }

  // ----- printing and reading, one after the other

  /** The characters of a printed address; the null that ends a string is none of them. */
  predicate Plain(s: string) {
    forall i :: 0 <= i < |s| ==> Lower(s[i]) || s[i] == ':' || s[i] == '.'
  }

  lemma {:induction false} HexPlain(n: nat)
    ensures Plain(Hex(n))
  {
    if n < 16 {
      DigitIsHex(n);
    } else {
      HexPlain(n / 16);
      DigitIsHex(n % 16);
    }
  }

  lemma {:induction false} DecPlain(n: nat)
    ensures Plain(Dec(n))
  {
    if n < 10 {
      DigitIsHex(n);
    } else {
      DecPlain(n / 10);
      DigitIsHex(n % 10);
    }
  }

  lemma {:induction false} TailPlain(g: seq<Group>)
    ensures Plain(Tail(g))
  {
    if |g| > 0 {
      HexPlain(g[0]);
      TailPlain(g[1..]);
    }
  }

  lemma {:induction false} LeadPlain(g: seq<Group>)
    ensures Plain(Lead(g))
  {
    if |g| > 0 {
      LeadPlain(g[..|g| - 1]);
      HexPlain(g[|g| - 1]);
    }
  }

  lemma DottedPlain(g: seq<Group>)
    requires |g| == 8
    ensures Plain(Dotted(g))
  {
    DecPlain(g[6] / 256);
    DecPlain(g[6] % 256);
    DecPlain(g[7] / 256);
    DecPlain(g[7] % 256);
  }

  lemma PrintedPlain(g: seq<Group>, gap: Gap)
    requires |g| == 8 && gap.l <= gap.k <= 8
    ensures Plain(Print(g, gap))
  {
    DottedPlain(g);
    LeadPlain(g[..gap.k - gap.l]);
    TailPlain(g[gap.k..]);
    LeadPlain(g[..7]);
    HexPlain(g[7]);
  }

  /** What conv_ipv6_internal writes, parse_text_ipv6 reads: all of it, as the same address, unless it is mapped. */
  method PrintAndParse(g: seq<Group>, ip: array<byte>) returns (buf: string, r: int)
    requires |g| == 8 && ip.Length == 16
    modifies ip
    ensures PrintedAs(g, buf)
    ensures if Mapped(g) then r == -1 else r == |buf| && ip[..] == Bytes(g)
  {
    buf := ConvIpv6(g);
    ghost var gap: Gap :| FirstLongest(g, gap) && gap.l <= gap.k <= 8 && buf == Print(g, gap);
    PrintedPlain(g, gap);
    RoundTripIff(g, gap);
    r := ParseTextIpv6(ip, buf);
  }
}
