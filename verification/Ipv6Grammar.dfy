/** The texts that the IPv6 reader accepts, as a grammar: up to eight words of one to four digits. */
module Ipv6Grammar {
  import opened Ipv6Text
  import opened Ipv6Parse

  // ----- words

  predicate AllHex(w: string) {
    forall i :: 0 <= i < |w| ==> IsHex(w[i])
  }

  predicate Word(w: string) {
    1 <= |w| <= 4 && AllHex(w)
  }

  /** The number that the digits stand for. */
  function Number(w: string): (v: int)
    requires |w| <= 4 && AllHex(w)
    ensures 0 <= v < Power16(|w|)
  {
    if |w| == 0 then 0 else 16 * Number(w[..|w| - 1]) + HexValue(w[|w| - 1])
  }

  /** Where the digits that begin at p end. */
  function HexEnd(s: string, p: nat): (e: nat)
    requires p <= |s|
    ensures p <= e <= |s| && AllHex(s[p..e]) && (e < |s| ==> !IsHex(s[e]))
    decreases |s| - p
  {
    if p < |s| && IsHex(s[p]) then
      assert s[p..HexEnd(s, p + 1)] == [s[p]] + s[p + 1..HexEnd(s, p + 1)];
      HexEnd(s, p + 1)
    else p
  }

  /** One more digit. */
  lemma Snoc(s: string, p: nat, q: nat)
    requires p <= q < |s| && q - p < 4 && AllHex(s[p..q]) && IsHex(s[q])
    ensures AllHex(s[p..q + 1]) && Number(s[p..q + 1]) == 16 * Number(s[p..q]) + HexValue(s[q])
  {
    var w := s[p..q + 1];
    assert w == s[p..q] + [s[q]];
    assert w[..|w| - 1] == s[p..q];
  }

  /** The scanner at q, p being where it began. */
  function ScanFrom(s: string, p: nat, q: nat): Scan
    requires p <= q <= |s| && q - p <= 4 && AllHex(s[p..q])
  {
    ScanHex(s, q, q - p, Number(s[p..q]))
  }

  lemma ScanNext(s: string, p: nat, q: nat)
    requires p <= q < |s| && q - p < 4 && AllHex(s[p..q]) && IsHex(s[q])
    ensures AllHex(s[p..q + 1]) && ScanFrom(s, p, q) == ScanFrom(s, p, q + 1)
  {
    Snoc(s, p, q);
  }

  /** It reads all the digits that are there, if they are at most four. */
  lemma {:induction false} ScanRest(s: string, p: nat, q: nat, e: nat)
    requires p <= q <= |s| && q - p <= 4 && AllHex(s[p..q]) && e == HexEnd(s, q)
    ensures e - p <= 4 ==> AllHex(s[p..e]) && ScanFrom(s, p, q) == Scanned(e, e - p, Number(s[p..e]))
    ensures e - p > 4 ==> ScanFrom(s, p, q).TooLong?
    decreases |s| - q
  {
    if q < |s| && IsHex(s[q]) && q - p < 4 {
      ScanNext(s, p, q);
      ScanRest(s, p, q + 1, e);
    }
  }

  lemma ScanIs(s: string, p: nat, e: nat)
    requires p <= |s| && e == HexEnd(s, p)
    ensures ScanHex(s, p, 0, 0) == if e - p > 4 then TooLong else Scanned(e, e - p, Number(s[p..e]))
  {
    assert s[p..p] == "";
    ScanRest(s, p, p, e);
  }

  // ----- texts

  predicate Words(ws: seq<string>) {
    forall i :: 0 <= i < |ws| ==> Word(ws[i])
  }

  function Numbers(ws: seq<string>): (r: seq<Group>)
    requires Words(ws)
    ensures |r| == |ws|
  {
    seq(|ws|, i requires 0 <= i < |ws| => Number(ws[i]))
  }

  /** What stands before word number i: "::" before word number k, nothing before the first, ":" before the others. */
  function Mark(i: nat, k: int): string {
    if i == k then "::" else if i == 0 then "" else ":"
  }

  /** The words from number i on; "::" may also stand after the last one. */
  function Text(ws: seq<string>, i: nat, k: int): string {
    if |ws| == 0 then if i == k then "::" else "" else Mark(i, k) + (ws[0] + Text(ws[1..], i + 1, k))
  }

  /** Eight words, or at most eight words with one "::" somewhere, but not after an eighth word. */
  predicate Spells(s: string, ws: seq<string>, k: int) {
    && Words(ws) && |ws| <= 8 && -1 <= k <= |ws| && k < 8 && (k == -1 ==> |ws| == 8)
    && s == Text(ws, 0, k)
  }

  /** The end, or something that is not a digit. */
  predicate Closed(rest: string) {
    rest == "" || !IsHex(rest[0])
  }

  lemma TextClosed(ws: seq<string>, i: nat, k: int)
    requires i > 0
    ensures Closed(Text(ws, i, k))
  {
  }

  /** A word at the position. */
  lemma WordAt(s: string, m: Mid, w: string, rest: string)
    requires MidOk(s, m) && |m.gs| < 8 && Word(w) && s[m.p..] == w + rest && Closed(rest)
    ensures m.p + |w| <= |s| && s[m.p + |w|..] == rest && Digits(s, m) == More(Mid(m.p + |w|, m.k, m.gs + [Number(w)]))
  {
    var p := m.p;
    WordText(s, p, w, rest);
    DigitsMore(s, m, p + |w|, |w|, Number(w));
  }

  lemma WordText(s: string, p: nat, w: string, rest: string)
    requires p <= |s| && Word(w) && s[p..] == w + rest && Closed(rest)
    ensures p + |w| <= |s| && s[p + |w|..] == rest && ScanHex(s, p, 0, 0) == Scanned(p + |w|, |w|, Number(w))
  {
    Slices(s, p, w, rest);
    WordScan(s, p, w, p + |w|);
  }

  lemma WordScan(s: string, p: nat, w: string, e: nat)
    requires p <= e <= |s| && Word(w) && s[p..e] == w && (e < |s| ==> !IsHex(s[e]))
    ensures ScanHex(s, p, 0, 0) == Scanned(e, |w|, Number(w))
  {
    EndIs(s, p, e);
    ScanIs(s, p, e);
  }

  lemma DigitsMore(s: string, m: Mid, p: nat, j: nat, v: Group)
    requires MidOk(s, m) && |m.gs| < 8 && ScanHex(s, m.p, 0, 0) == Scanned(p, j, v) && j > 0
    ensures Digits(s, m) == More(Mid(p, m.k, m.gs + [v]))
  {
  }

  lemma Slices(s: string, p: nat, w: string, rest: string)
    requires p <= |s| && s[p..] == w + rest && Closed(rest)
    ensures p + |w| <= |s| && s[p..p + |w|] == w && s[p + |w|..] == rest
    ensures p + |w| < |s| ==> !IsHex(s[p + |w|])
  {
    var e := p + |w|;
    assert |s[p..]| == |w| + |rest|;
    assert s[p..e] == s[p..][..|w|];
    assert s[e..] == s[p..][|w|..];
    if rest != "" { assert s[e] == rest[0]; }
  }

  lemma {:induction false} EndIs(s: string, p: nat, e: nat)
    requires p <= e <= |s| && AllHex(s[p..e]) && (e < |s| ==> !IsHex(s[e]))
    ensures HexEnd(s, p) == e
    decreases e - p
  {
    if p < e {
      assert s[p..e][0] == s[p];
      assert s[p + 1..e] == s[p..e][1..];
      EndIs(s, p + 1, e);
    }
  }

  // ----- every text of the grammar is accepted

  /** Where the reader is after the mark before word number |m.gs|. */
  function Marked(m: Mid, k: int): Mid {
    Mid(m.p + |Mark(|m.gs|, k)|, if k == |m.gs| then k else m.k, m.gs)
  }

  lemma SeparatorAt(s: string, m: Mid, k: int, t: string)
    requires MidOk(s, m) && |m.gs| > 0 && s[m.p..] == Mark(|m.gs|, k) + t
    requires if k == |m.gs| then m.k == -1 else t == "" || t[0] != ':'
    ensures MidOk(s, Marked(m, k)) && Separator(s, m) == More(Marked(m, k)) && s[Marked(m, k).p..] == t
  {
    var r, p := s[m.p..], Marked(m, k).p;
    assert |r| == |Mark(|m.gs|, k)| + |t|;
    assert s[m.p] == r[0] == ':';
    assert s[p..] == r[|Mark(|m.gs|, k)|..] == t;
    if k == |m.gs| { assert s[m.p + 1] == r[1] == ':'; } else if t != "" { assert s[m.p + 1] == r[1] == t[0]; }
  }

  lemma NoDigits(s: string, m: Mid)
    requires MidOk(s, m) && |m.gs| < 8 && m.p == |s| && m.k == |m.gs|
    ensures Digits(s, m) == Halt(Stopped(m))
  {
  }

  /** Where the reader is after word number |m.gs|. */
  function Passed(m: Mid, k: int, w: string): Mid
    requires Word(w)
  {
    Mid(m.p + |Mark(|m.gs|, k)| + |w|, if k == |m.gs| then k else m.k, m.gs + [Number(w)])
  }

  lemma RoundAt(s: string, m: Mid, k: int, w: string, rest: string)
    requires MidOk(s, m) && 0 < |m.gs| < 8 && Word(w) && Closed(rest) && (k == |m.gs| ==> m.k == -1)
    requires s[m.p..] == Mark(|m.gs|, k) + (w + rest)
    ensures MidOk(s, Passed(m, k, w)) && Round(s, m) == More(Passed(m, k, w)) && s[Passed(m, k, w).p..] == rest
  {
    assert (w + rest)[0] == w[0];
    SeparatorAt(s, m, k, w + rest);
    WordAt(s, Marked(m, k), w, rest);
  }

  /** What the reader knows about "::" when |m.gs| words are read. */
  predicate Knows(m: Mid, k: int) {
    m.k == if k < |m.gs| then k else -1
  }

  lemma {:induction false} Accepts(s: string, m: Mid, ws: seq<string>, k: int)
    requires MidOk(s, m) && 0 < |m.gs| && |m.gs| + |ws| <= 8 && Words(ws) && Knows(m, k)
    requires -1 <= k <= |m.gs| + |ws| && k < 8 && (k == -1 ==> |m.gs| + |ws| == 8)
    requires s[m.p..] == Text(ws, |m.gs|, k)
    ensures ParseLoop(s, m) == Stopped(Mid(|s|, k, m.gs + Numbers(ws)))
    decreases |ws|
  {
    if |ws| == 0 {
      assert m.gs + Numbers(ws) == m.gs;
      AcceptsEnd(s, m, k);
    } else {
      var m', rest := Passed(m, k, ws[0]), Text(ws[1..], |m.gs| + 1, k);
      TextClosed(ws[1..], |m.gs| + 1, k);
      RoundAt(s, m, k, ws[0], rest);
      assert m'.gs + Numbers(ws[1..]) == m.gs + Numbers(ws);
      Accepts(s, m', ws[1..], k);
    }
  }

  lemma AcceptsEnd(s: string, m: Mid, k: int)
    requires MidOk(s, m) && 0 < |m.gs| && Knows(m, k) && k < 8 && -1 <= k <= |m.gs| && (k == -1 ==> |m.gs| == 8)
    requires s[m.p..] == if |m.gs| == k then "::" else ""
    ensures ParseLoop(s, m) == Stopped(Mid(|s|, k, m.gs))
  {
    if k == |m.gs| {
      assert Mark(|m.gs|, k) + "" == "::";
      SeparatorAt(s, m, k, "");
      assert |s[Marked(m, k).p..]| == 0;
      NoDigits(s, Marked(m, k));
    } else {
      assert |s[m.p..]| == 0;
    }
  }

  /** The first word. */
  lemma StartAt(s: string, ws: seq<string>, k: int)
    requires Spells(s, ws, k)
    ensures MidOk(s, Start(s)) && Start(s) == Mid(if k == 0 then 2 else 0, if k == 0 then 0 else -1, [])
    ensures |ws| > 0 ==> s[Start(s).p..] == ws[0] + Text(ws[1..], 1, k)
    ensures |ws| == 0 ==> s == "::" && k == 0
  {
    if |ws| > 0 {
      var t := ws[0] + Text(ws[1..], 1, k);
      assert s == Mark(0, k) + t && t[0] == ws[0][0];
      if k == 0 { assert s[..2] == "::" && s[2..] == t; } else { assert s == t && s[0..] == s; }
    }
  }

  lemma NumbersFirst(ws: seq<string>)
    requires Words(ws) && |ws| > 0
    ensures [Number(ws[0])] + Numbers(ws[1..]) == Numbers(ws)
  {
  }

  lemma OneWord(s: string, m: Mid, m': Mid)
    requires MidOk(s, m) && m.gs == [] && |m'.gs| == 1 && Digits(s, m) == More(Mid(m'.p, m'.k, [] + m'.gs))
    ensures MidOk(s, m') && ParseLoop(s, m) == ParseLoop(s, m')
  {
    assert [] + m'.gs == m'.gs;
  }

  lemma FirstWord(s: string, m: Mid, ws: seq<string>, k: int)
    requires Words(ws) && 0 < |ws| <= 8 && -1 <= k <= |ws| && k < 8 && (k == -1 ==> |ws| == 8)
    requires MidOk(s, m) && m.gs == [] && m.k == (if k == 0 then 0 else -1)
    requires s[m.p..] == ws[0] + Text(ws[1..], 1, k)
    ensures ParseLoop(s, m) == Stopped(Mid(|s|, k, Numbers(ws)))
  {
    TextClosed(ws[1..], 1, k);
    WordAt(s, m, ws[0], Text(ws[1..], 1, k));
    var m' := Mid(m.p + |ws[0]|, m.k, [Number(ws[0])]);
    OneWord(s, m, m');
    NumbersFirst(ws);
    Accepts(s, m', ws[1..], k);
  }

  /** A text of the grammar is read as the numbers of its words, with zeros at the place of "::". */
  lemma SpelledIsParsed(s: string, ws: seq<string>, k: int)
    requires Spells(s, ws, k)
    ensures Parse(s) == Parsed(Expand(k, Numbers(ws)))
  {
    StartAt(s, ws, k);
    if |ws| == 0 {
      NoDigits(s, Start(s));
      assert Numbers(ws) == [];
    } else {
      FirstWord(s, Start(s), ws, k);
    }
  }

  // ----- every accepted text is one of the grammar

  /** What the rest of the text is, when the reader goes on to the end from here. */
  predicate Rest(s: string, m: Mid, e: Mid, ws: seq<string>) {
    && Words(ws) && m.p <= |s| && e == Mid(|s|, e.k, m.gs + Numbers(ws)) && |e.gs| <= 8 && e.k < 8
    && (if m.k >= 0 then e.k == m.k else e.k == -1 || |m.gs| <= e.k <= |e.gs|) && (e.k == -1 ==> |e.gs| == 8)
    && s[m.p..] == Text(ws, |m.gs|, e.k)
  }

  /** The digits that were read are a word. */
  lemma WordRead(s: string, m: Mid, m': Mid) returns (w: string)
    requires MidOk(s, m) && |m.gs| < 8 && Digits(s, m) == More(m')
    ensures Word(w) && m.p <= m'.p <= |s| && w == s[m.p..m'.p] && m' == Mid(m'.p, m.k, m.gs + [Number(w)])
  {
    ScanIs(s, m.p, HexEnd(s, m.p));
    w := s[m.p..HexEnd(s, m.p)];
  }

  /** The mark and the word before the rest. */
  lemma TextCons(s: string, a: nat, b: nat, c: nat, w: string, i: nat, k: int, ws: seq<string>)
    requires a <= b <= c <= |s| && s[a..b] == Mark(i, k) && s[b..c] == w && s[c..] == Text(ws, i + 1, k)
    ensures s[a..] == Text([w] + ws, i, k)
  {
    assert ([w] + ws)[1..] == ws;
    assert s[a..] == s[a..b] + (s[b..c] + s[c..]);
  }

  /** Nothing more is read. */
  lemma RecoverEnd(s: string, m: Mid)
    requires MidOk(s, m) && m.p == |s| && m.k < |m.gs| && (|m.gs| < 8 ==> m.k >= 0)
    ensures Rest(s, m, m, [])
  {
    assert m.gs + Numbers([]) == m.gs;
  }

  /** Only "::" is read. */
  lemma RecoverGap(s: string, m: Mid, e: Mid)
    requires MidOk(s, m) && 0 < |m.gs| < 8 && m.k < |m.gs|
    requires Separator(s, m).More? && Digits(s, Separator(s, m).mid) == Halt(Stopped(e)) && e.p == |s|
    ensures Rest(s, m, e, [])
  {
    assert e == Separator(s, m).mid;
    assert m.gs + Numbers([]) == m.gs;
    assert s[m.p..] == "::";
  }

  lemma RecoverWord(s: string, m: Mid, m1: Mid, m2: Mid, e: Mid, w: string, rest: seq<string>)
    requires MidOk(s, m) && |m.gs| > 0 && m.k < |m.gs| && Separator(s, m) == More(m1) && Rest(s, m2, e, rest)
    requires Word(w) && m1.p <= m2.p <= |s| && w == s[m1.p..m2.p] && m2 == Mid(m2.p, m1.k, m1.gs + [Number(w)])
    ensures Rest(s, m, e, [w] + rest)
  {
    MarkRead(s, m, m1, e.k);
    TextCons(s, m.p, m1.p, m2.p, w, |m.gs|, e.k, rest);
    NumbersCons(w, rest);
    assert m1.gs + [Number(w)] + Numbers(rest) == m.gs + ([Number(w)] + Numbers(rest));
  }

  lemma NumbersCons(w: string, rest: seq<string>)
    requires Word(w) && Words(rest)
    ensures Words([w] + rest) && Numbers([w] + rest) == [Number(w)] + Numbers(rest)
  {
  }

  lemma {:induction false} Recover(s: string, m: Mid, e: Mid) returns (ws: seq<string>)
    requires MidOk(s, m) && |m.gs| > 0 && m.k < |m.gs| && ParseLoop(s, m) == Stopped(e) && e.p == |s|
    ensures Rest(s, m, e, ws)
    decreases 8 - |m.gs|
  {
    if |m.gs| == 8 || Separator(s, m).Halt? {
      ws := [];
      RecoverEnd(s, m);
    } else {
      var m1 := Separator(s, m).mid;
      if Digits(s, m1).Halt? {
        ws := [];
        RecoverGap(s, m, e);
      } else {
        var m2 := Digits(s, m1).mid;
        var w := WordRead(s, m1, m2);
        var rest := Recover(s, m2, e);
        RecoverWord(s, m, m1, m2, e, w, rest);
        ws := [w] + rest;
      }
    }
  }

  lemma MarkRead(s: string, m: Mid, m1: Mid, k: int)
    requires MidOk(s, m) && |m.gs| > 0 && m.k < |m.gs| && Separator(s, m) == More(m1)
    requires if m1.k >= 0 then k == m1.k else k == -1 || |m.gs| < k
    ensures m1.p == m.p + |Mark(|m.gs|, k)| && s[m.p..m1.p] == Mark(|m.gs|, k)
  {
  }

  lemma RecoverStart(s: string, m: Mid, e: Mid) returns (ws: seq<string>)
    requires MidOk(s, m) && m.gs == [] && m.k <= 0 && ParseLoop(s, m) == Stopped(e) && e.p == |s|
    ensures Words(ws) && e == Mid(|s|, e.k, Numbers(ws)) && |ws| <= 8 && e.k < 8
    ensures (if m.k == 0 then e.k == 0 else e.k == -1 || 0 < e.k <= |ws|) && (e.k == -1 ==> |ws| == 8)
    ensures s[m.p..] == if |ws| == 0 then "" else ws[0] + Text(ws[1..], 1, e.k)
    ensures |ws| == 0 ==> m.k == 0
  {
    assert Separator(s, m) == More(m);
    if Digits(s, m).Halt? {
      ws := [];
    } else {
      var m2 := Digits(s, m).mid;
      var w := WordRead(s, m, m2);
      var rest := Recover(s, m2, e);
      ws := [w] + rest;
      NumbersCons(w, rest);
      SliceWord(s, m.p, m2.p, w);
      assert ws[1..] == rest && [] + [Number(w)] + Numbers(rest) == [Number(w)] + Numbers(rest);
    }
  }

  lemma SliceWord(s: string, a: nat, b: nat, w: string)
    requires a <= b <= |s| && s[a..b] == w
    ensures s[a..] == w + s[b..]
  {
  }

  /** An accepted text spells some words. */
  lemma ParsedIsSpelled(s: string) returns (ws: seq<string>, k: int)
    requires Parse(s).Parsed?
    ensures Spells(s, ws, k)
  {
    var e := ParseLoop(s, Start(s)).mid;
    ws := RecoverStart(s, Start(s), e);
    k := e.k;
    if Start(s).k == 0 { assert s == "::" + s[2..]; } else { assert s == "" + s[0..]; }
  }

  /** parse_text_ipv6 accepts exactly the texts of the grammar. */
  lemma AcceptedIff(s: string)
    ensures Parse(s).Parsed? <==> exists ws: seq<string>, k: int :: Spells(s, ws, k)
  {
    if Parse(s).Parsed? {
      var ws, k := ParsedIsSpelled(s);
    } else {
      forall ws: seq<string>, k: int | Spells(s, ws, k) ensures false { SpelledIsParsed(s, ws, k); }
    }
  }
}
