/** The IPv6 reader of src/mtproto/mtproto-proxy-http.c: its meaning as a function, and the loop that computes it. */
module Ipv6Parse {
  import opened Ipv6Text

  /** The character at `p`; the terminating zero follows the text. */
  function At(s: string, p: nat): char {
    if p < |s| then s[p] else '\0'
  }

  datatype Scan = TooLong | Scanned(p: nat, j: nat, v: Group)

  /** At most four hexadecimal digits from `p` on; `j` and `v` are the digits so far. */
  function ScanHex(s: string, p: nat, j: nat, v: int): (r: Scan)
    requires p <= |s| && j <= 4 && 0 <= v < Power16(j)
    ensures r.Scanned? ==> p <= r.p <= |s| && j <= r.j <= 4 && (r.j == j ==> r.p == p)
    decreases |s| - p
  {
    if p < |s| && IsHex(s[p]) then
      if j + 1 > 4 then TooLong else ScanHex(s, p + 1, j + 1, 16 * v + HexValue(s[p]))
    else Scanned(p, j, v)
  }

  function Power16(j: nat): (r: nat)
    requires j <= 4
    ensures r <= 0x1_0000
  {
    if j == 0 then 1 else if j == 1 then 16 else if j == 2 then 0x100 else if j == 3 then 0x1000 else 0x1_0000
  }

  /** Where the main loop is: the position, the place of "::" (-1 for none) and the groups read so far. */
  datatype Mid = Mid(p: nat, k: int, gs: seq<Group>)

  datatype Loop = Bad | Stopped(mid: Mid)

  datatype Next = More(mid: Mid) | Halt(loop: Loop)

  predicate MidOk(s: string, m: Mid) {
    m.p <= |s| && |m.gs| <= 8 && -1 <= m.k <= |m.gs|
  }

  /** What stands before a group: nothing before the first, ":" or "::" before the others. */
  function Separator(s: string, m: Mid): (r: Next)
    requires MidOk(s, m)
    ensures r.More? ==> MidOk(s, r.mid) && r.mid.gs == m.gs
    ensures r.Halt? && r.loop.Stopped? ==> r.loop.mid == m && m.k >= 0
  {
    if |m.gs| == 0 then More(m)
    else if At(s, m.p) == ':' then
      if At(s, m.p + 1) == ':' then
        if m.k >= 0 then Halt(Bad) else More(Mid(m.p + 2, |m.gs|, m.gs))
      else More(m.(p := m.p + 1))
    else if m.k >= 0 then Halt(Stopped(m))
    else Halt(Bad)
  }

  /** The digits of one group. */
  function Digits(s: string, m: Mid): (r: Next)
    requires MidOk(s, m) && |m.gs| < 8
    ensures r.More? ==> MidOk(s, r.mid) && |r.mid.gs| == |m.gs| + 1
    ensures r.Halt? && r.loop.Stopped? ==> MidOk(s, r.loop.mid) && r.loop.mid.gs == m.gs && r.loop.mid.k >= 0
  {
    match ScanHex(s, m.p, 0, 0)
    case TooLong => Halt(Bad)
    case Scanned(p', j, v) =>
      if j > 0 then More(Mid(p', m.k, m.gs + [v]))
      else if m.k == |m.gs| then Halt(Stopped(m.(p := p')))
      else Halt(Bad)
  }

  /** One round of the main loop. */
  function Round(s: string, m: Mid): (r: Next)
    requires MidOk(s, m) && |m.gs| < 8
    ensures r.More? ==> MidOk(s, r.mid) && |r.mid.gs| == |m.gs| + 1
    ensures r.Halt? && r.loop.Stopped? ==> MidOk(s, r.loop.mid) && r.loop.mid.gs == m.gs && r.loop.mid.k >= 0
  {
    var r := Separator(s, m);
    if r.Halt? then r else Digits(s, r.mid)
  }

  /** The main loop. */
  function ParseLoop(s: string, m: Mid): (r: Loop)
    requires MidOk(s, m)
    ensures r.Stopped? ==> MidOk(s, r.mid) && (|r.mid.gs| < 8 ==> 0 <= r.mid.k)
    decreases 8 - |m.gs|
  {
    if |m.gs| == 8 then Stopped(m)
    else
      match Round(s, m)
      case Halt(l) => l
      case More(m') => ParseLoop(s, m')
  }

  datatype Result = Rejected | Parsed(groups: seq<Group>)

  function Zero(n: nat): seq<Group> {
    seq(n, _ => 0)
  }

  /** The missing groups are zeros at the place of "::". */
  function Expand(k: int, gs: seq<Group>): (r: seq<Group>)
    requires |gs| <= 8 && (|gs| < 8 ==> 0 <= k <= |gs|)
    ensures |r| == 8
  {
    if |gs| < 8 then gs[..k] + Zero(8 - |gs|) + gs[k..] else gs
  }

  function Start(s: string): (m: Mid)
    ensures MidOk(s, m)
  {
    if At(s, 0) == ':' && At(s, 1) == ':' then Mid(2, 0, []) else Mid(0, -1, [])
  }

  /** The meaning of a text: eight groups, or nothing. A parsed text is consumed to its end. */
  function Parse(s: string): (r: Result)
    ensures r.Parsed? ==> |r.groups| == 8
  {
    match ParseLoop(s, Start(s))
    case Bad => Rejected
    case Stopped(m) => if m.p < |s| then Rejected else Parsed(Expand(m.k, m.gs))
  }

  // ----- the code

  /** Network byte order. */
  function Bytes(gs: seq<Group>): (r: seq<byte>)
    ensures |r| == 2 * |gs|
  {
    if |gs| == 0 then [] else Bytes(gs[..|gs| - 1]) + [gs[|gs| - 1] / 256, gs[|gs| - 1] % 256]
  }

  /** The loop over the digits of one group; five digits are too many. */
  method ReadHex(s: string, start: nat) returns (ok: bool, p: nat, j: nat, v: Group)
    requires start <= |s|
    ensures ScanHex(s, start, 0, 0) == if ok then Scanned(p, j, v) else TooLong
  {
    p, j, v, ok := start, 0, 0, true;
    while p < |s| && IsHex(s[p])
      invariant start <= p <= |s| && j <= 4 && v < Power16(j)
      invariant ScanHex(s, start, 0, 0) == ScanHex(s, p, j, v)
    {
      if j + 1 > 4 { ok := false; return; }
      v := 16 * v + HexValue(s[p]);
      j := j + 1;
      p := p + 1;
    }
  }

  lemma {:induction false} BytesConcat(a: seq<Group>, b: seq<Group>)
    ensures Bytes(a + b) == Bytes(a) + Bytes(b)
  {
    if |b| == 0 {
      assert a + b == a;
    } else {
      assert (a + b)[..|a + b| - 1] == a + b[..|b| - 1];
      BytesConcat(a, b[..|b| - 1]);
    }
  }

  function ZeroBytes(n: nat): seq<byte> {
    seq(n, _ => 0)
  }

  lemma {:induction false} BytesZero(n: nat)
    ensures Bytes(Zero(n)) == ZeroBytes(2 * n)
  {
    if n > 0 {
      assert Zero(n)[..n - 1] == Zero(n - 1);
      BytesZero(n - 1);
    }
  }

  lemma BytesExpand(k: nat, gs: seq<Group>, n: nat)
    requires k <= |gs| < 8 && n == 8 - |gs|
    ensures Bytes(Expand(k, gs)) == Bytes(gs)[..2 * k] + ZeroBytes(2 * n) + Bytes(gs)[2 * k..]
  {
    ExpandIs(k, gs, gs[..k], n, gs[k..], Expand(k, gs));
    BytesAround(gs[..k], n, gs[k..], gs, Expand(k, gs));
  }

  lemma ExpandIs(k: nat, gs: seq<Group>, a: seq<Group>, n: nat, b: seq<Group>, all: seq<Group>)
    requires k <= |gs| < 8 && n == 8 - |gs| && a == gs[..k] && b == gs[k..] && all == Expand(k, gs)
    ensures all == a + Zero(n) + b && gs == a + b
  {
  }

  lemma BytesAround(a: seq<Group>, n: nat, b: seq<Group>, gs: seq<Group>, all: seq<Group>)
    requires all == a + Zero(n) + b && gs == a + b
    ensures Bytes(all) == Bytes(gs)[..2 * |a|] + ZeroBytes(2 * n) + Bytes(gs)[2 * |a|..]
  {
    BytesConcat(a, b);
    Halves(Bytes(a), Bytes(b));
    BytesConcat(a, Zero(n));
    BytesConcat(a + Zero(n), b);
    BytesZero(n);
  }

  lemma Halves(a: seq<byte>, b: seq<byte>)
    ensures (a + b)[..|a|] == a && (a + b)[|a|..] == b
  {
  }

  /** memmove and memset at the end of parse_text_ipv6. */
  method Spread(ip: array<byte>, k: nat, i: nat)
    requires ip.Length == 16 && k <= i < 8
    modifies ip
    ensures ip[..] == old(ip[..2 * k]) + ZeroBytes(2 * (8 - i)) + old(ip[2 * k..2 * i])
  {
    var gap := 2 * (8 - i);
    forall t | 0 <= t < 2 * (i - k) { ip[2 * k + gap + t] := ip[2 * k + t]; }
    assert forall t :: 2 * k + gap <= t < 16 ==> ip[t] == old(ip[t - gap]);
    forall t | 2 * k <= t < 2 * k + gap { ip[t] := 0; }
  }

  /** The part of the loop body before the digits; `go` is false where the loop ends, `ok` where the code does not return -1. */
  method ReadSeparator(s: string, start: nat, k0: int, i: nat, ghost gs: seq<Group>) returns (ok: bool, go: bool, p: nat, k: int)
    requires MidOk(s, Mid(start, k0, gs)) && i == |gs|
    ensures Separator(s, Mid(start, k0, gs)) ==
            if !ok then Halt(Bad) else if go then More(Mid(p, k, gs)) else Halt(Stopped(Mid(p, k, gs)))
  {
    ok, go, p, k := true, true, start, k0;
    if i > 0 {
      if At(s, p) == ':' {
        p := p + 1;
      } else if k >= 0 {
        go := false;
        return;
      } else {
        ok := false;
        return;
      }
      if At(s, p) == ':' {
        if k >= 0 { ok := false; return; }
        k := i;
        p := p + 1;
      }
    }
  }

  /** The main loop of parse_text_ipv6; `ok` is false where the code returns -1. */
  method ReadGroups(ip: array<byte>, s: string) returns (ok: bool, p: nat, k: int, i: nat, ghost gs: seq<Group>)
    requires ip.Length == 16
    modifies ip
    ensures ok ==> ParseLoop(s, Start(s)) == Stopped(Mid(p, k, gs)) && i == |gs| <= 8 && ip[..2 * i] == Bytes(gs)
    ensures !ok ==> ParseLoop(s, Start(s)) == Bad
  {
    ok, p, i, k, gs := true, 0, 0, -1, [];
    if At(s, 0) == ':' && At(s, 1) == ':' {
      k := 0;
      p := 2;
    }
    ghost var goal := ParseLoop(s, Start(s));
    while i < 8
      invariant ok && i == |gs| && MidOk(s, Mid(p, k, gs))
      invariant goal == ParseLoop(s, Mid(p, k, gs))
      invariant ip[..2 * i] == Bytes(gs)
      decreases 8 - i
    {
      var go;
      ok, go, p, k := ReadSeparator(s, p, k, i, gs);
      if !ok || !go { return; }
      var j, v;
      ok, p, j, v := ReadHex(s, p);
      if !ok { return; }
      if j == 0 {
        if k != i { ok := false; }
        return;
      }
      Store(ip, i, v, gs);
      gs := gs + [v];
      i := i + 1;
    }
  }

  method Store(ip: array<byte>, i: nat, v: Group, ghost gs: seq<Group>)
    requires ip.Length == 16 && i == |gs| < 8 && ip[..2 * i] == Bytes(gs)
    modifies ip
    ensures ip[..2 * (i + 1)] == Bytes(gs + [v])
  {
    ip[2 * i] := v / 256;
    ip[2 * i + 1] := v % 256;
    assert (gs + [v])[..i] == gs;
    assert ip[..2 * (i + 1)] == ip[..2 * i] + [ip[2 * i], ip[2 * i + 1]];
  }

  /** The bytes read so far are moved apart unless all sixteen are there. */
  method OpenGap(ip: array<byte>, k: int, i: nat, ghost gs: seq<Group>)
    requires ip.Length == 16 && i == |gs| <= 8 && (i < 8 ==> 0 <= k <= i) && ip[..2 * i] == Bytes(gs)
    modifies ip
    ensures ip[..] == Bytes(Expand(k, gs))
  {
    if i < 8 {
      BytesExpand(k, gs, 8 - i);
      assert ip[..2 * i][..2 * k] == ip[..2 * k] && ip[..2 * i][2 * k..] == ip[2 * k..2 * i];
      Spread(ip, k, i);
    } else {
      assert ip[..] == ip[..2 * i];
    }
  }

  /** parse_text_ipv6: -1, or the length of the text with the address in `ip`. */
  method ParseTextIpv6(ip: array<byte>, s: string) returns (r: int)
    requires ip.Length == 16 && '\0' !in s
    modifies ip
    ensures Parse(s).Rejected? ==> r == -1
    ensures Parse(s).Parsed? ==> r == |s| && ip[..] == Bytes(Parse(s).groups)
  {
    var ok, p, k, i;
    ghost var gs;
    ok, p, k, i, gs := ReadGroups(ip, s);
    if !ok || At(s, p) != '\0' {
      return -1;
    }
    OpenGap(ip, k, i, gs);
    return p;
  }
}
