/**
 * The circular doubly linked lists with a head that src/mtproto/mtproto-proxy.c threads through its
 * external connections (o_next/o_prev, i_next/i_prev, lru_next/lru_prev), pointer by pointer.
 */
module ExtRing {

  /** A list head (named by its descriptor) or an external connection (named by its address). */
  datatype Node = Head(fd: int) | Conn(id: nat)

  /** next and prev of every node that is in some list; a node without an entry holds null pointers. */
  type Links = map<Node, Node>

  function Cycle(h: Node, ms: seq<Node>): (r: seq<Node>)
    ensures |r| == |ms| + 1 && r[0] == h
  {
    [h] + ms
  }

  predicate Distinct(c: seq<Node>) {
    forall i, j :: 0 <= i < j < |c| ==> c[i] != c[j]
  }

  /** The two pointers of the node at place k of the cycle. */
  predicate Linked(next: Links, prev: Links, c: seq<Node>, k: nat)
    requires k < |c|
  {
    && c[k] in next && c[k] in prev
    && next[c[k]] == (if k + 1 < |c| then c[k + 1] else c[0])
    && prev[c[k]] == (if k > 0 then c[k - 1] else c[|c| - 1])
  }

  /** From the head, next visits the members in order and comes back; prev goes the other way. */
  predicate IsRing(next: Links, prev: Links, h: Node, ms: seq<Node>) {
    var c := Cycle(h, ms);
    Distinct(c) && forall k :: 0 <= k < |c| ==> Linked(next, prev, c, k)
  }

  function Without(ms: seq<Node>, k: nat): seq<Node>
    requires k < |ms|
  {
    ms[..k] + ms[k + 1..]
  }

  // ----- the pointer updates

  function InsertNext(next: Links, prev: Links, h: Node, x: Node): Links
    requires h in prev
  {
    next[x := h][prev[h] := x]
  }

  function InsertPrev(prev: Links, h: Node, x: Node): Links
    requires h in prev
  {
    prev[x := prev[h]][h := x]
  }

  function DeleteNext(next: Links, prev: Links, x: Node): Links
    requires x in next && x in prev
  {
    next[prev[x] := next[x]] - {x}
  }

  function DeletePrev(next: Links, prev: Links, x: Node): Links
    requires x in next && x in prev
  {
    prev[next[x] := prev[x]] - {x}
  }

  lemma HeadLinks(next: Links, prev: Links, h: Node, ms: seq<Node>)
    requires IsRing(next, prev, h, ms)
    ensures h in next && h in prev && prev[h] == Cycle(h, ms)[|ms|]
    ensures next[h] == if |ms| == 0 then h else ms[0]
  {
    assert Linked(next, prev, Cycle(h, ms), 0);
  }

  lemma InsertRing(next: Links, prev: Links, h: Node, ms: seq<Node>, x: Node)
    requires IsRing(next, prev, h, ms) && x !in Cycle(h, ms) && h in prev
    ensures IsRing(InsertNext(next, prev, h, x), InsertPrev(prev, h, x), h, ms + [x])
  {
    var c, d := Cycle(h, ms), Cycle(h, ms + [x]);
    HeadLinks(next, prev, h, ms);
    assert d == c + [x];
    var n', p' := InsertNext(next, prev, h, x), InsertPrev(prev, h, x);
    forall k | 0 <= k < |d| ensures Linked(n', p', d, k) {
      if k < |c| {
        assert Linked(next, prev, c, k);
        assert c[k] == c[|ms|] ==> k == |ms|;
      }
    }
  }

  lemma DeleteRing(next: Links, prev: Links, h: Node, ms: seq<Node>, k: nat)
    requires IsRing(next, prev, h, ms) && k < |ms|
    ensures ms[k] in next && ms[k] in prev
    ensures IsRing(DeleteNext(next, prev, ms[k]), DeletePrev(next, prev, ms[k]), h, Without(ms, k))
  {
    var c, d, x := Cycle(h, ms), Cycle(h, Without(ms, k)), ms[k];
    assert c[k + 1] == x && Linked(next, prev, c, k + 1);
    var n', p' := DeleteNext(next, prev, x), DeletePrev(next, prev, x);
    assert forall i :: 0 <= i < |d| ==> d[i] == c[Place(i, k)];
    forall i, j | 0 <= i < j < |d| ensures d[i] != d[j] {
      assert c[Place(i, k)] != c[Place(j, k)];
    }
    forall i | 0 <= i < |d| ensures Linked(n', p', d, i) {
      DeleteLink(next, prev, c, d, k, i);
    }
  }

  /** Where the member at place i was before the one at place k + 1 was taken out. */
  function Place(i: nat, k: nat): nat {
    if i <= k then i else i + 1
  }

  lemma DeleteLink(next: Links, prev: Links, c: seq<Node>, d: seq<Node>, k: nat, i: nat)
    requires Distinct(c) && k + 1 < |c| == |d| + 1 && i < |d| && forall j :: 0 <= j < |d| ==> d[j] == c[Place(j, k)]
    requires Linked(next, prev, c, k + 1) && Linked(next, prev, c, Place(i, k))
    ensures Linked(DeleteNext(next, prev, c[k + 1]), DeletePrev(next, prev, c[k + 1]), d, i)
  {
    var x := c[k + 1];
    assert d[0] == c[0] && d[|d| - 1] == c[Place(|d| - 1, k)];
    assert c[Place(i, k)] != x;
    if i + 1 < |d| { assert d[i + 1] == c[Place(i + 1, k)]; }
    if i > 0 { assert d[i - 1] == c[Place(i - 1, k)]; }
  }

  predicate Kept(links: Links, links': Links, n: Node) {
    n in links ==> n in links' && links'[n] == links[n]
  }

  /** A ring none of whose nodes has been touched. */
  lemma OtherRing(next: Links, prev: Links, next': Links, prev': Links, h: Node, ms: seq<Node>)
    requires IsRing(next, prev, h, ms)
    requires forall n :: n in Cycle(h, ms) ==> Kept(next, next', n) && Kept(prev, prev', n)
    ensures IsRing(next', prev', h, ms)
  {
    var c := Cycle(h, ms);
    forall k | 0 <= k < |c| ensures Linked(next', prev', c, k) {
      assert c[k] in c && Linked(next, prev, c, k);
    }
  }

  // ----- all the rings of one kind

  /** n is the head h or a member of its ring. */
  predicate On(rings: map<Node, seq<Node>>, h: Node, n: Node) {
    h in rings && n in Cycle(h, rings[h])
  }

  predicate RingsOk(next: Links, prev: Links, rings: map<Node, seq<Node>>) {
    forall h :: h in rings ==> IsRing(next, prev, h, rings[h])
  }

  ghost predicate Disjoint(rings: map<Node, seq<Node>>) {
    forall h, g, n :: On(rings, h, n) && On(rings, g, n) ==> h == g
  }

  ghost predicate Covered(next: Links, prev: Links, rings: map<Node, seq<Node>>) {
    forall n :: (n in next <==> n in prev) && (n in next ==> exists h :: On(rings, h, n))
  }

  /** The pointers form exactly the given rings, which share no node. */
  ghost predicate Sound(next: Links, prev: Links, rings: map<Node, seq<Node>>) {
    RingsOk(next, prev, rings) && Disjoint(rings) && Covered(next, prev, rings)
  }

  lemma OnLinked(next: Links, prev: Links, rings: map<Node, seq<Node>>, h: Node, n: Node)
    requires RingsOk(next, prev, rings) && On(rings, h, n)
    ensures n in next && n in prev && next[n] in Cycle(h, rings[h]) && prev[n] in Cycle(h, rings[h])
  {
    var c := Cycle(h, rings[h]);
    var k :| 0 <= k < |c| && c[k] == n;
    assert Linked(next, prev, c, k);
  }

  lemma NotOn(next: Links, prev: Links, rings: map<Node, seq<Node>>, x: Node)
    requires RingsOk(next, prev, rings) && x !in next
    ensures forall g :: !On(rings, g, x)
  {
    forall g | On(rings, g, x) ensures false { OnLinked(next, prev, rings, g, x); }
  }

  lemma InsertRings(next: Links, prev: Links, rings: map<Node, seq<Node>>, h: Node, x: Node)
    requires RingsOk(next, prev, rings) && Disjoint(rings) && h in rings && h in prev && x !in next
    ensures RingsOk(InsertNext(next, prev, h, x), InsertPrev(prev, h, x), rings[h := rings[h] + [x]])
  {
    var ms := rings[h];
    NotOn(next, prev, rings, x);
    assert !On(rings, h, x) && On(rings, h, h);
    OnLinked(next, prev, rings, h, h);
    InsertRing(next, prev, h, ms, x);
    var n', p', rings' := InsertNext(next, prev, h, x), InsertPrev(prev, h, x), rings[h := ms + [x]];
    forall g | g in rings' ensures IsRing(n', p', g, rings'[g]) {
      if g != h {
        forall n | n in Cycle(g, rings[g]) ensures Kept(next, n', n) && Kept(prev, p', n) {
          assert On(rings, g, n) && On(rings, h, prev[h]);
        }
        OtherRing(next, prev, n', p', g, rings[g]);
      }
    }
  }

  /** The rings after x was appended to the one of h. */
  lemma InsertSound(next: Links, prev: Links, rings: map<Node, seq<Node>>, h: Node, x: Node)
    requires Sound(next, prev, rings) && h in rings && x !in next
    ensures h in prev && Sound(InsertNext(next, prev, h, x), InsertPrev(prev, h, x), rings[h := rings[h] + [x]])
  {
    assert On(rings, h, h);
    OnLinked(next, prev, rings, h, h);
    OnLinked(next, prev, rings, h, prev[h]);
    InsertRings(next, prev, rings, h, x);
    var n', p', rings' := InsertNext(next, prev, h, x), InsertPrev(prev, h, x), rings[h := rings[h] + [x]];
    SameMembers(rings, rings', h, x);
    NotOn(next, prev, rings, x);
    InsertCovered(next, prev, rings, h, x, rings');
  }

  lemma InsertCovered(next: Links, prev: Links, rings: map<Node, seq<Node>>, h: Node, x: Node, rings': map<Node, seq<Node>>)
    requires Covered(next, prev, rings) && h in prev && prev[h] in next
    requires forall g, n :: On(rings', g, n) <==> On(rings, g, n) || (g == h && n == x)
    ensures Covered(InsertNext(next, prev, h, x), InsertPrev(prev, h, x), rings')
  {
    assert On(rings', h, x);
    forall n | n in next ensures exists g :: On(rings', g, n) {
      var g :| On(rings, g, n);
      assert On(rings', g, n);
    }
  }

  /** Appending x to one ring gives that ring one more node and leaves the others alone. */
  lemma SameMembers(rings: map<Node, seq<Node>>, rings': map<Node, seq<Node>>, h: Node, x: Node)
    requires h in rings && rings' == rings[h := rings[h] + [x]]
    ensures forall g, n :: On(rings', g, n) <==> On(rings, g, n) || (g == h && n == x)
  {
    forall n ensures n in Cycle(h, rings[h] + [x]) <==> n in Cycle(h, rings[h]) || n == x {
      assert Cycle(h, rings[h] + [x]) == Cycle(h, rings[h]) + [x];
    }
  }

  lemma WithoutMembers(rings: map<Node, seq<Node>>, h: Node, k: nat, rings': map<Node, seq<Node>>)
    requires h in rings && k < |rings[h]| && Distinct(Cycle(h, rings[h])) && Disjoint(rings)
    requires rings' == rings[h := Without(rings[h], k)]
    ensures forall g, n :: On(rings', g, n) <==> On(rings, g, n) && n != rings[h][k]
  {
    var x := rings[h][k];
    assert Cycle(h, rings[h])[k + 1] == x && On(rings, h, x);
    forall g, n ensures On(rings', g, n) <==> On(rings, g, n) && n != x {
      if g == h {
        WithoutCycle(h, rings[h], k, n);
      } else if On(rings, g, n) {
        assert n != x;
      }
    }
  }

  lemma WithoutCycle(h: Node, ms: seq<Node>, k: nat, n: Node)
    requires k < |ms| && Distinct(Cycle(h, ms))
    ensures n in Cycle(h, Without(ms, k)) <==> n in Cycle(h, ms) && n != ms[k]
  {
    var c, d := Cycle(h, ms), Cycle(h, Without(ms, k));
    assert c[k + 1] == ms[k];
    if n in d {
      var i :| 0 <= i < |d| && d[i] == n;
      assert d[i] == c[Place(i, k)];
    }
    if n in c && n != ms[k] {
      var i :| 0 <= i < |c| && c[i] == n;
      assert d[if i <= k then i else i - 1] == n;
    }
  }

  lemma DeleteRings(next: Links, prev: Links, rings: map<Node, seq<Node>>, h: Node, k: nat, x: Node)
    requires RingsOk(next, prev, rings) && Disjoint(rings) && h in rings && k < |rings[h]| && rings[h][k] == x
    ensures x in next && x in prev
    ensures RingsOk(DeleteNext(next, prev, x), DeletePrev(next, prev, x), rings[h := Without(rings[h], k)])
  {
    var ms := rings[h];
    DeleteRing(next, prev, h, ms, k);
    assert Cycle(h, ms)[k + 1] == x && On(rings, h, x);
    OnLinked(next, prev, rings, h, x);
    var n', p', rings' := DeleteNext(next, prev, x), DeletePrev(next, prev, x), rings[h := Without(ms, k)];
    forall g | g in rings' ensures IsRing(n', p', g, rings'[g]) {
      if g != h {
        forall n | n in Cycle(g, rings[g]) ensures Kept(next, n', n) && Kept(prev, p', n) {
          assert On(rings, g, n) && On(rings, h, prev[x]) && On(rings, h, next[x]);
        }
        OtherRing(next, prev, n', p', g, rings[g]);
      }
    }
  }

  /** The rings after a member was taken out. */
  lemma DeleteSound(next: Links, prev: Links, rings: map<Node, seq<Node>>, h: Node, k: nat, x: Node, rings': map<Node, seq<Node>>)
    requires Sound(next, prev, rings) && h in rings && k < |rings[h]| && rings[h][k] == x
    requires rings' == rings[h := Without(rings[h], k)]
    ensures x in next && x in prev && Sound(DeleteNext(next, prev, x), DeletePrev(next, prev, x), rings')
    ensures forall g, n :: On(rings', g, n) <==> On(rings, g, n) && n != x
  {
    DeleteRings(next, prev, rings, h, k, x);
    WithoutMembers(rings, h, k, rings');
    assert Cycle(h, rings[h])[k + 1] == x && On(rings, h, x);
    OnLinked(next, prev, rings, h, x);
    assert On(rings, h, next[x]) && On(rings, h, prev[x]);
    OnLinked(next, prev, rings, h, next[x]);
    OnLinked(next, prev, rings, h, prev[x]);
    DeleteCovered(next, prev, rings, x, rings');
  }

  lemma DeleteCovered(next: Links, prev: Links, rings: map<Node, seq<Node>>, x: Node, rings': map<Node, seq<Node>>)
    requires Covered(next, prev, rings) && x in next && x in prev && next[x] in prev && prev[x] in next
    requires forall g, n :: On(rings', g, n) <==> On(rings, g, n) && n != x
    ensures Covered(DeleteNext(next, prev, x), DeletePrev(next, prev, x), rings')
  {
    forall n | n in next && n != x ensures exists g :: On(rings', g, n) {
      var g :| On(rings, g, n);
      assert On(rings', g, n);
    }
  }

  lemma OpenSound(next: Links, prev: Links, rings: map<Node, seq<Node>>, h: Node)
    requires Sound(next, prev, rings) && h !in next
    ensures Sound(next[h := h], prev[h := h], rings[h := []])
    ensures forall g, n :: On(rings[h := []], g, n) <==> On(rings, g, n) || (g == h && n == h)
  {
    NotOn(next, prev, rings, h);
    var n', p', rings' := next[h := h], prev[h := h], rings[h := []];
    assert !On(rings, h, h);
    assert Cycle(h, []) == [h];
    assert Linked(n', p', Cycle(h, []), 0);
    forall g | g in rings' && g != h ensures IsRing(n', p', g, rings'[g]) {
      forall n | n in Cycle(g, rings[g]) ensures Kept(next, n', n) && Kept(prev, p', n) { assert On(rings, g, n); }
      OtherRing(next, prev, n', p', g, rings[g]);
    }
    assert forall g, n :: On(rings', g, n) <==> On(rings, g, n) || (g == h && n == h);
    forall a, b, n | On(rings', a, n) && On(rings', b, n) ensures a == b {
      if n != h { assert On(rings, a, n) && On(rings, b, n); }
    }
    assert On(rings', h, h);
    forall n | n in next ensures exists g :: On(rings', g, n) {
      var g :| On(rings, g, n);
      assert On(rings', g, n);
    }
  }

  lemma CloseSound(next: Links, prev: Links, rings: map<Node, seq<Node>>, h: Node)
    requires Sound(next, prev, rings) && h in rings && rings[h] == []
    ensures Sound(next - {h}, prev - {h}, rings - {h})
    ensures forall g, n :: On(rings - {h}, g, n) <==> On(rings, g, n) && g != h
  {
    var n', p', rings' := next - {h}, prev - {h}, rings - {h};
    assert On(rings, h, h);
    forall g | g in rings' ensures IsRing(n', p', g, rings'[g]) {
      forall n | n in Cycle(g, rings[g]) ensures Kept(next, n', n) && Kept(prev, p', n) { assert On(rings, g, n); }
      OtherRing(next, prev, n', p', g, rings[g]);
    }
    assert forall g, n :: On(rings', g, n) <==> On(rings, g, n) && g != h;
    forall a, b, n | On(rings', a, n) && On(rings', b, n) ensures a == b {
      assert On(rings, a, n) && On(rings, b, n);
    }
    forall n | n in next && n != h ensures exists g :: On(rings', g, n) {
      var g :| On(rings, g, n);
      assert On(rings', g, n);
    }
  }

  /** A node has one place in one ring. */
  lemma OnlyPlace(next: Links, prev: Links, rings: map<Node, seq<Node>>, h: Node, k: nat, x: Node)
    requires RingsOk(next, prev, rings) && Disjoint(rings) && h in rings && k < |rings[h]| && rings[h][k] == x
    ensures forall g, i :: g in rings && 0 <= i < |rings[g]| && rings[g][i] == x ==> g == h && i == k
  {
    assert On(rings, h, x) by { assert Cycle(h, rings[h])[k + 1] == x; }
    forall g, i | g in rings && 0 <= i < |rings[g]| && rings[g][i] == x ensures g == h && i == k {
      assert Cycle(g, rings[g])[i + 1] == x && On(rings, g, x);
      assert Cycle(h, rings[h])[k + 1] == x;
    }
  }

  /** The lists of one kind, as the code keeps them: two pointers in every node. */
  class Lists {
    var next: Links
    var prev: Links
    ghost var rings: map<Node, seq<Node>>

    ghost predicate Valid()
      reads this
    {
      Sound(next, prev, rings)
    }

    constructor ()
      ensures Valid() && rings == map[]
    {
      next, prev, rings := map[], map[], map[];
    }

    /** `H->next = H->prev = H`. */
    method Open(h: Node)
      requires Valid() && h !in next
      modifies this
      ensures Valid() && rings == old(rings)[h := []] && next == old(next)[h := h]
      ensures forall g, n :: On(rings, g, n) <==> On(old(rings), g, n) || (g == h && n == h)
    {
      OpenSound(next, prev, rings, h);
      next, prev, rings := next[h := h], prev[h := h], rings[h := []];
    }

    /** `H->next = H->prev = 0` for an empty list. */
    method Close(h: Node)
      requires Valid() && h in rings && rings[h] == []
      modifies this
      ensures Valid() && rings == old(rings) - {h}
      ensures forall g, n :: On(rings, g, n) <==> On(old(rings), g, n) && g != h
    {
      CloseSound(next, prev, rings, h);
      next, prev, rings := next - {h}, prev - {h}, rings - {h};
    }

    /** Links x in before the head. */
    method InsertTail(h: Node, x: Node)
      requires Valid() && h in rings && x !in next
      modifies this
      ensures Valid() && rings == old(rings)[h := old(rings)[h] + [x]]
      ensures forall g, n :: On(rings, g, n) <==> On(old(rings), g, n) || (g == h && n == x)
    {
      InsertSound(next, prev, rings, h, x);
      SameMembers(rings, rings[h := rings[h] + [x]], h, x);
      var last := prev[h];
      next := next[x := h];
      prev := prev[x := last];
      next := next[last := x];
      prev := prev[h := x];
      rings := rings[h := rings[h] + [x]];
    }

    /** Takes a member out of its list. */
    method Delete(x: Node)
      requires Valid() && x in next && x !in rings
      modifies this
      ensures Valid() && x !in next && rings.Keys == old(rings).Keys
      ensures forall g, n :: On(rings, g, n) <==> On(old(rings), g, n) && n != x
      ensures forall g, k :: g in old(rings) && 0 <= k < |old(rings)[g]| && old(rings)[g][k] == x ==> rings[g] == Without(old(rings)[g], k)
    {
      ghost var h :| On(rings, h, x);
      ghost var ms := rings[h];
      ghost var k :| 0 <= k < |ms| && ms[k] == x;
      ghost var rings' := rings[h := Without(ms, k)];
      OnlyPlace(next, prev, rings, h, k, x);
      DeleteSound(next, prev, rings, h, k, x, rings');
      var n, p := next[x], prev[x];
      prev := prev[n := p];
      next := next[p := n];
      next, prev := next - {x}, prev - {x};
      rings := rings';
    }
  }
}
