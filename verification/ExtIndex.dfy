/**
 * What the indexes over the external connections of src/mtproto/mtproto-proxy.c have to say: the
 * hash chains on (in_fd, in_conn_id), the table on out_conn_id, the lists per descriptor, the LRU
 * list, the counter, and the history of issued ids.
 */
module ExtIndex {
  import opened ExtRing

  const TABLE_SIZE: int := 0x40_0000
  const HASH_SIZE: int := 0x10_0000

  /** struct ext_connection without its links; out_fd is 0 when there is no middle-end. */
  datatype Ext = Ext(inFd: int, inGen: int, outFd: int, outGen: int, inConnId: int, outConnId: int, authKey: int)

  /** Whom an out_conn_id was created for, and with which middle-end. */
  datatype Issue = Issue(inFd: int, inGen: int, outFd: int, outGen: int)

  type Conns = map<nat, Ext>

  /** ext_conn_hash: the top 20 bits of a 64-bit product. */
  function ExtHash(inFd: int, inConnId: int): (h: int)
    ensures 0 <= h < HASH_SIZE
  {
    (inFd * 11400714819323198485 + inConnId * 13043817825332782213) % 0x1_0000_0000_0000_0000 / 0x1000_0000_0000
  }

  /** `out_conn_id & (EXT_CONN_TABLE_SIZE - 1)`. */
  function Slot(outConnId: int): (s: int)
    ensures 0 <= s < TABLE_SIZE
  {
    outConnId % TABLE_SIZE
  }

  /** `(last | (EXT_CONN_TABLE_SIZE - 1)) + 1 + h`. */
  function NextId(last: nat, h: int): (r: int)
    requires 0 <= h < TABLE_SIZE
    ensures r > last && r > 0 && Slot(r) == h
  {
    last - last % TABLE_SIZE + (TABLE_SIZE - 1) + 1 + h
  }

  // ----- the hash chains

  type Buckets = map<int, seq<nat>>

  function Chain(buckets: Buckets, b: int): seq<nat> {
    if b in buckets then buckets[b] else []
  }

  predicate NoDup(c: seq<nat>) {
    forall i, j :: 0 <= i < j < |c| ==> c[i] != c[j]
  }

  /** The chains work with any hash function; the code uses ExtHash. */
  type Hash = (int, int) -> int

  function HashOf(hash: Hash, e: Ext): int {
    hash(e.inFd, e.inConnId)
  }

  /** Every connection is in the chain of its hash, once, and nothing else is. */
  ghost predicate Hashed(hash: Hash, conns: Conns, buckets: Buckets) {
    && (forall b :: b in buckets ==> NoDup(buckets[b]))
    && (forall b, id :: id in Chain(buckets, b) <==> id in conns && HashOf(hash, conns[id]) == b)
  }

  /** No two connections answer to the same (in_fd, in_conn_id). */
  predicate KeysUnique(conns: Conns) {
    forall i, j :: i in conns && j in conns && conns[i].inFd == conns[j].inFd && conns[i].inConnId == conns[j].inConnId ==> i == j
  }

  lemma HashedInsert(hash: Hash, conns: Conns, buckets: Buckets, id: nat, e: Ext)
    requires Hashed(hash, conns, buckets) && id !in conns
    ensures Hashed(hash, conns[id := e], buckets[HashOf(hash, e) := [id] + Chain(buckets, HashOf(hash, e))])
  {
    var h := HashOf(hash, e);
    var conns', buckets' := conns[id := e], buckets[h := [id] + Chain(buckets, h)];
    assert id !in Chain(buckets, h);
    forall b, x ensures x in Chain(buckets', b) <==> x in conns' && HashOf(hash, conns'[x]) == b {
      if b == h { assert x in Chain(buckets', b) <==> x == id || x in Chain(buckets, h); }
      assert x in Chain(buckets, b) <==> x in conns && HashOf(hash, conns[x]) == b;
      if x == id { assert x !in Chain(buckets, b); }
    }
  }

  function Cut(c: seq<nat>, k: nat): seq<nat>
    requires k < |c|
  {
    c[..k] + c[k + 1..]
  }

  lemma CutMembers(c: seq<nat>, k: nat)
    requires k < |c| && NoDup(c)
    ensures NoDup(Cut(c, k)) && forall x :: x in Cut(c, k) <==> x in c && x != c[k]
  {
    var d := Cut(c, k);
    assert forall i :: 0 <= i < |d| ==> d[i] == c[if i < k then i else i + 1];
    forall x | x in c && x != c[k] ensures x in d {
      var i :| 0 <= i < |c| && c[i] == x;
      assert d[if i < k then i else i - 1] == x;
    }
  }

  lemma HashedDelete(hash: Hash, conns: Conns, buckets: Buckets, id: nat, h: int, k: nat)
    requires Hashed(hash, conns, buckets) && id in conns && h == HashOf(hash, conns[id]) && h in buckets && k < |buckets[h]| && buckets[h][k] == id
    ensures Hashed(hash, conns - {id}, buckets[h := Cut(buckets[h], k)])
  {
    var c := Cut(buckets[h], k);
    CutMembers(buckets[h], k);
    HashedWithout(hash, conns, buckets, id, h, c, conns - {id}, buckets[h := c]);
  }

  lemma HashedWithout(hash: Hash, conns: Conns, buckets: Buckets, id: nat, h: int, c: seq<nat>, conns': Conns, buckets': Buckets)
    requires Hashed(hash, conns, buckets) && id in conns && h == HashOf(hash, conns[id]) && NoDup(c)
    requires forall y :: y in c <==> y in Chain(buckets, h) && y != id
    requires conns' == conns - {id} && buckets' == buckets[h := c]
    ensures Hashed(hash, conns', buckets')
  {
    forall b, x ensures x in Chain(buckets', b) <==> x in conns' && HashOf(hash, conns'[x]) == b {
      CutChain(hash, conns, buckets, id, h, c, b, x);
    }
  }

  lemma CutChain(hash: Hash, conns: Conns, buckets: Buckets, id: nat, h: int, c: seq<nat>, b: int, x: nat)
    requires Hashed(hash, conns, buckets) && id in conns && h == HashOf(hash, conns[id])
    requires forall y :: y in c <==> y in Chain(buckets, h) && y != id
    ensures x in Chain(buckets[h := c], b) <==> x in conns - {id} && HashOf(hash, (conns - {id})[x]) == b
  {
    assert x in Chain(buckets, b) <==> x in conns && HashOf(hash, conns[x]) == b;
  }

  // ----- the chains as the code links them

  /** The first structure of a chain, and h_next; a missing entry is a null pointer. */
  type Heads = map<int, nat>
  type Nexts = map<nat, nat>

  predicate ChainLinked(first: Heads, hnext: Nexts, b: int, c: seq<nat>) {
    && (b in first <==> |c| > 0) && (|c| > 0 ==> first[b] == c[0])
    && (forall i :: 0 <= i < |c| ==> (c[i] in hnext <==> i + 1 < |c|))
    && (forall i :: 0 <= i < |c| - 1 ==> hnext[c[i]] == c[i + 1])
  }

  ghost predicate Chained(first: Heads, hnext: Nexts, buckets: Buckets) {
    forall b {:trigger ChainLinked(first, hnext, b, Chain(buckets, b))} :: ChainLinked(first, hnext, b, Chain(buckets, b))
  }

  /** `*p`, and `*p = q`. */
  function Load<K>(m: map<K, nat>, k: K): (r: Pointer) {
    if k in m then Address(m[k]) else Null
  }

  function Assign<K>(m: map<K, nat>, k: K, p: Pointer): map<K, nat> {
    if p.Address? then m[k := p.at] else m - {k}
  }

  datatype Pointer = Null | Address(at: nat)

  lemma ChainedInsert(hash: Hash, conns: Conns, buckets: Buckets, first: Heads, hnext: Nexts, id: nat, b: int)
    requires Hashed(hash, conns, buckets) && Chained(first, hnext, buckets) && id !in conns
    ensures Chained(Assign(first, b, Address(id)), Assign(hnext, id, Load(first, b)), buckets[b := [id] + Chain(buckets, b)])
  {
    var first', hnext' := Assign(first, b, Address(id)), Assign(hnext, id, Load(first, b));
    var buckets' := buckets[b := [id] + Chain(buckets, b)];
    forall g ensures ChainLinked(first', hnext', g, Chain(buckets', g)) {
      assert ChainLinked(first, hnext, g, Chain(buckets, g));
      assert forall x :: x in Chain(buckets, g) ==> x in conns;
    }
  }

  /** `*prev = cur->h_next; cur->h_next = 0` for the structure at place k of its chain. */
  lemma ChainedDelete(hash: Hash, conns: Conns, buckets: Buckets, first: Heads, hnext: Nexts, b: int, k: nat, first': Heads, hnext': Nexts)
    requires Hashed(hash, conns, buckets) && Chained(first, hnext, buckets) && b in buckets && k < |buckets[b]|
    requires first' == if k == 0 then Assign(first, b, Load(hnext, buckets[b][k])) else first
    requires hnext' == (if k == 0 then hnext else Assign(hnext, buckets[b][k - 1], Load(hnext, buckets[b][k]))) - {buckets[b][k]}
    ensures Chained(first', hnext', buckets[b := Cut(buckets[b], k)])
  {
    var buckets' := buckets[b := Cut(buckets[b], k)];
    var c := buckets[b];
    forall g ensures ChainLinked(first', hnext', g, Chain(buckets', g)) {
      assert ChainLinked(first, hnext, g, Chain(buckets, g));
      if g == b {
        CutLinked(first, hnext, b, c, k, first', hnext');
      } else {
        forall x | x in Chain(buckets, g) ensures x !in c {
          if x in c { ChainsApart(hash, conns, buckets, g, b, x); }
        }
        OtherLinked(first, hnext, g, Chain(buckets, g), first', hnext', c);
      }
    }
  }

  lemma ChainsApart(hash: Hash, conns: Conns, buckets: Buckets, g: int, b: int, x: nat)
    requires Hashed(hash, conns, buckets) && x in Chain(buckets, g) && x in Chain(buckets, b)
    ensures g == b
  {
    assert HashOf(hash, conns[x]) == g;
  }

  lemma OtherLinked(first: Heads, hnext: Nexts, g: int, d: seq<nat>, first': Heads, hnext': Nexts, c: seq<nat>)
    requires ChainLinked(first, hnext, g, d) && (forall x :: x in d ==> x !in c) && (g in first' <==> g in first)
    requires g in first ==> first'[g] == first[g]
    requires forall x :: x !in c ==> (x in hnext' <==> x in hnext) && (x in hnext ==> hnext'[x] == hnext[x])
    ensures ChainLinked(first', hnext', g, d)
  {
    forall i | 0 <= i < |d| ensures d[i] !in c { assert d[i] in d; }
  }

  lemma CutLinked(first: Heads, hnext: Nexts, b: int, c: seq<nat>, k: nat, first': Heads, hnext': Nexts)
    requires ChainLinked(first, hnext, b, c) && k < |c| && NoDup(c)
    requires first' == if k == 0 then Assign(first, b, Load(hnext, c[k])) else first
    requires hnext' == (if k == 0 then hnext else Assign(hnext, c[k - 1], Load(hnext, c[k]))) - {c[k]}
    ensures ChainLinked(first', hnext', b, Cut(c, k))
  {
    var d := Cut(c, k);
    assert forall i :: 0 <= i < |d| ==> d[i] == c[if i < k then i else i + 1];
    assert Load(hnext, c[k]) == if k + 1 < |c| then Address(c[k + 1]) else Null;
  }

  // ----- the table of out_conn_ids

  /** The last id issued for a slot, 0 at first. */
  function Last(lastIds: map<int, nat>, s: int): nat {
    if s in lastIds then lastIds[s] else 0
  }

  /** The slot of every connection's id refers to it and holds that id; no other slot refers to anything. */
  predicate OutTable(conns: Conns, refs: map<int, nat>, lastIds: map<int, nat>) {
    && (forall id :: id in conns ==> conns[id].outConnId != 0 && Refers(conns, refs, lastIds, id))
    && (forall s :: s in refs ==> refs[s] in conns && Slot(conns[refs[s]].outConnId) == s)
  }

  predicate Refers(conns: Conns, refs: map<int, nat>, lastIds: map<int, nat>, id: nat)
    requires id in conns
  {
    var s := Slot(conns[id].outConnId);
    s in refs && refs[s] == id && Last(lastIds, s) == conns[id].outConnId
  }

  /** Every id ever issued is at most the last one of its slot; the connections' ids are recorded for them. */
  predicate History(conns: Conns, lastIds: map<int, nat>, issued: map<int, Issue>) {
    && (forall o :: o in issued ==> 0 < o <= Last(lastIds, Slot(o)))
    && (forall id :: id in conns ==> Recorded(conns[id], issued))
  }

  predicate Recorded(e: Ext, issued: map<int, Issue>) {
    e.outConnId in issued && issued[e.outConnId] == Issue(e.inFd, e.inGen, e.outFd, e.outGen)
  }

  lemma OutInsert(conns: Conns, refs: map<int, nat>, lastIds: map<int, nat>, id: nat, e: Ext, h: int)
    requires OutTable(conns, refs, lastIds) && id !in conns && 0 <= h < TABLE_SIZE && h !in refs
    requires e.outConnId == NextId(Last(lastIds, h), h)
    ensures OutTable(conns[id := e], refs[h := id], lastIds[h := e.outConnId])
  {
    var conns', refs', last' := conns[id := e], refs[h := id], lastIds[h := e.outConnId];
    forall x | x in conns' ensures conns'[x].outConnId != 0 && Refers(conns', refs', last', x) {
      if x != id { assert Refers(conns, refs, lastIds, x); }
    }
  }

  lemma HistoryInsert(conns: Conns, lastIds: map<int, nat>, issued: map<int, Issue>, id: nat, e: Ext, h: int)
    requires History(conns, lastIds, issued) && 0 <= h < TABLE_SIZE && e.outConnId == NextId(Last(lastIds, h), h)
    ensures e.outConnId !in issued
    ensures History(conns[id := e], lastIds[h := e.outConnId], issued[e.outConnId := Issue(e.inFd, e.inGen, e.outFd, e.outGen)])
  {
    var o := e.outConnId;
    assert o in issued ==> o <= Last(lastIds, Slot(o));
    forall x | x in conns && x != id ensures Recorded(conns[x], issued) && conns[x].outConnId != o {
      assert Recorded(conns[x], issued);
    }
  }

  lemma OutDelete(conns: Conns, refs: map<int, nat>, lastIds: map<int, nat>, id: nat, s: int)
    requires OutTable(conns, refs, lastIds) && id in conns && s == Slot(conns[id].outConnId)
    ensures OutTable(conns - {id}, refs - {s}, lastIds)
  {
    assert Refers(conns, refs, lastIds, id);
    forall x | x in conns && x != id ensures Refers(conns - {id}, refs - {s}, lastIds, x) {
      assert Refers(conns, refs, lastIds, x);
    }
  }

  // ----- all tables together

  ghost predicate TablesOk(hash: Hash, conns: Conns, buckets: Buckets, refs: map<int, nat>, lastIds: map<int, nat>,
                           issued: map<int, Issue>, count: int) {
    && Hashed(hash, conns, buckets) && KeysUnique(conns) && OnePerClient(conns)
    && OutTable(conns, refs, lastIds) && History(conns, lastIds, issued) && count == |conns|
  }

  lemma TablesDelete(hash: Hash, conns: Conns, buckets: Buckets, refs: map<int, nat>, lastIds: map<int, nat>,
                     issued: map<int, Issue>, count: int, id: nat, h: int, k: nat, s: int)
    requires TablesOk(hash, conns, buckets, refs, lastIds, issued, count) && id in conns
    requires h == HashOf(hash, conns[id]) && h in buckets && k < |buckets[h]| && buckets[h][k] == id && s == Slot(conns[id].outConnId)
    ensures TablesOk(hash, conns - {id}, buckets[h := Cut(buckets[h], k)], refs - {s}, lastIds, issued, count - 1)
  {
    HashedDelete(hash, conns, buckets, id, h, k);
    OutDelete(conns, refs, lastIds, id, s);
    assert conns.Keys == (conns - {id}).Keys + {id};
    forall x | x in conns ensures Recorded(conns[x], issued) { }
  }

  /** A new key and, for a client descriptor, the only connection of it. */
  predicate Free(conns: Conns, e: Ext) {
    forall j :: j in conns ==> !(conns[j].inFd == e.inFd && (conns[j].inConnId == e.inConnId || e.inFd != 0))
  }

  lemma TablesInsert(hash: Hash, conns: Conns, buckets: Buckets, refs: map<int, nat>, lastIds: map<int, nat>,
                     issued: map<int, Issue>, count: int, id: nat, e: Ext, h: int)
    requires TablesOk(hash, conns, buckets, refs, lastIds, issued, count) && id !in conns && Free(conns, e)
    requires 0 <= h < TABLE_SIZE && h !in refs && e.outConnId == NextId(Last(lastIds, h), h)
    ensures e.outConnId !in issued
    ensures TablesOk(hash, conns[id := e], buckets[HashOf(hash, e) := [id] + Chain(buckets, HashOf(hash, e))], refs[h := id],
                     lastIds[h := e.outConnId], issued[e.outConnId := Issue(e.inFd, e.inGen, e.outFd, e.outGen)], count + 1)
  {
    HashedInsert(hash, conns, buckets, id, e);
    OutInsert(conns, refs, lastIds, id, e, h);
    HistoryInsert(conns, lastIds, issued, id, e, h);
    KeysInsert(conns, id, e);
  }

  lemma KeysInsert(conns: Conns, id: nat, e: Ext)
    requires KeysUnique(conns) && OnePerClient(conns) && id !in conns && Free(conns, e)
    ensures KeysUnique(conns[id := e]) && OnePerClient(conns[id := e]) && |conns[id := e]| == |conns| + 1
  {
    assert conns[id := e].Keys == conns.Keys + {id};
  }

  /** Naming the middle-end of a connection afterwards. */
  lemma TablesBind(hash: Hash, conns: Conns, buckets: Buckets, refs: map<int, nat>, lastIds: map<int, nat>,
                   issued: map<int, Issue>, count: int, id: nat, outFd: int, outGen: int, authKey: int)
    requires TablesOk(hash, conns, buckets, refs, lastIds, issued, count) && id in conns
    ensures var e := conns[id].(outFd := outFd, outGen := outGen, authKey := authKey);
            TablesOk(hash, conns[id := e], buckets, refs, lastIds, issued[e.outConnId := Issue(e.inFd, e.inGen, e.outFd, e.outGen)], count)
  {
    var e := conns[id].(outFd := outFd, outGen := outGen, authKey := authKey);
    assert conns[id := e].Keys == conns.Keys;
    HashedSame(hash, conns, buckets, id, e);
    OutSame(conns, refs, lastIds, id, e);
    HistorySame(conns, lastIds, issued, id, e, refs);
  }

  lemma HashedSame(hash: Hash, conns: Conns, buckets: Buckets, id: nat, e: Ext)
    requires Hashed(hash, conns, buckets) && id in conns && e.inFd == conns[id].inFd && e.inConnId == conns[id].inConnId
    ensures Hashed(hash, conns[id := e], buckets)
  {
    var conns' := conns[id := e];
    forall b, x ensures x in Chain(buckets, b) <==> x in conns' && HashOf(hash, conns'[x]) == b {
      assert x in Chain(buckets, b) <==> x in conns && HashOf(hash, conns[x]) == b;
    }
  }

  lemma OutSame(conns: Conns, refs: map<int, nat>, lastIds: map<int, nat>, id: nat, e: Ext)
    requires OutTable(conns, refs, lastIds) && id in conns && e.outConnId == conns[id].outConnId
    ensures OutTable(conns[id := e], refs, lastIds)
  {
    var conns' := conns[id := e];
    forall x | x in conns' ensures Refers(conns', refs, lastIds, x) { assert Refers(conns, refs, lastIds, x); }
  }

  lemma HistorySame(conns: Conns, lastIds: map<int, nat>, issued: map<int, Issue>, id: nat, e: Ext, refs: map<int, nat>)
    requires History(conns, lastIds, issued) && OutTable(conns, refs, lastIds) && id in conns && e.outConnId == conns[id].outConnId
    ensures History(conns[id := e], lastIds, issued[e.outConnId := Issue(e.inFd, e.inGen, e.outFd, e.outGen)])
  {
    var conns', issued' := conns[id := e], issued[e.outConnId := Issue(e.inFd, e.inGen, e.outFd, e.outGen)];
    assert Recorded(conns[id], issued) && Refers(conns, refs, lastIds, id);
    forall x | x in conns' ensures Recorded(conns'[x], issued') {
      assert Refers(conns, refs, lastIds, x) && Recorded(conns[x], issued);
    }
  }

  // ----- the lists

  /** The descriptor whose list of the given kind the connection belongs to; 0 for none. */
  function Fd(out: bool, e: Ext): int {
    if out then e.outFd else e.inFd
  }

  /**
   * The lists hold exactly the connections that name their descriptor. A zero stands for "none" and
   * for descriptor 0: a middle-end there has a list like any other, a client there has no connection
   * in its list.
   */
  ghost predicate Listed(out: bool, conns: Conns, rings: map<Node, seq<Node>>) {
    && (forall h, n :: On(rings, h, n) ==> h.Head? && (n == h || Names(out, conns, h, n)))
    && (forall id :: id in conns && Fd(out, conns[id]) != 0 ==> On(rings, Head(Fd(out, conns[id])), Conn(id)))
    && (!out ==> forall n :: On(rings, Head(0), n) ==> n == Head(0))
  }

  predicate Names(out: bool, conns: Conns, h: Node, n: Node) {
    h.Head? && n.Conn? && n.id in conns && Fd(out, conns[n.id]) == h.fd
  }

  const LRU: Node := Head(0)

  /** The LRU list holds live connections, each at most once. */
  ghost predicate LruListed(conns: Conns, rings: map<Node, seq<Node>>) {
    LRU in rings && forall h, n :: On(rings, h, n) ==> h == LRU && (n == h || (n.Conn? && n.id in conns))
  }

  /** A client descriptor has at most one connection. */
  predicate OnePerClient(conns: Conns) {
    forall i, j :: i in conns && j in conns && conns[i].inFd == conns[j].inFd != 0 ==> i == j
  }

  /** The lists after a connection without descriptor of this kind was added. */
  lemma ListedNew(out: bool, conns: Conns, rings: map<Node, seq<Node>>, id: nat, e: Ext)
    requires Listed(out, conns, rings) && id !in conns && Fd(out, e) == 0
    ensures Listed(out, conns[id := e], rings)
  {
    forall h, n | On(rings, h, n) ensures h.Head? && (n == h || Names(out, conns[id := e], h, n)) {
      assert n == h || Names(out, conns, h, n);
    }
  }

  /** The lists after a connection was added and put into the list of its descriptor. */
  lemma ListedInsert(out: bool, conns: Conns, rings: map<Node, seq<Node>>, id: nat, e: Ext, rings': map<Node, seq<Node>>)
    requires Listed(out, conns - {id}, rings) && id in conns && conns[id] == e && (out || Fd(out, e) != 0)
    requires forall g, n :: On(rings', g, n) <==> On(rings, g, n) || (g == Head(Fd(out, e)) && n == Conn(id)) || (g == n == Head(Fd(out, e)))
    ensures Listed(out, conns, rings')
  {
    forall h, n | On(rings', h, n) ensures h.Head? && (n == h || Names(out, conns, h, n)) {
      if On(rings, h, n) { assert n == h || Names(out, conns - {id}, h, n); }
    }
    forall x | x in conns && Fd(out, conns[x]) != 0 ensures On(rings', Head(Fd(out, conns[x])), Conn(x)) {
      if x != id { assert x in conns - {id}; }
    }
  }

  lemma ListedDelete(out: bool, conns: Conns, rings: map<Node, seq<Node>>, id: nat, rings': map<Node, seq<Node>>)
    requires Listed(out, conns, rings) && forall g, n :: On(rings', g, n) <==> On(rings, g, n) && n != Conn(id)
    ensures Listed(out, conns - {id}, rings')
  {
    forall h, n | On(rings', h, n) ensures h.Head? && (n == h || Names(out, conns - {id}, h, n)) {
      assert n == h || Names(out, conns, h, n);
    }
  }

  /** The lists of both kinds and the LRU list. */
  ghost predicate ListsOk(conns: Conns, ins: map<Node, seq<Node>>, outs: map<Node, seq<Node>>, lru: map<Node, seq<Node>>) {
    Listed(false, conns, ins) && Listed(true, conns, outs) && LruListed(conns, lru)
  }

  /** The client's list, if there is one, has gained the connection (and its head, if it was new). */
  ghost predicate Entered(rings: map<Node, seq<Node>>, rings': map<Node, seq<Node>>, fd: int, id: nat) {
    if fd == 0 then rings' == rings
    else forall g, n :: On(rings', g, n) <==> On(rings, g, n) || (g == Head(fd) && n == Conn(id)) || (g == n == Head(fd))
  }

  lemma ListsEnter(conns: Conns, conns': Conns, ins: map<Node, seq<Node>>, ins': map<Node, seq<Node>>,
                   outs: map<Node, seq<Node>>, lru: map<Node, seq<Node>>, id: nat, e: Ext)
    requires ListsOk(conns, ins, outs, lru) && id !in conns && conns' == conns[id := e] && e.outFd == 0
    requires Entered(ins, ins', e.inFd, id)
    ensures ListsOk(conns', ins', outs, lru)
  {
    assert conns' - {id} == conns;
    if e.inFd != 0 {
      ListedInsert(false, conns', ins, id, e, ins');
    } else {
      ListedNew(false, conns, ins, id, e);
    }
    ListedNew(true, conns, outs, id, e);
  }

  lemma ListsDelete(conns: Conns, ins: map<Node, seq<Node>>, ins': map<Node, seq<Node>>, outs: map<Node, seq<Node>>, outs': map<Node, seq<Node>>,
                    lru: map<Node, seq<Node>>, lru': map<Node, seq<Node>>, id: nat)
    requires ListsOk(conns, ins, outs, lru) && LRU in lru'
    requires forall g, n :: On(ins', g, n) <==> On(ins, g, n) && n != Conn(id)
    requires forall g, n :: On(outs', g, n) <==> On(outs, g, n) && n != Conn(id)
    requires forall g, n :: On(lru', g, n) <==> On(lru, g, n) && n != Conn(id)
    ensures ListsOk(conns - {id}, ins', outs', lru')
  {
    ListedDelete(false, conns, ins, id, ins');
    ListedDelete(true, conns, outs, id, outs');
  }

  lemma EmptyTables(hash: Hash, conns: Conns, buckets: Buckets, refs: map<int, nat>, lastIds: map<int, nat>, issued: map<int, Issue>)
    requires conns == map[] && buckets == map[] && refs == map[] && lastIds == map[] && issued == map[]
    ensures TablesOk(hash, conns, buckets, refs, lastIds, issued, 0)
  {
  }

  lemma EmptyChains(first: Heads, hnext: Nexts, buckets: Buckets)
    requires first == map[] && hnext == map[] && buckets == map[]
    ensures Chained(first, hnext, buckets)
  {
  }

  lemma EmptyLists(ins: map<Node, seq<Node>>, outs: map<Node, seq<Node>>, lru: map<Node, seq<Node>>)
    requires ins == map[] && outs == map[] && lru == map[LRU := []]
    ensures ListsOk(map[], ins, outs, lru)
  {
  }

  /** A connection changes nothing that the lists look at. */
  lemma ListsSame(conns: Conns, ins: map<Node, seq<Node>>, outs: map<Node, seq<Node>>, lru: map<Node, seq<Node>>, id: nat, e: Ext)
    requires ListsOk(conns, ins, outs, lru) && id in conns && e.inFd == conns[id].inFd && e.outFd == conns[id].outFd
    ensures ListsOk(conns[id := e], ins, outs, lru)
  {
    SameFd(false, conns, ins, id, e);
    SameFd(true, conns, outs, id, e);
  }

  lemma SameFd(out: bool, conns: Conns, rings: map<Node, seq<Node>>, id: nat, e: Ext)
    requires Listed(out, conns, rings) && id in conns && Fd(out, e) == Fd(out, conns[id])
    ensures Listed(out, conns[id := e], rings)
  {
    forall h, n | On(rings, h, n) ensures h.Head? && (n == h || Names(out, conns[id := e], h, n)) {
      assert n == h || Names(out, conns, h, n);
    }
  }

  /** A connection without middle-end gets one, and a place in its list. */
  lemma ListsBind(conns: Conns, ins: map<Node, seq<Node>>, outs: map<Node, seq<Node>>, outs': map<Node, seq<Node>>,
                  lru: map<Node, seq<Node>>, id: nat, e: Ext)
    requires ListsOk(conns, ins, outs, lru) && id in conns && e.inFd == conns[id].inFd && Head(e.outFd) in outs
    requires forall g :: !On(outs, g, Conn(id))
    requires forall g, n :: On(outs', g, n) <==> On(outs, g, n) || (g == Head(e.outFd) && n == Conn(id))
    ensures ListsOk(conns[id := e], ins, outs', lru)
  {
    SameFd(false, conns, ins, id, e);
    ListedDelete(true, conns, outs, id, outs);
    assert On(outs, Head(e.outFd), Head(e.outFd));
    assert conns[id := e] - {id} == conns - {id};
    ListedInsert(true, conns[id := e], outs, id, e, outs');
  }

  /** Exactly the members of a list are gone; the other connections are as they were. */
  ghost predicate MembersGone(before: Conns, after: Conns, ms: seq<Node>) {
    forall j :: (j in after <==> j in before && Conn(j) !in ms) && (j in after ==> after[j] == before[j])
  }

  /** For a descriptor other than 0 these are exactly the connections that name it. */
  lemma MembersAreNamed(out: bool, conns: Conns, rings: map<Node, seq<Node>>, fd: int, j: nat)
    requires Listed(out, conns, rings) && fd != 0 && Head(fd) in rings && j in conns
    ensures Conn(j) in rings[Head(fd)] <==> Fd(out, conns[j]) == fd
  {
    var c := Cycle(Head(fd), rings[Head(fd)]);
    if Conn(j) in rings[Head(fd)] {
      var k :| 0 <= k < |rings[Head(fd)]| && rings[Head(fd)][k] == Conn(j);
      assert c[k + 1] == Conn(j) && On(rings, Head(fd), Conn(j));
      assert Names(out, conns, Head(fd), Conn(j));
    }
    if Fd(out, conns[j]) == fd {
      assert On(rings, Head(fd), Conn(j));
      var k :| 0 <= k < |c| && c[k] == Conn(j);
      assert rings[Head(fd)][k - 1] == Conn(j);
    }
  }

  lemma NamedGone(out: bool, conns: Conns, conns': Conns, rings: map<Node, seq<Node>>, fd: int)
    requires Listed(out, conns, rings) && fd != 0 && Head(fd) in rings && MembersGone(conns, conns', rings[Head(fd)])
    ensures forall j :: j in conns' <==> j in conns && Fd(out, conns[j]) != fd
  {
    forall j | j in conns ensures Conn(j) in rings[Head(fd)] <==> Fd(out, conns[j]) == fd {
      MembersAreNamed(out, conns, rings, fd, j);
    }
  }

  // ----- ids over a whole run

  predicate LiveId(conns: Conns, o: int) {
    exists id :: id in conns && conns[id].outConnId == o
  }

  /** What every operation does to the ids: records stay, and a connection that was not there has an id never issued before. */
  predicate Evolves(conns: Conns, issued: map<int, Issue>, conns': Conns, issued': map<int, Issue>) {
    && (forall o :: o in issued ==> o in issued' && issued'[o] == issued[o])
    && (forall id :: id in conns' ==> LiveId(conns, conns'[id].outConnId) || conns'[id].outConnId !in issued)
  }

  lemma FewerEvolves(conns: Conns, issued: map<int, Issue>, conns': Conns)
    requires forall id :: id in conns' ==> id in conns && conns'[id].outConnId == conns[id].outConnId
    ensures Evolves(conns, issued, conns', issued)
  {
    forall id | id in conns' ensures LiveId(conns, conns'[id].outConnId) { assert id in conns; }
  }

  lemma GoneEvolves(conns: Conns, issued: map<int, Issue>, conns': Conns, ms: seq<Node>)
    requires MembersGone(conns, conns', ms)
    ensures Evolves(conns, issued, conns', issued)
  {
    FewerEvolves(conns, issued, conns');
  }

  lemma NewEvolves(conns: Conns, issued: map<int, Issue>, id: nat, e: Ext, iss: Issue)
    requires e.outConnId !in issued
    ensures Evolves(conns, issued, conns[id := e], issued[e.outConnId := iss])
  {
    var conns' := conns[id := e];
    forall x | x in conns' ensures LiveId(conns, conns'[x].outConnId) || conns'[x].outConnId !in issued {
      if x != id { assert x in conns; }
    }
  }

  lemma SameEvolves(conns: Conns, issued: map<int, Issue>)
    ensures Evolves(conns, issued, conns, issued)
  {
    FewerEvolves(conns, issued, conns);
  }

  /** The live connections and the ids issued so far, at one moment of a run. */
  datatype Moment = Moment(conns: Conns, issued: map<int, Issue>)

  /** A record of a run: every step evolves, and every live connection is recorded under its id. */
  predicate Journal(log: seq<Moment>) {
    && (forall k :: 0 <= k < |log| - 1 ==> Evolves(log[k].conns, log[k].issued, log[k + 1].conns, log[k + 1].issued))
    && (forall k :: 0 <= k < |log| ==> AllRecorded(log[k]))
  }

  predicate AllRecorded(m: Moment) {
    forall id :: id in m.conns ==> Recorded(m.conns[id], m.issued)
  }

  /** Between two moments, ids keep their meaning, and one whose connection is gone matches nothing again. */
  predicate IdsKept(before: Moment, after: Moment) {
    forall o :: o in before.issued ==>
      && o in after.issued && after.issued[o] == before.issued[o]
      && (!LiveId(before.conns, o) ==> !LiveId(after.conns, o))
  }

  lemma {:induction false} StaleForever(log: seq<Moment>, a: nat, b: nat)
    requires Journal(log) && a <= b < |log|
    ensures IdsKept(log[a], log[b])
    decreases b - a
  {
    if a < b {
      StaleForever(log, a, b - 1);
      assert Evolves(log[b - 1].conns, log[b - 1].issued, log[b - 1 + 1].conns, log[b - 1 + 1].issued);
    }
  }

  /** In step k a connection with the id o comes into being. */
  predicate Appears(log: seq<Moment>, k: nat, o: int) {
    k + 1 < |log| && !LiveId(log[k].conns, o) && LiveId(log[k + 1].conns, o)
  }

  lemma AppearsRecorded(log: seq<Moment>, k: nat, o: int)
    requires Journal(log) && Appears(log, k, o)
    ensures o in log[k + 1].issued
  {
    var id :| id in log[k + 1].conns && log[k + 1].conns[id].outConnId == o;
    assert AllRecorded(log[k + 1]) && Recorded(log[k + 1].conns[id], log[k + 1].issued);
  }

  lemma NotAgain(log: seq<Moment>, a: nat, b: nat, o: int)
    requires Journal(log) && a <= b < |log| && o in log[a].issued
    ensures !Appears(log, b, o)
  {
    StaleForever(log, a, b);
    if b + 1 < |log| { StaleForever(log, b, b + 1); }
  }

  /** No id is issued twice. */
  lemma IssuedOnce(log: seq<Moment>, a: nat, b: nat, o: int)
    requires Journal(log) && Appears(log, a, o) && Appears(log, b, o)
    ensures a == b
  {
    AppearsRecorded(log, a, o);
    AppearsRecorded(log, b, o);
    if a < b {
      NotAgain(log, a + 1, b, o);
    } else if b < a {
      NotAgain(log, b + 1, a, o);
    }
  }
}
