/**
 * The external connection table of src/mtproto/mtproto-proxy.c: creation, deletion, the LRU list,
 * links to middle-ends coming and going, and the routing of answers. Addresses of new structures and
 * the random slots come in as parameters.
 */
module ExtTable {
  import opened ExtRing
  import opened ExtIndex

  datatype Option<T> = None | Some(value: T)

  class Table {
    const hash: Hash
    var conns: Conns                  // the live structures, by address
    var first: Heads                  // InExtConnectionHash
    var hnext: Nexts                  // h_next
    var refs: map<int, nat>           // OutExtConnections[].ref
    var lastIds: map<int, nat>        // OutExtConnections[].out_conn_id
    var count: int                    // ext_connections
    const ins: Lists                  // i_next, i_prev
    const outs: Lists                 // o_next, o_prev
    const lru: Lists                  // lru_next, lru_prev
    ghost var buckets: Buckets        // the hash chains as sequences
    ghost var issued: map<int, Issue>

    ghost predicate Parts()
      reads this, ins, outs, lru
    {
      ins != outs && outs != lru && ins != lru && ins.Valid() && outs.Valid() && lru.Valid()
    }

    ghost predicate Tables()
      reads this
    {
      TablesOk(hash, conns, buckets, refs, lastIds, issued, count) && Chained(first, hnext, buckets)
    }

    ghost predicate Valid()
      reads this, ins, outs, lru
    {
      Parts() && Tables() && ListsOk(conns, ins.rings, outs.rings, lru.rings)
    }

    constructor ()
      ensures Valid() && conns == map[] && issued == map[] && fresh(ins) && fresh(outs) && fresh(lru)
    {
      hash := ExtHash;
      conns, first, hnext, refs, lastIds, count := map[], map[], map[], map[], map[], 0;
      buckets, issued := map[], map[];
      ins := new Lists();
      outs := new Lists();
      lru := new Lists();
      new;
      lru.Open(LRU);
      EmptyTables(hash, conns, buckets, refs, lastIds, issued);
      EmptyChains(first, hnext, buckets);
      EmptyLists(ins.rings, outs.rings, lru.rings);
    }

    // ----- lookups

    /** `prev` points at the link to the structure at place k: at the chain's head, or into the structure before. */
    ghost predicate Before(h: int, prev: Pointer, k: nat)
      reads this
    {
      k <= |Chain(buckets, h)| && prev == if k == 0 then Null else Address(Chain(buckets, h)[k - 1])
    }

    /** `*prev`. */
    function At(h: int, prev: Pointer): Pointer
      reads this
    {
      if prev.Null? then Load(first, h) else Load(hnext, prev.at)
    }

    /** The walk along a hash chain; `prev` is where the link to the structure found is stored. */
    method Find(inFd: int, inConnId: int) returns (r: Pointer, prev: Pointer, ghost k: nat)
      requires Hashed(hash, conns, buckets) && Chained(first, hnext, buckets)
      ensures r.Address? ==>
                && r.at in conns && conns[r.at].inFd == inFd && conns[r.at].inConnId == inConnId
                && k < |Chain(buckets, hash(inFd, inConnId))| && Chain(buckets, hash(inFd, inConnId))[k] == r.at
                && Before(hash(inFd, inConnId), prev, k) && At(hash(inFd, inConnId), prev) == r
      ensures r.Null? ==> forall id :: id in conns ==> conns[id].inFd != inFd || conns[id].inConnId != inConnId
    {
      var h := hash(inFd, inConnId);
      ghost var chain := Chain(buckets, h);
      assert ChainLinked(first, hnext, h, chain);
      assert forall x :: x in chain ==> x in conns;
      prev, k := Null, 0;
      r := At(h, prev);
      while r.Address?
        invariant k <= |chain| && Before(h, prev, k) && r == At(h, prev) && (r.Address? <==> k < |chain|)
        invariant r.Address? ==> r.at == chain[k]
        invariant forall i :: 0 <= i < k ==> chain[i] in conns && !(conns[chain[i]].inFd == inFd && conns[chain[i]].inConnId == inConnId)
        decreases |chain| - k
      {
        assert r.at in chain;
        if conns[r.at].inFd == inFd && conns[r.at].inConnId == inConnId {
          return;
        }
        prev, k := r, k + 1;
        r := At(h, prev);
      }
      forall id | id in conns ensures conns[id].inFd != inFd || conns[id].inConnId != inConnId {
        assert id in Chain(buckets, h) <==> HashOf(hash, conns[id]) == h;
      }
    }

    /** find_ext_connection_by_out_conn_id: exactly the live connection that has this id. */
    method FindByOutConnId(outConnId: int) returns (r: Option<nat>)
      requires Valid()
      ensures r.Some? ==> r.value in conns && conns[r.value].outConnId == outConnId
      ensures r.None? ==> forall id :: id in conns ==> conns[id].outConnId != outConnId
    {
      var h := Slot(outConnId);
      forall id | id in conns ensures Refers(conns, refs, lastIds, id) { }
      if h !in refs || Last(lastIds, h) != outConnId {
        return None;
      }
      return Some(refs[h]);
    }

    /**
     * The answer and acknowledgement branches of process_client_packet: the client that a packet for
     * `outConnId` from the middle-end (fd, gen) goes to, if any.
     */
    method Route(outConnId: int, fd: int, gen: int) returns (client: Option<(int, int)>)
      requires Valid()
      ensures client.Some? ==> outConnId in issued && issued[outConnId] == Issue(client.value.0, client.value.1, fd, gen)
      ensures client.Some? <==> exists id :: id in conns && conns[id].outConnId == outConnId && conns[id].outFd == fd && conns[id].outGen == gen
    {
      var ex := FindByOutConnId(outConnId);
      if ex.Some? && conns[ex.value].outFd == fd && conns[ex.value].outGen == gen {
        assert Recorded(conns[ex.value], issued);
        return Some((conns[ex.value].inFd, conns[ex.value].inGen));
      }
      if ex.Some? { OnlyHolder(ex.value, outConnId); }
      return None;
    }

    lemma OnlyHolder(id: nat, outConnId: int)
      requires OutTable(conns, refs, lastIds) && id in conns && conns[id].outConnId == outConnId
      ensures forall j :: j in conns && conns[j].outConnId == outConnId ==> j == id
    {
      assert Refers(conns, refs, lastIds, id);
      forall j | j in conns && conns[j].outConnId == outConnId ensures j == id { assert Refers(conns, refs, lastIds, j); }
    }

    // ----- deletion

    /** `if (cur->next) { ... }`: takes the node out of its list of one kind, if it is in one. */
    method Unlist(l: Lists, x: Node)
      requires l.Valid() && x !in l.rings
      modifies l
      ensures l.Valid() && x !in l.next && l.rings.Keys == old(l.rings.Keys)
      ensures forall g, n :: On(l.rings, g, n) <==> On(old(l.rings), g, n) && n != x
      ensures forall g, k :: g in old(l.rings) && 0 <= k < |old(l.rings)[g]| && old(l.rings)[g][k] == x ==> l.rings[g] == Without(old(l.rings)[g], k)
      ensures (forall g :: !On(old(l.rings), g, x)) ==> l.rings == old(l.rings)
    {
      if x in l.next {
        l.Delete(x);
      } else {
        NotOn(l.next, l.prev, l.rings, x);
        forall g, k | g in l.rings && 0 <= k < |l.rings[g]| && l.rings[g][k] == x ensures false {
          assert Cycle(g, l.rings[g])[k + 1] == x && On(l.rings, g, x);
        }
      }
    }

    /** `*prev = cur->h_next; cur->h_next = 0`. */
    method Unchain(id: nat, prev: Pointer, ghost k: nat)
      requires Hashed(hash, conns, buckets) && Chained(first, hnext, buckets) && id in conns
      requires var h := HashOf(hash, conns[id]); Before(h, prev, k) && k < |Chain(buckets, h)| && Chain(buckets, h)[k] == id
      modifies this`first, this`hnext, this`buckets
      ensures Chained(first, hnext, buckets)
      ensures var h := HashOf(hash, conns[id]); h in old(buckets) && buckets == old(buckets)[h := Cut(old(buckets)[h], k)]
    {
      var h := HashOf(hash, conns[id]);
      var rest := Load(hnext, id);
      if prev.Null? {
        first := Assign(first, h, rest);
      } else {
        hnext := Assign(hnext, prev.at, rest);
      }
      hnext := hnext - {id};
      ChainedDelete(hash, conns, buckets, old(first), old(hnext), h, k, first, hnext);
      buckets := buckets[h := Cut(buckets[h], k)];
    }

    /** The end of mode 1: chain, slot, structure and counter. */
    method Forget(id: nat, prev: Pointer, ghost k: nat)
      requires Tables() && id in conns
      requires var h := HashOf(hash, conns[id]); Before(h, prev, k) && k < |Chain(buckets, h)| && Chain(buckets, h)[k] == id
      modifies this`conns, this`first, this`hnext, this`buckets, this`refs, this`count
      ensures Tables() && conns == old(conns) - {id}
    {
      var s := Slot(conns[id].outConnId);
      var fewer, slots := conns - {id}, refs - {s};
      TablesDelete(hash, conns, buckets, refs, lastIds, issued, count, id, HashOf(hash, conns[id]), k, s);
      Unchain(id, prev, k);
      assert TablesOk(hash, fewer, buckets, slots, lastIds, issued, count - 1);
      conns, refs, count := fewer, slots, count - 1;
    }

    /** The connection leaves the lists it is in. */
    method UnlistAll(id: nat)
      requires Parts() && ListsOk(conns, ins.rings, outs.rings, lru.rings) && id in conns
      modifies ins, outs, lru
      ensures Parts() && ListsOk(conns - {id}, ins.rings, outs.rings, lru.rings)
      ensures ins.rings.Keys == old(ins.rings.Keys) && outs.rings.Keys == old(outs.rings.Keys)
      ensures Shrunk(old(outs.rings), outs.rings, Conn(id)) && Shrunk(old(ins.rings), ins.rings, Conn(id))
    {
      HeadsOnly(false, conns, ins.rings, Conn(id));
      HeadsOnly(true, conns, outs.rings, Conn(id));
      assert On(lru.rings, Conn(id), Conn(id)) ==> Conn(id) == LRU;
      Unlist(ins, Conn(id));
      Unlist(outs, Conn(id));
      Unlist(lru, Conn(id));
      ListsDelete(conns, old(ins.rings), ins.rings, old(outs.rings), outs.rings, old(lru.rings), lru.rings, id);
    }

    /** get_ext_connection_by_in_conn_id in mode 1, once the connection is found behind `prev`, at place k of its chain. */
    method Delete(id: nat, prev: Pointer, ghost k: nat)
      requires Valid() && id in conns
      requires var h := HashOf(hash, conns[id]); Before(h, prev, k) && k < |Chain(buckets, h)| && Chain(buckets, h)[k] == id
      modifies this`conns, this`first, this`hnext, this`buckets, this`refs, this`count, ins, outs, lru
      ensures Valid() && conns == old(conns) - {id} && ins.rings.Keys == old(ins.rings.Keys) && outs.rings.Keys == old(outs.rings.Keys)
      ensures Shrunk(old(outs.rings), outs.rings, Conn(id)) && Shrunk(old(ins.rings), ins.rings, Conn(id))
    {
      UnlistAll(id);
      Forget(id, prev, k);
    }

    // ----- creation

    /**
     * What get_ext_connection_by_in_conn_id asserts, and is given, when it creates a connection: the address
     * from the allocator and the random numbers, one of which is a free slot.
     */
    predicate Enterable(addr: nat, inFd: int, inConnId: int, draws: seq<int>)
      reads this
    {
      && count < TABLE_SIZE / 2 && addr !in conns && inFd >= 0
      && (forall j :: j in conns ==> !(conns[j].inFd == inFd && (conns[j].inConnId == inConnId || inFd != 0)))
      && exists k :: 0 <= k < |draws| && Slot(draws[k]) !in refs
    }

    /** The candidates for the slot of a new id, in the order in which they are tried. */
    function Candidates(inFd: int, inConnId: int, draws: seq<int>): seq<int> {
      if inConnId == 0 then [inFd] + draws else draws
    }

    /** The search for a slot: the first candidate whose slot is free. */
    method ChooseSlot(inFd: int, inConnId: int, draws: seq<int>) returns (h: int)
      requires exists k :: 0 <= k < |draws| && Slot(draws[k]) !in refs
      ensures h !in refs && FirstFree(refs, Candidates(inFd, inConnId, draws), h)
    {
      var c := Candidates(inFd, inConnId, draws);
      ghost var k :| 0 <= k < |draws| && Slot(draws[k]) !in refs;
      ghost var last := if inConnId == 0 then k + 1 else k;
      assert c[last] == draws[k];
      var i := 0;
      h := Slot(c[i]);
      while h in refs
        invariant 0 <= i <= last < |c| && h == Slot(c[i])
        invariant forall j :: 0 <= j < i ==> Slot(c[j]) in refs
        decreases last - i
      {
        i := i + 1;
        h := Slot(c[i]);
      }
    }

    /** Chain, slot, id and counter of a new connection. */
    method Record(id: nat, e0: Ext, h: int) returns (e: Ext)
      requires Tables() && id !in conns && Free(conns, e0) && 0 <= h < TABLE_SIZE && h !in refs
      modifies this`conns, this`first, this`hnext, this`buckets, this`refs, this`lastIds, this`count, this`issued
      ensures Tables() && e == e0.(outConnId := e.outConnId) && e.outConnId !in old(issued) && Slot(e.outConnId) == h
      ensures conns == old(conns)[id := e] && issued == old(issued)[e.outConnId := Issue(e.inFd, e.inGen, e.outFd, e.outGen)]
    {
      e := e0.(outConnId := NextId(Last(lastIds, h), h));
      TablesInsert(hash, conns, buckets, refs, lastIds, issued, count, id, e, h);
      Enchain(id, HashOf(hash, e));
      conns := conns[id := e];
      refs := refs[h := id];
      lastIds := lastIds[h := e.outConnId];
      issued := issued[e.outConnId := Issue(e.inFd, e.inGen, e.outFd, e.outGen)];
      count := count + 1;
    }

    /** `cur->h_next = InExtConnectionHash[h]; InExtConnectionHash[h] = cur`. */
    method Enchain(id: nat, b: int)
      requires Hashed(hash, conns, buckets) && Chained(first, hnext, buckets) && id !in conns
      modifies this`first, this`hnext, this`buckets
      ensures Chained(first, hnext, buckets) && buckets == old(buckets)[b := [id] + Chain(old(buckets), b)]
    {
      ChainedInsert(hash, conns, buckets, first, hnext, id, b);
      hnext := Assign(hnext, id, Load(first, b));
      first := Assign(first, b, Address(id));
      buckets := buckets[b := [id] + Chain(buckets, b)];
    }

    /** Puts a connection into the list of a client descriptor, opening the list if need be. */
    method EnterList(fd: int, id: nat)
      requires ins.Valid() && fd != 0 && Conn(id) !in ins.next && (Head(fd) in ins.next ==> Head(fd) in ins.rings)
      modifies ins
      ensures ins.Valid() && Entered(old(ins.rings), ins.rings, fd, id)
    {
      if Head(fd) !in ins.next {
        ins.Open(Head(fd));
      }
      assert On(ins.rings, Head(fd), Head(fd));
      ins.InsertTail(Head(fd), Conn(id));
    }

    /** A new connection in all tables and, if it has a client descriptor, in that client's list. */
    method Enter(id: nat, inFd: int, inGen: int, inConnId: int, draws: seq<int>) returns (e: Ext)
      requires Valid() && Enterable(id, inFd, inConnId, draws)
      modifies this`conns, this`first, this`hnext, this`buckets, this`refs, this`lastIds, this`count, this`issued, ins
      ensures Valid() && e == Ext(inFd, inGen, 0, 0, inConnId, e.outConnId, 0) && e.outConnId !in old(issued)
      ensures FirstFree(old(refs), Candidates(inFd, inConnId, draws), Slot(e.outConnId)) && Conn(id) !in outs.next
      ensures conns == old(conns)[id := e] && issued == old(issued)[e.outConnId := Issue(inFd, inGen, 0, 0)]
    {
      NotListed(false, conns, ins, id);
      NotListed(true, conns, outs, id);
      HeadListed(false, conns, ins, inFd);
      if inFd != 0 { EnterList(inFd, id); }
      var h := ChooseSlot(inFd, inConnId, draws);
      e := Record(id, Ext(inFd, inGen, 0, 0, inConnId, 0, 0), h);
      ListsEnter(old(conns), conns, old(ins.rings), ins.rings, outs.rings, lru.rings, id, e);
    }

    /** The creating half of get_ext_connection_by_in_conn_id. */
    method EnterNew(addr: nat, inFd: int, inGen: int, inConnId: int, draws: seq<int>)
      requires Valid() && Enterable(addr, inFd, inConnId, draws)
      modifies this`conns, this`first, this`hnext, this`buckets, this`refs, this`lastIds, this`count, this`issued, ins
      ensures Valid() && EnteredAs(old(conns), old(issued), conns, issued, addr, inFd, inGen, inConnId)
      ensures Evolves(old(conns), old(issued), conns, issued)
    {
      var e := Enter(addr, inFd, inGen, inConnId, draws);
      NewEvolves(old(conns), old(issued), addr, e, Issue(inFd, inGen, 0, 0));
    }

    /** get_ext_connection_by_in_conn_id. Mode 0 finds, 1 deletes, 2 creates what is missing, 3 finds or creates. */
    method GetByInConnId(inFd: int, inGen: int, inConnId: int, mode: nat, addr: nat, draws: seq<int>) returns (r: Got)
      requires Valid() && mode <= 3 && (mode >= 2 && !HasKey(conns, inFd, inConnId) ==> Enterable(addr, inFd, inConnId, draws))
      modifies this`conns, this`first, this`hnext, this`buckets, this`refs, this`lastIds, this`count, this`issued, ins, outs, lru
      ensures Valid() && Evolves(old(conns), old(issued), conns, issued)
      ensures if old(HasKey(conns, inFd, inConnId))
              then issued == old(issued) && Used(old(conns), conns, mode, inFd, inConnId, r)
              else if mode >= 2
              then r == Created(addr) && EnteredAs(old(conns), old(issued), conns, issued, addr, inFd, inGen, inConnId)
              else r == Nothing && conns == old(conns) && issued == old(issued)
    {
      var found, prev, k := Find(inFd, inConnId);
      if found.Address? {
        assert HasKey(conns, inFd, inConnId);
        r := UseFound(found.at, prev, k, mode);
      } else if mode == 2 || mode == 3 {
        EnterNew(addr, inFd, inGen, inConnId, draws);
        r := Created(addr);
      } else {
        SameEvolves(conns, issued);
        r := Nothing;
      }
    }

    /** The half of get_ext_connection_by_in_conn_id for a connection that is there. */
    method UseFound(id: nat, prev: Pointer, ghost k: nat, mode: nat) returns (r: Got)
      requires Valid() && id in conns && mode <= 3
      requires var h := HashOf(hash, conns[id]); Before(h, prev, k) && k < |Chain(buckets, h)| && Chain(buckets, h)[k] == id
      modifies this`conns, this`first, this`hnext, this`buckets, this`refs, this`count, ins, outs, lru
      ensures Valid() && Used(old(conns), conns, mode, old(conns)[id].inFd, old(conns)[id].inConnId, r)
      ensures Evolves(old(conns), issued, conns, issued)
    {
      SameEvolves(conns, issued);
      if mode == 0 || mode == 3 { return Found(id); }
      if mode != 1 { return Nothing; }
      OnlyKey(conns, id, conns[id].inFd, conns[id].inConnId);
      FewerEvolves(conns, issued, conns - {id});
      Delete(id, prev, k);
      return Deleted;
    }

    /** remove_ext_connection: the assertions about the tables hold, and exactly this connection goes. */
    method Remove(id: nat)
      requires Valid() && id in conns
      modifies this`conns, this`first, this`hnext, this`buckets, this`refs, this`count, ins, outs, lru
      ensures Valid() && conns == old(conns) - {id} && ins.rings.Keys == old(ins.rings.Keys) && outs.rings.Keys == old(outs.rings.Keys)
      ensures Shrunk(old(outs.rings), outs.rings, Conn(id)) && Shrunk(old(ins.rings), ins.rings, Conn(id))
      ensures Evolves(old(conns), issued, conns, issued)
    {
      var found, prev, k := Find(conns[id].inFd, conns[id].inConnId);
      assert found == Address(id);
      Delete(id, prev, k);
      FewerEvolves(old(conns), issued, conns);
    }

    /** The second half of create_ext_connection: the connection joins the list of its middle-end. */
    method Bind(id: nat, outFd: int, outGen: int, authKey: int)
      requires Valid() && id in conns && Conn(id) !in outs.next && Head(outFd) in outs.rings
      modifies this`conns, this`issued, outs
      ensures Valid() && conns == old(conns)[id := old(conns)[id].(outFd := outFd, outGen := outGen, authKey := authKey)]
      ensures issued == old(issued)[conns[id].outConnId := Issue(conns[id].inFd, conns[id].inGen, outFd, outGen)]
    {
      NotOn(outs.next, outs.prev, outs.rings, Conn(id));
      outs.InsertTail(Head(outFd), Conn(id));
      TablesBind(hash, conns, buckets, refs, lastIds, issued, count, id, outFd, outGen, authKey);
      var e := conns[id].(outFd := outFd, outGen := outGen, authKey := authKey);
      ListsBind(conns, ins.rings, old(outs.rings), outs.rings, lru.rings, id, e);
      conns := conns[id := e];
      issued := issued[e.outConnId := Issue(e.inFd, e.inGen, e.outFd, e.outGen)];
    }

    /**
     * create_ext_connection: a connection between the client (inFd, inGen) and, if given, the middle-end
     * `co`, under an id that was never issued before.
     */
    method Create(id: nat, inFd: int, inGen: int, inConnId: int, co: Option<(int, int)>, authKey: int, draws: seq<int>) returns (outConnId: int)
      requires Valid() && Enterable(id, inFd, inConnId, draws)
      requires co.Some? ==> Head(co.value.0) in outs.rings
      modifies this`conns, this`first, this`hnext, this`buckets, this`refs, this`lastIds, this`count, this`issued, ins, outs
      ensures Valid() && outConnId !in old(issued)
      ensures conns == old(conns)[id := Ext(inFd, inGen, CoFd(co), CoGen(co), inConnId, outConnId, authKey)]
      ensures issued == old(issued)[outConnId := Issue(inFd, inGen, CoFd(co), CoGen(co))]
      ensures Evolves(old(conns), old(issued), conns, issued)
    {
      var e := Enter(id, inFd, inGen, inConnId, draws);
      outConnId := e.outConnId;
      assert conns[id] == e;
      if co.Some? {
        Bind(id, co.value.0, co.value.1, authKey);
        Overwrite(old(conns), id, e, conns[id]);
        Overwrite(old(issued), outConnId, Issue(inFd, inGen, 0, 0), Issue(inFd, inGen, co.value.0, co.value.1));
      } else {
        SetKey(id, authKey);
        Overwrite(old(conns), id, e, conns[id]);
      }
      NewEvolves(old(conns), old(issued), id, conns[id], issued[outConnId]);
    }

    /** `Ex->auth_key_id = auth_key_id`. */
    method SetKey(id: nat, authKey: int)
      requires Valid() && id in conns
      modifies this`conns
      ensures Valid() && conns == old(conns)[id := old(conns)[id].(authKey := authKey)]
      ensures Evolves(old(conns), issued, conns, issued)
    {
      var e := conns[id].(authKey := authKey);
      TablesBind(hash, conns, buckets, refs, lastIds, issued, count, id, e.outFd, e.outGen, authKey);
      SameRecord(conns[id], issued);
      ListsSame(conns, ins.rings, outs.rings, lru.rings, id, e);
      FewerEvolves(conns, issued, conns[id := e]);
      conns := conns[id := e];
    }

    // ----- links come and go

    /** The list of one kind: to middle-ends (o_next) or to clients (i_next). */
    function ListOf(out: bool): Lists {
      if out then outs else ins
    }

    /** mtfront_client_ready, mtproto_proxy_rpc_ready: an empty list for the descriptor. */
    method Ready(out: bool, fd: int)
      requires Valid() && Head(fd) !in ListOf(out).next
      modifies ListOf(out)
      ensures Valid() && ListOf(out).rings == old(ListOf(out).rings)[Head(fd) := []]
    {
      var l := ListOf(out);
      l.Open(Head(fd));
      ListedOpen(out, conns, old(l.rings), l.rings, fd);
    }

    /** One round of the loop: the next pointer is read before the connection is removed. */
    method RemoveFirst(out: bool, fd: int, ex: Node) returns (exNext: Node)
      requires Valid() && Head(fd) in ListOf(out).rings && Head(fd) in ListOf(out).next && ex == ListOf(out).next[Head(fd)] != Head(fd)
      modifies this`conns, this`first, this`hnext, this`buckets, this`refs, this`count, ins, outs, lru
      ensures Valid() && Head(fd) in ListOf(out).rings && Head(fd) in ListOf(out).next && exNext == ListOf(out).next[Head(fd)]
      ensures ex.Conn? && ex.id in old(conns) && old(Fd(out, conns[ex.id])) == fd && conns == old(conns) - {ex.id}
      ensures old(ListOf(out).rings)[Head(fd)] == [ex] + ListOf(out).rings[Head(fd)]
    {
      var l, h := ListOf(out), Head(fd);
      FirstMember(l, h);
      FirstNames(out, conns, l, h, ex);
      exNext := l.next[ex];
      ghost var ms := l.rings[h];
      FirstOut(ms);
      Remove(ex.id);
      assert l.rings[h] == Without(ms, 0);
      FirstMember(l, h);
    }

    /** The loop of mtfront_client_close and mtproto_proxy_rpc_close. */
    method RemoveAll(out: bool, fd: int)
      requires Valid() && Head(fd) in ListOf(out).rings
      modifies this`conns, this`first, this`hnext, this`buckets, this`refs, this`count, ins, outs, lru
      ensures Valid() && Head(fd) in ListOf(out).rings && ListOf(out).rings[Head(fd)] == []
      ensures MembersGone(old(conns), conns, old(ListOf(out).rings)[Head(fd)])
    {
      var l, h := ListOf(out), Head(fd);
      FirstMember(l, h);
      var ex := l.next[h];
      ghost var ms, done := l.rings[h], [];
      while ex != h
        invariant Valid() && h in l.rings && h in l.next && ex == l.next[h]
        invariant ms == done + l.rings[h] && MembersGone(old(conns), conns, done)
        decreases |l.rings[h]|
      {
        ghost var mid, member := conns, ex;
        ex := RemoveFirst(out, fd, ex);
        GoneOne(old(conns), mid, done, member.id);
        Regroup(done, member, l.rings[h]);
        done := done + [member];
      }
      FirstMember(l, h);
    }

    /**
     * mtfront_client_close, mtproto_proxy_rpc_close: exactly the connections in the descriptor's list go,
     * which for a descriptor other than 0 are those that name it.
     */
    method Close(out: bool, fd: int)
      requires Valid() && Head(fd) in ListOf(out).rings
      modifies this`conns, this`first, this`hnext, this`buckets, this`refs, this`count, ins, outs, lru
      ensures Valid() && Head(fd) !in ListOf(out).rings && MembersGone(old(conns), conns, old(ListOf(out).rings)[Head(fd)])
      ensures fd != 0 ==> forall j :: j in conns <==> j in old(conns) && Fd(out, old(conns)[j]) != fd
      ensures Evolves(old(conns), issued, conns, issued)
    {
      var l := ListOf(out);
      RemoveAll(out, fd);
      GoneEvolves(old(conns), issued, conns, old(l.rings)[Head(fd)]);
      if fd != 0 { NamedGone(out, old(conns), conns, old(l.rings), fd); }
      ghost var before := l.rings;
      l.Close(Head(fd));
      ListedClose(out, conns, before, l.rings, fd);
    }

    /**
     * RPC_CLOSE_EXT from the middle-end (fd, gen): the connection with this id goes, if there is one. What
     * is left is a function of the id alone, whoever sent the packet.
     */
    method CloseExt(outConnId: int, fd: int, gen: int)
      requires Valid()
      modifies this`conns, this`first, this`hnext, this`buckets, this`refs, this`count, ins, outs, lru
      ensures Valid() && conns == WithoutId(old(conns), outConnId)
      ensures Evolves(old(conns), issued, conns, issued)
    {
      var ex := FindByOutConnId(outConnId);
      if ex.Some? {
        OnlyHolder(ex.value, outConnId);
        WithoutHolder(conns, ex.value, outConnId);
        Remove(ex.value);
      } else {
        WithoutNobody(conns, outConnId);
        SameEvolves(conns, issued);
      }
    }

    /** do_close_in_ext_conn and the end of mtproto_ext_rpc_close: the client's connection goes, if there is one. */
    method CloseClient(fd: int)
      requires Valid()
      modifies this`conns, this`first, this`hnext, this`buckets, this`refs, this`count, ins, outs, lru
      ensures Valid() && (fd == 0 ==> conns == old(conns))
      ensures fd != 0 ==> forall j :: (j in conns <==> j in old(conns) && old(conns)[j].inFd != fd) && (j in conns ==> conns[j] == old(conns)[j])
      ensures Evolves(old(conns), issued, conns, issued)
    {
      var r := GetByInFd(fd);
      if r.Some? {
        Remove(r.value);
      }
      FewerEvolves(old(conns), issued, conns);
    }

    // ----- the LRU list

    /** lru_insert_ext_conn: the connection moves to the young end of the list, the others stay in their order. */
    method LruTouch(id: nat)
      requires Valid() && id in conns
      modifies lru
      ensures Valid() && LRU in lru.rings && LRU in old(lru.rings) && |lru.rings[LRU]| > 0
      ensures TakenOut(old(lru.rings)[LRU], lru.rings[LRU][..|lru.rings[LRU]| - 1], Conn(id))
      ensures lru.rings[LRU][|lru.rings[LRU]| - 1] == Conn(id)
    {
      LruForget(id);
      lru.InsertTail(LRU, Conn(id));
    }

    /** lru_delete_ext_conn: the connection leaves the list, the others stay in their order. */
    method LruForget(id: nat)
      requires Valid() && id in conns
      modifies lru
      ensures Valid() && LRU in lru.rings && LRU in old(lru.rings) && Conn(id) !in lru.next
      ensures TakenOut(old(lru.rings)[LRU], lru.rings[LRU], Conn(id))
    {
      assert On(lru.rings, Conn(id), Conn(id)) ==> Conn(id) == LRU;
      ghost var was := lru.rings[LRU];
      Unlist(lru, Conn(id));
      if k :| 0 <= k < |was| && was[k] == Conn(id) {
        assert lru.rings[LRU] == Without(was, k);
      } else {
        assert Conn(id) !in was;
      }
    }

    /**
     * get_ext_connection_by_in_fd: the only connection of the client descriptor; its list has one member at
     * most. Descriptor 0 has none.
     */
    method GetByInFd(fd: int) returns (r: Option<nat>)
      requires Valid()
      ensures r.Some? ==> fd != 0 && r.value in conns && conns[r.value].inFd == fd
      ensures r.None? ==> fd == 0 || forall id :: id in conns ==> conns[id].inFd != fd
    {
      HeadListed(false, conns, ins, fd);
      if Head(fd) !in ins.next {
        if fd != 0 { Unlisted(false, conns, ins, fd); }
        return None;
      }
      OneMember(conns, ins, fd);
      assert ins.next[Head(fd)] == ins.prev[Head(fd)];
      var ex := ins.next[Head(fd)];
      FirstMember(ins, Head(fd));
      if ex == Head(fd) {
        if fd != 0 { NoneLeft(false, conns, ins.rings, fd); }
        return None;
      }
      FirstNames(false, conns, ins, Head(fd), ex);
      return Some(ex.id);
    }

    /** lru_insert_conn: the client's connection, if it is of the same generation, becomes the youngest. */
    method LruInsertConn(fd: int, gen: int)
      requires Valid()
      modifies lru
      ensures Valid() && LRU in lru.rings && LRU in old(lru.rings)
      ensures forall id :: fd != 0 && id in conns && conns[id].inFd == fd && conns[id].inGen == gen ==>
                && |lru.rings[LRU]| > 0 && lru.rings[LRU][|lru.rings[LRU]| - 1] == Conn(id)
                && TakenOut(old(lru.rings)[LRU], lru.rings[LRU][..|lru.rings[LRU]| - 1], Conn(id))
      ensures (fd == 0 || forall id :: id in conns ==> conns[id].inFd != fd || conns[id].inGen != gen) ==> lru.rings == old(lru.rings)
    {
      var r := GetByInFd(fd);
      if r.Some? && conns[r.value].inGen == gen {
        LruTouch(r.value);
      }
    }

    /** lru_delete_conn: the client's connection leaves the list. */
    method LruDeleteConn(fd: int)
      requires Valid()
      modifies lru
      ensures Valid() && LRU in lru.rings && LRU in old(lru.rings)
      ensures forall id :: fd != 0 && id in conns && conns[id].inFd == fd ==> TakenOut(old(lru.rings)[LRU], lru.rings[LRU], Conn(id))
      ensures (fd == 0 || forall id :: id in conns ==> conns[id].inFd != fd) ==> lru.rings == old(lru.rings)
    {
      var r := GetByInFd(fd);
      if r.Some? {
        LruForget(r.value);
      }
    }
  }

  /** `ms'` is `ms` without `x`, if it is there. */
  ghost predicate TakenOut(ms: seq<Node>, ms': seq<Node>, x: Node) {
    if x in ms then exists k :: 0 <= k < |ms| && ms[k] == x && ms' == Without(ms, k) else ms' == ms
  }

  /** What the pointers at the head say about the list. */
  lemma FirstMember(l: Lists, h: Node)
    requires l.Valid() && h in l.rings
    ensures var ms := l.rings[h];
            && h in l.next && (l.next[h] == h <==> ms == [])
            && (ms != [] ==> l.next[h] == ms[0] && ms[0] in l.next && l.next[ms[0]] == if |ms| > 1 then ms[1] else h)
  {
    var ms := l.rings[h];
    var c := Cycle(h, ms);
    HeadLinks(l.next, l.prev, h, ms);
    if ms != [] {
      assert Linked(l.next, l.prev, c, 1);
      assert c[0] != c[1];
    }
  }

  lemma FirstNames(out: bool, conns: Conns, l: Lists, h: Node, ex: Node)
    requires Listed(out, conns, l.rings) && h in l.rings && |l.rings[h]| > 0 && ex == l.rings[h][0] && ex != h
    ensures ex.Conn? && ex.id in conns && h.Head? && Fd(out, conns[ex.id]) == h.fd
  {
    assert Cycle(h, l.rings[h])[1] == ex && On(l.rings, h, ex);
  }

  /** A descriptor whose head pointers are null has no connection. */
  lemma Unlisted(out: bool, conns: Conns, l: Lists, fd: int)
    requires l.Valid() && Listed(out, conns, l.rings) && fd != 0 && Head(fd) !in l.next
    ensures forall j :: j in conns ==> Fd(out, conns[j]) != fd
  {
    NotOn(l.next, l.prev, l.rings, Head(fd));
    forall j | j in conns && Fd(out, conns[j]) == fd ensures false {
      assert On(l.rings, Head(fd), Conn(j));
      assert On(l.rings, Head(fd), Head(fd)) by { assert Cycle(Head(fd), l.rings[Head(fd)])[0] == Head(fd); }
    }
  }

  /** A client has one connection, so next and prev of its head are the same. */
  lemma OneMember(conns: Conns, l: Lists, fd: int)
    requires l.Valid() && Listed(false, conns, l.rings) && OnePerClient(conns) && Head(fd) in l.rings
    ensures (fd == 0 ==> l.rings[Head(fd)] == []) && Head(fd) in l.next && Head(fd) in l.prev && l.next[Head(fd)] == l.prev[Head(fd)]
  {
    var ms := l.rings[Head(fd)];
    var c := Cycle(Head(fd), ms);
    HeadLinks(l.next, l.prev, Head(fd), ms);
    if fd == 0 {
      if |ms| > 0 { assert On(l.rings, Head(0), c[1]); }
    } else if |ms| >= 2 {
      SameClient(conns, l, fd, c[1], c[2]);
      assert false;
    }
  }

  lemma SameClient(conns: Conns, l: Lists, fd: int, x: Node, y: Node)
    requires Listed(false, conns, l.rings) && OnePerClient(conns) && fd != 0
    requires On(l.rings, Head(fd), x) && On(l.rings, Head(fd), y) && x != Head(fd) && y != Head(fd)
    ensures x == y
  {
    assert Names(false, conns, Head(fd), x) && Names(false, conns, Head(fd), y);
  }

  lemma ListedOpen(out: bool, conns: Conns, rings: map<Node, seq<Node>>, rings': map<Node, seq<Node>>, fd: int)
    requires Listed(out, conns, rings)
    requires forall g, n :: On(rings', g, n) <==> On(rings, g, n) || (g == Head(fd) && n == Head(fd))
    ensures Listed(out, conns, rings')
  {
  }

  lemma NoneLeft(out: bool, conns: Conns, rings: map<Node, seq<Node>>, fd: int)
    requires Listed(out, conns, rings) && fd != 0 && Head(fd) in rings && rings[Head(fd)] == []
    ensures forall j :: j in conns ==> Fd(out, conns[j]) != fd
  {
    assert forall j :: Conn(j) !in Cycle(Head(fd), []);
  }

  lemma ListedClose(out: bool, conns: Conns, rings: map<Node, seq<Node>>, rings': map<Node, seq<Node>>, fd: int)
    requires Listed(out, conns, rings) && Head(fd) in rings && rings[Head(fd)] == []
    requires forall g, n :: On(rings', g, n) <==> On(rings, g, n) && g != Head(fd)
    ensures Listed(out, conns, rings')
  {
    if fd != 0 { NoneLeft(out, conns, rings, fd); }
  }

  /** One more member of the list is gone. */
  lemma GoneOne(before: Conns, mid: Conns, done: seq<Node>, id: nat)
    requires MembersGone(before, mid, done) && id in mid
    ensures MembersGone(before, mid - {id}, done + [Conn(id)])
  {
  }

  /** What is left when the connection with the given id goes. */
  function WithoutId(conns: Conns, outConnId: int): Conns {
    map j | j in conns && conns[j].outConnId != outConnId :: conns[j]
  }

  lemma WithoutHolder(conns: Conns, id: nat, outConnId: int)
    requires id in conns && conns[id].outConnId == outConnId && forall j :: j in conns && conns[j].outConnId == outConnId ==> j == id
    ensures conns - {id} == WithoutId(conns, outConnId)
  {
  }

  lemma WithoutNobody(conns: Conns, outConnId: int)
    requires forall j :: j in conns ==> conns[j].outConnId != outConnId
    ensures conns == WithoutId(conns, outConnId)
  {
  }

  lemma FirstOut(ms: seq<Node>)
    requires |ms| > 0
    ensures Without(ms, 0) == ms[1..] && ms == [ms[0]] + Without(ms, 0)
  {
  }

  lemma Regroup(done: seq<Node>, x: Node, rest: seq<Node>)
    ensures done + ([x] + rest) == (done + [x]) + rest
  {
  }

  /** The first of the candidates whose slot is free has the slot h. */
  predicate FirstFree(refs: map<int, nat>, c: seq<int>, h: int) {
    exists k :: 0 <= k < |c| && h == Slot(c[k]) && h !in refs && forall i :: 0 <= i < k ==> Slot(c[i]) in refs
  }

  /** Exactly the connection with this key is gone. */
  ghost predicate KeyGone(before: Conns, after: Conns, inFd: int, inConnId: int) {
    forall j :: (j in after <==> j in before && !(before[j].inFd == inFd && before[j].inConnId == inConnId))
                && (j in after ==> after[j] == before[j])
  }

  /** What happens to a connection that is there: modes 0 and 3 find it, 1 deletes it, 2 reports that it is there. */
  ghost predicate Used(before: Conns, after: Conns, mode: nat, inFd: int, inConnId: int, r: Got) {
    if mode == 1 then r == Deleted && KeyGone(before, after, inFd, inConnId)
    else
      && after == before
      && (if mode == 2 then r == Nothing
          else r.Found? && r.id in after && after[r.id].inFd == inFd && after[r.id].inConnId == inConnId)
  }

  lemma OnlyKey(conns: Conns, id: nat, inFd: int, inConnId: int)
    requires KeysUnique(conns) && id in conns && conns[id].inFd == inFd && conns[id].inConnId == inConnId
    ensures KeyGone(conns, conns - {id}, inFd, inConnId)
  {
  }

  /** A connection without middle-end is new at `addr`, under an id never issued before, recorded for this client. */
  predicate EnteredAs(conns: Conns, issued: map<int, Issue>, conns': Conns, issued': map<int, Issue>, addr: nat,
                      inFd: int, inGen: int, inConnId: int) {
    && addr !in conns && addr in conns' && conns' == conns[addr := conns'[addr]]
    && conns'[addr] == Ext(inFd, inGen, 0, 0, inConnId, conns'[addr].outConnId, 0) && conns'[addr].outConnId !in issued
    && issued' == issued[conns'[addr].outConnId := Issue(inFd, inGen, 0, 0)]
  }

  function CoFd(co: Option<(int, int)>): int {
    if co.Some? then co.value.0 else 0
  }

  function CoGen(co: Option<(int, int)>): int {
    if co.Some? then co.value.1 else 0
  }

  lemma SameRecord(e: Ext, issued: map<int, Issue>)
    requires Recorded(e, issued)
    ensures issued[e.outConnId := Issue(e.inFd, e.inGen, e.outFd, e.outGen)] == issued
  {
  }

  lemma Overwrite<K, V>(m: map<K, V>, k: K, v: V, w: V)
    ensures m[k := v][k := w] == m[k := w]
  {
  }

  datatype Got = Nothing | Found(id: nat) | Deleted | Created(id: nat)

  predicate HasKey(conns: Conns, inFd: int, inConnId: int) {
    exists id :: id in conns && conns[id].inFd == inFd && conns[id].inConnId == inConnId
  }

  /** A dead connection is in no list. */
  lemma NotListed(out: bool, conns: Conns, l: Lists, id: nat)
    requires l.Valid() && Listed(out, conns, l.rings) && id !in conns
    ensures Conn(id) !in l.next
  {
    assert forall h :: On(l.rings, h, Conn(id)) ==> Conn(id) == h || Names(out, conns, h, Conn(id));
  }

  /** A head whose pointers are set has a list. */
  lemma HeadListed(out: bool, conns: Conns, l: Lists, fd: int)
    requires l.Valid() && Listed(out, conns, l.rings)
    ensures Head(fd) in l.next ==> Head(fd) in l.rings
  {
    if Head(fd) in l.next {
      var h :| On(l.rings, h, Head(fd));
      assert Head(fd) == h || Names(out, conns, h, Head(fd));
    }
  }

  /** The list that had x has lost it; the order of the others is the same. */
  ghost predicate Shrunk(rings: map<Node, seq<Node>>, rings': map<Node, seq<Node>>, x: Node) {
    forall g, k :: g in rings && 0 <= k < |rings[g]| && rings[g][k] == x ==> g in rings' && rings'[g] == Without(rings[g], k)
  }

  lemma HeadsOnly(out: bool, conns: Conns, rings: map<Node, seq<Node>>, x: Node)
    requires Listed(out, conns, rings) && x.Conn?
    ensures x !in rings
  {
    assert x in rings ==> On(rings, x, x);
  }
}
