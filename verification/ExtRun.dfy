/**
 * Whole runs of the external connection table: any sequence of its operations, with what every id
 * means along the way and which clients the answers of the middle-ends reach.
 */
module ExtRun {
  import opened ExtRing
  import opened ExtIndex
  import opened ExtTable

  /** One call from the rest of the program, with what the allocator and the random numbers answer. */
  datatype Op =
    | Get(inFd: int, inGen: int, inConnId: int, mode: nat, addr: nat, draws: seq<int>)
    | New(addr: nat, inFd: int, inGen: int, inConnId: int, co: Option<(int, int)>, authKey: int, draws: seq<int>)
    | Discard(id: nat)
    | Rekey(id: nat, authKey: int)
    | LinkUp(out: bool, fd: int)
    | LinkDown(out: bool, fd: int)
    | CloseId(outConnId: int, fd: int, gen: int)
    | CloseFd(fd: int)
    | Touch(fd: int, gen: int)
    | Untouch(fd: int)
    | Answer(outConnId: int, fd: int, gen: int)

  /** What the code asserts about the call, and what is true of the structures its callers hold. */
  predicate Allowed(t: Table, op: Op)
    reads t, t.ins, t.outs
  {
    match op
    case Get(fd, _, cid, mode, addr, draws) =>
      mode <= 3 && (mode >= 2 && !HasKey(t.conns, fd, cid) ==> t.Enterable(addr, fd, cid, draws))
    case New(addr, fd, _, cid, co, _, draws) => t.Enterable(addr, fd, cid, draws) && (co.Some? ==> Head(co.value.0) in t.outs.next)
    case Discard(id) => id in t.conns
    case Rekey(id, _) => id in t.conns
    case LinkUp(out, fd) => Head(fd) !in t.ListOf(out).next
    case LinkDown(out, fd) => Head(fd) in t.ListOf(out).next
    case _ => true
  }

  ghost function Now(t: Table): Moment
    reads t
  {
    Moment(t.conns, t.issued)
  }

  /** The client was reached by an answer for an id issued to it, from the middle-end the id was issued with. */
  predicate Reached(before: Moment, op: Op, client: Option<(int, int)>) {
    client.Some? ==>
      && op.Answer? && LiveId(before.conns, op.outConnId) && op.outConnId in before.issued
      && before.issued[op.outConnId] == Issue(client.value.0, client.value.1, op.fd, op.gen)
  }

  /** The list that the end of a link empties. */
  ghost function Listing(t: Table, op: Op): (ms: seq<Node>)
    reads t, t.ins, t.outs
  {
    if op.LinkDown? && Head(op.fd) in t.ListOf(op.out).rings then t.ListOf(op.out).rings[Head(op.fd)] else []
  }

  /** What an operation does to the live connections; `ms` is the list that the end of a link empties. */
  ghost predicate Effect(before: Moment, op: Op, ms: seq<Node>, after: Moment, client: Option<(int, int)>) {
    match op
    case Get(fd, gen, cid, mode, addr, _) =>
      if HasKey(before.conns, fd, cid) then exists r :: Used(before.conns, after.conns, mode, fd, cid, r)
      else if mode >= 2 then EnteredAs(before.conns, before.issued, after.conns, after.issued, addr, fd, gen, cid)
      else after == before
    case New(addr, fd, gen, cid, co, key, _) =>
      exists o :: o !in before.issued && after.conns == before.conns[addr := Ext(fd, gen, CoFd(co), CoGen(co), cid, o, key)]
                  && after.issued == before.issued[o := Issue(fd, gen, CoFd(co), CoGen(co))]
    case Discard(id) => after == before.(conns := before.conns - {id})
    case Rekey(id, key) => id in before.conns && after == before.(conns := before.conns[id := before.conns[id].(authKey := key)])
    case LinkDown(out, fd) =>
      && after.issued == before.issued && MembersGone(before.conns, after.conns, ms)
      && (fd != 0 ==> Dropped(before.conns, after.conns, out, fd))
    case CloseId(o, _, _) => after == before.(conns := WithoutId(before.conns, o))
    case CloseFd(fd) => if fd == 0 then after == before else after.issued == before.issued && Dropped(before.conns, after.conns, false, fd)
    case Answer(o, fd, gen) => after == before && (client.Some? <==> Addressed(before.conns, o, fd, gen))
    case _ => after == before
  }

  /** Exactly the connections of one descriptor are gone. */
  ghost predicate Dropped(before: Conns, after: Conns, out: bool, fd: int) {
    forall j :: (j in after <==> j in before && Fd(out, before[j]) != fd) && (j in after ==> after[j] == before[j])
  }

  predicate Addressed(conns: Conns, o: int, fd: int, gen: int) {
    exists id :: id in conns && conns[id].outConnId == o && conns[id].outFd == fd && conns[id].outGen == gen
  }

  predicate AllReached(log: seq<Moment>, ops: seq<Op>, clients: seq<Option<(int, int)>>) {
    |clients| <= |log| && |clients| <= |ops| && forall k :: 0 <= k < |clients| ==> Reached(log[k], ops[k], clients[k])
  }

  /** Creation and deletion by the client side. */
  method DoClient(t: Table, op: Op)
    requires t.Valid() && Allowed(t, op) && (op.Get? || op.New? || op.Discard? || op.Rekey? || op.CloseFd?)
    modifies t, t.ins, t.outs, t.lru
    ensures t.Valid() && Evolves(old(t.conns), old(t.issued), t.conns, t.issued)
    ensures Effect(old(Now(t)), op, [], Now(t), None)
  {
    match op
    case Get(fd, gen, cid, mode, addr, draws) =>
      var r := t.GetByInConnId(fd, gen, cid, mode, addr, draws);
    case New(addr, fd, gen, cid, co, key, draws) =>
      if co.Some? { HeadListed(true, t.conns, t.outs, co.value.0); }
      var o := t.Create(addr, fd, gen, cid, co, key, draws);
    case Discard(id) => t.Remove(id);
    case Rekey(id, key) => t.SetKey(id, key);
    case CloseFd(fd) => t.CloseClient(fd);
  }

  /** Everything else. */
  method DoLink(t: Table, op: Op) returns (client: Option<(int, int)>)
    requires t.Valid() && Allowed(t, op) && !(op.Get? || op.New? || op.Discard? || op.Rekey? || op.CloseFd?)
    modifies t, t.ins, t.outs, t.lru
    ensures t.Valid() && Evolves(old(t.conns), old(t.issued), t.conns, t.issued)
    ensures Reached(Moment(old(t.conns), old(t.issued)), op, client)
    ensures Effect(old(Now(t)), op, old(Listing(t, op)), Now(t), client)
  {
    client := None;
    SameEvolves(t.conns, t.issued);
    match op
    case LinkUp(out, fd) => t.Ready(out, fd);
    case LinkDown(out, fd) =>
      HeadListed(out, t.conns, t.ListOf(out), fd);
      t.Close(out, fd);
    case CloseId(o, fd, gen) => t.CloseExt(o, fd, gen);
    case Touch(fd, gen) => t.LruInsertConn(fd, gen);
    case Untouch(fd) => t.LruDeleteConn(fd);
    case Answer(o, fd, gen) => client := t.Route(o, fd, gen);
  }

  /** One operation. A call that breaks an assertion ends the program; here it does nothing. */
  method Do(t: Table, op: Op) returns (client: Option<(int, int)>)
    requires t.Valid()
    modifies t, t.ins, t.outs, t.lru
    ensures t.Valid() && Evolves(old(t.conns), old(t.issued), t.conns, t.issued)
    ensures Reached(Moment(old(t.conns), old(t.issued)), op, client)
    ensures if old(Allowed(t, op)) then Effect(old(Now(t)), op, old(Listing(t, op)), Now(t), client) else Now(t) == old(Now(t))
  {
    client := None;
    if !Allowed(t, op) {
      SameEvolves(t.conns, t.issued);
    } else if op.Get? || op.New? || op.Discard? || op.Rekey? || op.CloseFd? {
      DoClient(t, op);
    } else {
      client := DoLink(t, op);
    }
  }

  /**
   * Every run, from any valid table: the structures agree at every moment, no id is issued twice, an id
   * keeps its meaning and never matches again once its connection is gone, and an answer reaches only
   * the client its id was issued to, from the middle-end it was issued with.
   */
  method RunAll(t: Table, ops: seq<Op>) returns (ghost log: seq<Moment>, clients: seq<Option<(int, int)>>)
    requires t.Valid()
    modifies t, t.ins, t.outs, t.lru
    ensures t.Valid() && |log| == |ops| + 1 && log[0] == old(Now(t)) && log[|ops|] == Now(t) && Journal(log)
    ensures forall a: nat, b: nat, o :: Appears(log, a, o) && Appears(log, b, o) ==> a == b
    ensures forall a, b :: 0 <= a <= b < |log| ==> IdsKept(log[a], log[b])
    ensures |clients| == |ops| && AllReached(log, ops, clients)
  {
    log, clients := [Now(t)], [];
    RecordedNow(t);
    for i := 0 to |ops|
      invariant t.Valid() && |log| == i + 1 && log[0] == old(Now(t)) && log[i] == Now(t) && Journal(log)
      invariant |clients| == i && AllReached(log, ops, clients)
    {
      var client := Do(t, ops[i]);
      RecordedNow(t);
      JournalGrows(log, Now(t));
      ReachedGrows(log, Now(t), ops, clients, client);
      log, clients := log + [Now(t)], clients + [client];
    }
    RunTheorem(log);
  }

  lemma RecordedNow(t: Table)
    requires t.Tables()
    ensures AllRecorded(Now(t))
  {
  }

  lemma JournalGrows(log: seq<Moment>, m: Moment)
    requires |log| > 0 && Journal(log) && AllRecorded(m)
    requires Evolves(log[|log| - 1].conns, log[|log| - 1].issued, m.conns, m.issued)
    ensures Journal(log + [m])
  {
    var longer := log + [m];
    forall k | 0 <= k < |longer| - 1
      ensures Evolves(longer[k].conns, longer[k].issued, longer[k + 1].conns, longer[k + 1].issued)
    {
      if k < |log| - 1 { assert longer[k] == log[k] && longer[k + 1] == log[k + 1]; }
    }
  }

  lemma ReachedGrows(log: seq<Moment>, m: Moment, ops: seq<Op>, clients: seq<Option<(int, int)>>, client: Option<(int, int)>)
    requires AllReached(log, ops, clients) && |log| == |clients| + 1 && |clients| < |ops|
    requires Reached(log[|clients|], ops[|clients|], client)
    ensures AllReached(log + [m], ops, clients + [client])
  {
    forall k | 0 <= k < |clients| + 1 ensures Reached((log + [m])[k], ops[k], (clients + [client])[k]) {
      assert (log + [m])[k] == log[k];
    }
  }

  /** What every record of a run says about its ids. */
  lemma RunTheorem(log: seq<Moment>)
    requires Journal(log)
    ensures forall a: nat, b: nat, o :: Appears(log, a, o) && Appears(log, b, o) ==> a == b
    ensures forall a, b :: 0 <= a <= b < |log| ==> IdsKept(log[a], log[b])
  {
    forall a: nat, b: nat, o | Appears(log, a, o) && Appears(log, b, o) ensures a == b { IssuedOnce(log, a, b, o); }
    forall a, b | 0 <= a <= b < |log| ensures IdsKept(log[a], log[b]) { StaleForever(log, a, b); }
  }
}
