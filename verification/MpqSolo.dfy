/**
 * What the calls of the queue answer when no other call is under way: a queue. A push adds its value behind
 * everything stored, a pop takes the oldest one and returns null exactly when there is none, the semaphore
 * counts the values, and mpq_is_empty is right.
 */
module MpqSolo {
  import opened MpqBlock
  import opened MpqList
  import opened MpqListInv
  import opened MpqListSteps
  import opened MpqListCounts
  import opened MpqTheorems
  import opened MpqTail
  import opened MpqAlone
  import opened Progress

  // ----- between calls

  /** Nobody but tid is inside a call. */
  predicate OthersRest(s: State, tid: Tid) {
    forall u :: u in s.threads && u != tid ==> Resting(s.threads[u])
  }

  predicate Quiet(s: State) {
    forall u :: u in s.threads ==> Resting(s.threads[u])
  }

  predicate Live(s: State, k: Key) {
    Placed(s, k) && !Taken(s, k)
  }

  /** The thread holds no pop ticket. */
  predicate NoTicket(th: Thread) {
    th.InPop? ==> !th.pop.ReadVal? && !th.pop.ReadIdx? && !th.pop.Cas?
  }

  lemma NotOpen(s: State, tid: Tid, b: nat, h: nat)
    requires Owners(s) && OthersRest(s, tid) && (tid in s.threads ==> NoTicket(s.threads[tid])) && b < |s.blocks|
    ensures !OpenTicket(s.blocks[b], h)
  {
  }

  /** Then every value in the queue is still to be drawn. */
  lemma LiveAhead(s: State, tid: Tid, k: Key)
    requires ListInv(s) && Owners(s) && OthersRest(s, tid) && (tid in s.threads ==> NoTicket(s.threads[tid])) && Live(s, k)
    ensures k.tkt >= s.blocks[k.blk].head && k.blk >= s.mqHead
  {
    assert BlockInv(s.blocks[k.blk]);
    NotOpen(s, tid, k.blk, k.tkt);
    assert k.blk < s.mqHead ==> s.blocks[k.blk].Drained();
  }

  /** When no call is under way, whatever has been taken is older than whatever is left. */
  lemma QuietOrder(sem: bool, schedule: seq<Action>, k: Key, a: Key)
    requires Quiet(Run(sem, schedule)) && Taken(Run(sem, schedule), k) && Live(Run(sem, schedule), a)
    ensures Older(k, a)
  {
    RunOk(sem, schedule);
    TakenBefore(Run(sem, schedule), k, a);
  }

  lemma TakenBefore(s: State, k: Key, a: Key)
    requires ListInv(s) && Owners(s) && Quiet(s) && Taken(s, k) && Live(s, a)
    ensures Older(k, a)
  {
    LiveAhead(s, 0, a);
    assert BlockInv(s.blocks[k.blk]);
  }

  /** Nothing is in the queue. */
  ghost predicate NoneLive(s: State) {
    forall k :: !Live(s, k)
  }

  lemma ClaimedNone(s: State, tid: Tid)
    requires ListInv(s) && Owners(s) && OthersRest(s, tid) && (tid in s.threads ==> NoTicket(s.threads[tid])) && AllClaimed(s)
    ensures NoneLive(s)
  {
    forall k ensures !Live(s, k) {
      assert k.blk < |s.blocks| ==> Claimed(s.blocks[k.blk]);
      if Live(s, k) { LiveAhead(s, tid, k); }
    }
  }

  // ----- mpq_pop

  /** Between two states only thread tid has moved, and nothing was stored. */
  ghost predicate OnlyPops(s: State, r: State, tid: Tid) {
    && tid in r.threads && r.threads == s.threads[tid := r.threads[tid]] && r.sem == s.sem
    && forall k :: Placed(r, k) <==> Placed(s, k)
  }

  /** A pop under way that began in s: nothing has been taken yet, and if it has decided that the queue is empty, it is. */
  ghost predicate PopUnderWay(s: State, r: State, tid: Tid) {
    Inv(r) && PopSoFar(s, r, tid)
  }

  ghost predicate PopSoFar(s: State, r: State, tid: Tid) {
    && OnlyPops(s, r, tid) && OnPopSide(r.threads[tid])
    && (forall k :: Taken(r, k) <==> Taken(s, k))
    && (Flagged(r.threads[tid]) ==> NoneLive(s))
  }

  /** It has returned: with null from an empty queue, or with a value that nobody has taken before, and only that one is taken now. */
  ghost predicate PopDone(s: State, r: State, tid: Tid) {
    Inv(r) && PopResult(s, r, tid)
  }

  ghost predicate PopResult(s: State, r: State, tid: Tid) {
    && OnlyPops(s, r, tid) && r.threads[tid].PopRet?
    && var th := r.threads[tid];
       if th.val == 0 then NoneLive(s) && forall k :: Taken(r, k) <==> Taken(s, k)
       else Live(s, th.key) && Stores(r, th.key, th.val) && forall k :: Taken(r, k) <==> Taken(s, k) || k == th.key
  }

  /** A step inside mpq_block_pop stores nothing, and leaves the call or goes on with it. */
  lemma InPopGoes(r: State, tid: Tid, th: Thread, r': State)
    requires th.InPop? && HasBlock(r, th.qb) && !th.pop.Got? && !th.pop.Null? && PopOk(r.blocks[th.qb], tid, th.pop) && r' == StepInPop(r, tid, th)
    ensures forall k :: Placed(r', k) <==> Placed(r, k)
    ensures var th' := r'.threads[tid];
            OnPopSide(th') || (th'.PopRet? && th'.val != 0)
    ensures Flagged(r'.threads[tid]) ==> Flagged(th) || (AllClaimed(r) && th.pop.ReadTail?)
  {
    PopStores(r.blocks[th.qb], tid, th.pop);
  }

  lemma InPopDelivers(r: State, tid: Tid, r': State)
    requires Inv(r) && CanStep(r, tid) && r.threads[tid].InPop? && r' == Step(r, tid)
    ensures var th' := r'.threads[tid];
            if th'.PopRet? && th'.val != 0 then !Taken(r, th'.key) && forall k :: Taken(r', k) <==> Taken(r, k) || k == th'.key
            else forall k :: Taken(r', k) <==> Taken(r, k)
  {
    PopDelivers(r, tid);
    var d, th' := Delivery(r, Move(tid)), r'.threads[tid];
    if th'.PopRet? && th'.val != 0 {
      assert d == [(th'.key, th'.val)];
      assert d[0].0 == th'.key;
    } else {
      assert d == [];
    }
  }

  /** One step of a pop: what it takes, and what it has found out. */
  ghost predicate PopMove(r: State, tid: Tid, th: Thread, r': State) {
    && OnlyMoved(r, r', tid) && r'.sem == r.sem && (forall k :: Placed(r', k) <==> Placed(r, k))
    && var th' := r'.threads[tid];
       && (OnPopSide(th') || th'.PopRet?)
       && (Flagged(th') ==> Flagged(th) || (AllClaimed(r) && NoTicket(th)))
       && (if th'.PopRet? && th'.val != 0
           then Stores(r', th'.key, th'.val) && !Taken(r, th'.key) && forall k :: Taken(r', k) <==> Taken(r, k) || k == th'.key
           else (th'.PopRet? ==> Flagged(th')) && forall k :: Taken(r', k) <==> Taken(r, k))
  }

  lemma InPopMoves(r: State, tid: Tid, th: Thread, r': State)
    requires Inv(r) && CanStep(r, tid) && th == r.threads[tid] && th.InPop? && r' == Step(r, tid) && Inv(r')
    ensures PopMove(r, tid, th, r')
  {
    assert Local(r, tid, th);
    InPopGoes(r, tid, th, r');
    InPopDelivers(r, tid, r');
    if r'.threads[tid].PopRet? { DeliveredAt(r', tid); }
  }

  lemma PopListMoves(r: State, tid: Tid, th: Thread, r': State)
    requires CanStep(r, tid) && th == r.threads[tid] && OnPopSide(th) && !th.InPop? && r' == Step(r, tid) && Inv(r')
    ensures PopMove(r, tid, th, r')
  {
    PopListGoes(r, tid, th, r');
    EmptyAt(r', tid);
    assert forall k :: Placed(r', k) <==> Placed(r, k);
    assert forall k :: Taken(r', k) <==> Taken(r, k);
  }

  lemma FlagSolo(s: State, r: State, tid: Tid)
    requires PopUnderWay(s, r, tid) && OthersRest(s, tid) && NoTicket(r.threads[tid]) && AllClaimed(r)
    ensures NoneLive(s)
  {
    ClaimedNone(r, tid);
    forall k ensures !Live(s, k) { assert !Live(r, k); }
  }

  lemma PopComposes(s: State, r: State, tid: Tid, th: Thread, r': State)
    requires PopUnderWay(s, r, tid) && OthersRest(s, tid) && th == r.threads[tid] && PopMove(r, tid, th, r') && Inv(r')
    ensures PopUnderWay(s, r', tid) || PopDone(s, r', tid)
  {
    if AllClaimed(r) && NoTicket(th) { FlagSolo(s, r, tid); }
    if r'.threads[tid].PopRet? && r'.threads[tid].val != 0 { PopTakes(s, r, tid, th, r'); } else { PopGoesOn(s, r, tid, th, r'); }
  }

  lemma PopTakes(s: State, r: State, tid: Tid, th: Thread, r': State)
    requires PopSoFar(s, r, tid) && th == r.threads[tid] && PopMove(r, tid, th, r') && r'.threads[tid].PopRet? && r'.threads[tid].val != 0
    ensures PopResult(s, r', tid)
  {
    var k := r'.threads[tid].key;
    assert Placed(r', k) && Placed(r, k) && Placed(s, k);
    PopThreads(s, r, tid, r');
  }

  lemma PopThreads(s: State, r: State, tid: Tid, r': State)
    requires OnlyPops(s, r, tid) && OnlyMoved(r, r', tid) && r'.sem == r.sem && forall k :: Placed(r', k) <==> Placed(r, k)
    ensures OnlyPops(s, r', tid)
  {
  }

  lemma PopGoesOn(s: State, r: State, tid: Tid, th: Thread, r': State)
    requires PopSoFar(s, r, tid) && th == r.threads[tid] && PopMove(r, tid, th, r') && !(r'.threads[tid].PopRet? && r'.threads[tid].val != 0)
    requires AllClaimed(r) && NoTicket(th) ==> NoneLive(s)
    ensures PopSoFar(s, r', tid) || PopResult(s, r', tid)
  {
    PopThreads(s, r, tid, r');
  }

  lemma PopListGoes(r: State, tid: Tid, th: Thread, r': State)
    requires (th.PopLoad? || th.PopCheck? || th.PopNext? || th.PopSwing?) && r' == StepPop(r, tid, th)
    ensures r'.blocks == r.blocks
    ensures var th' := r'.threads[tid];
            OnPopSide(th') || (th'.PopRet? && th'.val == 0)
    ensures Flagged(r'.threads[tid]) ==> Flagged(th)
  {
  }

  lemma PopMoves(r: State, tid: Tid, th: Thread, r': State)
    requires Inv(r) && CanStep(r, tid) && th == r.threads[tid] && OnPopSide(th) && r' == Step(r, tid) && Inv(r')
    ensures PopMove(r, tid, th, r')
  {
    if th.InPop? { InPopMoves(r, tid, th, r'); } else { PopListMoves(r, tid, th, r'); }
  }

  /** The next step of a pop. */
  lemma PopSteps(f: State -> State, r: State, tid: Tid)
    requires f == StepOf(tid) && Inv(r) && tid in r.threads && OnPopSide(r.threads[tid])
    ensures Inv(f(r)) && PopMove(r, tid, r.threads[tid], f(r))
    ensures RankOf(r, tid) > 0 && (Ended(f(r), tid) || RankOf(f(r), tid) < RankOf(r, tid))
  {
    assert Local(r, tid, r.threads[tid]);
    StepOk(r, tid);
    PopMoves(r, tid, r.threads[tid], Step(r, tid));
    Nearer(r, tid);
  }

  lemma PopSolo(s: State, r: State, tid: Tid, r': State)
    requires PopUnderWay(s, r, tid) && OthersRest(s, tid) && Inv(r') && PopMove(r, tid, r.threads[tid], r')
    requires Ended(r', tid) || RankOf(r', tid) < RankOf(r, tid)
    ensures PopDone(s, r', tid) || (PopUnderWay(s, r', tid) && RankOf(r', tid) < RankOf(r, tid))
  {
    PopComposes(s, r, tid, r.threads[tid], r');
  }

  lemma PopEnds(f: State -> State, s: State, r: State, tid: Tid) returns (n: nat)
    requires f == StepOf(tid) && PopUnderWay(s, r, tid) && OthersRest(s, tid)
    ensures PopDone(s, After(f, r, n), tid)
  {
    forall q | PopUnderWay(s, q, tid)
      ensures RankOf(q, tid) > 0 && (PopDone(s, f(q), tid) || (PopUnderWay(s, f(q), tid) && RankOf(f(q), tid) < RankOf(q, tid)))
    {
      PopSteps(f, q, tid);
      PopSolo(s, q, tid, f(q));
    }
    n := Ends(f, q => PopUnderWay(s, q, tid), q => PopDone(s, q, tid), q => RankOf(q, tid), r);
  }

  /** The oldest value, or null if there is none. */
  ghost predicate TakesOldest(s: State, r: State, tid: Tid) {
    && tid in r.threads && r.threads[tid].PopRet?
    && var th := r.threads[tid];
       if th.val == 0 then NoneLive(s) && forall k :: Live(r, k) <==> Live(s, k)
       else
         && Live(s, th.key) && Stores(r, th.key, th.val)
         && (forall k :: Live(r, k) <==> Live(s, k) && k != th.key)
         && (forall k :: Live(r, k) ==> Older(th.key, k))
  }

  lemma SameLive(s: State, s0: State)
    requires s0.blocks == s.blocks
    ensures forall k :: Live(s0, k) <==> Live(s, k)
  {
    assert forall k :: Placed(s0, k) <==> Placed(s, k);
    assert forall k :: Taken(s0, k) <==> Taken(s, k);
  }

  /** From a pop that begins with the list as it is in s. */
  lemma PopFrom(f: State -> State, s: State, s0: State, tid: Tid) returns (n: nat)
    requires f == StepOf(tid) && Inv(s0) && Quiet(s) && s0.blocks == s.blocks && s0.threads == s.threads[tid := PopLoad]
    ensures Inv(After(f, s0, n)) && After(f, s0, n).sem == s0.sem && TakesOldest(s, After(f, s0, n), tid)
  {
    PopStarts(s, s0, tid);
    n := PopEnds(f, s0, s0, tid);
    DoneFrom(s, s0, After(f, s0, n), tid);
  }

  lemma PopStarts(s: State, s0: State, tid: Tid)
    requires Quiet(s) && s0.blocks == s.blocks && s0.threads == s.threads[tid := PopLoad]
    ensures PopSoFar(s0, s0, tid) && OthersRest(s0, tid) && forall k :: Live(s0, k) <==> Live(s, k)
  {
    SameLive(s, s0);
  }

  lemma DoneFrom(s: State, s0: State, r: State, tid: Tid)
    requires Quiet(s) && s0.threads == s.threads[tid := PopLoad] && PopDone(s0, r, tid) && (forall k :: Live(s0, k) <==> Live(s, k))
    ensures TakesOldest(s, r, tid)
  {
    LiveAfter(s0, r, tid);
    QuietAgain(s, s0, r, tid);
    if r.threads[tid].val != 0 { TakenOldest(r, tid); }
  }

  lemma QuietAgain(s: State, s0: State, r: State, tid: Tid)
    requires Quiet(s) && s0.threads == s.threads[tid := PopLoad] && PopResult(s0, r, tid)
    ensures Quiet(r)
  {
  }

  lemma LiveAfter(s0: State, r: State, tid: Tid)
    requires PopResult(s0, r, tid)
    ensures forall k :: Live(r, k) <==> Live(s0, k) && (r.threads[tid].val != 0 ==> k != r.threads[tid].key)
  {
  }

  lemma TakenOldest(r: State, tid: Tid)
    requires ListInv(r) && Owners(r) && Quiet(r) && tid in r.threads && r.threads[tid].PopRet? && Taken(r, r.threads[tid].key)
    ensures forall k :: Live(r, k) ==> Older(r.threads[tid].key, k)
  {
    forall k | Live(r, k) ensures Older(r.threads[tid].key, k) { TakenBefore(r, r.threads[tid].key, k); }
  }

  /** mpq_pop, with no other call under way: the oldest value, and null exactly when there is none. */
  lemma PopAlone(schedule: seq<Action>, tid: Tid, nw: bool, tries: nat) returns (n: nat)
    requires Quiet(Run(false, schedule))
    ensures var s := Run(false, schedule);
            TakesOldest(s, After(StepOf(tid), Exec(s, Enter(tid, CallPop(nw, tries))), n), tid)
  {
    RunOk(false, schedule);
    var s := Run(false, schedule);
    BeginOk(s, tid, CallPop(nw, tries));
    n := PopFrom(StepOf(tid), s, Begin(s, tid, CallPop(nw, tries)), tid);
  }
}
