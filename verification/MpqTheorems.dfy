/**
 * What the queue guarantees in every interleaving of any number of threads.
 *
 * A schedule is an arbitrary sequence of actions (`Action`): a thread at rest enters a queue
 * function, or a thread inside one performs its next shared access. All theorems hold after
 * every schedule; `PushStoresItsValue`, `PushKeepsItsKey` and `FlagIsWitnessed` speak about one
 * further step.
 */
module MpqTheorems {
  import opened MpqBlock
  import opened MpqList
  import opened MpqListInv
  import opened MpqListSteps
  import opened MpqListCounts

  lemma InitOk(sem: bool)
    ensures Inv(Init(sem))
  {
    AllocOk(0, SMALL_BLOCK_SIZE, 0);
  }

  lemma LocalsAfterBegin(s: State, tid: Tid, c: Call)
    requires ListInv(s) && Locals(s) && Order(s)
    ensures Bounds(Begin(s, tid, c)) && Locals(Begin(s, tid, c))
  {
    var s' := Begin(s, tid, c);
    if s' != s {
      StillForward(s, s', tid);
      LocalsStable(s, s', tid, s'.threads[tid]);
    }
  }

  lemma OwnersAfterBegin(s: State, tid: Tid, c: Call)
    requires Owners(s)
    ensures Owners(Begin(s, tid, c))
  {
    var s' := Begin(s, tid, c);
    forall b, h | 0 <= b < |s'.blocks| && 0 <= h && OpenTicket(s'.blocks[b], h)
      ensures s'.blocks[b].popOwner[h] in s'.threads && Popping(s'.threads[s'.blocks[b].popOwner[h]], b, h)
    {
      assert OpenTicket(s.blocks[b], h);
    }
  }

  lemma CountsAfterBegin(s: State, tid: Tid, c: Call)
    requires Bounds(s) && Locals(s) && Counts(s)
    ensures Counts(Begin(s, tid, c))
  {
    var s' := Begin(s, tid, c);
    if tid in s.threads { assert Local(s, tid, s.threads[tid]); }
    if s' != s { CountsAfter(s, s', tid, s'.threads[tid]); }
  }

  lemma BeginOk(s: State, tid: Tid, c: Call)
    requires Inv(s)
    ensures Inv(Begin(s, tid, c))
  {
    var s' := Begin(s, tid, c);
    ListSame(s, s');
    OrderKept(s, s');
    OwnersAfterBegin(s, tid, c);
    LocalsAfterBegin(s, tid, c);
    CountsAfterBegin(s, tid, c);
  }

  lemma StepOk(s: State, tid: Tid)
    requires Inv(s) && CanStep(s, tid)
    ensures Inv(Step(s, tid))
  {
    assert Local(s, tid, s.threads[tid]);
    StepList(s, tid);
    StepOwners(s, tid);
    StepLocals(s, tid);
    StepOrder(s, tid, Step(s, tid));
    StepCounts(s, tid);
  }

  lemma ExecOk(s: State, a: Action)
    requires Inv(s)
    ensures Inv(Exec(s, a)) && Exec(s, a).sem == s.sem
  {
    match a
    case Enter(tid, c) => BeginOk(s, tid, c);
    case Move(tid) =>
      if CanStep(s, tid) { StepOk(s, tid); }
  }

  lemma {:induction false} RunOk(sem: bool, schedule: seq<Action>)
    ensures Inv(Run(sem, schedule)) && Run(sem, schedule).sem == sem
  {
    if |schedule| == 0 {
      InitOk(sem);
    } else {
      RunOk(sem, schedule[..|schedule| - 1]);
      ExecOk(Run(sem, schedule[..|schedule| - 1]), schedule[|schedule| - 1]);
    }
  }

  // ----- permits

  /**
   * Successful waits never exceed posts, posts never exceed stored values, and a consumer
   * that won a permit never comes back with a null pointer: the assertions after mpq_pop in
   * mpq_pop_w and mpq_pop_nw hold.
   */
  lemma PermitsAreHonoured(schedule: seq<Action>)
    ensures var s := Run(true, schedule);
            && s.granted <= s.posts <= PlacedCount(s.blocks)
            && (forall tid :: tid in s.threads && s.threads[tid].PopRet? ==> s.threads[tid].val != 0)
  {
    RunOk(true, schedule);
    var s := Run(true, schedule);
    forall tid | tid in s.threads && s.threads[tid].PopRet? ensures s.threads[tid].val != 0 {
      assert Local(s, tid, s.threads[tid]);
    }
  }

  /** A thread inside a queue function can always take its next step. */
  lemma NeverStuck(sem: bool, schedule: seq<Action>, tid: Tid)
    requires tid in Run(sem, schedule).threads && !Resting(Run(sem, schedule).threads[tid])
    ensures CanStep(Run(sem, schedule), tid)
  {
    RunOk(sem, schedule);
    var s := Run(sem, schedule);
    assert Local(s, tid, s.threads[tid]);
  }

  // ----- values

  /**
   * A stored value is where its ticket says, and its pop ticket is either not drawn yet or
   * held by a consumer that is still working on it. A pop returns the value stored under its
   * own ticket.
   */
  lemma NoValueLost(sem: bool, schedule: seq<Action>, k: Key)
    ensures var s := Run(sem, schedule);
            Placed(s, k) && k.tkt !in s.blocks[k.blk].taken ==>
              var b := s.blocks[k.blk];
              && b.Shaped() && b.At(k.tkt).idx == k.tkt && b.At(k.tkt).val == b.placed[k.tkt]
              && (k.tkt < b.head ==>
                    && k.tkt < |b.popOwner| && b.popOwner[k.tkt] in s.threads
                    && Popping(s.threads[b.popOwner[k.tkt]], k.blk, k.tkt))
  {
    RunOk(sem, schedule);
    var s := Run(sem, schedule);
    if Placed(s, k) && k.tkt !in s.blocks[k.blk].taken {
      var b := s.blocks[k.blk];
      assert BlockInv(b);
      assert NodeOk(b, Slot(k.tkt, b.size));
      if k.tkt < b.head { assert OpenTicket(s.blocks[k.blk], k.tkt); }
    }
  }

  /** The value handed to a consumer by this action, with its ticket. */
  function Delivery(s: State, a: Action): seq<(Key, Value)> {
    if a.Move? && CanStep(s, a.tid) && Step(s, a.tid).threads[a.tid].PopRet? && Step(s, a.tid).threads[a.tid].val != 0
    then [(Step(s, a.tid).threads[a.tid].key, Step(s, a.tid).threads[a.tid].val)]
    else []
  }

  /** All deliveries of a run, in order. */
  function Deliveries(sem: bool, schedule: seq<Action>): seq<(Key, Value)> {
    if |schedule| == 0 then []
    else
      var p := schedule[..|schedule| - 1];
      Deliveries(sem, p) + Delivery(Run(sem, p), schedule[|schedule| - 1])
  }

  predicate Taken(s: State, k: Key) {
    k.blk < |s.blocks| && k.tkt in s.blocks[k.blk].taken
  }

  /** `taken` grows exactly by what an action delivers. */
  ghost predicate TakesExactly(s: State, s': State, d: seq<(Key, Value)>) {
    && (forall k :: Taken(s', k) <==> Taken(s, k) || exists i :: 0 <= i < |d| && d[i].0 == k)
    && (forall i :: 0 <= i < |d| ==> !Taken(s, d[i].0))
  }

  lemma PopDelivers(s: State, tid: Tid)
    requires Inv(s) && CanStep(s, tid) && s.threads[tid].InPop?
    ensures TakesExactly(s, Step(s, tid), Delivery(s, Move(tid)))
  {
    var th, s' := s.threads[tid], Step(s, tid);
    assert Local(s, tid, th);
    PopStores(s.blocks[th.qb], tid, th.pop);
    var (b', at') := PopStep(s.blocks[th.qb], tid, th.pop);
    var e := if at'.FixTail? && th.pop.ReadTail? then AllClaimed(s) else th.empty;
    assert s'.threads[tid] == AfterPop(th.qb, th.second, e, at');
    var d := Delivery(s, Move(tid));
    assert d == if at'.Got? then [(Key(th.qb, at'.h), at'.val)] else [];
    forall k ensures Taken(s', k) <==> Taken(s, k) || exists i :: 0 <= i < |d| && d[i].0 == k {
      if at'.Got? { assert d[0].0 == Key(th.qb, at'.h); }
    }
  }

  lemma OtherDelivers(s: State, a: Action)
    requires Inv(s) && !(a.Move? && CanStep(s, a.tid) && s.threads[a.tid].InPop?)
    ensures TakesExactly(s, Exec(s, a), Delivery(s, a))
  {
    var s' := Exec(s, a);
    if a.Move? && CanStep(s, a.tid) {
      var th := s.threads[a.tid];
      assert Local(s, a.tid, th);
      ListAfterPops(s, a.tid, th);
      StepIsListAfter(s, a.tid);
      NoDelivery(s, a.tid);
      forall k ensures Taken(s', k) <==> Taken(s, k) {
        if k.blk < |s.blocks| { assert SamePops(s.blocks[k.blk], s'.blocks[k.blk]); }
        else if k.blk < |s'.blocks| { FreshBlock(s, a.tid, k.blk); }
      }
    }
  }

  lemma NoDelivery(s: State, tid: Tid)
    requires CanStep(s, tid) && !s.threads[tid].InPop?
    ensures Delivery(s, Move(tid)) == []
  {
  }

  /** A block that was just linked has no taken ticket. */
  lemma FreshBlock(s: State, tid: Tid, b: nat)
    requires Inv(s) && CanStep(s, tid) && |s.blocks| <= b < |Step(s, tid).blocks|
    ensures Step(s, tid).blocks[b].taken == {}
  {
    var th := s.threads[tid];
    StepIsListAfter(s, tid);
    assert th.PushLink?;
  }

  /** The log has no ticket twice and lists exactly the taken tickets. */
  ghost predicate LogMatches(s: State, d: seq<(Key, Value)>) {
    && (forall i, j :: 0 <= i < j < |d| ==> d[i].0 != d[j].0)
    && (forall k :: Taken(s, k) <==> exists i :: 0 <= i < |d| && d[i].0 == k)
  }

  lemma LogGrows(s: State, s': State, d0: seq<(Key, Value)>, d1: seq<(Key, Value)>)
    requires LogMatches(s, d0) && TakesExactly(s, s', d1) && |d1| <= 1
    ensures LogMatches(s', d0 + d1)
  {
    var d := d0 + d1;
    forall k ensures Taken(s', k) <==> exists i :: 0 <= i < |d| && d[i].0 == k {
      if Taken(s', k) {
        if i :| 0 <= i < |d0| && d0[i].0 == k { assert d[i].0 == k; }
        else if i :| 0 <= i < |d1| && d1[i].0 == k { assert d[|d0| + i].0 == k; }
      }
      if i :| 0 <= i < |d| && d[i].0 == k {
        if i < |d0| { assert d0[i].0 == k; } else { assert d1[i - |d0|].0 == k; }
      }
    }
    forall i, j | 0 <= i < j < |d| ensures d[i].0 != d[j].0 {
      if j >= |d0| { assert d0[i].0 == d[i].0; assert Taken(s, d0[i].0); }
    }
  }

  lemma ExecDelivers(s: State, a: Action)
    requires Inv(s)
    ensures TakesExactly(s, Exec(s, a), Delivery(s, a))
  {
    if a.Move? && CanStep(s, a.tid) && s.threads[a.tid].InPop? { PopDelivers(s, a.tid); } else { OtherDelivers(s, a); }
  }

  /** Over a whole run every ticket is delivered at most once, and exactly the taken tickets are. */
  lemma {:induction false} DeliveredOnce(sem: bool, schedule: seq<Action>)
    ensures LogMatches(Run(sem, schedule), Deliveries(sem, schedule))
  {
    if |schedule| > 0 {
      var p, a := schedule[..|schedule| - 1], schedule[|schedule| - 1];
      DeliveredOnce(sem, p);
      RunOk(sem, p);
      ExecDelivers(Run(sem, p), a);
      LogGrows(Run(sem, p), Exec(Run(sem, p), a), Deliveries(sem, p), Delivery(Run(sem, p), a));
    }
  }

  lemma DeliveredAt(s: State, tid: Tid)
    requires Inv(s) && tid in s.threads && s.threads[tid].PopRet? && s.threads[tid].val != 0
    ensures var k := s.threads[tid].key;
            && Taken(s, k) && Placed(s, k) && s.blocks[k.blk].placed[k.tkt] == s.threads[tid].val
            && k.tkt < |s.blocks[k.blk].popOwner| && s.blocks[k.blk].popOwner[k.tkt] == tid
  {
    assert Local(s, tid, s.threads[tid]);
  }

  /** Every entry of the log is the value stored under its ticket. */
  predicate LogFaithful(s: State, d: seq<(Key, Value)>) {
    forall i :: 0 <= i < |d| ==> Stores(s, d[i].0, d[i].1)
  }

  predicate Stores(s: State, k: Key, v: Value) {
    Placed(s, k) && s.blocks[k.blk].placed[k.tkt] == v
  }

  lemma StoresForward(s: State, s': State, tid: Tid, k: Key, v: Value)
    requires BlocksForward(s, s', tid) && Stores(s, k, v)
    ensures Stores(s', k, v)
  {
    assert Forward(s.blocks[k.blk], s'.blocks[k.blk], tid);
  }

  /** Over a whole run every delivery hands out the value that was stored under its ticket. */
  lemma {:induction false} DeliveredFaithfully(sem: bool, schedule: seq<Action>)
    ensures LogFaithful(Run(sem, schedule), Deliveries(sem, schedule))
  {
    if |schedule| > 0 {
      var p, a := schedule[..|schedule| - 1], schedule[|schedule| - 1];
      DeliveredFaithfully(sem, p);
      RunOk(sem, p);
      RunOk(sem, schedule);
      var s, s', e := Run(sem, p), Run(sem, schedule), Delivery(Run(sem, p), a);
      DeliveryFaithful(s, a, s', e);
      ExecForward(s, a);
      FaithfulLonger(s, s', a.tid, Deliveries(sem, p), e);
    }
  }

  lemma DeliveryFaithful(s: State, a: Action, s': State, e: seq<(Key, Value)>)
    requires s' == Exec(s, a) && Inv(s') && e == Delivery(s, a)
    ensures LogFaithful(s', e)
  {
    if e != [] { DeliveredAt(s', a.tid); }
  }

  lemma FaithfulLonger(s: State, s': State, tid: Tid, d: seq<(Key, Value)>, e: seq<(Key, Value)>)
    requires BlocksForward(s, s', tid) && LogFaithful(s, d) && LogFaithful(s', e)
    ensures LogFaithful(s', d + e)
  {
    var d' := d + e;
    forall i | 0 <= i < |d'| ensures Stores(s', d'[i].0, d'[i].1) {
      if i < |d| {
        assert d'[i] == d[i];
        StoresForward(s, s', tid, d[i].0, d[i].1);
      } else {
        assert d'[i] == e[i - |d|];
      }
    }
  }

  /** What a consumer received is the value stored under the ticket it drew itself. */
  lemma DeliveredValue(sem: bool, schedule: seq<Action>, tid: Tid)
    requires var s := Run(sem, schedule); tid in s.threads && s.threads[tid].PopRet? && s.threads[tid].val != 0
    ensures var s := Run(sem, schedule); var k := s.threads[tid].key;
            && Taken(s, k) && Placed(s, k) && s.blocks[k.blk].placed[k.tkt] == s.threads[tid].val
            && k.tkt < |s.blocks[k.blk].popOwner| && s.blocks[k.blk].popOwner[k.tkt] == tid
  {
    RunOk(sem, schedule);
    DeliveredAt(Run(sem, schedule), tid);
  }

  // ----- what a push stores

  /** A push of `v` under way, before its value is in the queue. */
  predicate Carries(th: Thread, v: Value) {
    || (th.PushLoad? && th.val == v) || (th.PushCheck? && th.val == v) || (th.PushNext? && th.val == v)
    || (th.PushHelp? && th.val == v) || (th.InPush? && th.val == v) || (th.PushAlloc? && th.val == v)
    || (th.PushLink? && th.val == v)
  }

  /** A push whose value is in the queue under the key `k`. */
  predicate HasStored(th: Thread, k: Key) {
    (th.PushSwing? || th.PushPost? || th.PushRet?) && th.key == k
  }

  /** The push goes on with its value, or has just stored it under a ticket that was free. */
  ghost predicate CarriesOrStored(s: State, s': State, th': Thread, v: Value) {
    Carries(th', v) || exists k :: HasStored(th', k) && Stores(s', k, v) && !Placed(s, k)
  }

  lemma InPushCarries(s: State, tid: Tid, th: Thread, s': State)
    requires th.InPush? && HasBlock(s, th.qb) && !th.push.Stored? && !th.push.Refused?
    requires PushOk(s.blocks[th.qb], tid, th.push) && s' == StepInPush(s, tid, th)
    ensures CarriesOrStored(s, s', s'.threads[tid], th.val)
  {
    PushStores(s.blocks[th.qb], tid, th.val, th.push);
    var at' := PushStep(s.blocks[th.qb], tid, th.val, th.push).1;
    if at'.Stored? { assert HasStored(s'.threads[tid], Key(th.qb, at'.t)); }
  }

  lemma LinkCarries(s: State, tid: Tid, th: Thread, s': State)
    requires Bounds(s) && th.PushLink? && th.val != 0 && th.qb < |s.blocks| && s' == StepLink(s, tid, th)
    ensures CarriesOrStored(s, s', s'.threads[tid], th.val)
  {
    if th.qb + 1 == |s.blocks| { assert HasStored(s'.threads[tid], Key(th.qb + 1, 0)); }
  }

  lemma ListCarries(s: State, tid: Tid, th: Thread, s': State)
    requires th.PushLoad? || th.PushCheck? || th.PushNext? || th.PushHelp? || th.PushAlloc?
    requires s' == StepPush(s, tid, th)
    ensures Carries(s'.threads[tid], th.val)
  {
  }

  /** A push carries its value unchanged until the step that stores it, under a ticket nobody had used. */
  lemma PushStoresItsValue(s: State, tid: Tid, v: Value, s': State)
    requires Inv(s) && CanStep(s, tid) && Carries(s.threads[tid], v) && s' == Step(s, tid)
    ensures CarriesOrStored(s, s', s'.threads[tid], v)
  {
    var th := s.threads[tid];
    assert Local(s, tid, th);
    if th.InPush? { InPushCarries(s, tid, th, s'); }
    else if th.PushLink? { LinkCarries(s, tid, th, s'); }
    else { ListCarries(s, tid, th, s'); }
  }

  /** After that the push only keeps its key until it returns it. */
  lemma PushKeepsItsKey(s: State, tid: Tid, k: Key, s': State)
    requires CanStep(s, tid) && HasStored(s.threads[tid], k) && s' == Step(s, tid)
    ensures HasStored(s'.threads[tid], k)
  {
    var th := s.threads[tid];
    if th.PushPost? { PostKeepsKey(s, tid, th, s'); }
  }

  lemma PostKeepsKey(s: State, tid: Tid, th: Thread, s': State)
    requires th.PushPost? && s' == StepPush(s, tid, th)
    ensures HasStored(s'.threads[tid], th.key)
  {
  }

  // ----- blocks

  /** What the list head has passed is finished: the block is closed, and each value left in it has its consumer. */
  lemma BehindHead(sem: bool, schedule: seq<Action>, b: nat)
    requires b < Run(sem, schedule).mqHead
    ensures var s := Run(sem, schedule);
            && b < |s.blocks| && s.blocks[b].Drained()
            && (forall t :: t in s.blocks[b].placed && t !in s.blocks[b].taken ==>
                  && t < |s.blocks[b].popOwner| && s.blocks[b].popOwner[t] in s.threads
                  && Popping(s.threads[s.blocks[b].popOwner[t]], b, t))
  {
    RunOk(sem, schedule);
    var s := Run(sem, schedule);
    assert BlockInv(s.blocks[b]);
    forall t | t in s.blocks[b].placed && t !in s.blocks[b].taken
      ensures t < |s.blocks[b].popOwner| && s.blocks[b].popOwner[t] in s.threads
              && Popping(s.threads[s.blocks[b].popOwner[t]], b, t)
    {
      assert OpenTicket(s.blocks[b], t);
    }
  }

  lemma ExecForward(s: State, a: Action)
    requires Inv(s)
    ensures BlocksForward(s, Exec(s, a), a.tid)
  {
    match a
    case Enter(tid, c) => StillForward(s, Begin(s, tid, c), tid);
    case Move(tid) =>
      if CanStep(s, tid) {
        assert Local(s, tid, s.threads[tid]);
        StepList(s, tid);
      } else {
        StillForward(s, s, tid);
      }
  }

  /** Later, block `b` is still closed at the same ticket and stores nothing at or above it. */
  predicate ClosedAt(s: State, b: nat, n: nat) {
    && b < |s.blocks| && s.blocks[b].closed && s.blocks[b].closedAt == n
    && (forall t :: t in s.blocks[b].placed ==> t < n)
  }

  /** Closing is permanent: whatever happens afterwards, no ticket from the closing point on stores a value. */
  lemma {:induction false} ClosedForever(sem: bool, schedule: seq<Action>, rest: seq<Action>, b: nat)
    requires b < |Run(sem, schedule).blocks| && Run(sem, schedule).blocks[b].closed
    ensures ClosedAt(Run(sem, schedule + rest), b, Run(sem, schedule).blocks[b].closedAt)
  {
    RunOk(sem, schedule);
    assert BlockInv(Run(sem, schedule).blocks[b]);
    if |rest| == 0 {
      assert schedule + rest == schedule;
    } else {
      var q := rest[..|rest| - 1];
      ClosedForever(sem, schedule, q, b);
      var all := schedule + rest;
      assert all[..|all| - 1] == schedule + q;
      var s, a := Run(sem, schedule + q), all[|all| - 1];
      RunOk(sem, schedule + q);
      ExecForward(s, a);
      assert Forward(s.blocks[b], Exec(s, a).blocks[b], a.tid);
      RunOk(sem, all);
      assert BlockInv(Run(sem, all).blocks[b]);
    }
  }

  // ----- order

  /**
   * If the push of `a` had returned when the push of `k` began, then once the pop ticket of
   * `k` is drawn the pop ticket of `a` has been drawn too.
   */
  lemma FirstInFirstOut(sem: bool, schedule: seq<Action>, k: Key, a: Key)
    requires var s := Run(sem, schedule); k in s.preceding && a in s.preceding[k]
    ensures var s := Run(sem, schedule);
            && Placed(s, a) && Placed(s, k)
            && (k.tkt < s.blocks[k.blk].head ==> a.tkt < s.blocks[a.blk].head)
  {
    RunOk(sem, schedule);
    var s := Run(sem, schedule);
    assert AfterEarlier(s, k);
    assert BlockInv(s.blocks[a.blk]);
    if k.tkt < s.blocks[k.blk].head && a.blk < k.blk { assert s.blocks[a.blk].Drained(); }
  }

  /** Every stored value has its record of earlier pushes. */
  lemma OrderIsRecorded(sem: bool, schedule: seq<Action>, k: Key)
    requires Placed(Run(sem, schedule), k)
    ensures k in Run(sem, schedule).preceding
  {
    RunOk(sem, schedule);
  }

  // ----- emptiness

  lemma EmptyAt(s: State, tid: Tid)
    requires Inv(s) && tid in s.threads
    ensures var th := s.threads[tid];
            && (th.PopRet? && th.val == 0 ==> th.empty && !s.sem)
            && (th.EmptyRet? && th.answer ==> th.empty)
  {
    assert Local(s, tid, s.threads[tid]);
  }

  /** The thread carries the record that it saw all values claimed. */
  predicate Flagged(th: Thread) {
    (th.InPop? || th.PopNext? || th.PopRet? || th.EmptyRet?) && th.empty
  }

  lemma PopFlagIsWitnessed(s: State, tid: Tid, th: Thread, s': State)
    requires th.InPop? && HasBlock(s, th.qb) && !th.pop.Got? && !th.pop.Null?
    requires s' == StepInPop(s, tid, th) && Flagged(s'.threads[tid])
    ensures AllClaimed(s) || Flagged(th)
  {
  }

  lemma PopListFlagIsOld(s: State, tid: Tid, th: Thread, s': State)
    requires th.PopLoad? || th.PopCheck? || th.PopNext? || th.PopSwing?
    requires s' == StepPop(s, tid, th) && Flagged(s'.threads[tid])
    ensures Flagged(th)
  {
  }

  lemma EmptyFlagIsWitnessed(s: State, tid: Tid, th: Thread, s': State)
    requires th.EmptyLoad? || th.EmptyCheck? || th.EmptyHead? || th.EmptyTail? || th.EmptyNext? || th.EmptySwing?
    requires th.EmptyHead? || th.EmptyTail? ==> HasBlock(s, th.qb)
    requires s' == StepEmpty(s, tid, th) && Flagged(s'.threads[tid])
    ensures AllClaimed(s) || Flagged(th)
  {
  }

  lemma SemSetsNoFlag(s: State, tid: Tid, th: Thread, s': State)
    requires (th.SemRead? || th.SemTake? || th.SemUndo?) && s' == StepSem(s, tid, th)
    ensures !Flagged(s'.threads[tid])
  {
  }

  lemma InPushSetsNoFlag(s: State, tid: Tid, th: Thread, s': State)
    requires th.InPush? && HasBlock(s, th.qb) && !th.push.Stored? && !th.push.Refused?
    requires s' == StepInPush(s, tid, th)
    ensures !Flagged(s'.threads[tid])
  {
  }

  lemma PushSetsNoFlag(s: State, tid: Tid, th: Thread, s': State)
    requires th.PushLoad? || th.PushCheck? || th.PushNext? || th.PushHelp? || th.PushAlloc? || th.PushPost?
    requires s' == StepPush(s, tid, th)
    ensures !Flagged(s'.threads[tid])
  {
  }

  /** Pushing and waiting for a permit never set the record. */
  lemma OtherSetsNoFlag(s: State, tid: Tid, s': State)
    requires CanStep(s, tid) && s' == Step(s, tid)
    requires var th := Was(s.threads, tid);
             OnPushSide(th) || th.SemRead? || th.SemTake? || th.SemUndo?
    ensures !Flagged(s'.threads[tid])
  {
    var th := s.threads[tid];
    if th.InPush? { InPushSetsNoFlag(s, tid, th, s'); }
    else if th.SemRead? || th.SemTake? || th.SemUndo? { SemSetsNoFlag(s, tid, th, s'); }
    else if !th.PushLink? && !th.PushSwing? { PushSetsNoFlag(s, tid, th, s'); }
  }

  /** The record behind `EmptyMeansClaimed`: the step that sets it saw all values claimed. */
  lemma FlagIsWitnessed(s: State, tid: Tid, s': State)
    requires CanStep(s, tid) && s' == Step(s, tid) && Flagged(s'.threads[tid])
    ensures AllClaimed(s) || Flagged(s.threads[tid])
  {
    var th := s.threads[tid];
    if th.InPop? { PopFlagIsWitnessed(s, tid, th, s'); }
    else if OnPopSide(th) { PopListFlagIsOld(s, tid, th, s'); }
    else if OnPushSide(th) || th.SemRead? || th.SemTake? || th.SemUndo? { OtherSetsNoFlag(s, tid, s'); }
    else { EmptyFlagIsWitnessed(s, tid, th, s'); }
  }

  type Runs = seq<Action> -> State

  ghost function RunsOf(sem: bool): Runs {
    schedule => Run(sem, schedule)
  }

  /** No call of thread `tid` begins with action j. */
  predicate NoBegin(run: Runs, schedule: seq<Action>, tid: Tid, j: nat)
    requires j < |schedule|
  {
    schedule[j].Enter? && schedule[j].tid == tid ==> run(schedule[..j + 1]) == run(schedule[..j])
  }

  /** After k actions every value had its consumer, and thread `tid` was in the call it is in, or last was in, at the end. */
  predicate ClaimedDuring(run: Runs, schedule: seq<Action>, tid: Tid, k: nat) {
    && k < |schedule| && AllClaimed(run(schedule[..k]))
    && tid in run(schedule[..k]).threads && !Resting(run(schedule[..k]).threads[tid])
    && forall j :: k <= j < |schedule| ==> NoBegin(run, schedule, tid, j)
  }

  lemma DuringGrows(run: Runs, schedule: seq<Action>, tid: Tid, k: nat, p: seq<Action>)
    requires |schedule| > 0 && p == schedule[..|schedule| - 1] && ClaimedDuring(run, p, tid, k)
    requires var a := schedule[|schedule| - 1]; a.Enter? && a.tid == tid ==> run(schedule) == run(p)
    ensures ClaimedDuring(run, schedule, tid, k)
  {
    var n := |p|;
    assert p[..k] == schedule[..k];
    forall j | k <= j < n + 1 ensures NoBegin(run, schedule, tid, j) {
      if j < n {
        assert NoBegin(run, p, tid, j);
        assert p[..j] == schedule[..j] && p[..j + 1] == schedule[..j + 1] && p[j] == schedule[j];
      } else {
        assert schedule[..n + 1] == schedule;
      }
    }
  }

  /** A step that leaves thread `tid` alone, or a call that does not begin, leaves its flag alone. */
  lemma FlagComesFrom(s: State, a: Action, tid: Tid, s': State)
    requires Inv(s) && s' == Exec(s, a) && tid in s'.threads && Flagged(s'.threads[tid])
    ensures tid in s.threads
    ensures Flagged(s.threads[tid]) || (a == Move(tid) && CanStep(s, tid) && AllClaimed(s))
    ensures a.Enter? && a.tid == tid ==> s' == s
  {
    if a == Move(tid) && CanStep(s, tid) { FlagIsWitnessed(s, tid, s'); }
  }

  lemma {:induction false} FlagHasMoment(sem: bool, schedule: seq<Action>, tid: Tid)
    requires tid in Run(sem, schedule).threads && Flagged(Run(sem, schedule).threads[tid])
    ensures exists k: nat :: ClaimedDuring(RunsOf(sem), schedule, tid, k)
  {
    var p := schedule[..|schedule| - 1];
    RunOk(sem, p);
    FlagComesFrom(Run(sem, p), schedule[|schedule| - 1], tid, Run(sem, schedule));
    if Flagged(Run(sem, p).threads[tid]) {
      FlagHasMoment(sem, p, tid);
      var k: nat :| ClaimedDuring(RunsOf(sem), p, tid, k);
      DuringGrows(RunsOf(sem), schedule, tid, k, p);
    } else {
      ClaimedLast(sem, schedule, tid, p, Run(sem, p));
    }
  }

  lemma ClaimedLast(sem: bool, schedule: seq<Action>, tid: Tid, p: seq<Action>, s: State)
    requires |schedule| > 0 && p == schedule[..|schedule| - 1] && schedule[|schedule| - 1] == Move(tid)
    requires s == Run(sem, p) && CanStep(s, tid) && AllClaimed(s)
    ensures ClaimedDuring(RunsOf(sem), schedule, tid, |schedule| - 1)
  {
  }

  /**
   * mpq_pop without a semaphore returns null, and mpq_is_empty answers 1, only if at some moment
   * during the call every value in the queue already had its consumer. With a semaphore mpq_pop
   * never returns null.
   */
  lemma EmptyMeansClaimed(sem: bool, schedule: seq<Action>, tid: Tid)
    requires tid in Run(sem, schedule).threads
    ensures var th := Run(sem, schedule).threads[tid];
            (th.PopRet? && th.val == 0) || (th.EmptyRet? && th.answer) ==>
              (th.PopRet? ==> !sem) && exists k: nat :: ClaimedDuring(RunsOf(sem), schedule, tid, k)
  {
    RunOk(sem, schedule);
    EmptyAt(Run(sem, schedule), tid);
    var th := Run(sem, schedule).threads[tid];
    if (th.PopRet? && th.val == 0) || (th.EmptyRet? && th.answer) { FlagHasMoment(sem, schedule, tid); }
  }
}
