/** The order of pushes and the counting laws are kept by every step. */
module MpqListCounts {
  import opened MpqBlock
  import opened MpqList
  import opened MpqListInv
  import opened MpqListSteps

  // ----- order

  /** Stored values stay stored. */
  predicate StaysPlaced(s: State, s': State) {
    && |s.blocks| <= |s'.blocks| && s.mqTail <= s'.mqTail
    && (forall b, t :: 0 <= b < |s.blocks| && t in s.blocks[b].placed ==> t in s'.blocks[b].placed)
  }

  lemma ForwardStaysPlaced(s: State, s': State, tid: Tid)
    requires BlocksForward(s, s', tid)
    ensures StaysPlaced(s, s')
  {
    forall b, t | 0 <= b < |s.blocks| && t in s.blocks[b].placed ensures t in s'.blocks[b].placed {
      assert Forward(s.blocks[b], s'.blocks[b], tid);
    }
  }

  lemma EarlierStable(s: State, s': State, k: Key)
    requires StaysPlaced(s, s') && k in s.preceding && k in s'.preceding && s'.preceding[k] == s.preceding[k]
    requires AfterEarlier(s, k)
    ensures AfterEarlier(s', k)
  {
    forall a | a in s'.preceding[k] ensures Placed(s', a) && Older(a, k) {
      assert Placed(s, a);
    }
  }

  /** No block stores a new value. */
  predicate NoneStored(s: State, s': State) {
    && |s'.blocks| == |s.blocks| && s.mqTail <= s'.mqTail
    && (forall b :: 0 <= b < |s.blocks| ==> s'.blocks[b].placed == s.blocks[b].placed)
    && s'.preceding == s.preceding && s'.returned == s.returned
  }

  lemma OrderKept(s: State, s': State)
    requires Order(s) && NoneStored(s, s')
    ensures Order(s')
  {
    forall k | k in s'.preceding ensures Placed(s', k) && AfterEarlier(s', k) {
      assert Placed(s, k);
      EarlierStable(s, s', k);
    }
    forall k | k in s'.returned ensures Placed(s', k) && k.blk <= s'.mqTail {
      assert Placed(s, k);
    }
  }

  /** Exactly the value of ticket `k` was added. */
  predicate OneStored(s: State, s': State, k: Key, before: set<Key>) {
    && Placed(s', k) && !Placed(s, k)
    && (forall b, t :: 0 <= b < |s'.blocks| && t in s'.blocks[b].placed ==>
          Key(b, t) == k || (b < |s.blocks| && t in s.blocks[b].placed))
    && s'.preceding == s.preceding[k := before]
  }

  lemma OrderExtended(s: State, s': State, k: Key, before: set<Key>)
    requires Order(s) && StaysPlaced(s, s') && OneStored(s, s', k, before)
    requires forall a :: a in before ==> Placed(s, a) && Older(a, k)
    requires forall r :: r in s'.returned ==> r in s.returned || (Placed(s', r) && r.blk <= s'.mqTail)
    ensures Order(s')
  {
    forall q | q in s'.preceding ensures Placed(s', q) && AfterEarlier(s', q) {
      if q != k {
        assert Placed(s, q);
        EarlierStable(s, s', q);
      }
    }
    forall r | r in s'.returned ensures Placed(s', r) && r.blk <= s'.mqTail {
      if r in s.returned { assert Placed(s, r); }
    }
  }

  lemma OrderReturned(s: State, s': State, k: Key)
    requires Order(s) && s'.blocks == s.blocks && s'.preceding == s.preceding && s'.returned == s.returned + {k}
    requires Placed(s, k) && k.blk <= s'.mqTail && s.mqTail <= s'.mqTail
    ensures Order(s')
  {
    forall q | q in s'.preceding ensures Placed(s', q) && AfterEarlier(s', q) {
      assert AfterEarlier(s, q);
    }
  }

  // ----- counting

  /** How far the counters moved is what the counted sets changed by. */
  predicate Balanced(s: State, s': State, th: Thread, th': Thread) {
    && s'.sem == s.sem
    && s'.semValue - s.semValue == (s'.posts - s.posts) - (s'.granted - s.granted) - Delta(th.SemUndo?, th'.SemUndo?)
    && s'.granted <= s'.posts
    && (s'.posts - s.posts) + Delta(Unposted(th), Unposted(th')) == PlacedCount(s'.blocks) - PlacedCount(s.blocks)
    && s'.granted - s.granted == TakenCount(s'.blocks) - TakenCount(s.blocks) + Delta(Holder(th), Holder(th'))
  }

  lemma CountsAfter(s: State, s': State, tid: Tid, th': Thread)
    requires Counts(s) && s'.threads == s.threads[tid := th'] && s'.sem == s.sem
    requires s.sem ==> Balanced(s, s', Was(s.threads, tid), th')
    ensures Counts(s')
  {
    CountHolders(s.threads, tid, th');
    CountUnposteds(s.threads, tid, th');
    CountOverdrawn(s.threads, tid, th');
  }

  // ----- a pop step

  lemma PopStores(b: Block, tid: Tid, at: PopAt)
    requires b.Shaped() && PopOk(b, tid, at) && !at.Got? && !at.Null?
    ensures var (b', at') := PopStep(b, tid, at);
            && b'.placed == b.placed
            && b'.taken == (if at'.Got? then b.taken + {at'.h} else b.taken)
            && (at'.Got? ==> at'.h !in b.taken && at'.val != 0)
  {
  }

  lemma PopKeepsOrder(s: State, s': State, tid: Tid, th: Thread)
    requires Order(s) && th.InPop? && HasBlock(s, th.qb) && !th.pop.Got? && !th.pop.Null?
    requires PopOk(s.blocks[th.qb], tid, th.pop) && s' == StepInPop(s, tid, th)
    ensures Order(s')
  {
    PopStores(s.blocks[th.qb], tid, th.pop);
    OrderKept(s, s');
  }

  /** The thread leaves the class of waiting consumers exactly when it takes a value. */
  lemma PopClass(qb: nat, second: bool, empty: bool, at: PopAt)
    requires at.Got? ==> at.val != 0
    ensures var th' := AfterPop(qb, second, empty, at);
            Holder(th') == !at.Got? && !Unposted(th') && !th'.SemUndo?
  {
  }

  lemma BlockCounts(s: State, s': State, tid: Tid, qb: nat, th': Thread)
    requires qb < |s.blocks| <= |s'.blocks| && s'.blocks == s.blocks[qb := s'.blocks[qb]]
    requires Counts(s) && s'.threads == s.threads[tid := th'] && !Was(s.threads, tid).SemUndo? && !th'.SemUndo?
    requires s'.sem == s.sem && s'.semValue == s.semValue && s'.posts == s.posts && s'.granted == s.granted
    requires |s'.blocks[qb].placed| - |s.blocks[qb].placed| == Delta(Unposted(Was(s.threads, tid)), Unposted(th'))
    requires |s.blocks[qb].taken| - |s'.blocks[qb].taken| == Delta(Holder(Was(s.threads, tid)), Holder(th'))
    ensures Counts(s')
  {
    CountReplaced(s.blocks, qb, s'.blocks[qb]);
    CountsAfter(s, s', tid, th');
  }

  lemma PopKeepsCounts(s: State, s': State, tid: Tid, th: Thread)
    requires Bounds(s) && Counts(s) && Local(s, tid, th) && th.InPop? && HasBlock(s, th.qb)
    requires tid in s.threads && s.threads[tid] == th && s' == StepInPop(s, tid, th)
    ensures Counts(s')
  {
    var (b', at') := PopStep(s.blocks[th.qb], tid, th.pop);
    var e := if at'.FixTail? && th.pop.ReadTail? then AllClaimed(s) else th.empty;
    PopStores(s.blocks[th.qb], tid, th.pop);
    PopClass(th.qb, th.second, e, at');
    BlockCounts(s, s', tid, th.qb, AfterPop(th.qb, th.second, e, at'));
  }

  // ----- a push step

  lemma PushStores(b: Block, tid: Tid, v: Value, at: PushAt)
    requires b.Shaped() && PushOk(b, tid, at) && !at.Stored? && !at.Refused?
    ensures var (b', at') := PushStep(b, tid, v, at);
            && b'.taken == b.taken
            && (if at'.Stored? then HoldsPush(at, at'.t) && at'.t !in b.placed && b'.placed == b.placed[at'.t := v]
                else b'.placed == b.placed)
  {
  }

  lemma StoreKeepsOrder(s: State, s': State, qb: nat, t: nat, before: set<Key>)
    requires Order(s) && StaysPlaced(s, s') && qb < |s.blocks| == |s'.blocks| && qb <= s.mqTail
    requires s'.blocks == s.blocks[qb := s'.blocks[qb]]
    requires t !in s.blocks[qb].placed && s'.blocks[qb].placed.Keys == s.blocks[qb].placed.Keys + {t}
    requires s'.preceding == s.preceding[Key(qb, t) := before] && s'.returned == s.returned + {Key(qb, t)}
    requires BeforeOk(s, before, qb) && forall a :: a in before ==> Older(a, Key(qb, t))
    ensures Order(s')
  {
    forall b, u | 0 <= b < |s'.blocks| && u in s'.blocks[b].placed
      ensures Key(b, u) == Key(qb, t) || (b < |s.blocks| && u in s.blocks[b].placed)
    {
      if b == qb { assert u in s'.blocks[qb].placed.Keys; }
    }
    assert t in s'.blocks[qb].placed.Keys;
    OrderExtended(s, s', Key(qb, t), before);
  }

  lemma StoredOrder(s: State, s': State, tid: Tid, th: Thread)
    requires Bounds(s) && Order(s) && Local(s, tid, th) && th.InPush? && HasBlock(s, th.qb)
    requires PushStep(s.blocks[th.qb], tid, th.val, th.push).1.Stored?
    requires s' == StepInPush(s, tid, th) && StaysPlaced(s, s')
    ensures Order(s')
  {
    PushStores(s.blocks[th.qb], tid, th.val, th.push);
    StoreKeepsOrder(s, s', th.qb, th.push.t, th.before);
  }

  lemma NotStored(s: State, s': State, tid: Tid, th: Thread)
    requires th.InPush? && HasBlock(s, th.qb) && !th.push.Stored? && !th.push.Refused?
    requires PushOk(s.blocks[th.qb], tid, th.push) && !PushStep(s.blocks[th.qb], tid, th.val, th.push).1.Stored?
    requires s' == StepInPush(s, tid, th)
    ensures NoneStored(s, s')
  {
    PushStores(s.blocks[th.qb], tid, th.val, th.push);
  }

  lemma NotStoredOrder(s: State, s': State, tid: Tid, th: Thread)
    requires Order(s) && th.InPush? && HasBlock(s, th.qb) && !th.push.Stored? && !th.push.Refused?
    requires PushOk(s.blocks[th.qb], tid, th.push) && !PushStep(s.blocks[th.qb], tid, th.val, th.push).1.Stored?
    requires s' == StepInPush(s, tid, th)
    ensures Order(s')
  {
    NotStored(s, s', tid, th);
    OrderKept(s, s');
  }

  lemma PushKeepsOrder(s: State, s': State, tid: Tid, th: Thread)
    requires Bounds(s) && Order(s) && Local(s, tid, th) && th.InPush? && HasBlock(s, th.qb)
    requires s' == StepInPush(s, tid, th) && StaysPlaced(s, s')
    ensures Order(s')
  {
    if PushStep(s.blocks[th.qb], tid, th.val, th.push).1.Stored? {
      StoredOrder(s, s', tid, th);
    } else {
      NotStoredOrder(s, s', tid, th);
    }
  }

  lemma PushKeepsCounts(s: State, s': State, tid: Tid, th: Thread)
    requires Bounds(s) && Counts(s) && Local(s, tid, th) && th.InPush? && HasBlock(s, th.qb)
    requires tid in s.threads && s.threads[tid] == th && s' == StepInPush(s, tid, th)
    ensures Counts(s')
  {
    if s.sem {
      var (b', at') := PushStep(s.blocks[th.qb], tid, th.val, th.push);
      PushStores(s.blocks[th.qb], tid, th.val, th.push);
      BlockCounts(s, s', tid, th.qb, s'.threads[tid]);
    }
  }

  // ----- linking a block, and the rest

  lemma LinkStoresOne(s: State, s': State, tid: Tid, th: Thread)
    requires Bounds(s) && th.PushLink? && th.val != 0 && th.qb + 1 == |s.blocks| && s' == StepLink(s, tid, th)
    ensures OneStored(s, s', Key(th.qb + 1, 0), th.before) && s'.returned == s.returned && s'.mqTail == s.mqTail
  {
  }

  lemma LinkKeepsOrder(s: State, s': State, tid: Tid, th: Thread)
    requires Bounds(s) && Order(s) && Local(s, tid, th) && th.PushLink?
    requires s' == StepLink(s, tid, th) && StaysPlaced(s, s')
    ensures Order(s')
  {
    if th.qb + 1 < |s.blocks| {
      OrderKept(s, s');
    } else {
      LinkStoresOne(s, s', tid, th);
      OrderExtended(s, s', Key(th.qb + 1, 0), th.before);
    }
  }

  lemma LinkKeepsCounts(s: State, s': State, tid: Tid, th: Thread)
    requires Bounds(s) && Counts(s) && Local(s, tid, th) && th.PushLink?
    requires tid in s.threads && s.threads[tid] == th && s' == StepLink(s, tid, th)
    ensures Counts(s')
  {
    if th.qb + 1 < |s.blocks| {
      CountsAfter(s, s', tid, s'.threads[tid]);
    } else {
      LinkedBlock(s, s', tid, th);
      CountsAfter(s, s', tid, s'.threads[tid]);
    }
  }

  lemma LinkedBlock(s: State, s': State, tid: Tid, th: Thread)
    requires Bounds(s) && tid in s.threads && Local(s, tid, th) && th.PushLink? && th.qb + 1 == |s.blocks|
    requires s' == StepLink(s, tid, th)
    ensures PlacedCount(s'.blocks) == PlacedCount(s.blocks) + 1 && TakenCount(s'.blocks) == TakenCount(s.blocks)
  {
    assert s'.blocks[..|s.blocks|] == s.blocks;
  }

  lemma SemKeepsCounts(s: State, s': State, tid: Tid, th: Thread)
    requires Counts(s) && (th.SemRead? || th.SemTake? || th.SemUndo?)
    requires tid in s.threads && s.threads[tid] == th && s' == StepSem(s, tid, th)
    ensures Counts(s')
  {
    CountsAfter(s, s', tid, s'.threads[tid]);
  }

  lemma PopListKeepsCounts(s: State, s': State, tid: Tid, th: Thread)
    requires Counts(s) && (th.PopLoad? || th.PopCheck? || th.PopNext? || th.PopSwing?)
    requires tid in s.threads && s.threads[tid] == th && s' == StepPop(s, tid, th)
    ensures Counts(s')
  {
    CountsAfter(s, s', tid, s'.threads[tid]);
  }

  lemma PushListKeepsCounts(s: State, s': State, tid: Tid, th: Thread)
    requires Counts(s)
    requires th.PushLoad? || th.PushCheck? || th.PushNext? || th.PushHelp? || th.PushAlloc? || th.PushPost?
    requires tid in s.threads && s.threads[tid] == th && s' == StepPush(s, tid, th)
    ensures Counts(s')
  {
    CountsAfter(s, s', tid, s'.threads[tid]);
  }

  lemma SwingKeepsCounts(s: State, s': State, tid: Tid, th: Thread)
    requires Counts(s) && th.PushSwing?
    requires tid in s.threads && s.threads[tid] == th && s' == StepSwing(s, tid, th)
    ensures Counts(s')
  {
    CountsAfter(s, s', tid, s'.threads[tid]);
  }

  lemma EmptyKeepsCounts(s: State, s': State, tid: Tid, th: Thread)
    requires Counts(s) && CanStep(s, tid)
    requires th.EmptyLoad? || th.EmptyCheck? || th.EmptyHead? || th.EmptyTail? || th.EmptyNext? || th.EmptySwing?
    requires tid in s.threads && s.threads[tid] == th && s' == StepEmpty(s, tid, th)
    ensures Counts(s')
  {
    EmptyUncounted(s, tid, th);
    if s.sem { NothingCounted(s, s', th, s'.threads[tid]); }
    CountsAfter(s, s', tid, s'.threads[tid]);
  }

  predicate Counted(th: Thread) {
    Unposted(th) || Holder(th) || th.SemUndo?
  }

  lemma EmptyUncounted(s: State, tid: Tid, th: Thread)
    requires th.EmptyLoad? || th.EmptyCheck? || th.EmptyHead? || th.EmptyTail? || th.EmptyNext? || th.EmptySwing?
    requires th.EmptyHead? || th.EmptyTail? ==> HasBlock(s, th.qb)
    ensures !Counted(th) && !Counted(StepEmpty(s, tid, th).threads[tid])
  {
  }

  /** A step that neither stores nor takes, nor touches the semaphore. */
  lemma NothingCounted(s: State, s': State, th: Thread, th': Thread)
    requires s' == s.(mqHead := s'.mqHead, threads := s'.threads) && s.granted <= s.posts && !Counted(th) && !Counted(th')
    ensures Balanced(s, s', th, th')
  {
  }

  lemma SemStoresNothing(s: State, s': State, tid: Tid, th: Thread)
    requires (th.SemRead? || th.SemTake? || th.SemUndo?) && s' == StepSem(s, tid, th)
    ensures NoneStored(s, s')
  {
  }

  lemma PopListStoresNothing(s: State, s': State, tid: Tid, th: Thread)
    requires (th.PopLoad? || th.PopCheck? || th.PopNext? || th.PopSwing?) && s' == StepPop(s, tid, th)
    ensures NoneStored(s, s')
  {
  }

  lemma PushListStoresNothing(s: State, s': State, tid: Tid, th: Thread)
    requires th.PushLoad? || th.PushCheck? || th.PushNext? || th.PushHelp? || th.PushAlloc? || th.PushPost?
    requires s' == StepPush(s, tid, th)
    ensures NoneStored(s, s')
  {
  }

  lemma EmptyStoresNothing(s: State, s': State, tid: Tid, th: Thread)
    requires th.EmptyLoad? || th.EmptyCheck? || th.EmptyHead? || th.EmptyTail? || th.EmptyNext? || th.EmptySwing?
    requires th.EmptyHead? || th.EmptyTail? ==> HasBlock(s, th.qb)
    requires s' == StepEmpty(s, tid, th)
    ensures NoneStored(s, s')
  {
  }

  /** Every step outside the block operations, the link and the last swing stores nothing. */
  lemma OtherStoresNothing(s: State, tid: Tid, s': State)
    requires CanStep(s, tid) && s' == Step(s, tid)
    requires var th := Was(s.threads, tid); !th.InPop? && !th.InPush? && !th.PushLink? && !th.PushSwing?
    ensures NoneStored(s, s')
  {
    var th := s.threads[tid];
    if th.SemRead? || th.SemTake? || th.SemUndo? { SemStoresNothing(s, s', tid, th); }
    else if OnPopSide(th) { PopListStoresNothing(s, s', tid, th); }
    else if OnPushSide(th) { PushListStoresNothing(s, s', tid, th); }
    else { EmptyStoresNothing(s, s', tid, th); }
  }

  lemma SwingKeepsOrder(s: State, s': State, tid: Tid, th: Thread)
    requires Bounds(s) && Order(s) && Local(s, tid, th) && th.PushSwing? && s' == StepSwing(s, tid, th)
    ensures Order(s')
  {
    OrderReturned(s, s', th.key);
  }

  lemma BlockStepOrder(s: State, tid: Tid, s': State)
    requires Bounds(s) && Order(s) && CanStep(s, tid) && Local(s, tid, s.threads[tid])
    requires Was(s.threads, tid).InPop? || Was(s.threads, tid).InPush?
    requires s' == Step(s, tid) && StaysPlaced(s, s')
    ensures Order(s')
  {
    var th := s.threads[tid];
    if th.InPop? { PopKeepsOrder(s, s', tid, th); } else { PushKeepsOrder(s, s', tid, th); }
  }

  lemma LinkStepOrder(s: State, tid: Tid, s': State)
    requires Bounds(s) && Order(s) && CanStep(s, tid) && Local(s, tid, s.threads[tid])
    requires Was(s.threads, tid).PushLink? || Was(s.threads, tid).PushSwing?
    requires s' == Step(s, tid) && StaysPlaced(s, s')
    ensures Order(s')
  {
    var th := s.threads[tid];
    if th.PushLink? { LinkKeepsOrder(s, s', tid, th); } else { SwingKeepsOrder(s, s', tid, th); }
  }

  lemma StepOrder(s: State, tid: Tid, s': State)
    requires Bounds(s) && Order(s) && CanStep(s, tid) && Local(s, tid, s.threads[tid])
    requires s' == Step(s, tid) && BlocksForward(s, s', tid)
    ensures Order(s')
  {
    var th := s.threads[tid];
    ForwardStaysPlaced(s, s', tid);
    if th.InPop? || th.InPush? { BlockStepOrder(s, tid, s'); }
    else if th.PushLink? || th.PushSwing? { LinkStepOrder(s, tid, s'); }
    else { OtherStoresNothing(s, tid, s'); OrderKept(s, s'); }
  }

  lemma StepCounts(s: State, tid: Tid)
    requires Bounds(s) && Counts(s) && CanStep(s, tid) && Local(s, tid, s.threads[tid])
    ensures Counts(Step(s, tid))
  {
    var th, s' := s.threads[tid], Step(s, tid);
    if th.InPop? { PopKeepsCounts(s, s', tid, th); }
    else if th.InPush? { PushKeepsCounts(s, s', tid, th); }
    else if th.PushLink? { LinkKeepsCounts(s, s', tid, th); }
    else if th.PushSwing? { SwingKeepsCounts(s, s', tid, th); }
    else if th.SemRead? || th.SemTake? || th.SemUndo? { SemKeepsCounts(s, s', tid, th); }
    else if OnPopSide(th) { PopListKeepsCounts(s, s', tid, th); }
    else if OnPushSide(th) { PushListKeepsCounts(s, s', tid, th); }
    else { EmptyKeepsCounts(s, s', tid, th); }
  }
}
