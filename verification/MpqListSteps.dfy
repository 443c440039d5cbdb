/** Every step of every thread keeps the invariant of the queue, one part of it at a time. */
module MpqListSteps {
  import opened MpqBlock
  import opened MpqList
  import opened MpqListInv
  import opened MpqListEmpty

  // ----- the list of blocks

  lemma BlockReplaced(s: State, qb: nat, b': Block, tid: Tid)
    requires ListInv(s) && qb < |s.blocks| && BlockInv(b') && Forward(s.blocks[qb], b', tid)
    requires qb <= s.mqHead || b'.head == 0
    ensures ListInv(PutBlock(s, qb, b')) && BlocksForward(s, PutBlock(s, qb, b'), tid)
  {
    forall b | 0 <= b < |s.blocks| ensures Forward(s.blocks[b], PutBlock(s, qb, b').blocks[b], tid) {
      if b != qb {
        assert BlockInv(s.blocks[b]);
        StillOk(s.blocks[b], tid);
      }
    }
  }

  lemma PopBlock(s: State, tid: Tid, th: Thread)
    requires ListInv(s) && Local(s, tid, th) && th.InPop?
    ensures HasBlock(s, th.qb)
    ensures PopDone(s.blocks[th.qb], tid, PopStep(s.blocks[th.qb], tid, th.pop))
    ensures var s1 := PutBlock(s, th.qb, PopStep(s.blocks[th.qb], tid, th.pop).0); ListInv(s1) && BlocksForward(s, s1, tid)
  {
    assert BlockInv(s.blocks[th.qb]);
    PopStepOk(s.blocks[th.qb], tid, th.pop);
    BlockReplaced(s, th.qb, PopStep(s.blocks[th.qb], tid, th.pop).0, tid);
  }

  lemma PushHeadSame(b: Block, tid: Tid, v: Value, at: PushAt)
    requires b.Shaped() && !at.Stored? && !at.Refused?
    ensures PushStep(b, tid, v, at).0.head == b.head
  {
  }

  lemma PushBlock(s: State, tid: Tid, th: Thread)
    requires ListInv(s) && Local(s, tid, th) && th.InPush?
    ensures HasBlock(s, th.qb)
    ensures PushDone(s.blocks[th.qb], tid, PushStep(s.blocks[th.qb], tid, th.val, th.push))
    ensures var s1 := PutBlock(s, th.qb, PushStep(s.blocks[th.qb], tid, th.val, th.push).0);
            ListInv(s1) && BlocksForward(s, s1, tid)
  {
    assert BlockInv(s.blocks[th.qb]);
    PushStepOk(s.blocks[th.qb], tid, th.val, th.push);
    PushHeadSame(s.blocks[th.qb], tid, th.val, th.push);
    BlockReplaced(s, th.qb, PushStep(s.blocks[th.qb], tid, th.val, th.push).0, tid);
  }

  /** The list part of two states is the same. */
  predicate SameList(s: State, s': State) {
    s'.blocks == s.blocks && s'.mqHead == s.mqHead && s'.mqTail == s.mqTail && s'.sem == s.sem
  }

  lemma ListSame(s: State, s': State)
    requires ListInv(s) && SameList(s, s')
    ensures ListInv(s')
  {
  }

  lemma ForwardSame(s: State, s1: State, s': State, tid: Tid)
    requires BlocksForward(s, s1, tid) && SameList(s1, s')
    ensures BlocksForward(s, s', tid)
  {
  }

  lemma StillForward(s: State, s': State, tid: Tid)
    requires ListInv(s) && s'.blocks == s.blocks && s'.sem == s.sem && s.mqHead <= s'.mqHead && s.mqTail <= s'.mqTail
    ensures BlocksForward(s, s', tid)
  {
    forall b | 0 <= b < |s.blocks| ensures Forward(s.blocks[b], s'.blocks[b], tid) {
      assert BlockInv(s.blocks[b]);
      StillOk(s.blocks[b], tid);
    }
  }

  lemma Linked(s: State, b': Block, tid: Tid)
    requires ListInv(s) && s.blocks[|s.blocks| - 1].closed && BlockInv(b') && b'.head == 0
    ensures var s' := s.(blocks := s.blocks + [b']); ListInv(s') && BlocksForward(s, s', tid)
  {
    StillForward(s, s, tid);
  }

  lemma SwingHeadList(s: State, qb: nat, tid: Tid)
    requires ListInv(s) && qb <= s.mqHead && qb + 1 < |s.blocks| && s.blocks[qb].Drained()
    ensures ListInv(SwingHead(s, qb)) && BlocksForward(s, SwingHead(s, qb), tid)
  {
    StillForward(s, SwingHead(s, qb), tid);
  }

  lemma SwingTailList(s: State, qb: nat, tid: Tid)
    requires ListInv(s) && qb + 1 < |s.blocks|
    ensures ListInv(SwingTail(s, qb)) && BlocksForward(s, SwingTail(s, qb), tid)
  {
    StillForward(s, SwingTail(s, qb), tid);
  }

  /** The list as thread `th` leaves it. */
  function ListAfter(s: State, tid: Tid, th: Thread): State
    requires th.InPop? ==> HasBlock(s, th.qb) && !th.pop.Got? && !th.pop.Null?
    requires th.InPush? ==> HasBlock(s, th.qb) && !th.push.Stored? && !th.push.Refused?
  {
    if th.InPop? then PutBlock(s, th.qb, PopStep(s.blocks[th.qb], tid, th.pop).0)
    else if th.InPush? then PutBlock(s, th.qb, PushStep(s.blocks[th.qb], tid, th.val, th.push).0)
    else if th.PopSwing? || th.EmptySwing? then SwingHead(s, th.qb)
    else if th.PushHelp? || th.PushSwing? then SwingTail(s, th.qb)
    else if th.PushLink? && th.qb + 1 >= |s.blocks| then
      s.(blocks := s.blocks + [AllocBlock(th.val, if th.small then SMALL_BLOCK_SIZE else BLOCK_SIZE, tid)])
    else s
  }

  predicate Pushes(th: Thread) {
    th.PushLink? || th.PushSwing? || th.PushLoad? || th.PushCheck? || th.PushNext? || th.PushHelp? || th.PushAlloc? || th.PushPost?
  }

  lemma StepIsListAfter(s: State, tid: Tid)
    requires CanStep(s, tid)
    ensures SameList(ListAfter(s, tid, s.threads[tid]), Step(s, tid))
  {
    var th := s.threads[tid];
    if th.InPop? || th.InPush? {
      InBlockListAfter(s, tid);
    } else if Pushes(th) {
      PushListAfter(s, tid);
    } else {
      OtherListAfter(s, tid);
    }
  }

  lemma InBlockListAfter(s: State, tid: Tid)
    requires CanStep(s, tid) && (s.threads[tid].InPop? || s.threads[tid].InPush?)
    ensures SameList(ListAfter(s, tid, s.threads[tid]), Step(s, tid))
  {
  }

  lemma PushListAfter(s: State, tid: Tid)
    requires CanStep(s, tid) && Pushes(s.threads[tid])
    ensures SameList(ListAfter(s, tid, s.threads[tid]), Step(s, tid))
  {
  }

  lemma OtherListAfter(s: State, tid: Tid)
    requires CanStep(s, tid) && !Pushes(s.threads[tid]) && !s.threads[tid].InPop? && !s.threads[tid].InPush?
    ensures SameList(ListAfter(s, tid, s.threads[tid]), Step(s, tid))
  {
  }

  lemma ListAfterOk(s: State, tid: Tid, th: Thread)
    requires ListInv(s) && Local(s, tid, th)
    ensures th.InPop? || th.InPush? ==> HasBlock(s, th.qb)
    ensures ListInv(ListAfter(s, tid, th)) && BlocksForward(s, ListAfter(s, tid, th), tid)
  {
    if th.InPop? {
      PopBlock(s, tid, th);
    } else if th.InPush? {
      PushBlock(s, tid, th);
    } else if th.PopSwing? || th.EmptySwing? {
      SwingHeadList(s, th.qb, tid);
    } else if th.PushHelp? || th.PushSwing? {
      SwingTailList(s, th.qb, tid);
    } else if th.PushLink? && th.qb + 1 >= |s.blocks| {
      var size := if th.small then SMALL_BLOCK_SIZE else BLOCK_SIZE;
      AllocOk(th.val, size, tid);
      Linked(s, AllocBlock(th.val, size, tid), tid);
    } else {
      StillForward(s, s, tid);
    }
  }

  lemma StepList(s: State, tid: Tid)
    requires ListInv(s) && CanStep(s, tid) && Local(s, tid, s.threads[tid])
    ensures ListInv(Step(s, tid)) && BlocksForward(s, Step(s, tid), tid)
  {
    var s1 := ListAfter(s, tid, s.threads[tid]);
    ListAfterOk(s, tid, s.threads[tid]);
    StepIsListAfter(s, tid);
    ListSame(s1, Step(s, tid));
    ForwardSame(s, s1, Step(s, tid), tid);
  }

  // ----- the owners of open pop tickets

  /** After a pop step, an open ticket is the popper's own or was open before and is someone else's. */
  lemma OpenAfterPop(b: Block, tid: Tid, at: PopAt, h: nat)
    requires BlockInv(b) && PopOk(b, tid, at) && !at.Got? && !at.Null?
    requires OpenTicket(PopStep(b, tid, at).0, h)
    ensures var (b', at') := PopStep(b, tid, at);
            || (HoldsPop(at', h) && b'.popOwner[h] == tid)
            || (OpenTicket(b, h) && b'.popOwner[h] == b.popOwner[h] && !HoldsPop(at, h))
  {
  }

  lemma PopOwners(s: State, tid: Tid, th: Thread)
    requires ListInv(s) && Owners(s) && tid in s.threads && s.threads[tid] == th && th.InPop? && Local(s, tid, th)
    ensures HasBlock(s, th.qb) && Owners(StepInPop(s, tid, th))
  {
    var s' := StepInPop(s, tid, th);
    assert BlockInv(s.blocks[th.qb]);
    forall b, h | 0 <= b < |s'.blocks| && 0 <= h && OpenTicket(s'.blocks[b], h)
      ensures s'.blocks[b].popOwner[h] in s'.threads && Popping(s'.threads[s'.blocks[b].popOwner[h]], b, h)
    {
      if b == th.qb {
        OpenAfterPop(s.blocks[b], tid, th.pop, h);
      } else {
        assert OpenTicket(s.blocks[b], h);
      }
    }
  }

  /** Blocks with the same pop histories have the same open tickets. */
  predicate SamePops(b: Block, b': Block) {
    b'.popOwner == b.popOwner && b'.taken == b.taken && b'.skipped == b.skipped
  }

  lemma OtherOwners(s: State, s': State, tid: Tid, th': Thread)
    requires Owners(s) && tid in s.threads && !s.threads[tid].InPop? && s'.threads == s.threads[tid := th']
    requires |s.blocks| <= |s'.blocks|
    requires forall b :: 0 <= b < |s.blocks| ==> SamePops(s.blocks[b], s'.blocks[b])
    requires forall b :: |s.blocks| <= b < |s'.blocks| ==> s'.blocks[b].popOwner == []
    ensures Owners(s')
  {
    forall b, h | 0 <= b < |s'.blocks| && 0 <= h && OpenTicket(s'.blocks[b], h)
      ensures s'.blocks[b].popOwner[h] in s'.threads && Popping(s'.threads[s'.blocks[b].popOwner[h]], b, h)
    {
      assert SamePops(s.blocks[b], s'.blocks[b]);
      assert OpenTicket(s.blocks[b], h);
    }
  }

  lemma PushKeepsPops(b: Block, tid: Tid, v: Value, at: PushAt)
    requires b.Shaped() && !at.Stored? && !at.Refused?
    ensures SamePops(b, PushStep(b, tid, v, at).0)
  {
  }

  lemma ListAfterPops(s: State, tid: Tid, th: Thread)
    requires !th.InPop? && (th.InPush? ==> HasBlock(s, th.qb) && !th.push.Stored? && !th.push.Refused?)
    ensures var s' := ListAfter(s, tid, th);
            && |s.blocks| <= |s'.blocks|
            && (forall b :: 0 <= b < |s.blocks| ==> SamePops(s.blocks[b], s'.blocks[b]))
            && (forall b :: |s.blocks| <= b < |s'.blocks| ==> s'.blocks[b].popOwner == [])
  {
    if th.InPush? { PushKeepsPops(s.blocks[th.qb], tid, th.val, th.push); }
  }

  lemma StepOwners(s: State, tid: Tid)
    requires ListInv(s) && Owners(s) && CanStep(s, tid) && Local(s, tid, s.threads[tid])
    ensures Owners(Step(s, tid))
  {
    var th := s.threads[tid];
    if th.InPop? {
      PopOwners(s, tid, th);
    } else {
      ListAfterPops(s, tid, th);
      StepIsListAfter(s, tid);
      OtherOwners(s, Step(s, tid), tid, Step(s, tid).threads[tid]);
    }
  }

  // ----- the local variables of the thread that moves

  /** The tail read at the end of mpq_block_pop: what the popper may conclude from it. */
  lemma SeesEmpty(s: State, tid: Tid, th: Thread)
    requires ListInv(s) && Owners(s) && Counts(s) && tid in s.threads && s.threads[tid] == th && th.InPop?
    requires Local(s, tid, th) && th.pop.ReadTail? && s.blocks[th.qb].tail <= th.pop.h + 1
    ensures GaveUp(s, th.qb, th.second, AllClaimed(s))
  {
    assert BlockInv(s.blocks[th.qb]);
    if !th.second {
      if th.qb + 1 == |s.blocks| { LastBlockClaimed(s, th.qb); }
      if s.sem { PermitMeansValue(s, tid); }
    }
  }

  lemma GaveUpStable(s: State, s': State, tid: Tid, qb: nat, second: bool, empty: bool)
    requires BlocksForward(s, s', tid) && qb < |s.blocks| && GaveUp(s, qb, second, empty)
    ensures GaveUp(s', qb, second, empty)
  {
    assert Forward(s.blocks[qb], s'.blocks[qb], tid);
  }

  /** The `empty` flag after a pop step is right. */
  lemma PopFlag(s: State, tid: Tid, th: Thread)
    requires ListInv(s) && Owners(s) && Counts(s) && tid in s.threads && s.threads[tid] == th && th.InPop?
    requires Local(s, tid, th)
    ensures var at' := PopStep(s.blocks[th.qb], tid, th.pop).1;
            var e := if at'.FixTail? && th.pop.ReadTail? then AllClaimed(s) else th.empty;
            Fixing(at') || at'.Null? ==> GaveUp(s, th.qb, th.second, e)
  {
    if th.pop.ReadTail? && s.blocks[th.qb].tail <= th.pop.h + 1 { SeesEmpty(s, tid, th); }
  }

  lemma LocalAfterPop(s: State, s': State, tid: Tid, th: Thread)
    requires ListInv(s) && Owners(s) && Counts(s) && tid in s.threads && s.threads[tid] == th && th.InPop?
    requires Local(s, tid, th) && CanStep(s, tid)
    requires Bounds(s') && BlocksForward(s, s', tid)
    requires s' == StepInPop(s, tid, th)
    ensures Local(s', tid, s'.threads[tid])
  {
    var (b', at') := PopStep(s.blocks[th.qb], tid, th.pop);
    PopBlock(s, tid, th);
    PopFlag(s, tid, th);
    var e := if at'.FixTail? && th.pop.ReadTail? then AllClaimed(s) else th.empty;
    assert s'.threads[tid] == AfterPop(th.qb, th.second, e, at');
    assert s'.blocks[th.qb] == b';
    if Fixing(at') || at'.Null? { GaveUpStable(s, s', tid, th.qb, th.second, e); }
  }

  lemma TicketAfterBefore(s: State, before: set<Key>, qb: nat)
    requires ListInv(s) && qb < |s.blocks| && BeforeOk(s, before, qb)
    ensures forall a :: a in before ==> a.blk < qb || (a.blk == qb && a.tkt < s.blocks[qb].Limit())
  {
    forall a | a in before ensures a.blk < qb || (a.blk == qb && a.tkt < s.blocks[qb].Limit()) {
      assert Placed(s, a);
      assert BlockInv(s.blocks[a.blk]);
    }
  }

  lemma DrawnAfterBefore(s: State, tid: Tid, th: Thread)
    requires ListInv(s) && th.InPush? && Local(s, tid, th)
    ensures HasBlock(s, th.qb)
    ensures BeforeTicket(th.before, th.qb, PushStep(s.blocks[th.qb], tid, th.val, th.push).1)
  {
    assert BlockInv(s.blocks[th.qb]);
    if th.push.Draw? { TicketAfterBefore(s, th.before, th.qb); }
  }

  /** The facts about a push step that its local variables need. */
  lemma PushFacts(s: State, s': State, tid: Tid, th: Thread)
    requires ListInv(s) && th.InPush? && Local(s, tid, th) && HasBlock(s, th.qb)
    requires BlocksForward(s, s', tid) && s' == StepInPush(s, tid, th)
    ensures var (b', at') := PushStep(s.blocks[th.qb], tid, th.val, th.push);
            && s'.blocks[th.qb] == b' && PushOk(b', tid, at')
            && BeforeOk(s', th.before, th.qb) && BeforeTicket(th.before, th.qb, at')
  {
    PushBlock(s, tid, th);
    BeforeStable(s, s', tid, th.before, th.qb);
    DrawnAfterBefore(s, tid, th);
  }

  lemma LocalAfterStored(s: State, s': State, tid: Tid, th: Thread)
    requires Bounds(s') && th.InPush? && HasBlock(s, th.qb) && !th.push.Stored? && !th.push.Refused?
    requires s' == StepInPush(s, tid, th) && th.qb <= s.mqTail
    requires var (b', at') := PushStep(s.blocks[th.qb], tid, th.val, th.push); at'.Stored? && PushOk(b', tid, at')
    ensures Local(s', tid, s'.threads[tid])
  {
  }

  lemma LocalAfterPush(s: State, s': State, tid: Tid, th: Thread)
    requires ListInv(s) && th.InPush? && Local(s, tid, th) && HasBlock(s, th.qb)
    requires Bounds(s') && BlocksForward(s, s', tid)
    requires s' == StepInPush(s, tid, th)
    ensures Local(s', tid, s'.threads[tid])
  {
    PushFacts(s, s', tid, th);
    var (b', at') := PushStep(s.blocks[th.qb], tid, th.val, th.push);
    if at'.Stored? {
      LocalAfterStored(s, s', tid, th);
    } else if at'.Refused? {
      assert s'.threads[tid] == PushAlloc(th.val, th.before, th.qb);
    } else {
      assert s'.threads[tid] == InPush(th.val, th.before, th.qb, at');
    }
  }

  lemma LocalAfterPopList(s: State, s': State, tid: Tid, th: Thread)
    requires ListInv(s) && tid in s.threads && s.threads[tid] == th
    requires th.PopLoad? || th.PopCheck? || th.PopNext? || th.PopSwing?
    requires Local(s, tid, th) && Bounds(s')
    requires s' == StepPop(s, tid, th)
    ensures Local(s', tid, s'.threads[tid])
  {
  }

  lemma LocalAfterEmptyTail(s: State, s': State, tid: Tid, th: Thread)
    requires ListInv(s) && Bounds(s') && th.EmptyTail? && Local(s, tid, th) && HasBlock(s, th.qb)
    requires s' == StepEmpty(s, tid, th)
    ensures Local(s', tid, s'.threads[tid])
  {
    EmptyTailRight(s, th.qb, th.h);
  }

  lemma LocalAfterEmptyNext(s: State, s': State, tid: Tid, th: Thread)
    requires ListInv(s) && Bounds(s') && th.EmptyNext? && Local(s, tid, th)
    requires s' == StepEmpty(s, tid, th)
    ensures Local(s', tid, s'.threads[tid])
  {
    if th.qb + 1 == |s.blocks| { LastBlockClaimed(s, th.qb); }
  }

  lemma LocalAfterEmpty(s: State, s': State, tid: Tid, th: Thread)
    requires Bounds(s) && Bounds(s') && (th.EmptyLoad? || th.EmptyCheck? || th.EmptyHead? || th.EmptySwing?)
    requires Local(s, tid, th) && (th.EmptyHead? ==> HasBlock(s, th.qb))
    requires s' == StepEmpty(s, tid, th)
    ensures Local(s', tid, s'.threads[tid])
  {
  }

  /** What mpq_is_empty may conclude from its two reads. */
  lemma EmptyTailRight(s: State, qb: nat, h: nat)
    requires ListInv(s) && qb <= s.mqHead && h <= s.blocks[qb].head
    ensures !s.blocks[qb].closed && s.blocks[qb].tail <= h ==> AllClaimed(s)
    ensures s.blocks[qb].closed && s.blocks[qb].tail <= h ==> s.blocks[qb].Drained()
  {
    assert BlockInv(s.blocks[qb]);
    if !s.blocks[qb].closed && s.blocks[qb].tail <= h { LastBlockClaimed(s, qb); }
  }

  lemma LocalAfterSwing(s: State, s': State, tid: Tid, th: Thread)
    requires Bounds(s) && Local(s, tid, th) && th.PushSwing? && Bounds(s')
    requires s' == StepSwing(s, tid, th)
    ensures Local(s', tid, s'.threads[tid])
  {
  }

  lemma LocalAfterPost(s: State, s': State, tid: Tid, th: Thread)
    requires Bounds(s) && Local(s, tid, th) && th.PushPost? && Bounds(s')
    requires s' == StepPush(s, tid, th)
    ensures Local(s', tid, s'.threads[tid])
  {
  }

  lemma LocalAfterLink(s: State, s': State, tid: Tid, th: Thread)
    requires Bounds(s) && Local(s, tid, th) && th.PushLink?
    requires Bounds(s') && BlocksForward(s, s', tid)
    requires s' == StepLink(s, tid, th)
    ensures Local(s', tid, s'.threads[tid])
  {
    if th.qb + 1 < |s.blocks| { BeforeStable(s, s', tid, th.before, th.qb); }
  }

  lemma LocalAfterPushList(s: State, s': State, tid: Tid, th: Thread)
    requires ListInv(s) && tid in s.threads && s.threads[tid] == th && Local(s, tid, th)
    requires th.PushLoad? || th.PushCheck? || th.PushNext? || th.PushHelp? || th.PushAlloc?
    requires Bounds(s') && BlocksForward(s, s', tid)
    requires s' == StepPush(s, tid, th)
    ensures Local(s', tid, s'.threads[tid])
  {
    BeforeStable(s, s', tid, th.before, if th.PushLoad? then s.mqTail else th.qb);
  }

  predicate OnPopSide(th: Thread) {
    th.InPop? || th.PopLoad? || th.PopCheck? || th.PopNext? || th.PopSwing?
  }

  predicate OnPushSide(th: Thread) {
    th.InPush? || th.PushLoad? || th.PushCheck? || th.PushNext? || th.PushHelp? || th.PushAlloc? || th.PushLink?
    || th.PushSwing? || th.PushPost?
  }

  lemma StepLocalPop(s: State, tid: Tid)
    requires OnPopSide(Was(s.threads, tid))
    requires ListInv(s) && Owners(s) && Counts(s) && CanStep(s, tid) && Local(s, tid, s.threads[tid])
    requires Bounds(Step(s, tid)) && BlocksForward(s, Step(s, tid), tid)
    ensures Local(Step(s, tid), tid, Step(s, tid).threads[tid])
  {
    var th := s.threads[tid];
    if th.InPop? { LocalAfterPop(s, Step(s, tid), tid, th); } else { LocalAfterPopList(s, Step(s, tid), tid, th); }
  }

  lemma StepLocalStore(s: State, tid: Tid, s': State)
    requires Was(s.threads, tid).InPush? || Was(s.threads, tid).PushLink? || Was(s.threads, tid).PushSwing?
    requires ListInv(s) && Owners(s) && Counts(s) && CanStep(s, tid) && Local(s, tid, s.threads[tid])
    requires s' == Step(s, tid) && Bounds(s') && BlocksForward(s, s', tid)
    ensures tid in s'.threads && Local(s', tid, s'.threads[tid])
  {
    var th := s.threads[tid];
    if th.InPush? { LocalAfterPush(s, s', tid, th); }
    else if th.PushLink? { LocalAfterLink(s, s', tid, th); }
    else { LocalAfterSwing(s, s', tid, th); }
  }

  lemma StepLocalPush(s: State, tid: Tid, s': State)
    requires OnPushSide(Was(s.threads, tid))
    requires ListInv(s) && Owners(s) && Counts(s) && CanStep(s, tid) && Local(s, tid, s.threads[tid])
    requires s' == Step(s, tid) && Bounds(s') && BlocksForward(s, s', tid)
    ensures tid in s'.threads && Local(s', tid, s'.threads[tid])
  {
    var th := s.threads[tid];
    if th.InPush? || th.PushLink? || th.PushSwing? { StepLocalStore(s, tid, s'); }
    else if th.PushPost? { LocalAfterPost(s, s', tid, th); }
    else { LocalAfterPushList(s, s', tid, th); }
  }

  lemma StepLocalRest(s: State, tid: Tid)
    requires !OnPopSide(Was(s.threads, tid)) && !OnPushSide(Was(s.threads, tid))
    requires ListInv(s) && Owners(s) && Counts(s) && CanStep(s, tid) && Local(s, tid, s.threads[tid])
    requires Bounds(Step(s, tid)) && BlocksForward(s, Step(s, tid), tid)
    ensures Local(Step(s, tid), tid, Step(s, tid).threads[tid])
  {
    var th := s.threads[tid];
    if th.EmptyTail? { LocalAfterEmptyTail(s, Step(s, tid), tid, th); }
    else if th.EmptyNext? { LocalAfterEmptyNext(s, Step(s, tid), tid, th); }
    else if !th.SemRead? && !th.SemTake? && !th.SemUndo? { LocalAfterEmpty(s, Step(s, tid), tid, th); }
  }

  lemma StepLocal(s: State, tid: Tid)
    requires ListInv(s) && Owners(s) && Counts(s) && CanStep(s, tid) && Local(s, tid, s.threads[tid])
    requires Bounds(Step(s, tid)) && BlocksForward(s, Step(s, tid), tid)
    ensures Local(Step(s, tid), tid, Step(s, tid).threads[tid])
  {
    if OnPopSide(s.threads[tid]) { StepLocalPop(s, tid); }
    else if OnPushSide(s.threads[tid]) { StepLocalPush(s, tid, Step(s, tid)); }
    else { StepLocalRest(s, tid); }
  }

  lemma StepLocals(s: State, tid: Tid)
    requires ListInv(s) && Owners(s) && Counts(s) && CanStep(s, tid) && Locals(s)
    requires Bounds(Step(s, tid)) && BlocksForward(s, Step(s, tid), tid)
    ensures Locals(Step(s, tid))
  {
    StepLocal(s, tid);
    LocalsStable(s, Step(s, tid), tid, Step(s, tid).threads[tid]);
  }
}
