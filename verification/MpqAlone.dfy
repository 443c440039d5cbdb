/** Calls of the queue that nobody disturbs come to an end, whatever the others have left half done. */
module MpqAlone {
  import opened MpqBlock
  import opened MpqList
  import opened MpqListInv
  import opened MpqListSteps
  import opened MpqTheorems
  import opened Progress

  function Pos(x: int): nat {
    if x > 0 then x else 0
  }

  // ----- mpq_block_pop

  /** Tickets that pushes have drawn and pops have not. */
  function Backlog(b: Block): nat {
    Pos(b.tail - b.head)
  }

  /** The rounds that may follow the one with ticket h. */
  function Rounds(b: Block, h: nat): nat {
    Pos(b.tail - (h + 1))
  }

  function Drawn(b: Block, h: nat): nat {
    if Rounds(b, h) == 0 then 8 else 30 * Rounds(b, h) + 20
  }

  /** A bound on the steps that mpq_block_pop has left. What was read before is out of date if it has changed since. */
  function PopRank(b: Block, at: PopAt): nat
    requires b.Shaped()
  {
    match at
    case Ticket => 30 * Backlog(b) + 20
    case ReadVal(h) => Drawn(b, h) + 4
    case ReadIdx(h, val) => Drawn(b, h) + (if b.At(h).val == val then 3 else 6)
    case Cas(h, val, safe, idx) => Drawn(b, h) + (if b.At(h) == Node(safe, idx, val) then 2 else 5)
    case ReadTail(h) => Drawn(b, h) + 1
    case FixTail => 4
    case FixHead(t, c) => if t == b.tail && c == b.closed then 3 else 7
    case FixRecheck(t, _) => if t == b.tail && !b.closed then 2 else 6
    case FixCas(t, _) => if t == b.tail && !b.closed then 1 else 5
    case _ => 0
  }

  lemma PopStepRank(b: Block, tid: Tid, at: PopAt)
    requires b.Shaped() && |b.popOwner| == b.head && PopOk(b, tid, at) && !at.Got? && !at.Null?
    ensures var (b', at') := PopStep(b, tid, at);
            b'.Shaped() && PopRank(b', at') < PopRank(b, at) && Backlog(b') <= Backlog(b)
  {
  }

  // ----- mpq_block_push

  function PushRank(at: PushAt): nat {
    match at
    case Draw(n) => 8 * Pos(11 - n) + 8
    case LoadVal(n, _) => 8 * Pos(11 - n) + 6
    case LoadIdx(n, _, _) => 8 * Pos(11 - n) + 5
    case LoadHead(n, _, _) => 8 * Pos(11 - n) + 4
    case Store(n, _, _, _) => 8 * Pos(11 - n) + 3
    case Full(n, _) => 8 * Pos(11 - n) + 2
    case Close => 1
    case _ => 0
  }

  lemma PushStepRank(b: Block, tid: Tid, v: Value, at: PushAt)
    requires b.Shaped() && !at.Stored? && !at.Refused?
    ensures PushRank(PushStep(b, tid, v, at).1) < PushRank(at) || PushStep(b, tid, v, at).1.Stored? || PushStep(b, tid, v, at).1.Refused?
    ensures PushRank(at) > 0
  {
  }

  // ----- the list

  /** A bound on the steps of mpq_pop from a block on. */
  function Work(blocks: seq<Block>, from: nat): nat
    decreases |blocks| - from
  {
    if from >= |blocks| then 0 else 60 * Backlog(blocks[from]) + 44 + Work(blocks, from + 1)
  }

  lemma {:induction false} WorkSame(blocks: seq<Block>, qb: nat, b: Block, from: nat)
    requires qb < |blocks| && qb < from
    ensures Work(blocks[qb := b], from) == Work(blocks, from)
    decreases |blocks| - from
  {
    if from < |blocks| { WorkSame(blocks, qb, b, from + 1); }
  }

  /** What is left for a pop that has finished with block qb. */
  function Beyond(s: State, qb: nat): nat {
    Work(s.blocks, if qb >= s.mqHead then qb + 1 else s.mqHead)
  }

  function PopThreadRank(s: State, th: Thread): nat
    requires Bounds(s) && OnPopSide(th)
    requires !th.PopLoad? ==> th.qb <= s.mqHead
  {
    match th
    case PopLoad => Work(s.blocks, s.mqHead)
    case PopCheck(qb) => if qb == s.mqHead then 60 * Backlog(s.blocks[qb]) + 43 + Beyond(s, qb) else Work(s.blocks, s.mqHead) + 1
    case InPop(qb, second, _, at) =>
      PopRank(s.blocks[qb], at) + (if second then 1 else 30 * Backlog(s.blocks[qb]) + 22) + Beyond(s, qb)
    case PopNext(qb, _) => 30 * Backlog(s.blocks[qb]) + 22 + Beyond(s, qb)
    case PopSwing(qb) => Beyond(s, qb) + 1
  }

  /** Inside mpq_block_pop. */
  lemma InPopRank(s: State, tid: Tid, th: Thread, s': State)
    requires ListInv(s) && Local(s, tid, th) && th.InPop? && HasBlock(s, th.qb) && s' == StepInPop(s, tid, th) && ListInv(s')
    ensures var th' := s'.threads[tid];
            th'.PopRet? || ((th'.InPop? || th'.PopNext? || th'.PopSwing?) && th'.qb == th.qb && PopThreadRank(s', th') < PopThreadRank(s, th))
  {
    var b := s.blocks[th.qb];
    assert BlockInv(b);
    PopStepRank(b, tid, th.pop);
    var (b', at') := PopStep(b, tid, th.pop);
    var from := if th.qb >= s.mqHead then th.qb + 1 else s.mqHead;
    WorkSame(s.blocks, th.qb, b', from);
    assert Beyond(s', th.qb) == Beyond(s, th.qb);
    InPopMove(s, th, s', s'.threads[tid], b', at');
  }

  lemma InPopMove(s: State, th: Thread, s': State, th': Thread, b': Block, at': PopAt)
    requires Bounds(s) && Bounds(s') && th.InPop? && th.qb <= s.mqHead == s'.mqHead && Beyond(s', th.qb) == Beyond(s, th.qb)
    requires s'.blocks[th.qb] == b' && PopRank(b', at') < PopRank(s.blocks[th.qb], th.pop) && Backlog(b') <= Backlog(s.blocks[th.qb])
    requires exists e :: th' == AfterPop(th.qb, th.second, e, at')
    ensures th'.PopRet? || ((th'.InPop? || th'.PopNext? || th'.PopSwing?) && th'.qb == th.qb && PopThreadRank(s', th') < PopThreadRank(s, th))
  {
  }

  lemma PopListRank(s: State, tid: Tid, th: Thread, s': State)
    requires ListInv(s) && Local(s, tid, th) && (th.PopLoad? || th.PopCheck? || th.PopNext? || th.PopSwing?) && s' == StepPop(s, tid, th)
    requires ListInv(s')
    ensures var th' := s'.threads[tid];
            th'.PopRet? || ((th'.PopLoad? || th'.PopCheck? || th'.InPop?) && (th'.PopLoad? || th'.qb <= s'.mqHead)
                            && PopThreadRank(s', th') < PopThreadRank(s, th))
  {
  }

  // ----- the semaphore

  /** mpq_pop_w waits: it has no trial left and there is no permit. */
  predicate Waiting(s: State, th: Thread) {
    th.SemRead? && !th.nonWaiting && th.tries == 0 && s.semValue <= 0
  }

  function SemRank(s: State, th: Thread): nat
    requires th.SemRead? || th.SemTake? || th.SemUndo?
  {
    var k := Work(s.blocks, s.mqHead);
    match th
    case SemRead(nw, tries) => if tries == 0 && nw then 1 else if s.semValue > 0 then k + 2 else 4 * tries + k + 4
    case SemTake(nw, tries) => if s.semValue > 0 then k + 1 else 4 * tries + k + 4
    case SemUndo(nw, tries) => 4 * tries + k + 3
  }

  lemma SemStepRank(s: State, tid: Tid, th: Thread, s': State)
    requires Bounds(s) && (th.SemRead? || th.SemTake? || th.SemUndo?) && !Waiting(s, th) && s' == StepSem(s, tid, th)
    ensures var th' := s'.threads[tid];
            || th'.NoPermit? || Waiting(s', th')
            || ((th'.SemRead? || th'.SemTake? || th'.SemUndo?) && SemRank(s', th') < SemRank(s, th))
            || (th'.PopLoad? && PopThreadRank(s', th') < SemRank(s, th))
  {
    assert s'.blocks == s.blocks && s'.mqHead == s.mqHead;
    assert Work(s.blocks, s.mqHead) > 0;
  }

  // ----- pushing

  /** Swings of the list tail that are due. */
  function Behind(s: State): nat
    requires Bounds(s)
  {
    4 * (|s.blocks| - 1 - s.mqTail)
  }

  /** What is left for a push that found block qb closed. */
  function Again(s: State, qb: nat): nat
    requires Bounds(s)
  {
    if qb + 1 < |s.blocks| then 114 + Behind(s) else 3
  }

  function PushThreadRank(s: State, th: Thread): nat
    requires Bounds(s) && OnPushSide(th)
  {
    var h := Behind(s);
    match th
    case PushLoad(_, _) => 114 + h
    case PushCheck(_, _, qb) => if qb == s.mqTail then 113 + h else 115 + h
    case PushNext(_, _, qb) => if qb == s.mqTail then 112 + h else 116 + h
    case PushHelp(_, _, qb) => if qb == s.mqTail then 111 + h else 115 + h
    case InPush(_, _, qb, at) => PushRank(at) + 2 + Again(s, qb)
    case PushAlloc(_, _, qb) => 2 + Again(s, qb)
    case PushLink(_, _, qb, _) => 1 + Again(s, qb)
    case PushSwing(_, _) => 2
    case _ => 1
  }

  lemma PushListRank(s: State, tid: Tid, th: Thread, s': State)
    requires ListInv(s) && Local(s, tid, th) && ListInv(s')
    requires th.PushLoad? || th.PushCheck? || th.PushNext? || th.PushHelp? || th.PushAlloc? || th.PushPost?
    requires s' == StepPush(s, tid, th)
    ensures var th' := s'.threads[tid];
            th'.PushRet? || (OnPushSide(th') && PushThreadRank(s', th') < PushThreadRank(s, th))
  {
  }

  lemma InPushRank(s: State, tid: Tid, th: Thread, s': State)
    requires ListInv(s) && Local(s, tid, th) && ListInv(s') && th.InPush? && HasBlock(s, th.qb) && s' == StepInPush(s, tid, th)
    ensures var th' := s'.threads[tid];
            th'.PushRet? || (OnPushSide(th') && PushThreadRank(s', th') < PushThreadRank(s, th))
  {
    PushStepRank(s.blocks[th.qb], tid, th.val, th.push);
    var at' := PushStep(s.blocks[th.qb], tid, th.val, th.push).1;
    InPushMove(s, th, s', s'.threads[tid], at');
  }

  lemma InPushMove(s: State, th: Thread, s': State, th': Thread, at': PushAt)
    requires Bounds(s) && Bounds(s') && |s'.blocks| == |s.blocks| && s'.mqTail == s.mqTail && th.InPush? && PushRank(th.push) > 0
    requires at'.Stored? ==> th'.PushRet? || th'.PushPost?
    requires at'.Refused? ==> th'.PushAlloc? && th'.qb == th.qb
    requires !at'.Stored? && !at'.Refused? ==> th'.InPush? && th'.qb == th.qb && th'.push == at' && PushRank(at') < PushRank(th.push)
    ensures th'.PushRet? || (OnPushSide(th') && PushThreadRank(s', th') < PushThreadRank(s, th))
  {
  }

  lemma LinkRank(s: State, tid: Tid, th: Thread, s': State)
    requires ListInv(s) && Local(s, tid, th) && ListInv(s') && th.PushLink? && s' == StepLink(s, tid, th)
    ensures var th' := s'.threads[tid];
            OnPushSide(th') && PushThreadRank(s', th') < PushThreadRank(s, th)
  {
  }

  lemma SwingRank(s: State, tid: Tid, th: Thread, s': State)
    requires Bounds(s) && Bounds(s') && th.PushSwing? && s' == StepSwing(s, tid, th)
    ensures var th' := s'.threads[tid];
            th'.PushRet? || (OnPushSide(th') && PushThreadRank(s', th') < PushThreadRank(s, th))
  {
  }

  // ----- mpq_is_empty

  function EmptyThreadRank(s: State, th: Thread): nat
    requires Bounds(s) && (th.EmptyLoad? || th.EmptyCheck? || th.EmptyHead? || th.EmptyTail? || th.EmptyNext? || th.EmptySwing?)
  {
    var d := 6 * (|s.blocks| - s.mqHead);
    match th
    case EmptyLoad => d + 6
    case EmptyCheck(qb) => if qb == s.mqHead then d + 5 else d + 7
    case EmptyHead(qb) => if qb == s.mqHead then d + 4 else d + 10
    case EmptyTail(qb, _) => if qb == s.mqHead then d + 3 else d + 9
    case EmptyNext(qb) => if qb == s.mqHead then d + 2 else d + 8
    case EmptySwing(qb) => if qb == s.mqHead then d + 1 else d + 7
  }

  lemma EmptyRank(s: State, tid: Tid, th: Thread, s': State)
    requires ListInv(s) && Local(s, tid, th) && ListInv(s')
    requires th.EmptyLoad? || th.EmptyCheck? || th.EmptyHead? || th.EmptyTail? || th.EmptyNext? || th.EmptySwing?
    requires (th.EmptyHead? || th.EmptyTail? ==> HasBlock(s, th.qb)) && s' == StepEmpty(s, tid, th)
    ensures var th' := s'.threads[tid];
            || th'.EmptyRet?
            || ((th'.EmptyLoad? || th'.EmptyCheck? || th'.EmptyHead? || th'.EmptyTail? || th'.EmptyNext? || th'.EmptySwing?)
                && EmptyThreadRank(s', th') < EmptyThreadRank(s, th))
  {
  }

  // ----- every call

  predicate InSem(th: Thread) {
    th.SemRead? || th.SemTake? || th.SemUndo?
  }

  predicate InEmpty(th: Thread) {
    th.EmptyLoad? || th.EmptyCheck? || th.EmptyHead? || th.EmptyTail? || th.EmptyNext? || th.EmptySwing?
  }

  /** A bound on the steps that the thread has left when it runs alone. */
  function ThreadRank(s: State, th: Thread): nat
    requires Bounds(s)
  {
    if InSem(th) then SemRank(s, th)
    else if OnPopSide(th) && (th.PopLoad? || th.qb <= s.mqHead) then PopThreadRank(s, th)
    else if OnPushSide(th) then PushThreadRank(s, th)
    else if InEmpty(th) then EmptyThreadRank(s, th)
    else 0
  }

  /** The thread has returned from its call, or waits for a permit. */
  predicate Ended(s: State, tid: Tid) {
    tid in s.threads && (Resting(s.threads[tid]) || Waiting(s, s.threads[tid]))
  }

  ghost predicate Calling(s: State, tid: Tid) {
    Inv(s) && tid in s.threads && !Ended(s, tid)
  }

  function RankOf(s: State, tid: Tid): nat {
    if Bounds(s) && tid in s.threads then ThreadRank(s, s.threads[tid]) else 0
  }

  lemma SemNearer(s: State, tid: Tid, th: Thread, s': State)
    requires ListInv(s) && Local(s, tid, th) && ListInv(s') && InSem(th) && !Waiting(s, th)
    requires s' == StepSem(s, tid, th)
    ensures Ended(s', tid) || ThreadRank(s', s'.threads[tid]) < SemRank(s, th)
  {
    SemStepRank(s, tid, th, s');
  }

  lemma InPopNearer(s: State, tid: Tid, th: Thread, s': State)
    requires ListInv(s) && Local(s, tid, th) && ListInv(s') && th.InPop? && HasBlock(s, th.qb)
    requires s' == StepInPop(s, tid, th)
    ensures Ended(s', tid) || ThreadRank(s', s'.threads[tid]) < PopThreadRank(s, th)
  {
    InPopRank(s, tid, th, s');
  }

  lemma PopNearer(s: State, tid: Tid, th: Thread, s': State)
    requires ListInv(s) && Local(s, tid, th) && ListInv(s') && OnPopSide(th) && !th.InPop?
    requires s' == StepPop(s, tid, th)
    ensures Ended(s', tid) || ThreadRank(s', s'.threads[tid]) < PopThreadRank(s, th)
  {
    PopListRank(s, tid, th, s');
  }

  lemma InPushNearer(s: State, tid: Tid, th: Thread, s': State)
    requires ListInv(s) && Local(s, tid, th) && ListInv(s') && th.InPush? && HasBlock(s, th.qb)
    requires s' == StepInPush(s, tid, th)
    ensures Ended(s', tid) || ThreadRank(s', s'.threads[tid]) < PushThreadRank(s, th)
  {
    InPushRank(s, tid, th, s');
  }

  lemma LinkNearer(s: State, tid: Tid, th: Thread, s': State)
    requires ListInv(s) && Local(s, tid, th) && ListInv(s') && th.PushLink?
    requires s' == StepLink(s, tid, th)
    ensures Ended(s', tid) || ThreadRank(s', s'.threads[tid]) < PushThreadRank(s, th)
  {
    LinkRank(s, tid, th, s');
  }

  lemma SwingNearer(s: State, tid: Tid, th: Thread, s': State)
    requires ListInv(s) && Local(s, tid, th) && ListInv(s') && th.PushSwing?
    requires s' == StepSwing(s, tid, th)
    ensures Ended(s', tid) || ThreadRank(s', s'.threads[tid]) < PushThreadRank(s, th)
  {
    SwingRank(s, tid, th, s');
  }

  lemma PushNearer(s: State, tid: Tid, th: Thread, s': State)
    requires ListInv(s) && Local(s, tid, th) && ListInv(s') && OnPushSide(th) && !th.InPush? && !th.PushLink? && !th.PushSwing?
    requires s' == StepPush(s, tid, th)
    ensures Ended(s', tid) || ThreadRank(s', s'.threads[tid]) < PushThreadRank(s, th)
  {
    PushListRank(s, tid, th, s');
  }

  lemma EmptyNearer(s: State, tid: Tid, th: Thread, s': State)
    requires ListInv(s) && Local(s, tid, th) && ListInv(s') && InEmpty(th) && (th.EmptyHead? || th.EmptyTail? ==> HasBlock(s, th.qb))
    requires s' == StepEmpty(s, tid, th)
    ensures Ended(s', tid) || ThreadRank(s', s'.threads[tid]) < EmptyThreadRank(s, th)
  {
    EmptyRank(s, tid, th, s');
    StillEmpty(s', tid, s'.threads[tid], EmptyThreadRank(s, th));
  }

  lemma StillEmpty(s: State, tid: Tid, th: Thread, n: nat)
    requires Bounds(s) && tid in s.threads && s.threads[tid] == th && (th.EmptyRet? || (InEmpty(th) && EmptyThreadRank(s, th) < n))
    ensures Ended(s, tid) || ThreadRank(s, th) < n
  {
  }

  /** Lower, for the thread that moves. */
  predicate Lower(s: State, th: Thread, s': State, tid: Tid)
    requires Bounds(s) && Bounds(s') && tid in s'.threads
  {
    Ended(s', tid) || ThreadRank(s', s'.threads[tid]) < ThreadRank(s, th)
  }

  lemma PopSideNearer(s: State, tid: Tid, s': State)
    requires ListInv(s) && CanStep(s, tid) && Local(s, tid, s.threads[tid]) && s' == Step(s, tid) && ListInv(s') && OnPopSide(s.threads[tid])
    ensures Lower(s, s.threads[tid], s', tid)
  {
    var th := s.threads[tid];
    if th.InPop? { InPopNearer(s, tid, th, s'); } else { PopNearer(s, tid, th, s'); }
  }

  lemma PushSideNearer(s: State, tid: Tid, s': State)
    requires ListInv(s) && CanStep(s, tid) && Local(s, tid, s.threads[tid]) && s' == Step(s, tid) && ListInv(s') && OnPushSide(s.threads[tid])
    ensures Lower(s, s.threads[tid], s', tid)
  {
    var th := s.threads[tid];
    if th.InPush? { InPushNearer(s, tid, th, s'); }
    else if th.PushLink? { LinkNearer(s, tid, th, s'); }
    else if th.PushSwing? { SwingNearer(s, tid, th, s'); }
    else { PushNearer(s, tid, th, s'); }
  }

  lemma OtherNearer(s: State, tid: Tid, s': State)
    requires ListInv(s) && CanStep(s, tid) && Local(s, tid, s.threads[tid]) && s' == Step(s, tid) && ListInv(s')
    requires (InSem(s.threads[tid]) && !Waiting(s, s.threads[tid])) || InEmpty(s.threads[tid])
    ensures Lower(s, s.threads[tid], s', tid)
  {
    var th := s.threads[tid];
    if InSem(th) { SemNearer(s, tid, th, s'); } else { EmptyNearer(s, tid, th, s'); }
  }

  lemma StepNearer(s: State, tid: Tid, th: Thread, s': State)
    requires ListInv(s) && CanStep(s, tid) && th == s.threads[tid] && Local(s, tid, th) && !Waiting(s, th) && s' == Step(s, tid) && ListInv(s')
    ensures Lower(s, th, s', tid)
  {
    if OnPopSide(th) { PopSideNearer(s, tid, s'); } else if OnPushSide(th) { PushSideNearer(s, tid, s'); } else { OtherNearer(s, tid, s'); }
  }

  /** The thread's next step. */
  ghost function StepOf(tid: Tid): State -> State {
    s => Exec(s, Move(tid))
  }

  lemma Nearer(s: State, tid: Tid)
    requires Calling(s, tid)
    ensures var s' := Exec(s, Move(tid));
            RankOf(s, tid) > 0 && (Ended(s', tid) || (Calling(s', tid) && RankOf(s', tid) < RankOf(s, tid)))
  {
    var th := s.threads[tid];
    assert Local(s, tid, th);
    assert CanStep(s, tid);
    StepOk(s, tid);
    StepNearer(s, tid, th, Step(s, tid));
    RankPositive(s, th);
  }

  lemma RankPositive(s: State, th: Thread)
    requires Bounds(s) && !Resting(th) && (OnPopSide(th) ==> th.PopLoad? || th.qb <= s.mqHead)
    ensures ThreadRank(s, th) > 0
  {
    if OnPopSide(th) { PopRankPositive(s, th); }
  }

  lemma PopRankPositive(s: State, th: Thread)
    requires Bounds(s) && OnPopSide(th) && (th.PopLoad? || th.qb <= s.mqHead)
    ensures PopThreadRank(s, th) > 0
  {
    assert Work(s.blocks, s.mqHead) > 0;
  }

  /**
   * From every reachable state a thread that runs alone returns from its call within finitely many steps, whatever
   * the other threads have left half done; only mpq_pop_w may end up waiting for a permit instead.
   */
  lemma CallReturns(sem: bool, schedule: seq<Action>, tid: Tid) returns (k: nat)
    requires var s := Run(sem, schedule); tid in s.threads && !Ended(s, tid)
    ensures Ended(After(StepOf(tid), Run(sem, schedule), k), tid)
  {
    RunOk(sem, schedule);
    k := EndsFrom(StepOf(tid), Run(sem, schedule), tid);
  }

  lemma EndsFrom(f: State -> State, s: State, tid: Tid) returns (k: nat)
    requires f == StepOf(tid) && Calling(s, tid)
    ensures k > 0 && Ended(After(f, s, k), tid)
  {
    forall r | Calling(r, tid)
      ensures RankOf(r, tid) > 0 && (Ended(f(r), tid) || (Calling(f(r), tid) && RankOf(f(r), tid) < RankOf(r, tid)))
    {
      Nearer(r, tid);
    }
    k := Ends(f, r => Calling(r, tid), r => Ended(r, tid), r => RankOf(r, tid), s);
  }
}
