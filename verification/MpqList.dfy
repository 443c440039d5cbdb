/**
 * The queue of src/common/mp-queue.c as a state machine over any number of threads: the list
 * of blocks (mpq_pop, mpq_push, mpq_is_empty) and the semaphore around it (mpq_pop_w,
 * mpq_pop_nw, mpq_push_w, mp_sem_post, mp_sem_wait, mp_sem_trywait).
 *
 * Every atomic builtin and every plain shared read is one step, in a sequentially consistent
 * memory. Blocks are never reclaimed, so the chain of `mqb_next` pointers is `blocks`.
 */
module MpqList {
  import opened MpqBlock

  const SMALL_BLOCK_SIZE: nat := 64
  const BLOCK_SIZE: nat := 4096

  /** Ticket `tkt` of block number `blk`. */
  datatype Key = Key(blk: nat, tkt: nat)

  /**
   * The position of a thread in the list code, with its local variables. `InPop` and `InPush`
   * are the calls of mpq_block_pop and mpq_block_push. Two components are histories: `empty`
   * tells whether every value was claimed when the thread last decided that it sees an empty
   * block, and `before` is the set of pushes that had returned when this push began.
   */
  datatype Thread =
    | Idle
    | SemRead(nonWaiting: bool, tries: nat)
    | SemTake(nonWaiting: bool, tries: nat)
    | SemUndo(nonWaiting: bool, tries: nat)
    | NoPermit
    | PopLoad
    | PopCheck(qb: nat)
    | InPop(qb: nat, second: bool, empty: bool, pop: PopAt)
    | PopNext(qb: nat, empty: bool)
    | PopSwing(qb: nat)
    | PopRet(val: Value, key: Key, empty: bool)
    | PushLoad(val: Value, before: set<Key>)
    | PushCheck(val: Value, before: set<Key>, qb: nat)
    | PushNext(val: Value, before: set<Key>, qb: nat)
    | PushHelp(val: Value, before: set<Key>, qb: nat)
    | InPush(val: Value, before: set<Key>, qb: nat, push: PushAt)
    | PushAlloc(val: Value, before: set<Key>, qb: nat)
    | PushLink(val: Value, before: set<Key>, qb: nat, small: bool)
    | PushSwing(key: Key, qb: nat)
    | PushPost(key: Key)
    | PushRet(key: Key)
    | EmptyLoad
    | EmptyCheck(qb: nat)
    | EmptyHead(qb: nat)
    | EmptyTail(qb: nat, h: nat)
    | EmptyNext(qb: nat)
    | EmptySwing(qb: nat)
    | EmptyRet(answer: bool, empty: bool)

  datatype State = State(
    sem: bool,                        // MQ_MAGIC_SEM: the queue is used through its semaphore
    blocks: seq<Block>,
    mqHead: nat,
    mqTail: nat,
    semValue: int,
    threads: map<Tid, Thread>,
    // histories
    posts: nat,                       // mp_sem_post additions
    granted: nat,                     // successful waits
    returned: set<Key>,               // pushes whose mpq_push has returned
    preceding: map<Key, set<Key>>)    // for each stored value, the pushes that had returned when its push began

  /** init_mp_queue and init_mp_queue_w. */
  function Init(sem: bool): State {
    State(sem, [AllocBlock(0, SMALL_BLOCK_SIZE, 0)], 0, 0, 0, map[], 0, 0, {}, map[])
  }

  /** The pop ticket of every value in the queue has already been drawn. */
  predicate AllClaimed(s: State) {
    forall b :: 0 <= b < |s.blocks| ==> Claimed(s.blocks[b])
  }

  predicate Claimed(b: Block) {
    forall t :: t in b.placed && t !in b.taken ==> t < b.head
  }

  predicate Placed(s: State, k: Key) {
    k.blk < |s.blocks| && k.tkt in s.blocks[k.blk].placed
  }

  predicate Resting(th: Thread) {
    th.Idle? || th.NoPermit? || th.PopRet? || th.PushRet? || th.EmptyRet?
  }

  datatype Call =
    | CallPush(val: Value)
    | CallPop(nonWaiting: bool, tries: nat)
    | CallIsEmpty

  function Go(s: State, tid: Tid, th: Thread): (r: State)
    ensures OnlyMoved(s, r, tid)
  {
    s.(threads := s.threads[tid := th])
  }

  /** A thread at rest enters one of the queue's functions; nobody pushes a null pointer. */
  function Begin(s: State, tid: Tid, c: Call): (r: State)
    ensures r == s.(threads := r.threads) && (r == s || OnlyMoved(s, r, tid))
  {
    if tid in s.threads && !Resting(s.threads[tid]) then s
    else
      match c
      case CallPush(v) => if v == 0 then s else Go(s, tid, PushLoad(v, s.returned))
      case CallPop(nw, tries) => Go(s, tid, if s.sem then SemRead(nw, tries) else PopLoad)
      case CallIsEmpty => Go(s, tid, EmptyLoad)
  }

  /** Between two states only thread `tid` has moved. */
  predicate OnlyMoved(s: State, r: State, tid: Tid) {
    tid in r.threads && r.threads == s.threads[tid := r.threads[tid]]
  }

  /** `qb` is a block of the list. */
  predicate HasBlock(s: State, qb: nat) {
    qb < |s.blocks| && s.blocks[qb].Shaped()
  }

  function PutBlock(s: State, qb: nat, b: Block): State
    requires qb < |s.blocks|
  {
    s.(blocks := s.blocks[qb := b])
  }

  /** mp_sem_trywait, then mp_sem_wait, in the loops of mpq_pop_w and mpq_pop_nw. */
  function StepSem(s: State, tid: Tid, th: Thread): (r: State)
    requires th.SemRead? || th.SemTake? || th.SemUndo?
    ensures OnlyMoved(s, r, tid) && r == s.(semValue := r.semValue, granted := r.granted, threads := r.threads)
  {
    match th
    case SemRead(nw, tries) =>
      if tries == 0 && nw then Go(s, tid, NoPermit)
      else if s.semValue > 0 then Go(s, tid, SemTake(nw, tries))
      else Go(s, tid, SemRead(nw, if tries == 0 then 0 else tries - 1))
    case SemTake(nw, tries) =>
      if s.semValue > 0 then Go(s.(semValue := s.semValue - 1, granted := s.granted + 1), tid, PopLoad)
      else Go(s.(semValue := s.semValue - 1), tid, SemUndo(nw, tries))
    case SemUndo(nw, tries) =>
      Go(s.(semValue := s.semValue + 1), tid,
         if tries > 0 then SemRead(nw, tries - 1)
         else if s.semValue + 1 > 0 then SemTake(nw, 0)
         else SemRead(nw, 0))
  }

  /** Where a popping thread stands when its mpq_block_pop is at `at`. */
  function AfterPop(qb: nat, second: bool, empty: bool, at: PopAt): Thread {
    match at
    case Got(h, v) => PopRet(v, Key(qb, h), empty)
    case Null => if second then PopSwing(qb) else PopNext(qb, empty)
    case _ => InPop(qb, second, empty, at)
  }

  function StepInPop(s: State, tid: Tid, th: Thread): (r: State)
    requires th.InPop? && HasBlock(s, th.qb) && !th.pop.Got? && !th.pop.Null?
    ensures OnlyMoved(s, r, tid) && |r.blocks| == |s.blocks|
    ensures r == s.(blocks := s.blocks[th.qb := r.blocks[th.qb]], threads := r.threads)
  {
    var (b', at') := PopStep(s.blocks[th.qb], tid, th.pop);
    var empty := if at'.FixTail? && th.pop.ReadTail? then AllClaimed(s) else th.empty;
    Go(PutBlock(s, th.qb, b'), tid, AfterPop(th.qb, th.second, empty, at'))
  }

  function SwingHead(s: State, qb: nat): State {
    if s.mqHead == qb then s.(mqHead := qb + 1) else s
  }

  function SwingTail(s: State, qb: nat): State {
    if s.mqTail == qb then s.(mqTail := qb + 1) else s
  }

  /** mpq_pop around mpq_block_pop. */
  function StepPop(s: State, tid: Tid, th: Thread): (r: State)
    requires th.PopLoad? || th.PopCheck? || th.PopNext? || th.PopSwing?
    ensures OnlyMoved(s, r, tid) && r == s.(mqHead := r.mqHead, threads := r.threads)
  {
    match th
    case PopLoad => Go(s, tid, PopCheck(s.mqHead))
    case PopCheck(qb) => Go(s, tid, if s.mqHead == qb then InPop(qb, false, false, Ticket) else PopLoad)
    case PopNext(qb, e) =>
      Go(s, tid, if qb + 1 < |s.blocks| then InPop(qb, true, e, Ticket) else PopRet(0, Key(qb, 0), e))
    case PopSwing(qb) => Go(SwingHead(s, qb), tid, PopLoad)
  }

  /** mpq_push returned: a semaphore queue still has to post. */
  function Pushed(s: State, tid: Tid, k: Key): (r: State)
    ensures OnlyMoved(s, r, tid)
  {
    Go(s.(returned := s.returned + {k}), tid, if s.sem then PushPost(k) else PushRet(k))
  }

  function StepInPush(s: State, tid: Tid, th: Thread): (r: State)
    requires th.InPush? && HasBlock(s, th.qb) && !th.push.Stored? && !th.push.Refused?
    ensures OnlyMoved(s, r, tid) && |r.blocks| == |s.blocks|
    ensures r == s.(blocks := s.blocks[th.qb := r.blocks[th.qb]], preceding := r.preceding, returned := r.returned,
                    threads := r.threads)
  {
    var (b', at') := PushStep(s.blocks[th.qb], tid, th.val, th.push);
    var s1 := PutBlock(s, th.qb, b');
    match at'
    case Stored(t) =>
      Pushed(s1.(preceding := s.preceding[Key(th.qb, t) := th.before]), tid, Key(th.qb, t))
    case Refused => Go(s1, tid, PushAlloc(th.val, th.before, th.qb))
    case _ => Go(s1, tid, InPush(th.val, th.before, th.qb, at'))
  }

  /** mpq_push around mpq_block_push, and mp_sem_post. */
  function StepPush(s: State, tid: Tid, th: Thread): (r: State)
    requires th.PushLoad? || th.PushCheck? || th.PushNext? || th.PushHelp? || th.PushAlloc? || th.PushPost?
    ensures OnlyMoved(s, r, tid)
    ensures r == s.(mqTail := r.mqTail, semValue := r.semValue, posts := r.posts, threads := r.threads)
  {
    match th
    case PushLoad(v, bf) => Go(s, tid, PushCheck(v, bf, s.mqTail))
    case PushCheck(v, bf, qb) => Go(s, tid, if s.mqTail == qb then PushNext(v, bf, qb) else PushLoad(v, bf))
    case PushNext(v, bf, qb) =>
      Go(s, tid, if qb + 1 < |s.blocks| then PushHelp(v, bf, qb) else InPush(v, bf, qb, Draw(0)))
    case PushHelp(v, bf, qb) => Go(SwingTail(s, qb), tid, PushLoad(v, bf))
    case PushAlloc(v, bf, qb) => Go(s, tid, PushLink(v, bf, qb, s.mqHead == qb))
    case PushPost(k) => Go(s.(semValue := s.semValue + 1, posts := s.posts + 1), tid, PushRet(k))
  }

  /** The new block, already holding the value, is linked unless somebody else linked one first. */
  function StepLink(s: State, tid: Tid, th: Thread): (r: State)
    requires th.PushLink?
    ensures OnlyMoved(s, r, tid) && r == s.(blocks := r.blocks, preceding := r.preceding, threads := r.threads)
  {
    if th.qb + 1 < |s.blocks| then Go(s, tid, PushLoad(th.val, th.before))
    else
      var size := if th.small then SMALL_BLOCK_SIZE else BLOCK_SIZE;
      var k := Key(th.qb + 1, 0);
      Go(s.(blocks := s.blocks + [AllocBlock(th.val, size, tid)], preceding := s.preceding[k := th.before]),
         tid, PushSwing(k, th.qb))
  }

  function StepSwing(s: State, tid: Tid, th: Thread): (r: State)
    requires th.PushSwing?
    ensures OnlyMoved(s, r, tid) && r == s.(mqTail := r.mqTail, returned := s.returned + {th.key}, threads := r.threads)
  {
    Pushed(SwingTail(s, th.qb), tid, th.key)
  }

  function StepEmpty(s: State, tid: Tid, th: Thread): (r: State)
    requires th.EmptyLoad? || th.EmptyCheck? || th.EmptyHead? || th.EmptyTail? || th.EmptyNext? || th.EmptySwing?
    requires th.EmptyHead? || th.EmptyTail? ==> HasBlock(s, th.qb)
    ensures OnlyMoved(s, r, tid) && r == s.(mqHead := r.mqHead, threads := r.threads)
  {
    match th
    case EmptyLoad => Go(s, tid, EmptyCheck(s.mqHead))
    case EmptyCheck(qb) => Go(s, tid, if s.mqHead == qb then EmptyHead(qb) else EmptyLoad)
    case EmptyHead(qb) => Go(s, tid, EmptyTail(qb, s.blocks[qb].head))
    case EmptyTail(qb, h) =>
      var b := s.blocks[qb];
      if !b.closed then Go(s, tid, EmptyRet(b.tail <= h, AllClaimed(s)))
      else if b.tail > h then Go(s, tid, EmptyRet(false, AllClaimed(s)))
      else Go(s, tid, EmptyNext(qb))
    case EmptyNext(qb) =>
      Go(s, tid, if qb + 1 < |s.blocks| then EmptySwing(qb) else EmptyRet(true, AllClaimed(s)))
    case EmptySwing(qb) => Go(SwingHead(s, qb), tid, EmptyLoad)
  }

  /** The thread is inside a call; the second half holds in every reachable state (`NeverStuck`). */
  predicate CanStep(s: State, tid: Tid) {
    && tid in s.threads
    && !Resting(s.threads[tid])
    && Runnable(s, s.threads[tid])
  }

  predicate Runnable(s: State, th: Thread) {
    match th
    case InPop(qb, _, _, at) => HasBlock(s, qb) && !at.Got? && !at.Null?
    case InPush(_, _, qb, at) => HasBlock(s, qb) && !at.Stored? && !at.Refused?
    case EmptyHead(qb) => HasBlock(s, qb)
    case EmptyTail(qb, _) => HasBlock(s, qb)
    case _ => true
  }

  /** Thread `tid` performs its next shared access. */
  function Step(s: State, tid: Tid): (r: State)
    requires CanStep(s, tid)
    ensures OnlyMoved(s, r, tid) && r.sem == s.sem
  {
    var th := s.threads[tid];
    if th.SemRead? || th.SemTake? || th.SemUndo? then StepSem(s, tid, th)
    else if th.InPop? then StepInPop(s, tid, th)
    else if th.InPush? then StepInPush(s, tid, th)
    else if th.PopLoad? || th.PopCheck? || th.PopNext? || th.PopSwing? then StepPop(s, tid, th)
    else if th.EmptyLoad? || th.EmptyCheck? || th.EmptyHead? || th.EmptyTail? || th.EmptyNext? || th.EmptySwing?
      then StepEmpty(s, tid, th)
    else if th.PushLink? then StepLink(s, tid, th)
    else if th.PushSwing? then StepSwing(s, tid, th)
    else StepPush(s, tid, th)
  }

  datatype Action = Enter(tid: Tid, call: Call) | Move(tid: Tid)

  /** One action of the schedule; an action that cannot happen changes nothing. */
  function Exec(s: State, a: Action): State {
    match a
    case Enter(tid, c) => Begin(s, tid, c)
    case Move(tid) => if CanStep(s, tid) then Step(s, tid) else s
  }

  /** The state after a schedule, from the freshly initialised queue. */
  function Run(sem: bool, schedule: seq<Action>): State {
    if |schedule| == 0 then Init(sem)
    else Exec(Run(sem, schedule[..|schedule| - 1]), schedule[|schedule| - 1])
  }
}
