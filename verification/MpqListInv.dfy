/**
 * The inductive invariant of the whole queue, split by subject: the list of blocks, the
 * ownership of open pop tickets, the local variables of the threads, the order of pushes,
 * and the counting laws that tie the semaphore to the values in the queue.
 */
module MpqListInv {
  import opened MpqBlock
  import opened MpqList

  predicate Bounds(s: State) {
    && s.mqHead < |s.blocks| && s.mqTail < |s.blocks|
    && (forall b :: 0 <= b < |s.blocks| ==> s.blocks[b].Shaped())
  }

  predicate ListInv(s: State) {
    && Bounds(s)
    && (forall b :: 0 <= b < |s.blocks| ==> BlockInv(s.blocks[b]))
    && (forall b :: 0 <= b < |s.blocks| - 1 ==> s.blocks[b].closed)
    && (forall b :: 0 <= b < s.mqHead ==> s.blocks[b].Drained())
    && (forall b :: s.mqHead < b < |s.blocks| ==> s.blocks[b].head == 0)
  }

  /** Thread `th` is the popper that holds ticket `h` of block `b`. */
  predicate Popping(th: Thread, b: nat, h: nat) {
    th.InPop? && th.qb == b && HoldsPop(th.pop, h)
  }

  predicate OpenTicket(b: Block, h: nat) {
    h < |b.popOwner| && h !in b.taken && h !in b.skipped
  }

  /** A pop ticket that is not settled is being worked on by the thread that drew it. */
  ghost predicate Owners(s: State) {
    forall b, h :: 0 <= b < |s.blocks| && 0 <= h && OpenTicket(s.blocks[b], h) ==>
      s.blocks[b].popOwner[h] in s.threads && Popping(s.threads[s.blocks[b].popOwner[h]], b, h)
  }

  predicate Older(a: Key, b: Key) {
    a.blk < b.blk || (a.blk == b.blk && a.tkt < b.tkt)
  }

  /** mpq_block_pop has decided to return null and is only tidying the tail. */
  predicate Fixing(at: PopAt) {
    at.FixTail? || at.FixHead? || at.FixRecheck? || at.FixCas?
  }

  predicate GaveUp(s: State, qb: nat, second: bool, empty: bool)
    requires qb < |s.blocks|
  {
    if second then s.blocks[qb].Drained()
    else (qb + 1 == |s.blocks| ==> empty) && (s.sem ==> !empty)
  }

  predicate BeforeOk(s: State, before: set<Key>, qb: nat) {
    forall k :: k in before ==> Placed(s, k) && k.blk <= qb
  }

  predicate BeforeTicket(before: set<Key>, qb: nat, at: PushAt) {
    (at.LoadVal? || at.LoadIdx? || at.LoadHead? || at.Store?) ==> forall a :: a in before ==> Older(a, Key(qb, at.t))
  }

  predicate PushAround(s: State, v: Value, before: set<Key>, qb: nat) {
    v != 0 && qb <= s.mqTail && BeforeOk(s, before, qb)
  }

  predicate Popped(s: State, tid: Tid, v: Value, k: Key) {
    k.blk < |s.blocks| && PopOk(s.blocks[k.blk], tid, Got(k.tkt, v))
  }

  predicate Local(s: State, tid: Tid, th: Thread)
    requires Bounds(s)
  {
    match th
    case PopCheck(qb) => qb <= s.mqHead
    case InPop(qb, second, e, at) =>
      && qb <= s.mqHead && !at.Got? && !at.Null? && PopOk(s.blocks[qb], tid, at)
      && (second ==> qb + 1 < |s.blocks|)
      && (Fixing(at) ==> GaveUp(s, qb, second, e))
    case PopNext(qb, e) => qb <= s.mqHead && GaveUp(s, qb, false, e)
    case PopSwing(qb) => qb <= s.mqHead && qb + 1 < |s.blocks| && s.blocks[qb].Drained()
    case PopRet(v, k, e) => if v == 0 then e && !s.sem else Popped(s, tid, v, k)
    case PushLoad(v, bf) => v != 0 && BeforeOk(s, bf, s.mqTail)
    case PushCheck(v, bf, qb) => PushAround(s, v, bf, qb)
    case PushNext(v, bf, qb) => PushAround(s, v, bf, qb)
    case PushHelp(v, bf, qb) => PushAround(s, v, bf, qb) && qb + 1 < |s.blocks|
    case InPush(v, bf, qb, at) =>
      && PushAround(s, v, bf, qb) && !at.Stored? && !at.Refused? && PushOk(s.blocks[qb], tid, at)
      && BeforeTicket(bf, qb, at)
    case PushAlloc(v, bf, qb) => PushAround(s, v, bf, qb) && s.blocks[qb].closed
    case PushLink(v, bf, qb, _) => PushAround(s, v, bf, qb) && s.blocks[qb].closed
    case PushSwing(k, qb) => qb <= s.mqTail && k == Key(qb + 1, 0) && Placed(s, k)
    case PushPost(k) => Placed(s, k) && k.blk <= s.mqTail
    case PushRet(k) => Placed(s, k) && k.blk <= s.mqTail
    case EmptyCheck(qb) => qb <= s.mqHead
    case EmptyHead(qb) => qb <= s.mqHead
    case EmptyTail(qb, h) => qb <= s.mqHead && h <= s.blocks[qb].head
    case EmptyNext(qb) => qb <= s.mqHead && s.blocks[qb].Drained()
    case EmptySwing(qb) => qb <= s.mqHead && s.blocks[qb].Drained() && qb + 1 < |s.blocks|
    case EmptyRet(answer, e) => answer ==> e
    case _ => true
  }

  predicate Locals(s: State)
    requires Bounds(s)
  {
    forall tid :: tid in s.threads ==> Local(s, tid, s.threads[tid])
  }

  /** The pushes recorded as earlier than `k` have smaller tickets. */
  predicate AfterEarlier(s: State, k: Key)
    requires k in s.preceding
  {
    forall a :: a in s.preceding[k] ==> Placed(s, a) && Older(a, k)
  }

  predicate Order(s: State) {
    && (forall b, t :: 0 <= b < |s.blocks| && t in s.blocks[b].placed ==> Key(b, t) in s.preceding)
    && (forall k :: k in s.preceding ==> Placed(s, k) && AfterEarlier(s, k))
    && (forall k :: k in s.returned ==> Placed(s, k) && k.blk <= s.mqTail)
  }

  // ----- counting

  /** A consumer that has been let in and has not received its value. */
  predicate Holder(th: Thread) {
    th.PopLoad? || th.PopCheck? || th.InPop? || th.PopNext? || th.PopSwing? || (th.PopRet? && th.val == 0)
  }

  /** A producer that stored its value and has not posted. */
  predicate Unposted(th: Thread) {
    th.PushSwing? || th.PushPost?
  }

  function Holders(threads: map<Tid, Thread>): set<Tid> {
    set t | t in threads && Holder(threads[t])
  }

  function Unposteds(threads: map<Tid, Thread>): set<Tid> {
    set t | t in threads && Unposted(threads[t])
  }

  function Overdrawn(threads: map<Tid, Thread>): set<Tid> {
    set t | t in threads && threads[t].SemUndo?
  }

  function PlacedCount(blocks: seq<Block>): nat {
    if |blocks| == 0 then 0 else PlacedCount(blocks[..|blocks| - 1]) + |blocks[|blocks| - 1].placed|
  }

  function TakenCount(blocks: seq<Block>): nat {
    if |blocks| == 0 then 0 else TakenCount(blocks[..|blocks| - 1]) + |blocks[|blocks| - 1].taken|
  }

  predicate SemLaw(s: State) {
    s.semValue == s.posts - s.granted - |Overdrawn(s.threads)| && s.granted <= s.posts
  }

  predicate PushLaw(s: State) {
    s.posts + |Unposteds(s.threads)| == PlacedCount(s.blocks)
  }

  predicate PopLaw(s: State) {
    s.granted == TakenCount(s.blocks) + |Holders(s.threads)|
  }

  predicate Counts(s: State) {
    s.sem ==> SemLaw(s) && PushLaw(s) && PopLaw(s)
  }

  ghost predicate Inv(s: State) {
    ListInv(s) && Owners(s) && Locals(s) && Order(s) && Counts(s)
  }

  // ----- what a step of thread `tid` does, seen from another thread

  predicate BlocksForward(s: State, s': State, tid: Tid) {
    && s'.sem == s.sem && s.mqHead <= s'.mqHead && s.mqTail <= s'.mqTail
    && |s.blocks| <= |s'.blocks|
    && (forall b :: 0 <= b < |s.blocks| ==> Forward(s.blocks[b], s'.blocks[b], tid))
  }

  lemma BeforeStable(s: State, s': State, tid: Tid, before: set<Key>, qb: nat)
    requires BlocksForward(s, s', tid) && BeforeOk(s, before, qb)
    ensures BeforeOk(s', before, qb)
  {
    forall k | k in before ensures Placed(s', k) && k.blk <= qb {
      assert Placed(s, k);
      assert Forward(s.blocks[k.blk], s'.blocks[k.blk], tid);
    }
  }

  lemma PopperStable(s: State, s': State, tid: Tid, u: Tid, th: Thread)
    requires Bounds(s) && Bounds(s') && BlocksForward(s, s', tid) && u != tid && Local(s, u, th)
    requires th.InPop? || th.PopNext? || th.PopSwing? || th.PopRet?
    ensures Local(s', u, th)
  {
    if th.PopRet? {
      if th.val != 0 {
        assert Forward(s.blocks[th.key.blk], s'.blocks[th.key.blk], tid);
        PopOkStable(s.blocks[th.key.blk], s'.blocks[th.key.blk], tid, u, Got(th.key.tkt, th.val));
      }
    } else {
      assert Forward(s.blocks[th.qb], s'.blocks[th.qb], tid);
      if th.InPop? { PopOkStable(s.blocks[th.qb], s'.blocks[th.qb], tid, u, th.pop); }
    }
  }

  lemma PusherStable(s: State, s': State, tid: Tid, u: Tid, th: Thread)
    requires Bounds(s) && Bounds(s') && BlocksForward(s, s', tid) && u != tid && Local(s, u, th)
    requires th.PushLoad? || th.PushCheck? || th.PushNext? || th.PushHelp? || th.InPush? || th.PushAlloc? || th.PushLink?
    ensures Local(s', u, th)
  {
    BeforeStable(s, s', tid, th.before, if th.PushLoad? then s.mqTail else th.qb);
    if !th.PushLoad? {
      assert Forward(s.blocks[th.qb], s'.blocks[th.qb], tid);
      if th.InPush? { PushOkStable(s.blocks[th.qb], s'.blocks[th.qb], tid, u, th.push); }
    }
  }

  lemma OtherStable(s: State, s': State, tid: Tid, u: Tid, th: Thread)
    requires Bounds(s) && Bounds(s') && BlocksForward(s, s', tid) && u != tid && Local(s, u, th)
    ensures Local(s', u, th)
  {
    if th.InPop? || th.PopNext? || th.PopSwing? || th.PopRet? {
      PopperStable(s, s', tid, u, th);
    } else if th.PushLoad? || th.PushCheck? || th.PushNext? || th.PushHelp? || th.InPush? || th.PushAlloc? || th.PushLink? {
      PusherStable(s, s', tid, u, th);
    } else if th.PushSwing? || th.PushPost? || th.PushRet? {
      assert Forward(s.blocks[th.key.blk], s'.blocks[th.key.blk], tid);
    } else if th.EmptyTail? || th.EmptyNext? || th.EmptySwing? {
      assert Forward(s.blocks[th.qb], s'.blocks[th.qb], tid);
    }
  }

  /** All threads keep their local facts once the thread that moved has its own. */
  lemma LocalsStable(s: State, s': State, tid: Tid, th': Thread)
    requires Bounds(s) && Locals(s) && Bounds(s') && BlocksForward(s, s', tid)
    requires s'.threads == s.threads[tid := th'] && Local(s', tid, th')
    ensures Locals(s')
  {
    forall u | u in s'.threads ensures Local(s', u, s'.threads[u]) {
      if u != tid { OtherStable(s, s', tid, u, s.threads[u]); }
    }
  }

  // ----- the sets and sums of the counting laws

  /** A thread that was not there before counts as idle. */
  function Was(threads: map<Tid, Thread>, tid: Tid): Thread {
    if tid in threads then threads[tid] else Idle
  }

  function Delta(before: bool, after: bool): int {
    (if after then 1 else 0) - (if before then 1 else 0)
  }

  lemma CountHolders(threads: map<Tid, Thread>, tid: Tid, th: Thread)
    ensures |Holders(threads[tid := th])| == |Holders(threads)| + Delta(Holder(Was(threads, tid)), Holder(th))
  {
    var a, b := Holders(threads), Holders(threads[tid := th]);
    assert b == if Holder(th) then a + {tid} else a - {tid};
  }

  lemma CountUnposteds(threads: map<Tid, Thread>, tid: Tid, th: Thread)
    ensures |Unposteds(threads[tid := th])| == |Unposteds(threads)| + Delta(Unposted(Was(threads, tid)), Unposted(th))
  {
    var a, b := Unposteds(threads), Unposteds(threads[tid := th]);
    assert b == if Unposted(th) then a + {tid} else a - {tid};
  }

  lemma CountOverdrawn(threads: map<Tid, Thread>, tid: Tid, th: Thread)
    ensures |Overdrawn(threads[tid := th])| == |Overdrawn(threads)| + Delta(Was(threads, tid).SemUndo?, th.SemUndo?)
  {
    var a, b := Overdrawn(threads), Overdrawn(threads[tid := th]);
    assert b == if th.SemUndo? then a + {tid} else a - {tid};
  }

  lemma {:induction false} CountReplaced(blocks: seq<Block>, qb: nat, b: Block)
    requires qb < |blocks|
    ensures PlacedCount(blocks[qb := b]) == PlacedCount(blocks) + |b.placed| - |blocks[qb].placed|
    ensures TakenCount(blocks[qb := b]) == TakenCount(blocks) + |b.taken| - |blocks[qb].taken|
  {
    var n := |blocks| - 1;
    if qb < n {
      assert blocks[qb := b][..n] == blocks[..n][qb := b];
      CountReplaced(blocks[..n], qb, b);
    } else {
      assert blocks[qb := b][..n] == blocks[..n];
    }
  }
}
