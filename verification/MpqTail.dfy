/**
 * What pushes leave behind: the last block is open or about to get a successor, its highest ticket holds a
 * value or is still being worked on, and every stored value belongs to a push that has returned or is about to.
 */
module MpqTail {
  import opened MpqBlock
  import opened MpqList
  import opened MpqListInv
  import opened MpqListSteps
  import opened MpqListCounts
  import opened MpqTheorems

  /** The thread is about to link a block after `qb`. */
  predicate Linker(th: Thread, qb: nat) {
    (th.PushAlloc? || th.PushLink?) && th.qb == qb
  }

  predicate HasTicket(at: PushAt) {
    at.LoadVal? || at.LoadIdx? || at.LoadHead? || at.Store? || at.Full?
  }

  /** The thread is inside mpq_block_push of block `qb`, and if it has a ticket, it is `t`. */
  predicate Drawer(th: Thread, qb: nat, t: int) {
    th.InPush? && th.qb == qb && (HasTicket(th.push) ==> th.push.t == t)
  }

  predicate Swinger(th: Thread, k: Key) {
    th.PushSwing? && th.key == k
  }

  predicate Firsts(s: State) {
    forall b :: 0 < b < |s.blocks| ==> 0 in s.blocks[b].placed
  }

  ghost predicate Linked(s: State)
    requires |s.blocks| > 0
  {
    s.blocks[|s.blocks| - 1].closed ==> exists u :: u in s.threads && Linker(s.threads[u], |s.blocks| - 1)
  }

  /** The highest ticket of an open block has been passed, or holds a value. */
  predicate TopSettled(b: Block) {
    b.closed || b.tail <= b.head || (b.tail > 0 && b.tail - 1 in b.placed)
  }

  ghost predicate Topped(s: State)
    requires |s.blocks| > 0
  {
    var last := |s.blocks| - 1; var b := s.blocks[last];
    TopSettled(b) || exists u :: u in s.threads && Drawer(s.threads[u], last, b.tail - 1)
  }

  ghost predicate Returned(s: State) {
    forall k :: Placed(s, k) ==> k in s.returned || exists u :: u in s.threads && Swinger(s.threads[u], k)
  }

  ghost predicate PushesOk(s: State) {
    |s.blocks| > 0 && Firsts(s) && Linked(s) && Topped(s) && Returned(s)
  }

  /** A thread that none of this depends on. */
  predicate Bystander(th: Thread) {
    !th.InPush? && !th.PushAlloc? && !th.PushLink? && !th.PushSwing?
  }

  lemma SameBlocks(s: State, s': State, tid: Tid, th': Thread)
    requires PushesOk(s) && s'.blocks == s.blocks && s'.returned == s.returned && s'.threads == s.threads[tid := th']
    requires tid in s.threads ==> Bystander(s.threads[tid])
    ensures PushesOk(s')
  {
    KeepLinked(s, s', tid, th');
    KeepReturned(s, s', tid, th');
    if !TopSettled(s.blocks[|s.blocks| - 1]) {
      var u :| u in s.threads && Drawer(s.threads[u], |s.blocks| - 1, s.blocks[|s.blocks| - 1].tail - 1);
      assert u in s'.threads && Drawer(s'.threads[u], |s.blocks| - 1, s.blocks[|s.blocks| - 1].tail - 1);
    }
  }

  lemma KeepLinked(s: State, s': State, tid: Tid, th': Thread)
    requires |s.blocks| == |s'.blocks| > 0 && Linked(s) && s'.threads == s.threads[tid := th']
    requires s'.blocks[|s.blocks| - 1].closed == s.blocks[|s.blocks| - 1].closed
    requires tid in s.threads && Linker(s.threads[tid], |s.blocks| - 1) ==> Linker(th', |s.blocks| - 1)
    ensures Linked(s')
  {
    if s.blocks[|s.blocks| - 1].closed {
      var u :| u in s.threads && Linker(s.threads[u], |s.blocks| - 1);
      assert u in s'.threads && Linker(s'.threads[u], |s.blocks| - 1);
    }
  }

  lemma KeepReturned(s: State, s': State, tid: Tid, th': Thread)
    requires Returned(s) && s'.threads == s.threads[tid := th'] && s.returned <= s'.returned
    requires forall k :: Placed(s', k) ==> Placed(s, k)
    requires tid in s.threads ==> !s.threads[tid].PushSwing?
    ensures Returned(s')
  {
    forall k | Placed(s', k) && k !in s'.returned ensures exists u :: u in s'.threads && Swinger(s'.threads[u], k) {
      var u :| u in s.threads && Swinger(s.threads[u], k);
      assert u in s'.threads && Swinger(s'.threads[u], k);
    }
  }

  // ----- steps

  /** What a step of mpq_block_pop does not touch. */
  predicate PopKeeps(b: Block, b': Block) {
    b'.placed == b.placed && b'.closed == b.closed && b.head <= b'.head && (b'.tail == b.tail || b'.tail <= b'.head)
  }

  lemma PopTop(b: Block, tid: Tid, at: PopAt)
    requires b.Shaped() && PopOk(b, tid, at) && !at.Got? && !at.Null?
    ensures PopKeeps(b, PopStep(b, tid, at).0)
  {
  }

  lemma PopTail(s: State, tid: Tid, th: Thread, s': State)
    requires PushesOk(s) && tid in s.threads && s.threads[tid] == th && th.InPop? && HasBlock(s, th.qb) && !th.pop.Got? && !th.pop.Null?
    requires PopOk(s.blocks[th.qb], tid, th.pop) && s' == StepInPop(s, tid, th)
    ensures PushesOk(s')
  {
    PopTop(s.blocks[th.qb], tid, th.pop);
    assert forall b :: 0 <= b < |s.blocks| ==> PopKeeps(s.blocks[b], s'.blocks[b]);
    KeepLinked(s, s', tid, s'.threads[tid]);
    KeepReturned(s, s', tid, s'.threads[tid]);
    PopTopped(s, tid, s', |s.blocks| - 1);
  }

  lemma PopTopped(s: State, tid: Tid, s': State, last: nat)
    requires |s.blocks| == |s'.blocks| == last + 1 && Topped(s) && tid in s.threads && s.threads[tid].InPop?
    requires tid in s'.threads && s'.threads == s.threads[tid := s'.threads[tid]] && PopKeeps(s.blocks[last], s'.blocks[last])
    ensures Topped(s')
  {
    if !TopSettled(s'.blocks[last]) {
      var u :| u in s.threads && Drawer(s.threads[u], last, s.blocks[last].tail - 1);
      assert u in s'.threads && Drawer(s'.threads[u], last, s'.blocks[last].tail - 1);
    }
  }

  /** One step of mpq_block_push, as far as the top ticket goes. */
  predicate TopOf(b: Block, at: PushAt, b': Block, at': PushAt) {
    && b'.head == b.head && (b.closed ==> b'.closed) && (forall t :: t in b.placed ==> t in b'.placed)
    && (at'.Refused? <==> at.Close? || (at.Draw? && b.closed)) && (at'.Refused? ==> b'.closed) && (!at'.Refused? ==> b'.closed == b.closed)
    && (at.Draw? && !b.closed ==> HasTicket(at') && at'.t == b.tail && b'.tail == b.tail + 1)
    && (!at.Draw? ==> b'.tail == b.tail)
    && (HasTicket(at) && HasTicket(at') ==> at'.t == at.t)
    && (at'.Stored? ==> HasTicket(at) && at'.t == at.t && at.t in b'.placed)
    && (!at.Draw? && HasTicket(at') ==> HasTicket(at))
  }

  lemma PushTop(b: Block, tid: Tid, v: Value, at: PushAt)
    requires b.Shaped() && PushOk(b, tid, at) && !at.Stored? && !at.Refused?
    ensures TopOf(b, at, PushStep(b, tid, v, at).0, PushStep(b, tid, v, at).1)
  {
  }

  lemma PushTopped(s: State, tid: Tid, th: Thread, s': State, last: nat)
    requires |s.blocks| == last + 1 && Topped(s) && tid in s.threads && s.threads[tid] == th && th.InPush? && HasBlock(s, th.qb)
    requires !th.push.Stored? && !th.push.Refused? && PushOk(s.blocks[th.qb], tid, th.push) && s' == StepInPush(s, tid, th)
    ensures Topped(s')
  {
    PushTop(s.blocks[th.qb], tid, th.val, th.push);
    var (b', at') := PushStep(s.blocks[th.qb], tid, th.val, th.push);
    TopMoves(s, tid, th, s', b', at', last);
  }

  lemma TopMoves(s: State, tid: Tid, th: Thread, s': State, b': Block, at': PushAt, last: nat)
    requires |s.blocks| == last + 1 && Topped(s) && tid in s.threads && s.threads[tid] == th && th.InPush? && th.qb <= last
    requires s'.blocks == s.blocks[th.qb := b'] && tid in s'.threads && s'.threads == s.threads[tid := s'.threads[tid]]
    requires !at'.Stored? && !at'.Refused? ==> s'.threads[tid].InPush? && s'.threads[tid].qb == th.qb && s'.threads[tid].push == at'
    requires TopOf(s.blocks[th.qb], th.push, b', at')
    ensures Topped(s')
  {
    var b, c := s.blocks[last], s'.blocks[last];
    if !TopSettled(c) {
      if th.qb == last && th.push.Draw? {
        assert Drawer(s'.threads[tid], last, c.tail - 1);
      } else {
        assert c.tail == b.tail && !TopSettled(b);
        var u :| u in s.threads && Drawer(s.threads[u], last, b.tail - 1);
        assert u in s'.threads && Drawer(s'.threads[u], last, c.tail - 1);
      }
    }
  }

  lemma PushLinked(s: State, tid: Tid, th: Thread, s': State)
    requires |s.blocks| == |s'.blocks| > 0 && Linked(s) && tid in s.threads && s.threads[tid] == th && th.InPush? && HasBlock(s, th.qb)
    requires !th.push.Stored? && !th.push.Refused? && PushOk(s.blocks[th.qb], tid, th.push) && s' == StepInPush(s, tid, th)
    ensures Linked(s')
  {
    PushTop(s.blocks[th.qb], tid, th.val, th.push);
    var last := |s.blocks| - 1;
    if s'.blocks[last].closed {
      if th.qb == last && PushStep(s.blocks[th.qb], tid, th.val, th.push).1.Refused? {
        assert tid in s'.threads && Linker(s'.threads[tid], last);
      } else {
        var u :| u in s.threads && Linker(s.threads[u], last);
        assert u in s'.threads && Linker(s'.threads[u], last);
      }
    }
  }

  lemma PushReturned(s: State, tid: Tid, th: Thread, s': State)
    requires Returned(s) && tid in s.threads && s.threads[tid] == th && th.InPush? && HasBlock(s, th.qb)
    requires !th.push.Stored? && !th.push.Refused? && PushOk(s.blocks[th.qb], tid, th.push) && s' == StepInPush(s, tid, th)
    ensures Returned(s')
  {
    PushStores(s.blocks[th.qb], tid, th.val, th.push);
    forall k | Placed(s', k) && k !in s'.returned ensures exists u :: u in s'.threads && Swinger(s'.threads[u], k) {
      assert Placed(s, k);
      var u :| u in s.threads && Swinger(s.threads[u], k);
      assert u in s'.threads && Swinger(s'.threads[u], k);
    }
  }

  lemma PushTail(s: State, tid: Tid, th: Thread, s': State)
    requires PushesOk(s) && tid in s.threads && s.threads[tid] == th && th.InPush? && HasBlock(s, th.qb) && !th.push.Stored? && !th.push.Refused?
    requires PushOk(s.blocks[th.qb], tid, th.push) && s' == StepInPush(s, tid, th)
    ensures PushesOk(s')
  {
    PushTop(s.blocks[th.qb], tid, th.val, th.push);
    PushTopped(s, tid, th, s', |s.blocks| - 1);
    PushLinked(s, tid, th, s');
    PushReturned(s, tid, th, s');
  }

  lemma LinkTail(s: State, tid: Tid, th: Thread, s': State)
    requires PushesOk(s) && tid in s.threads && s.threads[tid] == th && th.PushLink? && th.val != 0 && th.qb < |s.blocks| && s' == StepLink(s, tid, th)
    ensures PushesOk(s')
  {
    if th.qb + 1 < |s.blocks| {
      KeepLinked(s, s', tid, s'.threads[tid]);
      KeepReturned(s, s', tid, s'.threads[tid]);
      KeepTopped(s, s', tid, s'.threads[tid]);
    } else {
      forall k | Placed(s', k) && k !in s'.returned ensures exists u :: u in s'.threads && Swinger(s'.threads[u], k) {
        if k.blk < |s.blocks| {
          assert Placed(s, k);
          var u :| u in s.threads && Swinger(s.threads[u], k);
          assert u in s'.threads && Swinger(s'.threads[u], k);
        } else {
          assert tid in s'.threads && Swinger(s'.threads[tid], k);
        }
      }
    }
  }

  lemma KeepTopped(s: State, s': State, tid: Tid, th': Thread)
    requires |s.blocks| > 0 && Topped(s) && s'.blocks == s.blocks && s'.threads == s.threads[tid := th']
    requires tid in s.threads ==> !s.threads[tid].InPush?
    ensures Topped(s')
  {
    var last := |s.blocks| - 1; var b := s.blocks[last];
    if !TopSettled(b) {
      var u :| u in s.threads && Drawer(s.threads[u], last, b.tail - 1);
      assert u in s'.threads && Drawer(s'.threads[u], last, b.tail - 1);
    }
  }

  lemma SwungTail(s: State, tid: Tid, th: Thread, s': State)
    requires PushesOk(s) && tid in s.threads && s.threads[tid] == th && th.PushSwing? && s' == StepSwing(s, tid, th)
    ensures PushesOk(s')
  {
    KeepLinked(s, s', tid, s'.threads[tid]);
    KeepTopped(s, s', tid, s'.threads[tid]);
    forall k | Placed(s', k) && k !in s'.returned ensures exists u :: u in s'.threads && Swinger(s'.threads[u], k) {
      assert Placed(s, k);
      var u :| u in s.threads && Swinger(s.threads[u], k);
      assert u in s'.threads && Swinger(s'.threads[u], k);
    }
  }

  lemma AllocTail(s: State, tid: Tid, th: Thread, s': State)
    requires PushesOk(s) && tid in s.threads && s.threads[tid] == th && th.PushAlloc? && s' == StepPush(s, tid, th)
    ensures PushesOk(s')
  {
    KeepLinked(s, s', tid, s'.threads[tid]);
    KeepTopped(s, s', tid, s'.threads[tid]);
    KeepReturned(s, s', tid, s'.threads[tid]);
  }

  /** Everything else leaves the blocks alone. */
  lemma RestTail(s: State, tid: Tid, s': State)
    requires CanStep(s, tid) && s' == Step(s, tid) && PushesOk(s) && !s.threads[tid].InPop? && Bystander(s.threads[tid])
    ensures PushesOk(s')
  {
    StepIsListAfter(s, tid);
    RestReturned(s, tid, s');
    SameBlocks(s, s', tid, s'.threads[tid]);
  }

  lemma RestReturned(s: State, tid: Tid, s': State)
    requires CanStep(s, tid) && s' == Step(s, tid) && !s.threads[tid].InPop? && Bystander(s.threads[tid])
    ensures s'.returned == s.returned
  {
  }

  lemma PushSideTail(s: State, tid: Tid, th: Thread, s': State)
    requires Bounds(s) && CanStep(s, tid) && th == s.threads[tid] && Local(s, tid, th) && s' == Step(s, tid) && PushesOk(s) && !Bystander(th)
    ensures PushesOk(s')
  {
    if th.InPush? { PushTail(s, tid, th, s'); }
    else if th.PushLink? { LinkTail(s, tid, th, s'); }
    else if th.PushSwing? { SwungTail(s, tid, th, s'); }
    else { AllocTail(s, tid, th, s'); }
  }

  lemma InPopTail(s: State, tid: Tid, th: Thread, s': State)
    requires Bounds(s) && CanStep(s, tid) && th == s.threads[tid] && Local(s, tid, th) && s' == Step(s, tid) && PushesOk(s) && th.InPop?
    ensures PushesOk(s')
  {
    PopTail(s, tid, th, s');
  }

  lemma StepTail(s: State, tid: Tid, th: Thread, s': State)
    requires Bounds(s) && CanStep(s, tid) && th == s.threads[tid] && Local(s, tid, th) && s' == Step(s, tid) && PushesOk(s)
    ensures PushesOk(s')
  {
    if th.InPop? { InPopTail(s, tid, th, s'); } else if Bystander(th) { RestTail(s, tid, s'); } else { PushSideTail(s, tid, th, s'); }
  }

  lemma BeginTail(s: State, tid: Tid, c: Call)
    requires PushesOk(s)
    ensures PushesOk(Begin(s, tid, c))
  {
    var s' := Begin(s, tid, c);
    if s' != s { SameBlocks(s, s', tid, s'.threads[tid]); }
  }

  lemma ExecTail(s: State, a: Action)
    requires Inv(s) && PushesOk(s)
    ensures PushesOk(Exec(s, a))
  {
    match a
    case Enter(tid, c) => BeginTail(s, tid, c);
    case Move(tid) => if CanStep(s, tid) { StepTail(s, tid, s.threads[tid], Step(s, tid)); }
  }

  lemma {:induction false} RunTail(sem: bool, schedule: seq<Action>)
    ensures PushesOk(Run(sem, schedule))
  {
    if |schedule| > 0 {
      RunTail(sem, schedule[..|schedule| - 1]);
      RunOk(sem, schedule[..|schedule| - 1]);
      ExecTail(Run(sem, schedule[..|schedule| - 1]), schedule[|schedule| - 1]);
    }
  }
}
