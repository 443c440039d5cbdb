/** Every action keeps the invariant of the job, one part at a time. */
module JobSteps {
  import opened JobModel
  import opened JobInv

  // ----- the lock

  /** How a step may touch the lock: only an unlocked job is locked, only the holder unlocks. */
  predicate LockMove(f: Flags, pc: Pc, f': Flags, pc': Pc) {
    && (HoldsLock(pc') ==> f'.locked && (HoldsLock(pc) || !f.locked))
    && (f'.locked && !HoldsLock(pc') ==> f.locked && !HoldsLock(pc))
    && (f.locked && !f'.locked ==> HoldsLock(pc))
  }

  lemma LockGo(s: State, tid: Tid, thr: Thr, j': Job, pc': Pc)
    requires Lock(s) && tid in s.tokens && !s.job.freed && LockMove(s.job.flags, s.tokens[tid].pc, j'.flags, pc')
    ensures Lock(Apply(s, tid, thr, Go(j', pc')))
  {
    var s' := Apply(s, tid, thr, Go(j', pc'));
    if j'.flags.locked {
      if HoldsLock(pc') {
        assert tid in s'.tokens && HoldsLock(s'.tokens[tid].pc);
      } else {
        var u :| u in s.tokens && HoldsLock(s.tokens[u].pc);
        assert u in s'.tokens && HoldsLock(s'.tokens[u].pc);
      }
    }
  }

  lemma LockGone(s: State, tid: Tid, j': Job)
    requires Lock(s) && tid in s.tokens && !s.job.freed && !HoldsLock(s.tokens[tid].pc) && j'.flags == s.job.flags
    ensures Lock(State(j', s.tokens - {tid}))
  {
    var s' := State(j', s.tokens - {tid});
    if j'.flags.locked {
      var u :| u in s.tokens && HoldsLock(s.tokens[u].pc);
      assert u in s'.tokens && HoldsLock(s'.tokens[u].pc);
    }
  }

  predicate Dropping(pc: Pc) {
    pc.DropRead? || pc.DropSub? || pc.DropSet? || pc.Last? || pc.LastWrite?
  }

  predicate InRest(pc: Pc) {
    pc.SchedWrite? || pc.Proc? || pc.ProcClear? || pc.SendRead? || pc.SendOr? || pc.Pushing?
  }

  predicate Unlocking(pc: Pc) {
    pc.Unlock? || pc.UnlockCas? || pc.UnlockTake? || pc.UnlockQueue? || pc.RetOr? || pc.RetComplete?
  }

  lemma TryMoves(j: Job, pc: Pc)
    requires Trying(pc) && (pc.TryCas? ==> !pc.seen.locked)
    ensures StepTry(j, pc).Go? && LockMove(j.flags, pc, StepTry(j, pc).job.flags, StepTry(j, pc).pc)
  {
  }

  lemma DropMoves(j: Job, pc: Pc)
    requires Dropping(pc) && (pc.LastWrite? ==> !j.flags.locked)
    ensures var o := StepDrop(j, pc);
            if o.Go? then LockMove(j.flags, pc, o.job.flags, o.pc) else o.job.flags == j.flags
  {
  }

  lemma RestMoves(j: Job, thr: Thr, pc: Pc)
    requires InRest(pc) && (pc.SchedWrite? ==> pc.seen.locked && j.flags.locked)
    ensures StepRest(j, thr, pc).Go? && LockMove(j.flags, pc, StepRest(j, thr, pc).job.flags, StepRest(j, thr, pc).pc)
  {
  }

  lemma UnlockMoves(j: Job, thr: Thr, pc: Pc)
    requires Unlocking(pc) && j.flags.locked
    ensures StepUnlock(j, thr, pc).Go? && LockMove(j.flags, pc, StepUnlock(j, thr, pc).job.flags, StepUnlock(j, thr, pc).pc)
  {
  }

  /** The lock, for every library step. */
  lemma StepMoves(s: State, tid: Tid, o: Out)
    requires Locals(s) && Lock(s) && tid in s.tokens && !s.job.freed && InLibrary(s.tokens[tid].pc)
    requires o == StepPc(s.job, s.tokens[tid].thr, s.tokens[tid].pc)
    ensures if o.Go? then LockMove(s.job.flags, s.tokens[tid].pc, o.job.flags, o.pc)
            else o.job.flags == s.job.flags && !HoldsLock(s.tokens[tid].pc)
  {
    var a := s.tokens[tid];
    assert PcOk(s.job, |s.tokens|, a);
    if Trying(a.pc) { TryMoves(s.job, a.pc); }
    else if Dropping(a.pc) {
      if a.pc.LastWrite? { AloneUnlocked(s, tid); }
      DropMoves(s.job, a.pc);
    }
    else if InRest(a.pc) { RestMoves(s.job, a.thr, a.pc); }
    else { UnlockMoves(s.job, a.thr, a.pc); }
  }

  lemma MoveLock(s: State, tid: Tid, o: Out)
    requires Locals(s) && Lock(s) && tid in s.tokens && !s.job.freed && InLibrary(s.tokens[tid].pc)
    requires o == StepPc(s.job, s.tokens[tid].thr, s.tokens[tid].pc)
    ensures Lock(Apply(s, tid, s.tokens[tid].thr, o))
  {
    StepMoves(s, tid, o);
    match o
    case Go(j', pc') => LockGo(s, tid, s.tokens[tid].thr, j', pc');
    case Gone(j') => LockGone(s, tid, j');
  }

  // ----- local facts of the token that moves

  /** Facts about being the only token, passed to the lemmas on a single token. */
  predicate Alone(j: Job, n: nat, pc: Pc) {
    n == 1 ==> (!HoldsLock(pc) ==> !j.flags.locked) && (HoldsLock(pc) ==> j.flags.queued == {})
  }

  lemma AloneFacts(s: State, tid: Tid)
    requires Lock(s) && Queues(s) && !s.job.freed && tid in s.tokens
    ensures Alone(s.job, |s.tokens|, s.tokens[tid].pc)
  {
    if |s.tokens| == 1 {
      if HoldsLock(s.tokens[tid].pc) {
        forall c | c in s.job.flags.queued ensures false { AloneUnqueued(s, tid, c); }
      } else {
        AloneUnlocked(s, tid);
      }
    }
  }

  /** The job and position after a step are fine for the token, and only the last token makes JS_FINISH pending. */
  predicate SelfOk(j: Job, n: nat, thr: Thr, o: Out) {
    && (JS_FINISH in o.job.flags.pending && JS_FINISH !in j.flags.pending ==> n == 1)
    && o.job.allowed == j.allowed
    && (o.Go? ==> PcOk(o.job, n, Act(thr, o.pc)))
  }

  lemma TrySelf(j: Job, n: nat, thr: Thr, pc: Pc)
    requires Trying(pc) && PcOk(j, n, Act(thr, pc)) && Alone(j, n, pc)
    ensures SelfOk(j, n, thr, StepTry(j, pc))
  {
  }

  lemma DropSelf(j: Job, n: nat, thr: Thr, pc: Pc)
    requires Dropping(pc) && PcOk(j, n, Act(thr, pc)) && Alone(j, n, pc) && 0 < n
    requires !pc.DropSet? ==> j.refcnt == n
    ensures SelfOk(j, n, thr, StepDrop(j, pc))
  {
  }

  lemma RestSelf(j: Job, n: nat, thr: Thr, pc: Pc)
    requires InRest(pc) && PcOk(j, n, Act(thr, pc)) && Alone(j, n, pc)
    ensures SelfOk(j, n, thr, StepRest(j, thr, pc))
  {
  }

  lemma UnlockSelf(j: Job, n: nat, thr: Thr, pc: Pc)
    requires Unlocking(pc) && PcOk(j, n, Act(thr, pc)) && Alone(j, n, pc) && JS_FINISH in j.allowed
    ensures SelfOk(j, n, thr, StepUnlock(j, thr, pc))
  {
    if pc.Unlock? {
      var todo := Todo(j, j.flags);
      if JS_FINISH in j.flags.pending {
        assert JS_FINISH in todo;
        assert Top(todo) == JS_FINISH;
      }
    }
  }

  /** The facts of the token that moves. */
  lemma MoveSelf(s: State, tid: Tid, o: Out)
    requires Locals(s) && Lock(s) && Queues(s) && Refs(s) && tid in s.tokens && !s.job.freed && InLibrary(s.tokens[tid].pc)
    requires o == StepPc(s.job, s.tokens[tid].thr, s.tokens[tid].pc)
    ensures SelfOk(s.job, |s.tokens|, s.tokens[tid].thr, o)
  {
    var a := s.tokens[tid];
    AloneFacts(s, tid);
    assert PcOk(s.job, |s.tokens|, a);
    if Trying(a.pc) { TrySelf(s.job, |s.tokens|, a.thr, a.pc); }
    else if Dropping(a.pc) {
      NoOtherWindow(s, tid);
      DropSelf(s.job, |s.tokens|, a.thr, a.pc);
    }
    else if InRest(a.pc) { RestSelf(s.job, |s.tokens|, a.thr, a.pc); }
    else { UnlockSelf(s.job, |s.tokens|, a.thr, a.pc); }
  }

  /** Only the last token can be in the window. */
  lemma NoOtherWindow(s: State, tid: Tid)
    requires Locals(s) && Refs(s) && tid in s.tokens && !s.job.freed
    ensures !s.tokens[tid].pc.DropSet? ==> s.job.refcnt == |s.tokens|
  {
    if Window(s) {
      var u :| u in s.tokens && s.tokens[u].pc.DropSet?;
      assert PcOk(s.job, |s.tokens|, s.tokens[u]);
      OneToken(s, tid, u);
    }
  }

  /** Nobody but the mover is between schedule_job's load and its store, or the flags stay. */
  predicate Spared(s: State, tid: Tid, f: Flags) {
    forall u :: u in s.tokens && s.tokens[u].pc.SchedWrite? ==> u == tid || f == s.job.flags
  }

  /** Only the holder of the lock takes a signal away. */
  lemma StepPreserves(j: Job, thr: Thr, pc: Pc)
    requires InLibrary(pc) && !HoldsLock(pc) && (pc.LastWrite? ==> pc.seen == j.flags)
    ensures Preserves(j, StepPc(j, thr, pc).job)
  {
  }

  lemma MoveLocals(s: State, tid: Tid, o: Out, s': State)
    requires Locals(s) && Lock(s) && Queues(s) && Refs(s) && tid in s.tokens && !s.job.freed && InLibrary(s.tokens[tid].pc)
    requires o == StepPc(s.job, s.tokens[tid].thr, s.tokens[tid].pc)
    requires s' == Apply(s, tid, s.tokens[tid].thr, o) && Spared(s, tid, o.job.flags)
    ensures Locals(s')
  {
    MoveSelf(s, tid, o);
    forall u | u in s'.tokens ensures PcOk(s'.job, |s'.tokens|, s'.tokens[u]) {
      if u == tid {
        assert s'.tokens.Keys == s.tokens.Keys;
      } else {
        TwoTokens(s, tid, u);
        if HoldsLock(s.tokens[u].pc) {
          assert PcOk(s.job, |s.tokens|, s.tokens[tid]);
          StepPreserves(s.job, s.tokens[tid].thr, s.tokens[tid].pc);
        }
        OtherOk(s, s', tid, u);
      }
    }
  }

  // ----- the reference counter

  /** Only the last steps of a drop touch the counter. */
  predicate RefMove(j: Job, pc: Pc, o: Out) {
    && o.job.allowed == j.allowed && o.job.freed == j.freed
    && match o
       case Gone(j') => pc.DropSub? && j.refcnt != 1 && j'.refcnt == j.refcnt - 1
       case Go(j', pc') => pc'.DropSet? || (if pc.DropSet? then j'.refcnt == 1 else j'.refcnt == j.refcnt)
  }

  lemma StepRef(j: Job, thr: Thr, pc: Pc)
    requires InLibrary(pc)
    ensures RefMove(j, pc, StepPc(j, thr, pc))
  {
  }

  lemma MoveRefs(s: State, tid: Tid, o: Out, s': State)
    requires Locals(s) && Refs(s) && tid in s.tokens && !s.job.freed && InLibrary(s.tokens[tid].pc)
    requires o == StepPc(s.job, s.tokens[tid].thr, s.tokens[tid].pc)
    requires s' == Apply(s, tid, s.tokens[tid].thr, o)
    ensures Refs(s')
  {
    StepRef(s.job, s.tokens[tid].thr, s.tokens[tid].pc);
    NoOtherWindow(s, tid);
    assert PcOk(s.job, |s.tokens|, s.tokens[tid]);
    match o
    case Gone(j') => {
      assert s'.tokens.Keys == s.tokens.Keys - {tid};
      assert s.tokens.Keys == s'.tokens.Keys + {tid};
    }
    case Go(j', pc') => {
      assert s'.tokens.Keys == s.tokens.Keys;
      if pc'.DropSet? { assert tid in s'.tokens && s'.tokens[tid].pc.DropSet?; }
    }
  }

  // ----- queued bits

  /** A queued bit of the new flags is answered by the mover, or was answered by somebody else. */
  predicate QueueMove(j: Job, pc: Pc, o: Out) {
    forall c :: c in o.job.flags.queued ==>
      (o.Go? && Answers(o.pc, c)) || (c in j.flags.queued && !Answers(pc, c))
  }

  lemma StepQueue(j: Job, thr: Thr, pc: Pc)
    requires InLibrary(pc) && (pc.Proc? ==> pc.c in thr.mask)
    requires pc.SchedWrite? || pc.LastWrite? ==> pc.seen == j.flags
    ensures QueueMove(j, pc, StepPc(j, thr, pc))
  {
  }

  lemma MoveQueues(s: State, tid: Tid, o: Out, s': State)
    requires Locals(s) && Queues(s) && tid in s.tokens && !s.job.freed && InLibrary(s.tokens[tid].pc)
    requires o == StepPc(s.job, s.tokens[tid].thr, s.tokens[tid].pc)
    requires s' == Apply(s, tid, s.tokens[tid].thr, o)
    ensures Queues(s')
  {
    var a := s.tokens[tid];
    assert PcOk(s.job, |s.tokens|, a);
    StepQueue(s.job, a.thr, a.pc);
    forall c | c in s'.job.flags.queued ensures exists t :: t in s'.tokens && Answers(s'.tokens[t].pc, c) {
      if o.Go? && Answers(o.pc, c) {
        assert Answers(s'.tokens[tid].pc, c);
      } else {
        var u :| u in s.tokens && Answers(s.tokens[u].pc, c);
        assert u in s'.tokens && Answers(s'.tokens[u].pc, c);
      }
    }
  }

  // ----- pending signals

  predicate Unattended(j: Job) {
    Todo(j, j.flags) != {} && !j.flags.locked
  }

  /** An unattended signal after the step is the mover's business, was somebody else's, or the job has a queue entry. */
  predicate SignalMove(j: Job, pc: Pc, o: Out) {
    Unattended(o.job) ==>
      (o.Go? && Obliged(o.pc)) || (Unattended(j) && !Obliged(pc)) || (HoldsLock(pc) && j.flags.queued != {})
  }

  lemma StepSignal(j: Job, thr: Thr, pc: Pc)
    requires InLibrary(pc) && (pc.UnlockCas? ==> Todo(j, pc.seen) == {})
    requires pc.SchedWrite? || pc.LastWrite? ==> pc.seen == j.flags
    requires HoldsLock(pc) ==> j.flags.locked
    ensures SignalMove(j, pc, StepPc(j, thr, pc))
  {
  }

  lemma MoveSignals(s: State, tid: Tid, o: Out, s': State)
    requires Locals(s) && Lock(s) && Queues(s) && Signals(s) && tid in s.tokens && !s.job.freed && InLibrary(s.tokens[tid].pc)
    requires o == StepPc(s.job, s.tokens[tid].thr, s.tokens[tid].pc)
    requires s' == Apply(s, tid, s.tokens[tid].thr, o)
    ensures Signals(s')
  {
    assert PcOk(s.job, |s.tokens|, s.tokens[tid]);
    StepSignal(s.job, s.tokens[tid].thr, s.tokens[tid].pc);
    SignalGo(s, tid, o, s');
  }

  lemma SignalGo(s: State, tid: Tid, o: Out, s': State)
    requires Queues(s) && Signals(s) && tid in s.tokens && !s.job.freed
    requires SignalMove(s.job, s.tokens[tid].pc, o) && s' == Apply(s, tid, s.tokens[tid].thr, o)
    ensures Signals(s')
  {
    var a := s.tokens[tid];
    if Unattended(s'.job) && !s'.job.freed {
      if o.Go? && Obliged(o.pc) {
        assert Obliged(s'.tokens[tid].pc);
      } else if Unattended(s.job) && !Obliged(a.pc) {
        var u :| u in s.tokens && Obliged(s.tokens[u].pc);
        assert u in s'.tokens && Obliged(s'.tokens[u].pc);
      } else {
        var c :| c in s.job.flags.queued;
        var u :| u in s.tokens && Answers(s.tokens[u].pc, c);
        assert u in s'.tokens && Obliged(s'.tokens[u].pc);
      }
    }
  }

  lemma StepOwed(j: Job, thr: Thr, pc: Pc)
    requires InLibrary(pc) && j.owed == j.flags.pending
    requires pc.SchedWrite? || pc.LastWrite? ==> pc.seen == j.flags
    ensures StepPc(j, thr, pc).job.owed == StepPc(j, thr, pc).job.flags.pending
  {
  }

  /** Every library step keeps the invariant. */
  lemma MoveInv(s: State, tid: Tid, o: Out, s': State)
    requires Inv(s) && tid in s.tokens && InLibrary(s.tokens[tid].pc)
    requires o == StepPc(s.job, s.tokens[tid].thr, s.tokens[tid].pc)
    requires s' == Apply(s, tid, s.tokens[tid].thr, o) && Spared(s, tid, o.job.flags)
    ensures Inv(s')
  {
    assert s.job.freed ==> |s.tokens.Keys - {tid}| < |s.tokens.Keys|;
    assert PcOk(s.job, |s.tokens|, s.tokens[tid]);
    MoveLocals(s, tid, o, s');
    MoveLock(s, tid, o);
    MoveRefs(s, tid, o, s');
    MoveQueues(s, tid, o, s');
    MoveSignals(s, tid, o, s');
    StepOwed(s.job, s.tokens[tid].thr, s.tokens[tid].pc);
  }
}
