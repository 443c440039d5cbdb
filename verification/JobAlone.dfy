/** What the calls of the job library do when nobody else moves: they end, and they deliver. */
module JobAlone {
  import opened JobModel
  import opened JobInv
  import opened JobSteps
  import opened JobTheorems
  import opened Progress

  type Steps = State -> State

  /** The next step of the token's call, if it is in one. */
  ghost function StepOf(tid: Tid): Steps {
    s => Exe(false, s, Move(tid))
  }

  // ----- every call ends

  predicate Final(t: Try) {
    t.SendFirst? && JS_FINISH in t.sigs
  }

  predicate First(t: Try) {
    t.SendFirst? || t.ProcFirst?
  }

  /** A bound on the steps that are left. */
  function Rank(j: Job, pc: Pc): nat {
    var last := JS_FINISH in j.flags.pending;
    match pc
    case UnlockTake(_, _) => 1
    case Pushing(_) => 1
    case Unlock(_) => if last then 3 else 16
    case UnlockQueue(_, seen, _) => (if last then 2 else 15) + (if j.flags == seen then 0 else 2)
    case UnlockCas(_, seen) => if j.flags == seen then 15 else 17
    case LastWrite(_, _) => 10
    case Last(_) => 11
    case DropSet(_) => 12
    case DropSub(_) => 13
    case DropRead(_) => 14
    case SchedWrite(_) => 17
    case RetComplete(_) => 17
    case RetOr(_, _, _) => 18
    case TryCas(t, seen) => if j.flags == seen then (if Final(t) then 7 else 17) else if Final(t) then 9 else if First(t) then 22 else 19
    case TryRead(t) => if Final(t) then 8 else if First(t) then 21 else 18
    case SendOr(_) => 20
    case ProcClear(_) => 20
    case SendRead(sigs) => if JS_FINISH in sigs then 10 else 22
    case Proc(_) => 22
    case _ => 0
  }

  lemma TryRank(j: Job, n: nat, thr: Thr, pc: Pc, o: Out)
    requires Trying(pc) && PcOk(j, n, Act(thr, pc)) && Alone(j, n, pc) && o == StepTry(j, pc)
    ensures o.Go? && Rank(o.job, o.pc) < Rank(j, pc)
  {
  }

  lemma DropRank(j: Job, n: nat, thr: Thr, pc: Pc, o: Out)
    requires Dropping(pc) && PcOk(j, n, Act(thr, pc)) && o == StepDrop(j, pc)
    ensures o.Go? ==> Rank(o.job, o.pc) < Rank(j, pc)
  {
  }

  lemma RestRank(j: Job, n: nat, thr: Thr, pc: Pc, o: Out)
    requires InRest(pc) && PcOk(j, n, Act(thr, pc)) && o == StepRest(j, thr, pc)
    ensures o.Go? && (Rank(o.job, o.pc) < Rank(j, pc) || o.pc.InQueue?)
  {
  }

  lemma UnlockRank(j: Job, n: nat, thr: Thr, pc: Pc, o: Out)
    requires Unlocking(pc) && PcOk(j, n, Act(thr, pc)) && Alone(j, n, pc) && JS_FINISH in j.allowed && o == StepUnlock(j, thr, pc)
    ensures o.Go? && (Rank(o.job, o.pc) < Rank(j, pc) || o.pc.Exec?)
  {
    if JS_FINISH in j.flags.pending { assert JS_FINISH in Todo(j, j.flags); }
  }

  lemma StepRank(s: State, tid: Tid, o: Out)
    requires Inv(s) && tid in s.tokens && !s.job.freed && InLibrary(s.tokens[tid].pc)
    requires o == StepPc(s.job, s.tokens[tid].thr, s.tokens[tid].pc)
    ensures o.Go? ==> Rank(o.job, o.pc) < Rank(s.job, s.tokens[tid].pc)
  {
    var x, n := s.tokens[tid], |s.tokens|;
    AloneFacts(s, tid);
    assert PcOk(s.job, n, x);
    if Trying(x.pc) { TryRank(s.job, n, x.thr, x.pc, o); }
    else if Dropping(x.pc) { DropRank(s.job, n, x.thr, x.pc, o); }
    else if InRest(x.pc) { RestRank(s.job, n, x.thr, x.pc, o); }
    else { UnlockRank(s.job, n, x.thr, x.pc, o); }
  }

  /** Nobody else is between the load and the store of schedule_job. */
  predicate NoScheduler(s: State, tid: Tid) {
    forall u :: u in s.tokens && u != tid ==> !s.tokens[u].pc.SchedWrite?
  }

  /** The token is inside a call. */
  ghost predicate Calling(s: State, tid: Tid) {
    Inv(s) && tid in s.tokens && InLibrary(s.tokens[tid].pc) && NoScheduler(s, tid)
  }

  /** The call has ended: in a handler, in a queue, or with the reference gone. */
  predicate Ended(s: State, tid: Tid) {
    tid in s.tokens ==> s.tokens[tid].pc.Exec? || s.tokens[tid].pc.InQueue?
  }

  /** One step nearer to the end. */
  ghost predicate Nearer(s: State, s1: State, tid: Tid) {
    && Inv(s1) && tid in s.tokens && Rank(s.job, s.tokens[tid].pc) > 0
    && (Ended(s1, tid) || (Calling(s1, tid) && Rank(s1.job, s1.tokens[tid].pc) < Rank(s.job, s.tokens[tid].pc)))
  }

  lemma OneStep(s: State, tid: Tid)
    requires Calling(s, tid)
    ensures Nearer(s, Exe(false, s, Move(tid)), tid)
  {
    TokenMeansAlive(s, tid);
    var o := StepPc(s.job, s.tokens[tid].thr, s.tokens[tid].pc);
    var s1 := Do(s, Move(tid));
    StepRank(s, tid, o);
    OwnMove(s, tid, o, s1);
    if o.Go? && !InLibrary(o.pc) { EndPosition(s.job, s.tokens[tid].thr, s.tokens[tid].pc, o); }
    RankBounds(s.job, s.tokens[tid].pc);
  }

  lemma RankBounds(j: Job, pc: Pc)
    requires InLibrary(pc)
    ensures 0 < Rank(j, pc) <= 22
  {
  }

  lemma OwnMove(s: State, tid: Tid, o: Out, s1: State)
    requires Calling(s, tid) && o == StepPc(s.job, s.tokens[tid].thr, s.tokens[tid].pc) && s1 == Do(s, Move(tid))
    ensures Inv(s1) && NoScheduler(s1, tid) && s1.job == o.job && (tid in s1.tokens <==> o.Go?)
    ensures o.Go? ==> s1.tokens[tid].pc == o.pc
  {
    DoInv(s, Move(tid), s1);
  }

  function RankOf(s: State, tid: Tid): nat {
    if tid in s.tokens then Rank(s.job, s.tokens[tid].pc) else 0
  }

  /** A call whose token moves alone ends, after at most 22 steps: in a handler, in a queue, or with the reference gone. */
  lemma CallEnds(s: State, tid: Tid) returns (k: nat)
    requires Reachable(s) && tid in s.tokens && InLibrary(s.tokens[tid].pc) && NoScheduler(s, tid)
    ensures k <= 22 && Ended(After(StepOf(tid), s, k), tid)
  {
    ReachableInv(s);
    RankBounds(s.job, s.tokens[tid].pc);
    k := EndsFrom(StepOf(tid), s, tid);
  }

  lemma EndsFrom(f: Steps, s: State, tid: Tid) returns (k: nat)
    requires f == StepOf(tid) && Calling(s, tid)
    ensures k <= RankOf(s, tid) && Ended(After(f, s, k), tid)
  {
    forall r | Calling(r, tid)
      ensures RankOf(r, tid) > 0 && (Ended(f(r), tid) || (Calling(f(r), tid) && RankOf(f(r), tid) < RankOf(r, tid)))
    {
      OneStep(r, tid);
    }
    k := Ends(f, r => Calling(r, tid), r => Ended(r, tid), r => RankOf(r, tid), s);
  }

  lemma EndPosition(j: Job, thr: Thr, pc: Pc, o: Out)
    requires InLibrary(pc) && o == StepPc(j, thr, pc) && o.Go? && !InLibrary(o.pc)
    ensures o.pc.Exec? || o.pc.InQueue?
  {
  }

  // ----- a signal is delivered

  /** The state in which the token stands at `pc` of a call by thread `thr`, and the job is `j`. */
  function At(s: State, tid: Tid, thr: Thr, j: Job, pc: Pc): State {
    State(j, s.tokens[tid := Act(thr, pc)])
  }

  lemma Walk(s: State, tid: Tid, thr: Thr, j: Job, pc: Pc, j': Job, pc': Pc)
    requires InLibrary(pc) && StepPc(j, thr, pc) == Go(j', pc')
    ensures StepOf(tid)(At(s, tid, thr, j, pc)) == At(s, tid, thr, j', pc')
  {
    assert s.tokens[tid := Act(thr, pc)][tid := Act(thr, pc')] == s.tokens[tid := Act(thr, pc')];
  }

  /** The class of the signal is one the thread runs, and it may run now. */
  predicate MayRun(j: Job, thr: Thr, sig: Sig) {
    ClassOf(j, sig) in thr.mask && (sig in j.fast || !thr.busy)
  }

  /** The job with the signal posted, the lock taken. */
  function WithSignal(j: Job, sig: Sig): Job {
    j.(flags := j.flags.(locked := true, pending := j.flags.pending + {sig}), owed := j.owed + {sig})
  }

  /** Nothing to do, and nobody at it. */
  predicate Idle(j: Job) {
    !j.flags.locked && j.flags.queued == {} && Todo(j, j.flags) == {} && j.owed == j.flags.pending
  }

  /** From try_lock_job to the decision, for a signal just posted. */
  lemma DecideAlone(j: Job, thr: Thr, sig: Sig)
    requires Idle(j) && sig in j.allowed
    ensures var j3 := WithSignal(j, sig);
            StepPc(j3, thr, Unlock(j.subclass)) ==
              if MayRun(j, thr, sig) then Go(j3, UnlockTake(j.subclass, sig))
              else Go(j3, UnlockQueue(j.subclass, j3.flags, QueueClass(j, sig)))
  {
    var j3 := WithSignal(j, sig);
    assert Todo(j3, j3.flags) == {sig};
    assert Top({sig}) == sig;
  }

  lemma TakeAlone(j: Job, thr: Thr, sig: Sig)
    requires sig !in j.flags.pending && sig !in j.owed
    ensures StepPc(WithSignal(j, sig), thr, UnlockTake(j.subclass, sig)) ==
            Go(j.(flags := j.flags.(locked := true)), Exec(j.subclass, sig))
  {
    assert j.flags.pending + {sig} - {sig} == j.flags.pending && j.owed + {sig} - {sig} == j.owed;
  }

  lemma PostAlone(j: Job, thr: Thr, sig: Sig)
    requires Idle(j) && sig in j.allowed
    ensures StepPc(j, thr, SendRead({sig})) == Go(j, TryRead(SendFirst({sig})))
    ensures StepPc(j, thr, TryRead(SendFirst({sig}))) == Go(j, TryCas(SendFirst({sig}), j.flags))
    ensures StepPc(j, thr, TryCas(SendFirst({sig}), j.flags)) == Go(WithSignal(j, sig), Unlock(j.subclass))
    ensures sig !in j.flags.pending && sig !in j.owed
  {
    assert sig in j.flags.pending ==> sig in Todo(j, j.flags);
    assert sig in {sig};
  }

  /** The job with the signal posted and a queue entry for its class, the lock free. */
  function Queued(j: Job, sig: Sig): Job {
    j.(flags := Flags(false, j.flags.completed, j.flags.pending + {sig}, {QueueClass(j, sig)}), owed := j.owed + {sig})
  }

  lemma QueueAlone(j: Job, thr: Thr, sig: Sig, c: Class)
    requires Idle(j) && c == QueueClass(j, sig)
    ensures var j3 := WithSignal(j, sig);
            StepPc(j3, thr, UnlockQueue(j.subclass, j3.flags, c)) == Go(Queued(j, sig), Pushing(c))
    ensures StepPc(Queued(j, sig), thr, Pushing(c)) == Go(Queued(j, sig), InQueue(c))
  {
    assert j.flags.queued + {c} == {c};
  }

  /**
   * A signal sent to a job that nobody is busy with is executed by the sender's own next five steps, if its class is
   * one the sender's thread runs; otherwise six steps leave it pending, with an entry in the queue of its class.
   */
  lemma SendAlone(s: State, tid: Tid, thr: Thr, sig: Sig)
    requires Reachable(s) && (forall t :: t in s.tokens ==> s.tokens[t].pc.Held?) && tid in s.tokens
    requires sig in s.job.allowed && sig != JS_FINISH
    ensures var s0 := Do(s, Send(tid, thr, {sig})); var j := s.job;
            && (MayRun(j, thr, sig) ==>
                  After(StepOf(tid), s0, 5) == At(s, tid, thr, j.(flags := j.flags.(locked := true)), Exec(j.subclass, sig)))
            && (!MayRun(j, thr, sig) ==>
                  After(StepOf(tid), s0, 6) == At(s, tid, thr, Queued(j, sig), InQueue(QueueClass(j, sig))))
  {
    AliveWith(s, tid);
    QuietMeansDelivered(s);
    ReachableInv(s);
    var j := s.job;
    assert Idle(j) by { assert Todo(j, j.flags) == {}; }
    SendFrom(s, tid, thr, sig, j, StepOf(tid), Do(s, Send(tid, thr, {sig})));
  }

  lemma AliveWith(s: State, tid: Tid)
    requires Reachable(s) && tid in s.tokens
    ensures !s.job.freed
  {
    ReachableInv(s);
    TokenMeansAlive(s, tid);
  }

  lemma SendFrom(s: State, tid: Tid, thr: Thr, sig: Sig, j: Job, f: Steps, s0: State)
    requires Idle(j) && sig in j.allowed && f == StepOf(tid) && s0 == At(s, tid, thr, j, SendRead({sig}))
    ensures MayRun(j, thr, sig) ==> After(f, s0, 5) == At(s, tid, thr, j.(flags := j.flags.(locked := true)), Exec(j.subclass, sig))
    ensures !MayRun(j, thr, sig) ==> After(f, s0, 6) == At(s, tid, thr, Queued(j, sig), InQueue(QueueClass(j, sig)))
  {
    var j3, save, t, c := WithSignal(j, sig), j.subclass, SendFirst({sig}), QueueClass(j, sig);
    PostAlone(j, thr, sig);
    DecideAlone(j, thr, sig);
    Walk(s, tid, thr, j, SendRead({sig}), j, TryRead(t));
    Walk(s, tid, thr, j, TryRead(t), j, TryCas(t, j.flags));
    Walk(s, tid, thr, j, TryCas(t, j.flags), j3, Unlock(save));
    if MayRun(j, thr, sig) {
      TakeAlone(j, thr, sig);
      var j5 := j.(flags := j.flags.(locked := true));
      Walk(s, tid, thr, j3, Unlock(save), j3, UnlockTake(save, sig));
      Walk(s, tid, thr, j3, UnlockTake(save, sig), j5, Exec(save, sig));
      Five(f, s0, At(s, tid, thr, j, TryRead(t)), At(s, tid, thr, j, TryCas(t, j.flags)), At(s, tid, thr, j3, Unlock(save)),
           At(s, tid, thr, j3, UnlockTake(save, sig)), At(s, tid, thr, j5, Exec(save, sig)));
    } else {
      QueueAlone(j, thr, sig, c);
      Walk(s, tid, thr, j3, Unlock(save), j3, UnlockQueue(save, j3.flags, c));
      Walk(s, tid, thr, j3, UnlockQueue(save, j3.flags, c), Queued(j, sig), Pushing(c));
      Walk(s, tid, thr, Queued(j, sig), Pushing(c), Queued(j, sig), InQueue(c));
      Five(f, f(s0), At(s, tid, thr, j, TryCas(t, j.flags)), At(s, tid, thr, j3, Unlock(save)),
           At(s, tid, thr, j3, UnlockQueue(save, j3.flags, c)), At(s, tid, thr, Queued(j, sig), Pushing(c)),
           At(s, tid, thr, Queued(j, sig), InQueue(c)));
    }
  }

  // ----- an entry of a queue is processed

  /** Nobody else is inside the library or a handler. */
  predicate OthersHeld(s: State, tid: Tid) {
    tid in s.tokens && forall t :: t in s.tokens && t != tid ==> s.tokens[t].pc.Held?
  }

  lemma QueueUnlocked(s: State, tid: Tid)
    requires Inv(s) && !s.job.freed && OthersHeld(s, tid) && !HoldsLock(s.tokens[tid].pc)
    ensures !s.job.flags.locked
  {
  }

  function Locked(j: Job, qf: set<Class>): Job {
    j.(flags := j.flags.(locked := true, queued := j.flags.queued - qf))
  }

  lemma ProcessSteps(j: Job, thr: Thr, c: Class, sig: Sig, qf: set<Class>)
    requires !j.flags.locked && Todo(j, j.flags) != {} && sig == Top(Todo(j, j.flags)) && qf == j.flags.queued * thr.mask && MayRun(j, thr, sig)
    ensures StepPc(j, thr, Proc(c)) == Go(j, TryRead(ProcFirst(qf)))
    ensures StepPc(j, thr, TryRead(ProcFirst(qf))) == Go(j, TryCas(ProcFirst(qf), j.flags))
    ensures StepPc(j, thr, TryCas(ProcFirst(qf), j.flags)) == Go(Locked(j, qf), Unlock(j.subclass))
    ensures StepPc(Locked(j, qf), thr, Unlock(j.subclass)) == Go(Locked(j, qf), UnlockTake(j.subclass, sig))
  {
    assert Todo(Locked(j, qf), Locked(j, qf).flags) == Todo(j, j.flags);
  }

  /** An entry that a thread takes from its queue gives the greatest pending allowed signal to the handler, if the thread may run it. */
  lemma PopAlone(s: State, tid: Tid, thr: Thr, sig: Sig)
    requires Reachable(s) && OthersHeld(s, tid) && s.tokens[tid].pc.InQueue? && s.tokens[tid].pc.c in thr.mask
    requires Todo(s.job, s.job.flags) != {} && sig == Top(Todo(s.job, s.job.flags)) && MayRun(s.job, thr, sig)
    ensures var r := After(StepOf(tid), Do(s, Pop(tid, thr)), 5);
            tid in r.tokens && r.tokens[tid].pc == Exec(s.job.subclass, sig) && r.job.owed == s.job.owed - {sig} && r.job.flags.locked
  {
    AliveWith(s, tid);
    ReachableInv(s);
    QueueUnlocked(s, tid);
    var j, c := s.job, s.tokens[tid].pc.c;
    var qf, save := j.flags.queued * thr.mask, j.subclass;
    var t, j3 := ProcFirst(qf), Locked(j, qf);
    ProcessSteps(j, thr, c, sig, qf);
    var j5 := j3.(flags := j3.flags.(pending := j3.flags.pending - {sig}), owed := j3.owed - {sig});
    assert StepPc(j3, thr, UnlockTake(save, sig)) == Go(j5, Exec(save, sig));
    Walk(s, tid, thr, j, Proc(c), j, TryRead(t));
    Walk(s, tid, thr, j, TryRead(t), j, TryCas(t, j.flags));
    Walk(s, tid, thr, j, TryCas(t, j.flags), j3, Unlock(save));
    Walk(s, tid, thr, j3, Unlock(save), j3, UnlockTake(save, sig));
    Walk(s, tid, thr, j3, UnlockTake(save, sig), j5, Exec(save, sig));
    Five(StepOf(tid), At(s, tid, thr, j, Proc(c)), At(s, tid, thr, j, TryRead(t)), At(s, tid, thr, j, TryCas(t, j.flags)),
         At(s, tid, thr, j3, Unlock(save)), At(s, tid, thr, j3, UnlockTake(save, sig)), At(s, tid, thr, j5, Exec(save, sig)));
  }

  // ----- a handler returns

  lemma ReturnSteps(j: Job, thr: Thr, save: int)
    requires Todo(j, j.flags) == {} && j.owed == j.flags.pending
    ensures StepPc(j, thr, RetOr(save, {}, false)) == Go(j, Unlock(save))
    ensures StepPc(j, thr, Unlock(save)) == Go(j, UnlockCas(save, j.flags))
    ensures StepPc(j, thr, UnlockCas(save, j.flags)) == Go(j.(flags := j.flags.(locked := false)), DropRead(Unlocker(save)))
  {
    assert j.flags.pending + {} == j.flags.pending && j.owed + {} == j.owed;
  }

  lemma GoneAlone(s: State, tid: Tid, thr: Thr, j: Job, pc: Pc, j': Job)
    requires InLibrary(pc) && StepPc(j, thr, pc) == Gone(j')
    ensures StepOf(tid)(At(s, tid, thr, j, pc)) == State(j', s.tokens - {tid})
  {
    assert s.tokens[tid := Act(thr, pc)] - {tid} == s.tokens - {tid};
  }

  /** From the return of the handler to the reference count. */
  lemma ReturnWalk(s: State, tid: Tid, thr: Thr, j: Job, save: int, j3: Job)
    requires Todo(j, j.flags) == {} && j.owed == j.flags.pending && j3 == j.(flags := j.flags.(locked := false))
    ensures After(StepOf(tid), At(s, tid, thr, j, RetOr(save, {}, false)), 3) == At(s, tid, thr, j3, DropRead(Unlocker(save)))
  {
    ReturnSteps(j, thr, save);
    Walk(s, tid, thr, j, RetOr(save, {}, false), j, Unlock(save));
    Walk(s, tid, thr, j, Unlock(save), j, UnlockCas(save, j.flags));
    Walk(s, tid, thr, j, UnlockCas(save, j.flags), j3, DropRead(Unlocker(save)));
    Three(StepOf(tid), At(s, tid, thr, j, RetOr(save, {}, false)), At(s, tid, thr, j, Unlock(save)), At(s, tid, thr, j, UnlockCas(save, j.flags)),
          At(s, tid, thr, j3, DropRead(Unlocker(save))));
  }

  lemma DropWalk(s: State, tid: Tid, thr: Thr, j: Job, u: Dropper)
    requires j.refcnt >= 2
    ensures After(StepOf(tid), At(s, tid, thr, j, DropRead(u)), 2) == State(j.(refcnt := j.refcnt - 1), s.tokens - {tid})
  {
    Walk(s, tid, thr, j, DropRead(u), j, DropSub(u));
    GoneAlone(s, tid, thr, j, DropSub(u), j.(refcnt := j.refcnt - 1));
    Two(StepOf(tid), At(s, tid, thr, j, DropRead(u)), At(s, tid, thr, j, DropSub(u)), State(j.(refcnt := j.refcnt - 1), s.tokens - {tid}));
  }

  lemma LastWalk(s: State, tid: Tid, thr: Thr, j: Job, save: int)
    requires j.refcnt == 1
    ensures After(StepOf(tid), At(s, tid, thr, j, DropRead(Unlocker(save))), 2) == At(s, tid, thr, j, LastWrite(save, j.flags))
  {
    var u := Unlocker(save);
    Walk(s, tid, thr, j, DropRead(u), j, Last(u));
    Walk(s, tid, thr, j, Last(u), j, LastWrite(save, j.flags));
    Two(StepOf(tid), At(s, tid, thr, j, DropRead(u)), At(s, tid, thr, j, Last(u)), At(s, tid, thr, j, LastWrite(save, j.flags)));
  }

  lemma ReturnStart(s: State, tid: Tid)
    requires tid in s.tokens && s.tokens[tid].pc.Exec? && s.tokens[tid].pc.sig != JS_FINISH
    ensures Do(s, Return(tid, {}, false)) == At(s, tid, s.tokens[tid].thr, s.job, RetOr(s.tokens[tid].pc.save, {}, false))
  {
  }

  /** When the handler returns and nothing is left to do, five steps free the lock and give the reference back, if it is not the last one. */
  lemma ReturnAlone(s: State, tid: Tid, k: nat)
    requires Reachable(s) && OthersHeld(s, tid) && s.tokens[tid].pc.Exec? && s.tokens[tid].pc.sig != JS_FINISH
    requires Todo(s.job, s.job.flags) == {} && s.job.refcnt >= 2 && k == 5
    ensures After(StepOf(tid), Do(s, Return(tid, {}, false)), k) ==
            State(s.job.(flags := s.job.flags.(locked := false), refcnt := s.job.refcnt - 1), s.tokens - {tid})
  {
    ReachableInv(s);
    var j, thr, save := s.job, s.tokens[tid].thr, s.tokens[tid].pc.save;
    var j3 := j.(flags := j.flags.(locked := false));
    ReturnStart(s, tid);
    ReturnWalk(s, tid, thr, j, save, j3);
    DropWalk(s, tid, thr, j3, Unlocker(save));
    Joined(StepOf(tid), At(s, tid, thr, j, RetOr(save, {}, false)), 3, At(s, tid, thr, j3, DropRead(Unlocker(save))), 2,
           State(j3.(refcnt := j3.refcnt - 1), s.tokens - {tid}), k);
  }

  /** If it is the last one, JS_FINISH is executed instead, with the only token, in three steps more. */
  lemma LastReturnAlone(s: State, tid: Tid, k: nat) returns (r: State)
    requires Reachable(s) && OthersHeld(s, tid) && s.tokens[tid].pc.Exec? && s.tokens[tid].pc.sig != JS_FINISH
    requires Todo(s.job, s.job.flags) == {} && s.job.refcnt == 1 && k == 8
    requires MayRun(s.job, s.tokens[tid].thr, JS_FINISH) && s.job.subclass == s.tokens[tid].pc.save
    ensures r == After(StepOf(tid), Do(s, Return(tid, {}, false)), k)
    ensures tid in r.tokens && r.tokens[tid].pc == Exec(s.job.subclass, JS_FINISH) && r.job.flags.locked && r.tokens.Keys == s.tokens.Keys
  {
    ReachableInv(s);
    var j, thr, save := s.job, s.tokens[tid].thr, s.tokens[tid].pc.save;
    var j3 := j.(flags := j.flags.(locked := false));
    ReturnStart(s, tid);
    ReturnWalk(s, tid, thr, j, save, j3);
    LastWalk(s, tid, thr, j3, save);
    r := FinishAlone(s, tid, thr, j3, save);
    var s0, s3, s5 := At(s, tid, thr, j, RetOr(save, {}, false)), At(s, tid, thr, j3, DropRead(Unlocker(save))), At(s, tid, thr, j3, LastWrite(save, j3.flags));
    Joined(StepOf(tid), s3, 2, s5, 3, r, k - 3);
    Joined(StepOf(tid), s0, 3, s3, k - 3, r, k);
  }

  lemma FinishAlone(s: State, tid: Tid, thr: Thr, j: Job, save: int) returns (r: State)
    requires tid in s.tokens && JS_FINISH in j.allowed && MayRun(j, thr, JS_FINISH) && j.subclass == save
    ensures After(StepOf(tid), At(s, tid, thr, j, LastWrite(save, j.flags)), 3) == r
    ensures tid in r.tokens && r.tokens[tid].pc == Exec(save, JS_FINISH) && r.job.flags.locked && r.tokens.Keys == s.tokens.Keys
  {
    var f := StepOf(tid);
    var j1 := j.(flags := j.flags.(locked := true, pending := j.flags.pending + {JS_FINISH}), owed := j.owed + {JS_FINISH});
    var j3 := j1.(flags := j1.flags.(pending := j1.flags.pending - {JS_FINISH}), owed := j1.owed - {JS_FINISH});
    assert JS_FINISH in Todo(j1, j1.flags) && Top(Todo(j1, j1.flags)) == JS_FINISH;
    Walk(s, tid, thr, j, LastWrite(save, j.flags), j1, Unlock(save));
    Walk(s, tid, thr, j1, Unlock(save), j1, UnlockTake(save, JS_FINISH));
    Walk(s, tid, thr, j1, UnlockTake(save, JS_FINISH), j3, Exec(save, JS_FINISH));
    var s0 := At(s, tid, thr, j, LastWrite(save, j.flags));
    r := At(s, tid, thr, j3, Exec(save, JS_FINISH));
    assert After(f, s0, 3) == After(f, f(s0), 2) == After(f, f(f(s0)), 1) == After(f, f(f(f(s0))), 0);
  }
}
