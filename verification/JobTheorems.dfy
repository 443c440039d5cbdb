/** What every run of the job system keeps, and what follows from it. */
module JobTheorems {
  import opened JobModel
  import opened JobInv
  import opened JobSteps

  // ----- actions of user code and of the threads

  /** The new position keeps the lock, the business and the queued bits of the one before. */
  predicate Replaces(pc: Pc, pc': Pc) {
    && HoldsLock(pc') == HoldsLock(pc) && (Obliged(pc) ==> Obliged(pc'))
    && (forall c :: Answers(pc, c) ==> Answers(pc', c))
    && !pc.DropSet? && !pc'.DropSet?
  }

  /** A token changes position without touching the job. */
  lemma PutInv(s: State, tid: Tid, thr: Thr, pc: Pc)
    requires Inv(s) && tid in s.tokens && !s.job.freed
    requires Replaces(s.tokens[tid].pc, pc) && PcOk(s.job, |s.tokens|, Act(thr, pc))
    ensures Inv(Put(s, tid, thr, pc))
  {
    var s' := Put(s, tid, thr, pc);
    assert s'.tokens.Keys == s.tokens.Keys;
    LockGo(s, tid, thr, s.job, pc);
    PutWitnesses(s, tid, thr, pc);
    NoOtherWindow(s, tid);
    assert Locals(s');
    assert Refs(s');
  }

  lemma PutWitnesses(s: State, tid: Tid, thr: Thr, pc: Pc)
    requires Queues(s) && Signals(s) && tid in s.tokens && !s.job.freed
    requires Replaces(s.tokens[tid].pc, pc)
    ensures Queues(Put(s, tid, thr, pc)) && Signals(Put(s, tid, thr, pc))
  {
    var s' := Put(s, tid, thr, pc);
    forall c | c in s'.job.flags.queued ensures exists t :: t in s'.tokens && Answers(s'.tokens[t].pc, c) {
      var u :| u in s.tokens && Answers(s.tokens[u].pc, c);
      assert u in s'.tokens && Answers(s'.tokens[u].pc, c);
    }
    if Unattended(s'.job) {
      var u :| u in s.tokens && Obliged(s.tokens[u].pc);
      assert u in s'.tokens && Obliged(s'.tokens[u].pc);
    }
  }

  /** User code that holds a token is never on the way to JS_FINISH. */
  lemma UserNotFinishing(s: State, tid: Tid)
    requires Locals(s) && tid in s.tokens && (UserCode(s.tokens[tid].pc) || s.tokens[tid].pc.Exec?)
    ensures JS_FINISH !in s.job.flags.pending
  {
    assert PcOk(s.job, |s.tokens|, s.tokens[tid]);
  }

  lemma IncrefInv(s: State, src: Tid, dup: Tid, s': State)
    requires Inv(s) && Enabled(s, Incref(src, dup)) && !s.job.freed && s' == Do(s, Incref(src, dup))
    ensures Inv(s')
  {
    UserNotFinishing(s, src);
    NoOtherWindow(s, src);
    assert s'.tokens.Keys == s.tokens.Keys + {dup};
    forall u | u in s'.tokens ensures PcOk(s'.job, |s'.tokens|, s'.tokens[u]) && !s'.tokens[u].pc.DropSet? {
      if u != dup && u != src {
        TwoTokens(s, src, u);
        assert PcOk(s.job, |s.tokens|, s.tokens[u]);
        OtherOk(s, s', src, u);
      }
    }
    IncrefWitnesses(s, src, dup, s');
  }

  lemma IncrefWitnesses(s: State, src: Tid, dup: Tid, s': State)
    requires Lock(s) && Queues(s) && Signals(s) && Enabled(s, Incref(src, dup)) && !s.job.freed
    requires s' == Do(s, Incref(src, dup))
    ensures Lock(s') && Queues(s') && Signals(s')
  {
    forall c | c in s'.job.flags.queued ensures exists t :: t in s'.tokens && Answers(s'.tokens[t].pc, c) {
      var u :| u in s.tokens && Answers(s.tokens[u].pc, c);
      assert u in s'.tokens && Answers(s'.tokens[u].pc, c);
    }
    if Unattended(s'.job) {
      var u :| u in s.tokens && Obliged(s.tokens[u].pc);
      assert u in s'.tokens && Obliged(s'.tokens[u].pc);
    }
    if s'.job.flags.locked {
      var u :| u in s.tokens && HoldsLock(s.tokens[u].pc);
      assert u in s'.tokens && HoldsLock(s'.tokens[u].pc);
    }
  }

  lemma ReturnFinish(s: State, tid: Tid)
    requires Inv(s) && !s.job.freed && tid in s.tokens && s.tokens[tid].pc.Exec? && s.tokens[tid].pc.sig == JS_FINISH
    ensures Inv(State(s.job.(freed := true), s.tokens - {tid}))
  {
    var s' := State(s.job.(freed := true), s.tokens - {tid});
    assert PcOk(s.job, |s.tokens|, s.tokens[tid]);
    assert s'.tokens.Keys == s.tokens.Keys - {tid};
    assert |s'.tokens.Keys| == 0;
    assert s'.tokens == map[];
  }

  lemma ChangeInv(s: State, a: Action, s': State)
    requires Inv(s) && a.Change? && Enabled(s, a) && !s.job.freed && s' == Do(s, a)
    ensures Inv(s')
  {
    assert s'.job.flags == s.job.flags && s'.tokens == s.tokens;
    forall u | u in s'.tokens ensures PcOk(s'.job, |s'.tokens|, s'.tokens[u]) {
      assert PcOk(s.job, |s.tokens|, s.tokens[u]);
      assert u != a.tid ==> !HoldsLock(s.tokens[u].pc);
    }
    assert HoldsLock(s.tokens[a.tid].pc);
    assert Locals(s') && Lock(s') && Refs(s') && Queues(s');
  }

  /** Calls that begin, and j_execute returning: the token moves, the job stays. */
  lemma CallInv(s: State, tid: Tid, a: Action, s': State)
    requires Inv(s) && Enabled(s, a) && !s.job.freed && s' == Do(s, a)
    requires (a.Send? || a.Drop? || a.Schedule? || a.Release? || a.Return?) && tid == a.tid
    ensures Inv(s')
  {
    UserNotFinishing(s, tid);
    NoOtherWindow(s, tid);
    match a
    case Send(_, thr, sigs) => PutInv(s, tid, thr, SendRead(sigs));
    case Drop(_, thr) => PutInv(s, tid, thr, DropRead(Decref));
    case Schedule(_) => PutInv(s, tid, s.tokens[tid].thr, SchedWrite(s.job.flags));
    case Release(_) => PutInv(s, tid, s.tokens[tid].thr, Unlock(s.job.subclass));
    case Return(_, sigs, done) =>
      if s.tokens[tid].pc.sig == JS_FINISH {
        ReturnFinish(s, tid);
      } else {
        PutInv(s, tid, s.tokens[tid].thr, RetOr(s.tokens[tid].pc.save, sigs, done));
      }
  }

  lemma PopInv(s: State, tid: Tid, thr: Thr)
    requires Inv(s) && Enabled(s, Pop(tid, thr)) && !s.job.freed
    ensures Inv(Do(s, Pop(tid, thr)))
  {
    assert PcOk(s.job, |s.tokens|, s.tokens[tid]);
    PutInv(s, tid, thr, Proc(s.tokens[tid].pc.c));
  }

  /** A job with a token has not been freed. */
  lemma TokenMeansAlive(s: State, tid: Tid)
    requires Refs(s) && tid in s.tokens
    ensures !s.job.freed
  {
    assert s.job.freed ==> |s.tokens.Keys - {tid}| < |s.tokens.Keys|;
  }

  /** Every action keeps the invariant. */
  lemma DoInv(s: State, a: Action, s': State)
    requires Inv(s) && Permitted(true, s, a) && s' == Do(s, a)
    ensures Inv(s')
  {
    TokenMeansAlive(s, if a.Incref? then a.src else a.tid);
    match a
    case Move(tid) => MoveInv(s, tid, StepPc(s.job, s.tokens[tid].thr, s.tokens[tid].pc), s');
    case Incref(src, dup) => IncrefInv(s, src, dup, s');
    case Pop(tid, thr) => PopInv(s, tid, thr);
    case Change(_, _, _, _, _) => ChangeInv(s, a, s');
    case _ => CallInv(s, a.tid, a, s');
  }

  /** Every reachable state satisfies the invariant, when nobody disturbs schedule_job between its load and its store. */
  lemma {:induction false} RunOk(tid: Tid, thr: Thr, allowed: set<Sig>, fast: set<Sig>, sigclass: seq<Class>, subclass: int,
                                 actions: seq<Action>)
    requires JS_FINISH in allowed
    ensures Inv(Run(true, Init(tid, thr, allowed, fast, sigclass, subclass), actions))
  {
    var s0 := Init(tid, thr, allowed, fast, sigclass, subclass);
    if |actions| == 0 {
      assert s0.tokens.Keys == {tid};
      assert HoldsLock(s0.tokens[tid].pc);
      assert Lock(s0);
    } else {
      RunOk(tid, thr, allowed, fast, sigclass, subclass, actions[..|actions| - 1]);
      var s := Run(true, s0, actions[..|actions| - 1]);
      var a := actions[|actions| - 1];
      if Permitted(true, s, a) { DoInv(s, a, Do(s, a)); }
    }
  }

  // ----- mutual exclusion

  /** The reachable states: runs of one job from its creation in which nobody disturbs schedule_job. */
  ghost predicate Reachable(s: State) {
    exists tid: Tid, thr: Thr, allowed: set<Sig>, fast: set<Sig>, sigclass: seq<Class>, subclass: int, actions: seq<Action> ::
      Begins(s, tid, thr, allowed, fast, sigclass, subclass, actions)
  }

  predicate Begins(s: State, tid: Tid, thr: Thr, allowed: set<Sig>, fast: set<Sig>, sigclass: seq<Class>, subclass: int,
                   actions: seq<Action>) {
    JS_FINISH in allowed && s == Run(true, Init(tid, thr, allowed, fast, sigclass, subclass), actions)
  }

  lemma ReachableInv(s: State)
    requires Reachable(s)
    ensures Inv(s)
  {
    var tid: Tid, thr: Thr, allowed: set<Sig>, fast: set<Sig>, sigclass: seq<Class>, subclass: int, actions: seq<Action> :|
      Begins(s, tid, thr, allowed, fast, sigclass, subclass, actions);
    RunOk(tid, thr, allowed, fast, sigclass, subclass, actions);
  }

  /** The handler of a job never runs twice at once, and nobody else is inside unlock_job meanwhile. */
  lemma ExclusiveExecution(s: State, t: Tid, u: Tid)
    requires Reachable(s) && t in s.tokens && u in s.tokens && s.tokens[t].pc.Exec? && HoldsLock(s.tokens[u].pc)
    ensures t == u && s.job.flags.locked
  {
    ReachableInv(s);
  }

  // ----- signals

  /** A call of job_send_signals that has not yet posted `sigs`. */
  predicate Sending(pc: Pc, sigs: set<Sig>) {
    pc == SendRead(sigs) || pc == SendOr(sigs) || (Trying(pc) && pc.t == SendFirst(sigs))
  }

  /** The step with which job_send_signals leaves its sending part finds or makes its signals owed. */
  lemma SendPosts(s: State, tid: Tid, sigs: set<Sig>)
    requires Reachable(s) && tid in s.tokens && Sending(s.tokens[tid].pc, sigs)
    ensures var s' := Do(s, Move(tid));
            tid in s'.tokens && (Sending(s'.tokens[tid].pc, sigs) || sigs <= s'.job.owed)
  {
    ReachableInv(s);
  }

  /** A signal leaves the owed set only by the step that starts the handler for it. */
  lemma OwedUntilTaken(s: State, a: Action, sig: Sig)
    requires Reachable(s) && Permitted(true, s, a) && sig in s.job.owed
    ensures var s' := Do(s, a);
            sig in s'.job.owed || (a.Move? && s'.tokens[a.tid].pc.Exec? && s'.tokens[a.tid].pc.sig == sig)
  {
    ReachableInv(s);
    if a.Move? {
      assert PcOk(s.job, |s.tokens|, s.tokens[a.tid]);
      StepTaken(s.job, s.tokens[a.tid].thr, s.tokens[a.tid].pc, sig);
    }
  }

  lemma StepTaken(j: Job, thr: Thr, pc: Pc, sig: Sig)
    requires InLibrary(pc) && sig in j.owed
    ensures var o := StepPc(j, thr, pc);
            sig in o.job.owed || (o.Go? && o.pc.Exec? && o.pc.sig == sig)
  {
  }

  /** An allowed signal that is owed always has a token that holds the lock or will still try to take it. */
  lemma SignalHasServant(s: State, sig: Sig)
    requires Reachable(s) && !s.job.freed && sig in s.job.owed && sig in s.job.allowed
    ensures exists t :: t in s.tokens && (HoldsLock(s.tokens[t].pc) || Obliged(s.tokens[t].pc))
  {
    ReachableInv(s);
    assert sig in Todo(s.job, s.job.flags);
  }

  /** When every token is in user hands, no allowed signal is left: every one sent has been taken. */
  lemma QuietMeansDelivered(s: State)
    requires Reachable(s) && !s.job.freed && forall t :: t in s.tokens ==> s.tokens[t].pc.Held?
    ensures s.job.owed !! s.job.allowed && s.job.flags.queued == {} && !s.job.flags.locked
  {
    ReachableInv(s);
    forall sig | sig in s.job.owed ensures sig !in s.job.allowed {
      if sig in s.job.allowed { SignalHasServant(s, sig); }
    }
  }

  // ----- references

  /** The counter is the number of tokens, except between the last decrement and the store that undoes it. */
  lemma CounterCountsTokens(s: State)
    requires Reachable(s) && !s.job.freed
    ensures |s.tokens| > 0 && (s.job.refcnt == |s.tokens| || (s.job.refcnt == 0 && |s.tokens| == 1))
  {
    ReachableInv(s);
    if Window(s) {
      var t :| t in s.tokens && s.tokens[t].pc.DropSet?;
      assert PcOk(s.job, |s.tokens|, s.tokens[t]);
    }
  }

  /** The JS_FINISH handler, and the code that sends the signal, run only with the only token. */
  lemma FinishIsLast(s: State, t: Tid, u: Tid)
    requires Reachable(s) && t in s.tokens && u in s.tokens
    requires (s.tokens[t].pc.Exec? && s.tokens[t].pc.sig == JS_FINISH) || s.tokens[t].pc.Last?
    ensures t == u && (s.tokens[t].pc.Last? ==> s.job.refcnt == 1)
  {
    ReachableInv(s);
    assert PcOk(s.job, |s.tokens|, s.tokens[t]);
    OneToken(s, t, u);
  }

  /** The short cut of job_send_signals never drops the last reference of a job with JS_FINISH pending. */
  lemma SendShortcut(s: State, tid: Tid)
    requires Reachable(s) && tid in s.tokens && s.tokens[tid].pc.SendRead?
    ensures s.job.refcnt > 0 && (s.job.refcnt > 1 || JS_FINISH !in s.job.flags.pending)
  {
    ReachableInv(s);
    TokenMeansAlive(s, tid);
    NoOtherWindow(s, tid);
    assert PcOk(s.job, |s.tokens|, s.tokens[tid]);
  }

  /** A freed job has no token left, so no run continues on it: it is freed once and never touched again. */
  lemma {:induction false} FreedIsFinal(s: State, actions: seq<Action>)
    requires Reachable(s) && s.job.freed
    ensures Run(true, s, actions) == s
  {
    if |actions| > 0 {
      FreedIsFinal(s, actions[..|actions| - 1]);
      ReachableInv(s);
    }
  }

  // ----- schedule_job

  /** The creator has let go of the job, or is alone in schedule_job. */
  predicate Settled(s: State) {
    forall t :: t in s.tokens ==> !s.tokens[t].pc.Creating? && (s.tokens[t].pc.SchedWrite? ==> |s.tokens| == 1)
  }

  /** Alone, schedule_job cannot be disturbed. */
  lemma SettledStep(s: State, a: Action)
    requires Settled(s) && Enabled(s, a)
    ensures Settled(Do(s, a)) && Undisturbed(s, a)
  {
    var actor := if a.Incref? then a.src else a.tid;
    forall u | u in s.tokens && s.tokens[u].pc.SchedWrite? ensures u == actor { OneToken(s, u, actor); }
  }

  /** Once schedule_job is done, or is running with the only reference, the caution about it has nothing left to say. */
  lemma {:induction false} SafeAfterwards(s: State, actions: seq<Action>)
    requires Inv(s) && Settled(s)
    ensures Inv(Run(false, s, actions)) && Settled(Run(false, s, actions))
  {
    if |actions| > 0 {
      SafeAfterwards(s, actions[..|actions| - 1]);
      var s1 := Run(false, s, actions[..|actions| - 1]);
      var a := actions[|actions| - 1];
      if Enabled(s1, a) {
        SettledStep(s1, a);
        DoInv(s1, a, Do(s1, a));
      }
    }
  }

  lemma OnlyCreator(s: State, tid: Tid)
    requires Lock(s) && tid in s.tokens && s.tokens[tid].pc.Creating? && |s.tokens| == 1
    ensures Settled(Do(s, Schedule(tid)))
  {
    assert Do(s, Schedule(tid)).tokens.Keys == s.tokens.Keys;
    forall t | t in s.tokens ensures t == tid { OneToken(s, t, tid); }
  }

  /** The interleaving that loses a signal: the sender's OR falls between schedule_job's load and its store. */
  function LosingRun(tid: Tid, u: Tid, thr: Thr, sig: Sig): seq<Action> {
    [Send(u, thr, {sig}), Move(u), Move(u), Move(u), Move(tid)]
  }

  lemma RunFive(s: State, a: Action, b: Action, c: Action, d: Action, e: Action)
    ensures Run(false, s, [a, b, c, d, e]) ==
            Exe(false, Exe(false, Exe(false, Exe(false, Exe(false, s, a), b), c), d), e)
  {
    var none: seq<Action> := [];
    assert none + [a] == [a] && [a] + [b] == [a, b] && [a, b] + [c] == [a, b, c];
    assert [a, b, c] + [d] == [a, b, c, d] && [a, b, c, d] + [e] == [a, b, c, d, e];
    RunMore(s, none, a);
    RunMore(s, [a], b);
    RunMore(s, [a, b], c);
    RunMore(s, [a, b, c], d);
    RunMore(s, [a, b, c, d], e);
  }

  lemma RunMore(s: State, actions: seq<Action>, a: Action)
    ensures Run(false, s, actions + [a]) == Exe(false, Run(false, s, actions), a)
  {
    assert (actions + [a])[..|actions|] == actions;
  }

  /** Three steps of job_send_signals on a job that is locked by somebody else. */
  lemma SendToLocked(s: State, u: Tid, sig: Sig)
    requires s.job.flags.locked && u in s.tokens && s.tokens[u].pc == SendRead({sig}) && sig !in s.job.flags.pending
    ensures var s' := Exe(false, Exe(false, Exe(false, s, Move(u)), Move(u)), Move(u));
            && sig in s'.job.owed
            && forall t :: t in s.tokens && t != u ==> t in s'.tokens && s'.tokens[t] == s.tokens[t]
  {
    assert sig in {sig} && !({sig} <= s.job.flags.pending);
    var s2 := Exe(false, s, Move(u));
    assert s2 == Put(s, u, s.tokens[u].thr, TryRead(SendFirst({sig})));
    var s3 := Exe(false, s2, Move(u));
    assert s3 == Put(s2, u, s.tokens[u].thr, SendOr({sig}));
  }

  /** The store of schedule_job forgets what was posted since its load. */
  lemma ScheduleStore(s: State, tid: Tid, sig: Sig)
    requires tid in s.tokens && s.tokens[tid].pc.SchedWrite? && sig != JS_RUN
    requires sig in s.job.owed && sig !in s.tokens[tid].pc.seen.pending
    ensures var s' := Exe(false, s, Move(tid));
            sig in s'.job.owed && sig !in s'.job.flags.pending
  {
  }

  /** With a second reference in somebody's hands, schedule_job can lose any new signal sent through it. */
  lemma ScheduleRace(s: State, tid: Tid, u: Tid, thr: Thr, sig: Sig)
    requires tid in s.tokens && s.tokens[tid].pc.Creating? && s.job.flags.locked
    requires u in s.tokens && u != tid && s.tokens[u].pc.Held?
    requires sig != JS_RUN && sig != JS_FINISH && sig !in s.job.flags.pending
    ensures var s' := Run(false, Do(s, Schedule(tid)), LosingRun(tid, u, thr, sig));
            sig in s'.job.owed && sig !in s'.job.flags.pending
  {
    var s0 := Do(s, Schedule(tid));
    RunFive(s0, Send(u, thr, {sig}), Move(u), Move(u), Move(u), Move(tid));
    var s1 := Exe(false, s0, Send(u, thr, {sig}));
    assert s1 == Put(s0, u, thr, SendRead({sig}));
    SendToLocked(s1, u, sig);
    ScheduleStore(Exe(false, Exe(false, Exe(false, s1, Move(u)), Move(u)), Move(u)), tid, sig);
  }

  /**
   * schedule_job stores the flags it loaded without a lock prefix. When the other references are in
   * user hands and some signal could still be sent, no continuation loses a signal exactly when the
   * caller holds the only reference.
   */
  lemma ScheduleSafeIff(s: State, tid: Tid, sig: Sig)
    requires Reachable(s) && tid in s.tokens && s.tokens[tid].pc.Creating?
    requires forall t :: t in s.tokens && t != tid ==> s.tokens[t].pc.Held?
    requires sig != JS_RUN && sig != JS_FINISH && sig !in s.job.flags.pending
    ensures (forall actions: seq<Action> :: Owed(Run(false, Do(s, Schedule(tid)), actions))) <==> s.job.refcnt == 1
  {
    ReachableInv(s);
    TokenMeansAlive(s, tid);
    NoOtherWindow(s, tid);
    var s0 := Do(s, Schedule(tid));
    if s.job.refcnt == 1 {
      OnlyCreator(s, tid);
      CallInv(s, tid, Schedule(tid), s0);
      forall actions: seq<Action> ensures Owed(Run(false, s0, actions)) { SafeAfterwards(s0, actions); }
    } else {
      SecondToken(s, tid);
      var u :| u in s.tokens && u != tid;
      assert HoldsLock(s.tokens[tid].pc);
      ScheduleRace(s, tid, u, s.tokens[u].thr, sig);
      assert !Owed(Run(false, s0, LosingRun(tid, u, s.tokens[u].thr, sig)));
    }
  }

  lemma SecondToken(s: State, tid: Tid)
    requires tid in s.tokens && |s.tokens| != 1
    ensures exists u :: u in s.tokens && u != tid
  {
    var rest := s.tokens.Keys - {tid};
    assert s.tokens.Keys == rest + {tid};
    var u :| u in rest;
  }
}
