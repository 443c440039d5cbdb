/** The semaphore: when a consumer is let in, and when mpq_pop_nw may give up. */
module MpqPermits {
  import opened MpqBlock
  import opened MpqList
  import opened MpqListInv
  import opened MpqListSteps
  import opened MpqListCounts
  import opened MpqTheorems
  import opened MpqAlone
  import opened MpqSolo
  import opened Progress

  // ----- permits are values

  predicate TakenArePlaced(blocks: seq<Block>) {
    forall b :: 0 <= b < |blocks| ==> blocks[b].taken <= blocks[b].placed.Keys
  }

  lemma SubsetSize(a: set<nat>, b: set<nat>)
    requires a <= b
    ensures |a| <= |b| && (|a| == |b| <==> a == b)
  {
    assert b == a + (b - a);
  }

  /** As many taken as placed means that all are taken. */
  lemma {:induction false} CountsMeet(blocks: seq<Block>)
    requires TakenArePlaced(blocks)
    ensures TakenCount(blocks) <= PlacedCount(blocks)
    ensures TakenCount(blocks) == PlacedCount(blocks) <==> forall b :: 0 <= b < |blocks| ==> blocks[b].taken == blocks[b].placed.Keys
  {
    if |blocks| > 0 {
      var p, b := blocks[..|blocks| - 1], blocks[|blocks| - 1];
      assert forall i :: 0 <= i < |p| ==> p[i] == blocks[i];
      CountsMeet(p);
      SubsetSize(b.taken, b.placed.Keys);
      assert |b.placed| == |b.placed.Keys|;
    }
  }

  lemma NoneCounted(s: State)
    requires Inv(s) && s.sem && Quiet(s)
    ensures s.semValue == PlacedCount(s.blocks) - TakenCount(s.blocks)
  {
    forall u | u in s.threads ensures !Holder(s.threads[u]) && !Unposted(s.threads[u]) && !s.threads[u].SemUndo? {
      assert Local(s, u, s.threads[u]);
    }
    assert Holders(s.threads) == {} && Unposteds(s.threads) == {} && Overdrawn(s.threads) == {};
  }

  lemma NoneLiveIff(s: State)
    requires ListInv(s)
    ensures TakenCount(s.blocks) <= PlacedCount(s.blocks)
    ensures NoneLive(s) <==> TakenCount(s.blocks) == PlacedCount(s.blocks)
  {
    forall b | 0 <= b < |s.blocks| ensures s.blocks[b].taken <= s.blocks[b].placed.Keys { assert BlockInv(s.blocks[b]); }
    CountsMeet(s.blocks);
    if NoneLive(s) {
      forall b, t | 0 <= b < |s.blocks| && t in s.blocks[b].placed ensures t in s.blocks[b].taken { assert !Live(s, Key(b, t)); }
    }
  }

  /** When no call is under way, the semaphore's value is the number of values in the queue: positive exactly when there is one. */
  lemma PermitsAreValues(schedule: seq<Action>)
    requires Quiet(Run(true, schedule))
    ensures var s := Run(true, schedule);
            && s.semValue == PlacedCount(s.blocks) - TakenCount(s.blocks) >= 0
            && (s.semValue > 0 <==> !NoneLive(s))
  {
    RunOk(true, schedule);
    NoneCounted(Run(true, schedule));
    NoneLiveIff(Run(true, schedule));
  }

  // ----- a consumer that nobody disturbs

  lemma LetIn(s: State, tid: Tid, nw: bool, tries: nat, s2: State)
    requires tid in s.threads && s.threads[tid] == SemRead(nw, tries) && s.semValue > 0 && (nw ==> tries > 0)
    requires s2 == s.(semValue := s.semValue - 1, granted := s.granted + 1, threads := s.threads[tid := PopLoad])
    ensures StepOf(tid)(StepOf(tid)(s)) == s2
  {
    var s1 := Exec(s, Move(tid));
    assert s1 == s.(threads := s.threads[tid := SemTake(nw, tries)]);
    assert s.threads[tid := SemTake(nw, tries)][tid := PopLoad] == s.threads[tid := PopLoad];
  }

  /** mpq_pop_w and mpq_pop_nw, with no other call under way and a value in the queue: the oldest value. */
  lemma PopPermitted(schedule: seq<Action>, tid: Tid, nw: bool, tries: nat) returns (n: nat)
    requires Quiet(Run(true, schedule)) && !NoneLive(Run(true, schedule)) && (nw ==> tries > 0)
    ensures var s := Run(true, schedule); var r := After(StepOf(tid), Exec(s, Enter(tid, CallPop(nw, tries))), n);
            TakesOldest(s, r, tid) && r.threads[tid].val != 0
  {
    PermitsAreValues(schedule);
    RunOk(true, schedule);
    var s := Run(true, schedule);
    n := PermittedFrom(StepOf(tid), s, tid, nw, tries);
  }

  lemma PermittedFrom(f: State -> State, s: State, tid: Tid, nw: bool, tries: nat) returns (n: nat)
    requires f == StepOf(tid) && Inv(s) && s.sem && Quiet(s) && s.semValue > 0 && (nw ==> tries > 0)
    ensures var r := After(f, Begin(s, tid, CallPop(nw, tries)), n);
            TakesOldest(s, r, tid) && r.threads[tid].val != 0
  {
    var s2 := Admitted(f, s, tid, nw, tries);
    var m := PopFrom(f, s, s2, tid);
    NeverNull(After(f, s2, m), tid);
    n := 2 + m;
    Joined(f, Begin(s, tid, CallPop(nw, tries)), 2, s2, m, After(f, s2, m), n);
  }

  lemma NeverNull(r: State, tid: Tid)
    requires Inv(r) && r.sem && tid in r.threads && r.threads[tid].PopRet?
    ensures r.threads[tid].val != 0
  {
    EmptyAt(r, tid);
  }

  /** The two steps with which the consumer takes its permit. */
  lemma Admitted(f: State -> State, s: State, tid: Tid, nw: bool, tries: nat) returns (s2: State)
    requires f == StepOf(tid) && Inv(s) && s.sem && Quiet(s) && s.semValue > 0 && (nw ==> tries > 0)
    ensures Inv(s2) && s2.sem && s2.blocks == s.blocks && s2.threads == s.threads[tid := PopLoad]
    ensures After(f, Begin(s, tid, CallPop(nw, tries)), 2) == s2
  {
    BeginOk(s, tid, CallPop(nw, tries));
    s2 := Permit(s, tid);
    BeginsTrying(s, tid, nw, tries);
    AdmittedFrom(f, s, tid, nw, tries, Begin(s, tid, CallPop(nw, tries)), s2);
  }

  /** The state in which the thread has a permit and begins to pop. */
  function Permit(s: State, tid: Tid): State {
    s.(semValue := s.semValue - 1, granted := s.granted + 1, threads := s.threads[tid := PopLoad])
  }

  lemma BeginsTrying(s: State, tid: Tid, nw: bool, tries: nat)
    requires s.sem && Quiet(s)
    ensures Begin(s, tid, CallPop(nw, tries)) == s.(threads := s.threads[tid := SemRead(nw, tries)])
  {
  }

  lemma AdmittedFrom(f: State -> State, s: State, tid: Tid, nw: bool, tries: nat, s0: State, s2: State)
    requires f == StepOf(tid) && Inv(s0) && s0 == s.(threads := s.threads[tid := SemRead(nw, tries)]) && s2 == Permit(s, tid)
    requires s.semValue > 0 && (nw ==> tries > 0)
    ensures Inv(s2) && After(f, s0, 2) == s2
  {
    assert s0.threads[tid := PopLoad] == s.threads[tid := PopLoad];
    LetIn(s0, tid, nw, tries, s2);
    TwoStepsOk(f, s0, tid, s2);
  }

  lemma TwoStepsOk(f: State -> State, s: State, tid: Tid, s2: State)
    requires f == StepOf(tid) && Inv(s) && s2 == f(f(s))
    ensures Inv(s2) && After(f, s, 2) == s2
  {
    ExecOk(s, Move(tid));
    ExecOk(f(s), Move(tid));
    Two(f, s, f(s), s2);
  }

  /** Without a value mpq_pop_nw gives up after its trials. */
  lemma {:induction false} NotLetIn(f: State -> State, s: State, tid: Tid, tries: nat)
    requires f == StepOf(tid) && tid in s.threads && s.threads[tid] == SemRead(true, tries) && s.semValue <= 0
    ensures After(f, s, tries + 1) == s.(threads := s.threads[tid := NoPermit])
    decreases tries
  {
    var s1 := f(s);
    if tries == 0 {
      assert s1 == s.(threads := s.threads[tid := NoPermit]);
      assert After(f, s, 1) == After(f, s1, 0);
    } else {
      assert s1 == s.(threads := s.threads[tid := SemRead(true, tries - 1)]);
      NotLetIn(f, s1, tid, tries - 1);
      assert s1.threads[tid := NoPermit] == s.threads[tid := NoPermit];
      assert After(f, s, tries + 1) == After(f, s1, tries);
    }
  }

  /** mpq_pop_nw, with no other call under way and no value in the queue: null, and nothing changes. */
  lemma PopNotPermitted(schedule: seq<Action>, tid: Tid, tries: nat)
    requires Quiet(Run(true, schedule)) && NoneLive(Run(true, schedule))
    ensures var s := Run(true, schedule);
            After(StepOf(tid), Exec(s, Enter(tid, CallPop(true, tries))), tries + 1) == s.(threads := s.threads[tid := NoPermit])
  {
    PermitsAreValues(schedule);
    RunOk(true, schedule);
    NotPermittedFrom(StepOf(tid), Run(true, schedule), tid, tries);
  }

  lemma NotPermittedFrom(f: State -> State, s: State, tid: Tid, tries: nat)
    requires f == StepOf(tid) && s.sem && Quiet(s) && s.semValue <= 0
    ensures After(f, Begin(s, tid, CallPop(true, tries)), tries + 1) == s.(threads := s.threads[tid := NoPermit])
  {
    var s0 := Begin(s, tid, CallPop(true, tries));
    NotLetIn(f, s0, tid, tries);
    assert s0.threads[tid := NoPermit] == s.threads[tid := NoPermit];
  }

  // ----- giving up

  /** Call number e of the schedule is a mpq_pop_nw of thread tid with k trials, and the thread has begun no other call since. */
  predicate Entered(run: Runs, schedule: seq<Action>, tid: Tid, e: nat, k: nat) {
    && e < |schedule| && schedule[e] == Enter(tid, CallPop(true, k))
    && tid in run(schedule[..e + 1]).threads && run(schedule[..e + 1]).threads[tid] == SemRead(true, k)
    && forall j :: e < j < |schedule| ==> NoBegin(run, schedule, tid, j)
  }

  /** Moments, one after the other, from e on, at each of which there was no permit. */
  predicate WithoutPermit(run: Runs, schedule: seq<Action>, e: nat, ms: seq<nat>) {
    && (forall i :: 0 <= i < |ms| ==> e < ms[i] < |schedule| && run(schedule[..ms[i]]).semValue <= 0)
    && (forall i, j :: 0 <= i < j < |ms| ==> ms[i] < ms[j])
  }

  /** How many such moments a thread at this point of the call has behind it. */
  predicate Failed(th: Thread, k: nat, m: nat) {
    || (th.SemRead? && th.nonWaiting && m + th.tries == k)
    || (th.SemTake? && th.nonWaiting && th.tries > 0 && m + th.tries == k)
    || (th.SemUndo? && th.nonWaiting && th.tries > 0 && m + th.tries == k + 1)
    || (th.NoPermit? && m == k)
  }

  predicate Trying(th: Thread) {
    ((th.SemRead? || th.SemTake? || th.SemUndo?) && th.nonWaiting) || th.NoPermit?
  }

  predicate Account(run: Runs, schedule: seq<Action>, tid: Tid, th: Thread, e: nat, k: nat, ms: seq<nat>) {
    Entered(run, schedule, tid, e, k) && WithoutPermit(run, schedule, e, ms) && Failed(th, k, |ms|)
  }

  lemma EnteredLonger(run: Runs, schedule: seq<Action>, p: seq<Action>, tid: Tid, e: nat, k: nat)
    requires |schedule| > 0 && p == schedule[..|schedule| - 1] && Entered(run, p, tid, e, k)
    requires var a := schedule[|schedule| - 1]; a.Enter? && a.tid == tid ==> run(schedule) == run(p)
    ensures Entered(run, schedule, tid, e, k)
  {
    assert p[..e + 1] == schedule[..e + 1];
    forall j | e < j < |schedule| ensures NoBegin(run, schedule, tid, j) {
      if j < |p| {
        assert NoBegin(run, p, tid, j);
        assert p[..j] == schedule[..j] && p[..j + 1] == schedule[..j + 1] && p[j] == schedule[j];
      } else {
        assert schedule[..j + 1] == schedule;
      }
    }
  }

  lemma MomentsLonger(run: Runs, schedule: seq<Action>, p: seq<Action>, e: nat, ms: seq<nat>)
    requires |schedule| > 0 && p == schedule[..|schedule| - 1] && WithoutPermit(run, p, e, ms)
    ensures WithoutPermit(run, schedule, e, ms)
  {
    forall i | 0 <= i < |ms| ensures run(schedule[..ms[i]]).semValue <= 0 { assert p[..ms[i]] == schedule[..ms[i]]; }
  }

  /** One step of the call: nothing fails, or a trial fails because there is no permit. */
  lemma TrialStep(s: State, tid: Tid, th: Thread, k: nat, m: nat, s': State)
    requires InSem(th) && th.nonWaiting && Failed(th, k, m) && s' == StepSem(s, tid, th) && Trying(s'.threads[tid])
    ensures Failed(s'.threads[tid], k, m) || (s.semValue <= 0 && Failed(s'.threads[tid], k, m + 1))
  {
  }

  /** Where a thread that is trying was before. */
  lemma TrialBefore(s: State, a: Action, tid: Tid, s': State)
    requires s' == Exec(s, a) && tid in s'.threads && Trying(s'.threads[tid])
    ensures || (tid in s.threads && s'.threads[tid] == s.threads[tid] && (a.Enter? && a.tid == tid ==> s' == s))
            || (a == Move(tid) && CanStep(s, tid) && InSem(s.threads[tid]) && s.threads[tid].nonWaiting && s' == StepSem(s, tid, s.threads[tid]))
            || (a.Enter? && a.tid == tid && a.call.CallPop? && a.call.nonWaiting && s'.threads[tid] == SemRead(true, a.call.tries))
  {
    if a == Move(tid) && CanStep(s, tid) { OnlySemTries(s, tid, s'); }
  }

  lemma OnlySemTries(s: State, tid: Tid, s': State)
    requires CanStep(s, tid) && s' == Step(s, tid) && Trying(s'.threads[tid])
    ensures InSem(s.threads[tid]) && s.threads[tid].nonWaiting && s' == StepSem(s, tid, s.threads[tid])
  {
    var th := s.threads[tid];
    if th.InPop? { InPopTriesNot(s, tid, th, s'); }
    else if th.InPush? { InPushTriesNot(s, tid, th, s'); }
    else if OnPopSide(th) { PopTriesNot(s, tid, th, s'); }
    else if !InSem(th) { RestTriesNot(s, tid, th, s'); }
  }

  lemma InPopTriesNot(s: State, tid: Tid, th: Thread, s': State)
    requires th.InPop? && HasBlock(s, th.qb) && !th.pop.Got? && !th.pop.Null? && s' == StepInPop(s, tid, th)
    ensures !Trying(s'.threads[tid])
  {
  }

  lemma InPushTriesNot(s: State, tid: Tid, th: Thread, s': State)
    requires th.InPush? && HasBlock(s, th.qb) && !th.push.Stored? && !th.push.Refused? && s' == StepInPush(s, tid, th)
    ensures !Trying(s'.threads[tid])
  {
  }

  lemma PopTriesNot(s: State, tid: Tid, th: Thread, s': State)
    requires OnPopSide(th) && !th.InPop? && s' == StepPop(s, tid, th)
    ensures !Trying(s'.threads[tid])
  {
  }

  lemma RestTriesNot(s: State, tid: Tid, th: Thread, s': State)
    requires CanStep(s, tid) && th == s.threads[tid] && !th.InPop? && !th.InPush? && !OnPopSide(th) && !InSem(th) && s' == Step(s, tid)
    ensures !Trying(s'.threads[tid])
  {
  }

  /** One action more. */
  lemma AccountGrows(run: Runs, schedule: seq<Action>, p: seq<Action>, tid: Tid, th: Thread, th': Thread, e: nat, k: nat, ms: seq<nat>) returns (ms': seq<nat>)
    requires |schedule| > 0 && p == schedule[..|schedule| - 1] && Account(run, p, tid, th, e, k, ms)
    requires var a := schedule[|schedule| - 1]; a.Enter? && a.tid == tid ==> run(schedule) == run(p)
    requires Failed(th', k, |ms|) || (run(p).semValue <= 0 && Failed(th', k, |ms| + 1))
    ensures Account(run, schedule, tid, th', e, k, ms')
  {
    EnteredLonger(run, schedule, p, tid, e, k);
    MomentsLonger(run, schedule, p, e, ms);
    if Failed(th', k, |ms|) {
      ms' := ms;
    } else {
      ms' := ms + [|p|];
      assert schedule[..|p|] == p;
    }
  }

  /**
   * In every run: a thread that is trying, or has come back with null, has behind it as many moments without a permit as it
   * has trials behind it, all of them within its call.
   */
  lemma {:induction false} TrialsAccounted(schedule: seq<Action>, tid: Tid) returns (e: nat, k: nat, ms: seq<nat>)
    requires tid in Run(true, schedule).threads && Trying(Run(true, schedule).threads[tid])
    ensures Account(RunsOf(true), schedule, tid, Run(true, schedule).threads[tid], e, k, ms)
  {
    var p, a := schedule[..|schedule| - 1], schedule[|schedule| - 1];
    var s, s' := Run(true, p), Run(true, schedule);
    TrialBefore(s, a, tid, s');
    if tid in s.threads && s'.threads[tid] == s.threads[tid] && (a.Enter? && a.tid == tid ==> s' == s) {
      e, k, ms := TrialsAccounted(p, tid);
      ms := AccountGrows(RunsOf(true), schedule, p, tid, s.threads[tid], s'.threads[tid], e, k, ms);
    } else if a == Move(tid) {
      e, k, ms := TrialsAccounted(p, tid);
      TrialStep(s, tid, s.threads[tid], k, |ms|, s');
      ms := AccountGrows(RunsOf(true), schedule, p, tid, s.threads[tid], s'.threads[tid], e, k, ms);
    } else {
      e, k, ms := |p|, a.call.tries, [];
      assert schedule[..e + 1] == schedule;
    }
  }

  /**
   * mpq_pop_nw gives up only for want of permits: if it was called with k trials and comes back with null, there were k moments,
   * one after the other and all within the call, at which the semaphore's value was not positive.
   */
  lemma GivesUpWithoutPermits(schedule: seq<Action>, tid: Tid) returns (e: nat, k: nat, ms: seq<nat>)
    requires tid in Run(true, schedule).threads && Run(true, schedule).threads[tid].NoPermit?
    ensures |ms| == k && Entered(RunsOf(true), schedule, tid, e, k) && WithoutPermit(RunsOf(true), schedule, e, ms)
  {
    e, k, ms := TrialsAccounted(schedule, tid);
  }
}
