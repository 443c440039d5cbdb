/** Which signal a handler is given, and what the calls of the job library do when nobody interferes. */
module JobSignals {
  import opened JobModel
  import opened JobInv
  import opened JobSteps
  import opened JobTheorems

  // ----- the signal that is executed

  /** The greatest signal that was sent, not yet taken, and is allowed. */
  predicate Greatest(j: Job, sig: Sig) {
    sig in j.owed && sig in j.allowed && forall x :: x in j.owed && x in j.allowed ==> x <= sig
  }

  /** One step of a call: a decision is for the greatest signal, an execution is of the signal decided on. */
  lemma StepSignalPc(j: Job, thr: Thr, pc: Pc, o: Out)
    requires InLibrary(pc) && j.owed == j.flags.pending && o == StepPc(j, thr, pc)
    ensures o.Go? && o.pc.UnlockTake? ==> pc.Unlock? && Greatest(j, o.pc.sig)
    ensures o.Go? && o.pc.Exec? ==> pc.UnlockTake? && o.pc.sig == pc.sig && o.job.owed == j.owed - {pc.sig}
                                    && o.job.flags.pending == j.flags.pending - {pc.sig}
  {
    if pc.Unlock? && o.Go? && o.pc.UnlockTake? {
      var todo := Todo(j, j.flags);
      assert o.pc.sig == Top(todo);
    }
  }

  /** Other actions decide nothing and execute nothing. */
  lemma OnOther(s: State, a: Action, tid: Tid, sig: Sig)
    requires Enabled(s, a) && a != Move(tid) && On(Do(s, a), tid, sig)
    ensures On(s, tid, sig) && s.tokens[tid] == Do(s, a).tokens[tid]
  {
  }

  /** The token has decided on the signal, or is executing it. */
  predicate On(s: State, tid: Tid, sig: Sig) {
    tid in s.tokens && (s.tokens[tid].pc.UnlockTake? || s.tokens[tid].pc.Exec?) && s.tokens[tid].pc.sig == sig
  }

  /** The action that gives a handler its signal: the signal was owed and allowed, its class is one of the thread's, and it is owed no more. */
  lemma ExecTakes(s: State, a: Action, tid: Tid)
    requires Reachable(s) && Permitted(true, s, a) && tid in Do(s, a).tokens && Do(s, a).tokens[tid].pc.Exec?
    requires tid in s.tokens ==> !s.tokens[tid].pc.Exec?
    ensures var sig := Do(s, a).tokens[tid].pc.sig;
            && a == Move(tid) && sig in s.job.owed && sig in s.job.allowed && ClassOf(s.job, sig) in s.tokens[tid].thr.mask
            && Do(s, a).job.owed == s.job.owed - {sig} && Do(s, a).job.flags.pending == s.job.flags.pending - {sig}
  {
    ReachableInv(s);
    if a != Move(tid) {
      OnOther(s, a, tid, Do(s, a).tokens[tid].pc.sig);
    } else {
      var x := s.tokens[tid];
      assert PcOk(s.job, |s.tokens|, x);
      StepSignalPc(s.job, x.thr, x.pc, StepPc(s.job, x.thr, x.pc));
    }
  }

  /** The step with which unlock_job decides on a signal sees it as the greatest one. */
  lemma ChoosesGreatest(s: State, tid: Tid)
    requires Reachable(s) && Permitted(true, s, Move(tid)) && tid in Do(s, Move(tid)).tokens
    requires Do(s, Move(tid)).tokens[tid].pc.UnlockTake?
    ensures s.tokens[tid].pc.Unlock? && Greatest(s.job, Do(s, Move(tid)).tokens[tid].pc.sig)
  {
    ReachableInv(s);
    var x := s.tokens[tid];
    StepSignalPc(s.job, x.thr, x.pc, StepPc(s.job, x.thr, x.pc));
  }

  ghost predicate Created(s: State) {
    exists tid: Tid, thr: Thr, allowed: set<Sig>, fast: set<Sig>, sigclass: seq<Class>, subclass: int ::
      JS_FINISH in allowed && s == Init(tid, thr, allowed, fast, sigclass, subclass)
  }

  lemma CreatedRuns(s0: State, actions: seq<Action>)
    requires Created(s0)
    ensures Reachable(Run(true, s0, actions)) && Inv(Run(true, s0, actions))
  {
    var tid: Tid, thr: Thr, allowed: set<Sig>, fast: set<Sig>, sigclass: seq<Class>, subclass: int :|
      JS_FINISH in allowed && s0 == Init(tid, thr, allowed, fast, sigclass, subclass);
    assert Begins(Run(true, s0, actions), tid, thr, allowed, fast, sigclass, subclass, actions);
    ReachableInv(Run(true, s0, actions));
  }

  type Runs = seq<Action> -> State

  ghost function RunsOf(s0: State): Runs {
    actions => Run(true, s0, actions)
  }

  /** After k actions the token was about to choose, and this signal was the greatest one. */
  predicate ChosenAt(run: Runs, actions: seq<Action>, tid: Tid, sig: Sig, k: nat) {
    && k < |actions| && tid in run(actions[..k]).tokens && run(actions[..k]).tokens[tid].pc.Unlock?
    && Greatest(run(actions[..k]).job, sig) && actions[k] == Move(tid)
  }

  lemma OnBefore(s: State, a: Action, tid: Tid, sig: Sig)
    requires Reachable(s) && On(Exe(true, s, a), tid, sig)
    ensures On(s, tid, sig) || (a == Move(tid) && tid in s.tokens && s.tokens[tid].pc.Unlock? && Greatest(s.job, sig))
  {
    ReachableInv(s);
    if Permitted(true, s, a) {
      if a != Move(tid) {
        OnOther(s, a, tid, sig);
      } else {
        var x := s.tokens[tid];
        StepSignalPc(s.job, x.thr, x.pc, StepPc(s.job, x.thr, x.pc));
      }
    }
  }

  lemma ChosenLonger(run: Runs, actions: seq<Action>, p: seq<Action>, tid: Tid, sig: Sig, k: nat)
    requires |actions| > 0 && p == actions[..|actions| - 1] && ChosenAt(run, p, tid, sig, k)
    ensures ChosenAt(run, actions, tid, sig, k)
  {
    assert p[..k] == actions[..k];
  }

  /** Whatever signal a handler is running with, there was a moment at which unlock_job chose it as the greatest one owed and allowed. */
  lemma {:induction false} ExecutedWasGreatest(s0: State, actions: seq<Action>, tid: Tid, sig: Sig)
    requires Created(s0) && On(Run(true, s0, actions), tid, sig)
    ensures exists k: nat :: ChosenAt(RunsOf(s0), actions, tid, sig, k)
  {
    if |actions| > 0 {
      var p := actions[..|actions| - 1];
      CreatedRuns(s0, p);
      OnBefore(Run(true, s0, p), actions[|actions| - 1], tid, sig);
      if On(Run(true, s0, p), tid, sig) {
        ExecutedWasGreatest(s0, p, tid, sig);
        var k: nat :| ChosenAt(RunsOf(s0), p, tid, sig, k);
        ChosenLonger(RunsOf(s0), actions, p, tid, sig, k);
      } else {
        assert ChosenAt(RunsOf(s0), actions, tid, sig, |actions| - 1);
      }
    }
  }

  // ----- executions and postings

  /** The signals that an action of a call posts. */
  function Posted(j: Job, pc: Pc): set<Sig> {
    match pc
    case TryCas(SendFirst(sigs), seen) => if j.flags == seen then sigs else {}
    case SendOr(sigs) => sigs
    case RetOr(_, sigs, _) => sigs
    case SchedWrite(_) => {JS_RUN}
    case LastWrite(_, _) => {JS_FINISH}
    case _ => {}
  }

  predicate Posts(s: State, a: Action, sig: Sig) {
    a.Move? && Permitted(true, s, a) && sig in Posted(s.job, s.tokens[a.tid].pc)
  }

  /** A handler starts with this signal. */
  predicate Starts(s: State, a: Action, sig: Sig) {
    a.Move? && Permitted(true, s, a) && On(Do(s, a), a.tid, sig) && Do(s, a).tokens[a.tid].pc.Exec?
  }

  function Postings(s0: State, actions: seq<Action>, sig: Sig): nat {
    if |actions| == 0 then 0
    else
      var p := actions[..|actions| - 1];
      Postings(s0, p, sig) + (if Posts(Run(true, s0, p), actions[|actions| - 1], sig) then 1 else 0)
  }

  function Executions(s0: State, actions: seq<Action>, sig: Sig): nat {
    if |actions| == 0 then 0
    else
      var p := actions[..|actions| - 1];
      Executions(s0, p, sig) + (if Starts(Run(true, s0, p), actions[|actions| - 1], sig) then 1 else 0)
  }

  lemma StepOwes(j: Job, thr: Thr, pc: Pc, sig: Sig, o: Out)
    requires InLibrary(pc) && o == StepPc(j, thr, pc)
    ensures sig in o.job.owed && sig !in j.owed ==> sig in Posted(j, pc)
    ensures sig in j.owed && sig !in o.job.owed ==> o.Go? && o.pc.Exec? && o.pc.sig == sig
  {
  }

  lemma OwedMove(s: State, a: Action, sig: Sig)
    requires Reachable(s)
    ensures var s' := Exe(true, s, a);
            && (sig in s'.job.owed && sig !in s.job.owed ==> Posts(s, a, sig))
            && (Starts(s, a, sig) ==> sig in s.job.owed && sig !in s'.job.owed)
  {
    ReachableInv(s);
    if Permitted(true, s, a) && a.Move? {
      var x := s.tokens[a.tid];
      assert PcOk(s.job, |s.tokens|, x);
      StepOwes(s.job, x.thr, x.pc, sig, StepPc(s.job, x.thr, x.pc));
      StepSignalPc(s.job, x.thr, x.pc, StepPc(s.job, x.thr, x.pc));
    }
  }

  /** Every execution of a signal has a posting of its own: they differ at most by signals that were posted while already owed. */
  lemma {:induction false} ExecutionsArePosted(s0: State, actions: seq<Action>, sig: Sig)
    requires Created(s0)
    ensures Executions(s0, actions, sig) + (if sig in Run(true, s0, actions).job.owed then 1 else 0) <= Postings(s0, actions, sig)
  {
    if |actions| > 0 {
      var p := actions[..|actions| - 1];
      CreatedRuns(s0, p);
      ExecutionsArePosted(s0, p, sig);
      OwedMove(Run(true, s0, p), actions[|actions| - 1], sig);
    }
  }
}
