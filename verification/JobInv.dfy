/**
 * The invariant of one job: who holds its lock, what its reference counter counts, who is
 * responsible for its queued bits and pending signals.
 */
module JobInv {
  import opened JobModel

  /** The token's call, or the user code it is with, holds JF_LOCKED. */
  predicate HoldsLock(pc: Pc) {
    pc.Creating? || pc.SchedWrite? || pc.Unlock? || pc.UnlockCas? || pc.UnlockTake? || pc.UnlockQueue? || pc.Exec?
    || pc.RetOr? || pc.RetComplete?
  }

  predicate Trying(pc: Pc) {
    pc.TryRead? || pc.TryCas?
  }

  /** The token will still try to lock the job: pending signals are its business. */
  predicate Obliged(pc: Pc) {
    pc.InQueue? || pc.Proc? || pc.ProcClear? || pc.Pushing? || (Trying(pc) && !pc.t.SendFirst?)
  }

  /** The token will still account for queued bit `c`: it is the entry, or will clear the bit and try the lock. */
  predicate Answers(pc: Pc, c: Class) {
    || ((pc.InQueue? || pc.Pushing? || pc.Proc?) && pc.c == c)
    || (pc.ProcClear? && c in pc.qf)
    || (Trying(pc) && pc.t.ProcFirst? && c in pc.t.qf)
  }

  /** Where the last token may be once JS_FINISH is pending. */
  predicate FinishPath(pc: Pc) {
    pc.Unlock? || pc.UnlockQueue? || (pc.UnlockTake? && pc.sig == JS_FINISH) || Obliged(pc)
  }

  /** The signal that unlock_job is about to take: pending and allowed, and its class is one this thread runs. */
  predicate Chosen(j: Job, thr: Thr, save: int, sig: Sig) {
    sig in j.flags.pending && sig in j.allowed && RunsHere(j, thr, sig, save)
  }

  /** No pending signal is lost, and what user code sets stays. */
  predicate Preserves(j: Job, j': Job) {
    j.flags.pending <= j'.flags.pending && j'.allowed == j.allowed && j'.fast == j.fast && j'.sigclass == j.sigclass
    && j'.subclass == j.subclass
  }

  predicate PcOk(j: Job, n: nat, a: Act) {
    && (JS_FINISH in j.flags.pending ==> n == 1 && FinishPath(a.pc))
    && match a.pc
       case SchedWrite(seen) => seen == j.flags
       case UnlockCas(_, seen) => Todo(j, seen) == {}
       case UnlockTake(save, sig) => Chosen(j, a.thr, save, sig) && (sig == JS_FINISH ==> n == 1)
       case Exec(_, sig) => sig == JS_FINISH ==> n == 1
       case RetOr(_, sigs, _) => JS_FINISH !in sigs
       case SendRead(sigs) => JS_FINISH in sigs ==> sigs == {JS_FINISH} && n == 1
       case SendOr(sigs) => JS_FINISH !in sigs
       case TryRead(t) => t.SendFirst? && JS_FINISH in t.sigs ==> n == 1
       case TryCas(t, seen) => !seen.locked && (t.SendFirst? && JS_FINISH in t.sigs ==> n == 1)
       case DropSet(_) => n == 1 && j.refcnt == 0
       case Last(_) => n == 1 && j.refcnt == 1
       case LastWrite(_, seen) => n == 1 && j.refcnt == 1 && seen == j.flags
       case Proc(c) => c in a.thr.mask
       case _ => true
  }

  predicate Locals(s: State) {
    forall t :: t in s.tokens ==> PcOk(s.job, |s.tokens|, s.tokens[t])
  }

  predicate Lock(s: State) {
    && (forall t :: t in s.tokens && HoldsLock(s.tokens[t].pc) ==> s.job.flags.locked)
    && (forall t, u :: t in s.tokens && u in s.tokens && HoldsLock(s.tokens[t].pc) && HoldsLock(s.tokens[u].pc) ==> t == u)
    && (s.job.flags.locked && !s.job.freed ==> exists t :: t in s.tokens && HoldsLock(s.tokens[t].pc))
  }

  /** Some token is in the window between the last decrement and the store of 1. */
  predicate Window(s: State) {
    exists t :: t in s.tokens && s.tokens[t].pc.DropSet?
  }

  predicate Refs(s: State) {
    && JS_FINISH in s.job.allowed
    && (s.job.freed ==> |s.tokens| == 0)
    && (!s.job.freed ==> |s.tokens| > 0 && (!Window(s) ==> s.job.refcnt == |s.tokens|))
  }

  predicate Queues(s: State) {
    forall c :: c in s.job.flags.queued ==> s.job.freed || exists t :: t in s.tokens && Answers(s.tokens[t].pc, c)
  }

  /** A pending allowed signal of an unlocked job is somebody's business. */
  predicate Signals(s: State) {
    Todo(s.job, s.job.flags) != {} && !s.job.flags.locked && !s.job.freed ==>
      exists t :: t in s.tokens && Obliged(s.tokens[t].pc)
  }

  /** The flags word remembers exactly the signals sent and not yet taken. */
  predicate Owed(s: State) {
    s.job.owed == s.job.flags.pending
  }

  predicate Inv(s: State) {
    Locals(s) && Lock(s) && Refs(s) && Queues(s) && Signals(s) && Owed(s)
  }

  // ----- tokens

  lemma TwoTokens(s: State, t: Tid, u: Tid)
    requires t in s.tokens && u in s.tokens && t != u
    ensures |s.tokens| >= 2
  {
    assert {t, u} <= s.tokens.Keys;
    assert s.tokens.Keys == {t, u} + (s.tokens.Keys - {t, u});
  }

  lemma OneToken(s: State, t: Tid, u: Tid)
    requires |s.tokens| == 1 && t in s.tokens && u in s.tokens
    ensures t == u
  {
    if t != u { TwoTokens(s, t, u); }
  }

  /** A token that is not the lock holder and is alone sees the job unlocked. */
  lemma AloneUnlocked(s: State, t: Tid)
    requires Lock(s) && !s.job.freed && |s.tokens| == 1 && t in s.tokens && !HoldsLock(s.tokens[t].pc)
    ensures !s.job.flags.locked
  {
    if s.job.flags.locked {
      var u :| u in s.tokens && HoldsLock(s.tokens[u].pc);
      OneToken(s, t, u);
    }
  }

  /** A lock holder that is alone sees no queued bit. */
  lemma AloneUnqueued(s: State, t: Tid, c: Class)
    requires Queues(s) && !s.job.freed && |s.tokens| == 1 && t in s.tokens && HoldsLock(s.tokens[t].pc)
    ensures c !in s.job.flags.queued
  {
    if c in s.job.flags.queued {
      var u :| u in s.tokens && Answers(s.tokens[u].pc, c);
      OneToken(s, t, u);
    }
  }

  /** The other tokens are unaffected by a step, whatever it does to the flags and the counter. */
  lemma OtherOk(s: State, s': State, t: Tid, u: Tid)
    requires Locals(s) && t in s.tokens && u in s.tokens && t != u
    requires s'.job.allowed == s.job.allowed || s.tokens[u].pc.Held? || !HoldsLock(s.tokens[u].pc)
    requires JS_FINISH in s'.job.flags.pending ==> JS_FINISH in s.job.flags.pending
    requires s.tokens[u].pc.SchedWrite? ==> s'.job.flags == s.job.flags
    requires HoldsLock(s.tokens[u].pc) ==> Preserves(s.job, s'.job)
    ensures PcOk(s'.job, |s'.tokens|, s.tokens[u])
  {
    TwoTokens(s, t, u);
    assert PcOk(s.job, |s.tokens|, s.tokens[u]);
  }
}
