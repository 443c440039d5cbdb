/** The invariant of the subclass scheduler and its preservation. */
module SublistInv {
  import opened SublistModel

  // ----- sums over the threads

  /** Permits the thread has taken and not yet posted. */
  function Permits(pc: Pc): nat {
    if pc.Acquire? || pc.Release? then pc.k
    else if Looping(pc) || pc.Failed? || pc.Recheck? || pc.RecheckAllowed? || pc.Relock? then Need(pc.c)
    else 0
  }

  function PermitSum(ts: seq<Pc>): nat {
    if |ts| == 0 then 0 else Permits(ts[0]) + PermitSum(ts[1..])
  }

  /** The thread's share in the account of subclass `c`: a job popped and not yet counted, an id on its way. */
  function Share(c: int, pc: Pc): int {
    if (pc.Working? || pc.IncRead? || pc.IncWrite?) && pc.c == c then 1
    else if (pc.PushId? || pc.Got?) && pc.c == c then -1
    else 0
  }

  function ShareSum(c: int, ts: seq<Pc>): int {
    if |ts| == 0 then 0 else Share(c, ts[0]) + ShareSum(c, ts[1..])
  }

  lemma {:induction false} PermitUpdate(ts: seq<Pc>, i: nat, pc: Pc)
    requires i < |ts|
    ensures PermitSum(ts[i := pc]) == PermitSum(ts) - Permits(ts[i]) + Permits(pc)
  {
    if i > 0 {
      assert ts[i := pc][1..] == ts[1..][i - 1 := pc];
      PermitUpdate(ts[1..], i - 1, pc);
    } else {
      assert ts[i := pc][1..] == ts[1..];
    }
  }

  lemma {:induction false} ShareUpdate(c: int, ts: seq<Pc>, i: nat, pc: Pc)
    requires i < |ts|
    ensures ShareSum(c, ts[i := pc]) == ShareSum(c, ts) - Share(c, ts[i]) + Share(c, pc)
  {
    if i > 0 {
      assert ts[i := pc][1..] == ts[1..][i - 1 := pc];
      ShareUpdate(c, ts[1..], i - 1, pc);
    } else {
      assert ts[i := pc][1..] == ts[1..];
    }
  }

  /** Two threads together hold no more than everybody does. */
  lemma {:induction false} PermitPair(ts: seq<Pc>, i: nat, k: nat)
    requires i < k < |ts|
    ensures PermitSum(ts) >= Permits(ts[i]) + Permits(ts[k])
  {
    if i > 0 {
      PermitPair(ts[1..], i - 1, k - 1);
    } else {
      PermitOne(ts[1..], k - 1);
    }
  }

  lemma {:induction false} PermitOne(ts: seq<Pc>, i: nat)
    requires i < |ts|
    ensures PermitSum(ts) >= Permits(ts[i])
  {
    if i > 0 { PermitOne(ts[1..], i - 1); }
  }

  // ----- the invariant

  predicate Holder(pc: Pc) {
    pc.Acquire? || Looping(pc) || pc.Failed?
  }

  /** The thread will still look at the counters, or try the lock, after the lock was given up. */
  predicate Obliged(pc: Pc) {
    pc.TryLock? || pc.Recheck? || pc.RecheckAllowed? || pc.Relock?
  }

  /** What the position says about the thread's subclass. */
  predicate PcOk(b: Sub, pc: Pc) {
    match pc
    case Acquire(c, k) => k < Need(c)
    case CheckAllowed(_, p) => p == b.processed
    case Popping(_) => b.processed < b.allowed
    case Working(_) => b.processed < b.allowed
    case IncRead(_) => b.processed < b.allowed
    case IncWrite(_, v) => v == b.processed < b.allowed
    case RecheckAllowed(_, p) => p <= b.processed
    case Release(c, k) => 0 < k <= Need(c)
    case Failed(_) => false
    case _ => true
  }

  predicate Locals(s: State) {
    forall i :: 0 <= i < |s.threads| && !s.threads[i].Idle? ==>
      s.threads[i].c in s.subs && PcOk(s.subs[s.threads[i].c], s.threads[i])
  }

  predicate HolderOf(ts: seq<Pc>, i: nat, c: int) {
    i < |ts| && Holder(ts[i]) && ts[i].c == c
  }

  ghost predicate Locks(s: State) {
    && (forall i, c :: HolderOf(s.threads, i, c) && c in s.subs ==> s.subs[c].locked)
    && (forall i, k, c :: HolderOf(s.threads, i, c) && HolderOf(s.threads, k, c) ==> i == k)
    && (forall c :: c in s.subs && s.subs[c].locked ==> exists i :: HolderOf(s.threads, i, c))
  }

  predicate ObligedTo(ts: seq<Pc>, i: nat, c: int) {
    i < |ts| && Obliged(ts[i]) && ts[i].c == c
  }

  /** A subclass with work and no lock holder has somebody who will still notice. */
  ghost predicate NotStranded(s: State) {
    forall c :: c in s.subs && !s.subs[c].locked && s.subs[c].processed < s.subs[c].allowed ==>
      exists i :: ObligedTo(s.threads, i, c)
  }

  predicate Bounded(s: State) {
    forall c :: c in s.subs ==> s.subs[c].processed <= s.subs[c].allowed
  }

  function Account(b: Sub): int {
    b.jobs + b.processed - b.ids - b.allowed
  }

  /** Every queued job has its id in the class queue, on the way there, taken or counted. */
  predicate Balanced(s: State) {
    forall c :: c in s.subs ==> Account(s.subs[c]) + ShareSum(c, s.threads) == 0
  }

  ghost predicate Inv(s: State) {
    && Locals(s) && Locks(s) && NotStranded(s) && Bounded(s) && Balanced(s)
    && s.free + PermitSum(s.threads) == MAX_SUBCLASS_THREADS
  }

  // ----- one step, seen from its own subclass

  /** How a step may treat the lock, the counters and the obligations of its subclass. */
  predicate Fair(b: Sub, free: nat, pc: Pc, o: Out) {
    && o.free + Permits(o.pc) == free + Permits(pc)
    && (Holder(o.pc) ==> o.sub.locked && (Holder(pc) || !b.locked))
    && (o.sub.locked && !Holder(o.pc) ==> b.locked && !Holder(pc))
    && (b.locked && !o.sub.locked ==> Holder(pc))
    && o.sub.processed <= o.sub.allowed
    && b.processed <= o.sub.processed && b.allowed <= o.sub.allowed
    && (o.sub.processed != b.processed ==> Holder(pc))
    && (!o.sub.locked && o.sub.processed < o.sub.allowed ==>
          Obliged(o.pc) || (!b.locked && b.processed < b.allowed && !Obliged(pc)))
    && (!o.pc.Idle? ==> PcOk(o.sub, o.pc))
  }

  predicate SameClass(pc: Pc, pc': Pc) {
    pc'.Idle? || pc.Idle? || pc'.c == pc.c
  }

  /** What the queue counts of a subclass owe to a job that is about to be popped. */
  predicate Stocked(b: Sub, pc: Pc) {
    pc.Popping? ==> b.jobs > 0
  }

  lemma StepFair(b: Sub, free: nat, pc: Pc)
    requires Moving(pc) && PcOk(b, pc) && b.processed <= b.allowed && (Holder(pc) ==> b.locked) && Stocked(b, pc)
    ensures Fair(b, free, pc, StepPc(b, free, pc)) && SameClass(pc, StepPc(b, free, pc).pc)
  {
    if Entering(pc) { EnterFair(b, free, pc); }
    else if Looping(pc) { LoopFair(b, free, pc); }
    else if Leaving(pc) { LeaveFair(b, free, pc); }
  }

  lemma EnterFair(b: Sub, free: nat, pc: Pc)
    requires Entering(pc) && PcOk(b, pc) && b.processed <= b.allowed && (Holder(pc) ==> b.locked)
    ensures Fair(b, free, pc, StepEnter(b, free, pc)) && SameClass(pc, StepEnter(b, free, pc).pc)
  {
  }

  lemma LoopFair(b: Sub, free: nat, pc: Pc)
    requires Looping(pc) && PcOk(b, pc) && b.processed <= b.allowed && b.locked && Stocked(b, pc)
    ensures Fair(b, free, pc, StepLoop(b, free, pc)) && SameClass(pc, StepLoop(b, free, pc).pc)
  {
  }

  lemma LeaveFair(b: Sub, free: nat, pc: Pc)
    requires Leaving(pc) && PcOk(b, pc) && b.processed <= b.allowed
    ensures Fair(b, free, pc, StepLeave(b, free, pc)) && SameClass(pc, StepLeave(b, free, pc).pc)
  {
  }

  lemma StepAccount(b: Sub, free: nat, pc: Pc)
    requires Moving(pc) && PcOk(b, pc) && Stocked(b, pc)
    ensures var o := StepPc(b, free, pc);
            Account(o.sub) + Share(pc.c, o.pc) == Account(b) + Share(pc.c, pc)
  {
  }

  // ----- preservation by a fair step

  lemma FairLocals(s: State, i: nat, c: int, o: Out)
    requires Locals(s) && Locks(s) && i < |s.threads| && c in s.subs && Fair(s.subs[c], s.free, s.threads[i], o)
    requires (s.threads[i].Idle? || s.threads[i].c == c) && (o.pc.Idle? || o.pc.c == c)
    ensures Locals(Apply(s, i, c, o))
  {
    var s' := Apply(s, i, c, o);
    forall k | 0 <= k < |s'.threads| && !s'.threads[k].Idle?
      ensures s'.threads[k].c in s'.subs && PcOk(s'.subs[s'.threads[k].c], s'.threads[k])
    {
      if k != i {
        assert PcOk(s.subs[s.threads[k].c], s.threads[k]);
        if s.threads[k].c == c {
          OtherOk(s, i, k, c, o);
        }
      }
    }
  }

  /** Another thread of the same subclass: a step that changes `processed` is the holder's. */
  lemma OtherOk(s: State, i: nat, k: nat, c: int, o: Out)
    requires Locks(s) && i < |s.threads| && k < |s.threads| && k != i && c in s.subs
    requires Fair(s.subs[c], s.free, s.threads[i], o) && (s.threads[i].Idle? || s.threads[i].c == c)
    requires !s.threads[k].Idle? && s.threads[k].c == c && PcOk(s.subs[c], s.threads[k])
    ensures PcOk(o.sub, s.threads[k])
  {
    if Holder(s.threads[i]) {
      assert HolderOf(s.threads, i, c);
      assert !HolderOf(s.threads, k, c);
    }
  }

  lemma FairLocks(s: State, i: nat, c: int, o: Out)
    requires Locks(s) && i < |s.threads| && c in s.subs && Fair(s.subs[c], s.free, s.threads[i], o)
    requires (s.threads[i].Idle? || s.threads[i].c == c) && (o.pc.Idle? || o.pc.c == c)
    ensures Locks(Apply(s, i, c, o))
  {
    var s' := Apply(s, i, c, o);
    forall k, d | HolderOf(s'.threads, k, d) ensures d in s'.subs ==> s'.subs[d].locked {
      if k != i {
        assert HolderOf(s.threads, k, d);
        if d == c && !o.sub.locked { assert HolderOf(s.threads, i, c); }
      }
    }
    forall k, m, d | HolderOf(s'.threads, k, d) && HolderOf(s'.threads, m, d) ensures k == m {
      FairUnique(s, i, c, o, k, m, d);
    }
    forall d | d in s'.subs && s'.subs[d].locked ensures exists k :: HolderOf(s'.threads, k, d) {
      if d == c && Holder(o.pc) {
        assert HolderOf(s'.threads, i, c);
      } else {
        var k :| HolderOf(s.threads, k, d);
        assert HolderOf(s'.threads, k, d);
      }
    }
  }

  lemma FairUnique(s: State, i: nat, c: int, o: Out, k: nat, m: nat, d: int)
    requires Locks(s) && i < |s.threads| && c in s.subs && Fair(s.subs[c], s.free, s.threads[i], o)
    requires (s.threads[i].Idle? || s.threads[i].c == c) && (o.pc.Idle? || o.pc.c == c)
    requires HolderOf(s.threads[i := o.pc], k, d) && HolderOf(s.threads[i := o.pc], m, d)
    ensures k == m
  {
    if k != i { assert HolderOf(s.threads, k, d); }
    if m != i { assert HolderOf(s.threads, m, d); }
    if k == i && Holder(s.threads[i]) { assert HolderOf(s.threads, i, d); }
    if m == i && Holder(s.threads[i]) { assert HolderOf(s.threads, i, d); }
  }

  lemma FairNotStranded(s: State, i: nat, c: int, o: Out)
    requires NotStranded(s) && i < |s.threads| && c in s.subs && Fair(s.subs[c], s.free, s.threads[i], o)
    requires (s.threads[i].Idle? || s.threads[i].c == c) && (o.pc.Idle? || o.pc.c == c)
    ensures NotStranded(Apply(s, i, c, o))
  {
    var s' := Apply(s, i, c, o);
    forall d | d in s'.subs && !s'.subs[d].locked && s'.subs[d].processed < s'.subs[d].allowed
      ensures exists k :: ObligedTo(s'.threads, k, d)
    {
      if d == c && Obliged(o.pc) {
        assert ObligedTo(s'.threads, i, c);
      } else {
        var k :| ObligedTo(s.threads, k, d);
        assert ObligedTo(s'.threads, k, d);
      }
    }
  }

  lemma KeepsBalance(s: State, i: nat, c: int, o: Out)
    requires Balanced(s) && i < |s.threads| && c in s.subs
    requires (s.threads[i].Idle? || s.threads[i].c == c) && (o.pc.Idle? || o.pc.c == c)
    requires Account(o.sub) + Share(c, o.pc) == Account(s.subs[c]) + Share(c, s.threads[i])
    ensures Balanced(Apply(s, i, c, o))
  {
    var s' := Apply(s, i, c, o);
    forall d | d in s'.subs ensures Account(s'.subs[d]) + ShareSum(d, s'.threads) == 0 {
      ShareUpdate(d, s.threads, i, o.pc);
    }
  }

  /** The account of a subclass whose lock holder is at the pop: the queue holds a job for it. */
  lemma PopFinds(s: State, i: nat)
    requires Locals(s) && Locks(s) && Balanced(s) && i < |s.threads| && s.threads[i].Popping?
    ensures s.threads[i].c in s.subs && s.subs[s.threads[i].c].jobs > 0
  {
    var c := s.threads[i].c;
    forall k | 0 <= k < |s.threads| ensures Share(c, s.threads[k]) <= 0 {
      assert HolderOf(s.threads, i, c);
      assert k != i ==> !HolderOf(s.threads, k, c);
    }
    SharesBelow(c, s.threads);
  }

  lemma {:induction false} SharesBelow(c: int, ts: seq<Pc>)
    requires forall k :: 0 <= k < |ts| ==> Share(c, ts[k]) <= 0
    ensures ShareSum(c, ts) <= 0
  {
    if |ts| > 0 {
      assert forall k :: 0 <= k < |ts[1..]| ==> ts[1..][k] == ts[k + 1];
      SharesBelow(c, ts[1..]);
    }
  }

  /** A fair step that keeps the account keeps the invariant. */
  lemma FairInv(s: State, i: nat, c: int, o: Out)
    requires Inv(s) && i < |s.threads| && c in s.subs && Fair(s.subs[c], s.free, s.threads[i], o)
    requires (s.threads[i].Idle? || s.threads[i].c == c) && (o.pc.Idle? || o.pc.c == c)
    requires Account(o.sub) + Share(c, o.pc) == Account(s.subs[c]) + Share(c, s.threads[i])
    ensures Inv(Apply(s, i, c, o))
  {
    FairLocals(s, i, c, o);
    FairLocks(s, i, c, o);
    FairNotStranded(s, i, c, o);
    KeepsBalance(s, i, c, o);
    PermitUpdate(s.threads, i, o.pc);
  }

  lemma ExecInv(s: State, a: Action)
    requires Inv(s)
    ensures Inv(Exec(s, a))
  {
    if Enabled(s, a) {
      var c := ClassOf(s, a);
      if a.Move? {
        var pc := s.threads[a.i];
        if pc.Popping? { PopFinds(s, a.i); }
        if Holder(pc) { assert HolderOf(s.threads, a.i, c); }
        StepFair(s.subs[c], s.free, pc);
        StepAccount(s.subs[c], s.free, pc);
      }
      FairInv(s, a.i, c, Effect(s, a));
    }
  }
}
