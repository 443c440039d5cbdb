/** The subclass scheduler comes to rest: from every reachable state the threads can finish, and every queued job can be processed. */
module SublistAlone {
  import opened SublistModel
  import opened SublistInv
  import opened SublistTheorems
  import opened Progress

  // ----- one thread

  /** Jobs announced and not yet processed. */
  function Due(b: Sub): nat {
    if b.allowed > b.processed then b.allowed - b.processed else 0
  }

  /** A bound on the steps of a thread that moves alone and never waits for a permit. */
  function Rank(b: Sub, pc: Pc): nat {
    var d := 10 * Due(b);
    match pc
    case StartPush(_) => 3
    case PushJob(_) => 2
    case PushId(_) => 1
    case Got(_) => d + 70
    case TryLock(_) => d + 59
    case Acquire(c, k) => d + 31 + (if k < Need(c) then Need(c) - k else 0)
    case Check(_) => d + 30
    case CheckAllowed(_, _) => d + 29
    case Popping(_) => d + 28
    case Working(_) => d + 27
    case IncRead(_) => d + 26
    case IncWrite(_, _) => d + 25
    case Unlocking(_) => if d == 0 then 24 else d + 35
    case Recheck(_) => if d == 0 then 23 else d + 34
    case RecheckAllowed(_, p) => if p < b.allowed then d + 33 else 22
    case Relock(_) => d + 32
    case Release(_, k) => k + 1
    case _ => 0
  }

  lemma EnterRank(b: Sub, free: nat, pc: Pc, o: Out)
    requires Entering(pc) && PcOk(b, pc) && b.processed <= b.allowed && (pc.Acquire? ==> free > 0) && o == StepEnter(b, free, pc)
    ensures o.pc.Idle? || Rank(o.sub, o.pc) < Rank(b, pc)
  {
  }

  lemma LoopRank(b: Sub, free: nat, pc: Pc, o: Out)
    requires Looping(pc) && PcOk(b, pc) && b.processed <= b.allowed && Stocked(b, pc) && o == StepLoop(b, free, pc)
    ensures Rank(o.sub, o.pc) < Rank(b, pc)
  {
  }

  lemma LeaveRank(b: Sub, free: nat, pc: Pc, o: Out)
    requires Leaving(pc) && PcOk(b, pc) && b.processed <= b.allowed && o == StepLeave(b, free, pc)
    ensures o.pc.Idle? || Rank(o.sub, o.pc) < Rank(b, pc)
  {
  }

  lemma StepRank(b: Sub, free: nat, pc: Pc, o: Out)
    requires Moving(pc) && PcOk(b, pc) && b.processed <= b.allowed && Stocked(b, pc) && (pc.Acquire? ==> free > 0) && o == StepPc(b, free, pc)
    ensures o.pc.Idle? || Rank(o.sub, o.pc) < Rank(b, pc)
  {
    if Entering(pc) { EnterRank(b, free, pc, o); }
    else if Looping(pc) { LoopRank(b, free, pc, o); }
    else if Leaving(pc) { LeaveRank(b, free, pc, o); }
  }

  // ----- one thread of a whole state

  /** The thread on its way in will find all the permits it needs. */
  predicate Room(free: nat, pc: Pc) {
    Entering(pc) ==> free + Permits(pc) >= Need(pc.c)
  }

  predicate Pushing(pc: Pc) {
    pc.StartPush? || pc.PushJob? || pc.PushId?
  }

  /** Jobs of subclass `c` that are announced, or whose id this thread has just taken. */
  function Announced(c: int, b: Sub, pc: Pc): nat {
    b.allowed + if pc.Got? && pc.c == c then 1 else 0
  }

  /** No id is taken or queued, and each id taken is announced once. */
  predicate Steady(c: int, b: Sub, pc: Pc, b': Sub, pc': Pc) {
    b'.ids == b.ids && Announced(c, b', pc') == Announced(c, b, pc)
  }

  lemma StepKeeps(b: Sub, free: nat, pc: Pc, o: Out)
    requires Moving(pc) && PcOk(b, pc) && b.processed <= b.allowed && (Holder(pc) ==> b.locked) && Stocked(b, pc)
    requires Room(free, pc) && o == StepPc(b, free, pc)
    ensures Room(o.free, o.pc)
    ensures !Pushing(pc) ==> !Pushing(o.pc) && Steady(pc.c, b, pc, o.sub, o.pc)
  {
    StepFair(b, free, pc);
  }

  /** What the moves of thread `i` leave as it was. */
  ghost predicate Same(s: State, t: State, i: nat) {
    && |t.threads| == |s.threads| && t.subs.Keys == s.subs.Keys && i < |s.threads|
    && (forall k :: 0 <= k < |s.threads| && k != i ==> t.threads[k] == s.threads[k])
    && (!Pushing(s.threads[i]) ==> !Pushing(t.threads[i]))
    && (!Pushing(s.threads[i]) ==> forall c :: c in s.subs ==> Steady(c, s.subs[c], s.threads[i], t.subs[c], t.threads[i]))
  }

  ghost predicate Inside(s: State, t: State, i: nat) {
    Inv(t) && Same(s, t, i) && !t.threads[i].Idle? && Room(t.free, t.threads[i])
  }

  ghost predicate Ended(s: State, t: State, i: nat) {
    Inv(t) && Same(s, t, i) && t.threads[i].Idle?
  }

  function RankOf(t: State, i: nat): nat {
    if i < |t.threads| && !t.threads[i].Idle? && t.threads[i].c in t.subs then Rank(t.subs[t.threads[i].c], t.threads[i]) else 0
  }

  function Mover(i: nat): State -> State {
    t => Exec(t, Move(i))
  }

  /** One move of a busy thread that finds its permits. */
  lemma MoveOut(t: State, i: nat, pc: Pc, b: Sub, o: Out)
    requires Locals(t) && Locks(t) && Bounded(t) && Balanced(t)
    requires i < |t.threads| && pc == t.threads[i] && !pc.Idle? && pc.c in t.subs && b == t.subs[pc.c]
    requires Moving(pc) && Room(t.free, pc) && o == StepPc(b, t.free, pc)
    ensures o.pc.Idle? || (o.pc.c == pc.c && Room(o.free, o.pc) && Rank(o.sub, o.pc) < Rank(b, pc))
    ensures !Pushing(pc) ==> !Pushing(o.pc) && Steady(pc.c, b, pc, o.sub, o.pc)
  {
    assert PcOk(b, pc);
    if pc.Popping? { PopFinds(t, i); }
    if Holder(pc) { assert HolderOf(t.threads, i, pc.c); }
    StepFair(b, t.free, pc);
    StepRank(b, t.free, pc, o);
    StepKeeps(b, t.free, pc, o);
  }

  lemma MoveSame(s: State, t: State, i: nat, o: Out)
    requires Same(s, t, i) && !t.threads[i].Idle? && t.threads[i].c in t.subs && (o.pc.Idle? || o.pc.c == t.threads[i].c)
    requires var pc := t.threads[i];
             !Pushing(pc) ==> !Pushing(o.pc) && Steady(pc.c, t.subs[pc.c], pc, o.sub, o.pc)
    ensures Same(s, Apply(t, i, t.threads[i].c, o), i)
  {
    var t' := Apply(t, i, t.threads[i].c, o);
    assert t'.subs.Keys == t.subs.Keys;
    if !Pushing(s.threads[i]) {
      forall c | c in s.subs ensures Steady(c, s.subs[c], s.threads[i], t'.subs[c], t'.threads[i]) {
        assert Steady(c, s.subs[c], s.threads[i], t.subs[c], t.threads[i]);
      }
    }
  }

  /** The move, seen in the whole state. */
  lemma MoveLowers(s: State, t: State, i: nat, o: Out, t': State)
    requires Same(s, t, i) && !t.threads[i].Idle? && t.threads[i].c in t.subs && t' == Apply(t, i, t.threads[i].c, o)
    requires var pc := t.threads[i]; var b := t.subs[pc.c];
             && (o.pc.Idle? || (o.pc.c == pc.c && Room(o.free, o.pc) && Rank(o.sub, o.pc) < Rank(b, pc)))
             && (!Pushing(pc) ==> !Pushing(o.pc) && Steady(pc.c, b, pc, o.sub, o.pc))
    ensures Same(s, t', i) && (t'.threads[i].Idle? || (Room(t'.free, t'.threads[i]) && RankOf(t', i) < RankOf(t, i)))
  {
    MoveSame(s, t, i, o);
  }

  lemma MoveIs(t: State, i: nat, o: Out)
    requires Inv(t) && i < |t.threads| && !t.threads[i].Idle? && t.threads[i].c in t.subs && Room(t.free, t.threads[i])
    requires Moving(t.threads[i]) && o == StepPc(t.subs[t.threads[i].c], t.free, t.threads[i])
    ensures Exec(t, Move(i)) == Apply(t, i, t.threads[i].c, o)
    ensures Rank(t.subs[t.threads[i].c], t.threads[i]) > 0
  {
  }

  lemma MoveDescends(s: State, t: State, i: nat)
    requires Inside(s, t, i)
    ensures var t' := Exec(t, Move(i));
            RankOf(t, i) > 0 && (Ended(s, t', i) || (Inside(s, t', i) && RankOf(t', i) < RankOf(t, i)))
  {
    var pc := t.threads[i];
    assert PcOk(t.subs[pc.c], pc);
    var o := StepPc(t.subs[pc.c], t.free, pc);
    MoveOut(t, i, pc, t.subs[pc.c], o);
    MoveIs(t, i, o);
    MoveLowers(s, t, i, o, Exec(t, Move(i)));
    ExecInv(t, Move(i));
  }

  /** A busy thread that finds its permits comes to rest by its own moves. */
  lemma ThreadRests(s: State, i: nat) returns (n: nat)
    requires Inv(s) && i < |s.threads| && !s.threads[i].Idle? && Room(s.free, s.threads[i])
    ensures Ended(s, After(Mover(i), s, n), i)
  {
    var f := Mover(i);
    var inside := (t: State) => Inside(s, t, i);
    var ended := (t: State) => Ended(s, t, i);
    var rank := (t: State) => RankOf(t, i);
    forall t | inside(t) ensures rank(t) > 0 && (ended(f(t)) || (inside(f(t)) && rank(f(t)) < rank(t))) {
      MoveDescends(s, t, i);
    }
    n := Ends(f, inside, ended, rank, s);
  }

  lemma {:induction false} RunOn(s: State, first: seq<Action>, more: seq<Action>)
    ensures Run(s, first + more) == Run(Run(s, first), more)
  {
    if |more| == 0 {
      assert first + more == first;
    } else {
      var most := more[..|more| - 1];
      assert (first + more)[..|first + more| - 1] == first + most;
      RunOn(s, first, most);
    }
  }

  /** Moves of one thread, written as a run. */
  lemma {:induction false} MovesRun(s: State, i: nat, n: nat) returns (moves: seq<Action>)
    ensures Run(s, moves) == After(Mover(i), s, n)
    decreases n
  {
    if n == 0 {
      moves := [];
    } else {
      var rest := MovesRun(Exec(s, Move(i)), i, n - 1);
      RunOn(s, [Move(i)], rest);
      assert [Move(i)][..0] == [];
      assert Run(s, [Move(i)]) == Exec(Run(s, []), Move(i));
      moves := [Move(i)] + rest;
    }
  }

  // ----- all threads

  function Busy(ts: seq<Pc>): nat {
    if |ts| == 0 then 0 else (if ts[0].Idle? then 0 else 1) + Busy(ts[1..])
  }

  lemma {:induction false} BusyLess(ts: seq<Pc>, us: seq<Pc>, i: nat)
    requires i < |ts| == |us| && !ts[i].Idle? && us[i].Idle? && forall k :: 0 <= k < |ts| && k != i ==> us[k] == ts[k]
    ensures Busy(us) < Busy(ts)
  {
    if i == 0 {
      assert us[1..] == ts[1..];
    } else {
      BusyLess(ts[1..], us[1..], i - 1);
    }
  }

  lemma {:induction false} NoPermits(ts: seq<Pc>)
    requires forall k :: 0 <= k < |ts| ==> Permits(ts[k]) == 0
    ensures PermitSum(ts) == 0
  {
    if |ts| > 0 {
      assert forall k :: 0 <= k < |ts[1..]| ==> ts[1..][k] == ts[k + 1];
      NoPermits(ts[1..]);
    }
  }

  /** Only thread `i` has permits. */
  lemma OnlyPermits(ts: seq<Pc>, i: nat)
    requires i < |ts| && forall k :: 0 <= k < |ts| && k != i ==> Permits(ts[k]) == 0
    ensures PermitSum(ts) == Permits(ts[i])
  {
    PermitUpdate(ts, i, Idle);
    NoPermits(ts[i := Idle]);
  }

  /** Some busy thread will find all the permits it needs: the one that has begun to take all of them goes first. */
  lemma SomeRoom(s: State, j: nat) returns (i: nat)
    requires Inv(s) && j < |s.threads| && !s.threads[j].Idle?
    ensures i < |s.threads| && !s.threads[i].Idle? && Room(s.free, s.threads[i])
  {
    if k :| 0 <= k < |s.threads| && !s.threads[k].Idle? && !Entering(s.threads[k]) {
      i := k;
    } else if k :| 0 <= k < |s.threads| && s.threads[k].Acquire? && s.threads[k].c == ALL {
      i := k;
      assert HolderOf(s.threads, k, ALL);
      forall m | 0 <= m < |s.threads| && m != k ensures Permits(s.threads[m]) == 0 {
        if s.threads[m].Acquire? && s.threads[m].c == ALL { assert HolderOf(s.threads, m, ALL); }
      }
      OnlyPermits(s.threads, k);
    } else {
      i := j;
      NoPermits(s.threads);
    }
  }

  predicate AtRest(s: State) {
    forall i :: 0 <= i < |s.threads| ==> s.threads[i].Idle?
  }

  lemma {:induction false} Rests(s: State) returns (moves: seq<Action>)
    requires Inv(s)
    ensures Inv(Run(s, moves)) && AtRest(Run(s, moves))
    decreases Busy(s.threads)
  {
    if AtRest(s) {
      moves := [];
    } else {
      var j :| 0 <= j < |s.threads| && !s.threads[j].Idle?;
      var i := SomeRoom(s, j);
      var n := ThreadRests(s, i);
      var t := After(Mover(i), s, n);
      var first := MovesRun(s, i, n);
      BusyLess(s.threads, t.threads, i);
      var more := Rests(t);
      RunOn(s, first, more);
      moves := first + more;
    }
  }

  /** From every reachable state the calls in progress can all be completed. */
  lemma AllCanFinish(s: State) returns (moves: seq<Action>)
    requires Reachable(s)
    ensures AtRest(Run(s, moves))
  {
    ReachableInv(s);
    moves := Rests(s);
  }

  // ----- all jobs

  /** The first thread takes one id of subclass `c` and runs to its rest. */
  lemma DrainsOne(s: State, c: int) returns (actions: seq<Action>, t: State)
    requires Inv(s) && AtRest(s) && |s.threads| > 0 && c in s.subs && s.subs[c].ids > 0
    ensures t == Run(s, actions) && Inv(t) && AtRest(t) && |t.threads| > 0 && c in t.subs
    ensures t.subs[c].ids == s.subs[c].ids - 1 && t.subs[c].allowed == s.subs[c].allowed + 1
  {
    var take := TakeId(0, c);
    var u := Exec(s, take);
    ExecInv(s, take);
    NoPermits(s.threads);
    var n := ThreadRests(u, 0);
    t := After(Mover(0), u, n);
    assert Steady(c, u.subs[c], u.threads[0], t.subs[c], t.threads[0]);
    var moves := MovesRun(u, 0, n);
    RunOn(s, [take], moves);
    assert [take][..0] == [];
    assert Run(s, [take]) == Exec(Run(s, []), take);
    actions := [take] + moves;
  }

  /** With every thread at rest, one of them alone processes all the queued jobs of a subclass. */
  lemma {:induction false} Drains(s: State, c: int) returns (actions: seq<Action>)
    requires Inv(s) && AtRest(s) && |s.threads| > 0 && c in s.subs
    ensures var t := Run(s, actions);
            Inv(t) && AtRest(t) && c in t.subs && t.subs[c].ids == 0 && t.subs[c].allowed == s.subs[c].allowed + s.subs[c].ids
    decreases s.subs[c].ids
  {
    if s.subs[c].ids == 0 {
      actions := [];
    } else {
      var first, t := DrainsOne(s, c);
      var more := Drains(t, c);
      RunOn(s, first, more);
      actions := first + more;
    }
  }

  /** Every job queued for a subclass can be processed: none is lost between the job queue and the class queue. */
  lemma AllCanBeProcessed(s: State, c: int) returns (actions: seq<Action>)
    requires Reachable(s) && AtRest(s) && |s.threads| > 0 && c in s.subs
    ensures var t := Run(s, actions);
            AtRest(t) && c in t.subs && t.subs[c].jobs == 0 && t.subs[c].processed == s.subs[c].processed + s.subs[c].jobs
  {
    ReachableInv(s);
    actions := Drains(s, c);
    AllIdle(s.threads);
    AllIdle(Run(s, actions).threads);
  }
}
