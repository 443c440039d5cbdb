/** The guarantees of the packed reference counter, and the run in which it forgets to release. */
module ConnRefTheorems {
  import opened ConnRef

  // ----- counting

  lemma {:induction false} CountUpdate(k: Kind, ts: seq<Pc>, i: nat, pc: Pc)
    requires i < |ts|
    ensures Count(k, ts[i := pc]) == Count(k, ts) - (if Is(k, ts[i]) then 1 else 0) + (if Is(k, pc) then 1 else 0)
  {
    if i == 0 {
      assert ts[i := pc][1..] == ts[1..];
    } else {
      assert ts[i := pc][1..] == ts[1..][i - 1 := pc];
      CountUpdate(k, ts[1..], i - 1, pc);
    }
  }

  lemma {:induction false} CountBound(k: Kind, ts: seq<Pc>)
    ensures Count(k, ts) <= |ts|
  {
    if |ts| > 0 { CountBound(k, ts[1..]); }
  }

  lemma {:induction false} CountMember(k: Kind, ts: seq<Pc>, i: nat)
    requires i < |ts| && Is(k, ts[i])
    ensures Count(k, ts) > 0
  {
    if i > 0 { CountMember(k, ts[1..], i - 1); }
  }

  lemma {:induction false} SubKinds(ts: seq<Pc>)
    ensures Count(Converter, ts) <= Count(Prober, ts) && Count(Clearing, ts) <= Count(Zeroing, ts)
  {
    if |ts| > 0 { SubKinds(ts[1..]); }
  }

  // ----- the invariant

  /** The numbers of threads of each kind. */
  datatype Tally = Tally(holders: nat, probers: nat, converters: nat, zeroing: nat, clearing: nat)

  function TallyOf(ts: seq<Pc>): Tally {
    Tally(Count(Holder, ts), Count(Prober, ts), Count(Converter, ts), Count(Zeroing, ts), Count(Clearing, ts))
  }

  /** The word counts holders and probers; once a drop has seen zero, nobody holds or will hold a reference. */
  predicate Sound(c: Cell, t: Tally) {
    && c.word == t.holders + HIGH * t.probers
    && t.converters <= t.probers
    && (c.lastDrop == 0 ==> t.holders == 0 && t.converters == 0 && c.released + t.zeroing == 1)
    && (c.lastDrop != 0 ==> c.released == 0 && t.zeroing == 0)
    && (c.data <==> c.lastDrop != 0 || t.clearing > 0)
    && t.clearing <= t.zeroing
    && (t.holders == 0 ==> c.lastDrop == HIGH * c.lastProbers)
  }

  predicate Inv(s: State) {
    && |s.threads| < HIGH
    && Sound(s.cell, TallyOf(s.threads))
    && forall i :: 0 <= i < |s.threads| ==> !s.threads[i].Crashed?
  }

  lemma LowCounts(h: nat, p: nat)
    requires h < HIGH
    ensures Low(h + HIGH * p) == h
  {
  }

  function Bit(k: Kind, pc: Pc): nat {
    if Is(k, pc) then 1 else 0
  }

  /** The tally after one thread moved from `pc` to `pc'`. */
  predicate Moved(t: Tally, pc: Pc, t': Tally, pc': Pc) {
    && t'.holders == t.holders - Bit(Holder, pc) + Bit(Holder, pc')
    && t'.probers == t.probers - Bit(Prober, pc) + Bit(Prober, pc')
    && t'.converters == t.converters - Bit(Converter, pc) + Bit(Converter, pc')
    && t'.zeroing == t.zeroing - Bit(Zeroing, pc) + Bit(Zeroing, pc')
    && t'.clearing == t.clearing - Bit(Clearing, pc) + Bit(Clearing, pc')
  }

  lemma TallyUpdate(ts: seq<Pc>, i: nat, pc: Pc)
    requires i < |ts|
    ensures Moved(TallyOf(ts), ts[i], TallyOf(ts[i := pc]), pc)
  {
    CountUpdate(Holder, ts, i, pc);
    CountUpdate(Prober, ts, i, pc);
    CountUpdate(Converter, ts, i, pc);
    CountUpdate(Zeroing, ts, i, pc);
    CountUpdate(Clearing, ts, i, pc);
  }

  lemma CellSound(c: Cell, t: Tally, pc: Pc, t': Tally)
    requires Sound(c, t) && t.holders < HIGH && !pc.Crashed?
    requires Moved(t, pc, t', StepCell(c, t.probers, pc).pc) && t'.converters <= t'.probers && t'.clearing <= t'.zeroing
    ensures Sound(StepCell(c, t.probers, pc).cell, t') && !StepCell(c, t.probers, pc).pc.Crashed?
  {
    var o := StepCell(c, t.probers, pc);
    if pc.Probe? || pc.Unprobe? || pc.Convert? {
      ProberSound(c, t, pc, t', o);
    } else if pc.Drop? || pc.UseData? {
      HolderSound(c, t, pc, t', o);
    } else {
      OtherSound(c, t, pc, t', o);
    }
  }

  lemma ProberSound(c: Cell, t: Tally, pc: Pc, t': Tally, o: Out)
    requires Sound(c, t) && t.holders < HIGH && (pc.Probe? || pc.Unprobe? || pc.Convert?) && o == StepCell(c, t.probers, pc)
    requires Moved(t, pc, t', o.pc) && t'.converters <= t'.probers && t'.clearing <= t'.zeroing
    ensures Sound(o.cell, t') && !o.pc.Crashed?
  {
    LowCounts(t.holders, t.probers);
  }

  lemma HolderSound(c: Cell, t: Tally, pc: Pc, t': Tally, o: Out)
    requires Sound(c, t) && t.holders < HIGH && (pc.Drop? || pc.UseData?) && o == StepCell(c, t.probers, pc)
    requires Moved(t, pc, t', o.pc) && t'.converters <= t'.probers && t'.clearing <= t'.zeroing
    ensures Sound(o.cell, t') && !o.pc.Crashed?
  {
  }

  lemma OtherSound(c: Cell, t: Tally, pc: Pc, t': Tally, o: Out)
    requires Sound(c, t) && !Is(Prober, pc) && !Is(Holder, pc) && !pc.Probe? && !pc.Crashed? && o == StepCell(c, t.probers, pc)
    requires Moved(t, pc, t', o.pc) && t'.converters <= t'.probers && t'.clearing <= t'.zeroing
    ensures Sound(o.cell, t') && !o.pc.Crashed?
  {
  }

  lemma StepInv(s: State, i: nat)
    requires Inv(s) && i < |s.threads|
    ensures Inv(Step(s, i))
  {
    var o := StepCell(s.cell, Count(Prober, s.threads), s.threads[i]);
    CountBound(Holder, s.threads);
    TallyUpdate(s.threads, i, o.pc);
    SubKinds(s.threads[i := o.pc]);
    CellSound(s.cell, TallyOf(s.threads), s.threads[i], TallyOf(s.threads[i := o.pc]));
  }

  lemma {:induction false} NoneCounted(k: Kind, ts: seq<Pc>)
    requires forall i :: 0 <= i < |ts| ==> !Is(k, ts[i])
    ensures Count(k, ts) == 0
  {
    if |ts| > 0 {
      assert forall i :: 0 <= i < |ts[1..]| ==> ts[1..][i] == ts[i + 1];
      NoneCounted(k, ts[1..]);
    }
  }

  lemma InitTally(n: nat)
    ensures TallyOf(Init(n).threads) == Tally(1, 0, 0, 0, 0)
  {
    var ts := Init(n).threads;
    var idle := seq(n, _ => Idle);
    assert ts[1..] == idle;
    NoneCounted(Holder, idle);
    NoneCounted(Prober, idle);
    NoneCounted(Converter, idle);
    NoneCounted(Zeroing, idle);
    NoneCounted(Clearing, idle);
  }

  lemma {:induction false} RunInv(n: nat, schedule: seq<nat>)
    requires n + 1 < HIGH
    ensures Inv(Run(Init(n), schedule)) && |Run(Init(n), schedule).threads| == n + 1
  {
    if |schedule| == 0 {
      InitTally(n);
    } else {
      RunInv(n, schedule[..|schedule| - 1]);
      var r := Run(Init(n), schedule[..|schedule| - 1]);
      var i := schedule[|schedule| - 1];
      if i < |r.threads| { StepInv(r, i); }
    }
  }

  // ----- what the counter guarantees

  /** The job pointer is released at most once, and only after `data` was cleared. */
  lemma ReleasedAtMostOnce(n: nat, schedule: seq<nat>)
    requires n + 1 < HIGH
    ensures var s := Run(Init(n), schedule);
            s.cell.released <= 1 && (s.cell.released == 1 ==> !s.cell.data)
  {
    RunInv(n, schedule);
    SubKinds(Run(Init(n), schedule).threads);
  }

  /** Between a getter's successful check and its own drop, the pointer is there and nobody has begun to release it. */
  lemma NeverUnderAGetter(n: nat, schedule: seq<nat>, i: nat, k: nat)
    requires n + 1 < HIGH && i < n + 1 && k < n + 1
    requires var t := Run(Init(n), schedule).threads;
             i < |t| && (t[i].Convert? || t[i].UseData? || t[i].Drop?)
    ensures var s := Run(Init(n), schedule);
            && |s.threads| == n + 1 && s.cell.data && s.cell.released == 0
            && !Is(Zeroing, s.threads[k]) && !s.threads[k].Crashed?
  {
    RunInv(n, schedule);
    var s := Run(Init(n), schedule);
    if s.threads[i].Convert? { CountMember(Converter, s.threads, i); } else { CountMember(Holder, s.threads, i); }
    if Is(Zeroing, s.threads[k]) { CountMember(Zeroing, s.threads, k); }
  }

  // ----- look-ups succeed while the owner holds its reference

  /** The owner has not dropped its reference. */
  predicate Owned(s: State) {
    |s.threads| > 0 && s.threads[0] == Drop(true)
  }

  lemma OwnedCell(s: State)
    requires Inv(s) && Owned(s)
    ensures Low(s.cell.word) > 0 && s.cell.data
  {
    CountMember(Holder, s.threads, 0);
    CountBound(Holder, s.threads);
    LowCounts(Count(Holder, s.threads), Count(Prober, s.threads));
  }

  /** A thread inside connection_get_by_fd that has not yet been let in. */
  predicate Asking(pc: Pc) {
    pc.Idle? || pc.FirstData? || pc.Probe? || pc.Unprobe?
  }

  /** The look-up returns NULL with this step. */
  predicate ReturnsNull(s: State, i: nat) {
    i < |s.threads| && Asking(s.threads[i]) && Step(s, i).threads[i].Idle?
  }

  /** A look-up that returns NULL sees the low half 0 or the data null at that moment, and then the owner's reference is gone. */
  lemma NullMeansDropped(n: nat, schedule: seq<nat>, i: nat)
    requires n + 1 < HIGH && ReturnsNull(Run(Init(n), schedule), i)
    ensures var s := Run(Init(n), schedule);
            (Low(s.cell.word) == 0 || !s.cell.data) && !Owned(s)
  {
    RunInv(n, schedule);
    var s := Run(Init(n), schedule);
    if Owned(s) { OwnedCell(s); }
  }

  /** The position after the next step of a look-up, while the owner's reference stands. */
  function NextAsked(pc: Pc): Pc {
    match pc
    case Idle => FirstData
    case FirstData => Probe
    case Probe => Convert
    case Unprobe => Probe
    case Convert => UseData
    case _ => Drop(false)
  }

  lemma AskStep(s: State, i: nat)
    requires Inv(s) && Owned(s) && 0 < i < |s.threads| && (Asking(s.threads[i]) || s.threads[i].Convert? || s.threads[i].UseData?)
    ensures var r := Step(s, i);
            Inv(r) && Owned(r) && |r.threads| == |s.threads| && r.threads[i] == NextAsked(s.threads[i])
  {
    OwnedCell(s);
    StepInv(s, i);
  }

  /** How often thread i moves. */
  function Moves(more: seq<nat>, i: nat): nat {
    if |more| == 0 then 0 else Moves(more[..|more| - 1], i) + (if more[|more| - 1] == i then 1 else 0)
  }

  /** Where a look-up stands after k steps of its own. */
  function Asked(k: nat): Pc {
    match k
    case 0 => Idle
    case 1 => FirstData
    case 2 => Probe
    case 3 => Convert
    case 4 => UseData
    case _ => Drop(false)
  }

  lemma OwnedBefore(s: State, j: nat, s': State)
    requires s' == if j < |s.threads| then Step(s, j) else s
    requires Owned(s')
    ensures Owned(s)
  {
  }

  lemma AskOne(s: State, j: nat, i: nat, k: nat, s': State)
    requires Inv(s) && Owned(s) && 0 < i < |s.threads| && s.threads[i] == Asked(k) && k + (if j == i then 1 else 0) <= 5
    requires s' == if j < |s.threads| then Step(s, j) else s
    ensures i < |s'.threads| && s'.threads[i] == Asked(k + (if j == i then 1 else 0))
  {
    if j == i { AskStep(s, i); }
  }

  lemma {:induction false} InvAfter(s: State, more: seq<nat>)
    requires Inv(s)
    ensures Inv(Run(s, more)) && |Run(s, more).threads| == |s.threads|
  {
    if |more| > 0 {
      InvAfter(s, more[..|more| - 1]);
      var r, j := Run(s, more[..|more| - 1]), more[|more| - 1];
      if j < |r.threads| { StepInv(r, j); }
    }
  }

  lemma {:induction false} AskedAfter(s: State, i: nat, more: seq<nat>)
    requires Inv(s) && 0 < i < |s.threads| && s.threads[i].Idle? && Owned(Run(s, more)) && Moves(more, i) <= 5
    ensures i < |Run(s, more).threads| && Run(s, more).threads[i] == Asked(Moves(more, i))
  {
    if |more| > 0 {
      var less, j := more[..|more| - 1], more[|more| - 1];
      var r := Run(s, less);
      InvAfter(s, less);
      OwnedBefore(r, j, Run(s, more));
      AskedAfter(s, i, less);
      var k := Moves(more, i);
      assert k == Moves(less, i) + if j == i then 1 else 0;
      AskOne(r, j, i, Moves(less, i), Run(s, more));
    }
  }

  /**
   * A look-up that begins while the owner's reference stands is let in by its own next steps, whatever the other
   * threads do meanwhile: after four of them it uses the data, which is there, and with the fifth it has its result.
   */
  lemma LookupSucceeds(n: nat, schedule: seq<nat>, i: nat, more: seq<nat>)
    requires n + 1 < HIGH && 0 < i <= n && i < |Run(Init(n), schedule).threads| && Run(Init(n), schedule).threads[i].Idle?
    requires Owned(Run(Run(Init(n), schedule), more)) && Moves(more, i) <= 5
    ensures var r := Run(Run(Init(n), schedule), more);
            && i < |r.threads| && r.cell.data && r.threads[i] == Asked(Moves(more, i))
            && (Moves(more, i) == 4 ==> r.threads[i].UseData?) && (Moves(more, i) == 5 ==> r.threads[i] == Drop(false))
  {
    RunInv(n, schedule);
    var s := Run(Init(n), schedule);
    AskedAfter(s, i, more);
    InvAfter(s, more);
    OwnedCell(Run(s, more));
  }

  predicate Quiet(s: State) {
    forall i :: 0 <= i < |s.threads| ==> s.threads[i].Idle? || s.threads[i].Gone?
  }

  /** When everybody is done, the job was released exactly when the latest drop saw no prober between its two additions. */
  lemma QuietReleasedIff(n: nat, schedule: seq<nat>)
    requires n + 1 < HIGH && Quiet(Run(Init(n), schedule))
    ensures var c := Run(Init(n), schedule).cell;
            c.word == 0 && (c.released == 1 <==> c.lastProbers == 0)
  {
    RunInv(n, schedule);
    var s := Run(Init(n), schedule);
    NoneCounted(Holder, s.threads);
    NoneCounted(Prober, s.threads);
    NoneCounted(Zeroing, s.threads);
  }

  /** Nothing is left to do, the counter is zero, and the pointer was never released. */
  predicate Leaked(s: State) {
    Quiet(s) && s.cell.word == 0 && s.cell.released == 0
  }

  // ----- one getter: no leak

  predicate OwnersPc(pc: Pc) {
    pc == Drop(true) || pc == ZeroRead(true) || pc == Clear(true) || pc == Release(true) || pc == Gone
  }

  /** The only getter, if there is one. */
  function Other(s: State): Pc {
    if |s.threads| == 2 then s.threads[1] else Idle
  }

  /** With one getter, an unsuccessful probe means that the owner's drop has already seen zero. */
  predicate Single(s: State) {
    && 1 <= |s.threads| <= 2 && OwnersPc(s.threads[0])
    && (s.cell.lastDrop != 0 ==> Is(Holder, s.threads[0]) || Is(Holder, Other(s)) || Other(s).Convert?)
    && (s.cell.lastDrop != 0 ==> !Other(s).Unprobe?)
  }

  lemma CountFew(k: Kind, s: State)
    requires 1 <= |s.threads| <= 2
    ensures Count(k, s.threads) == Bit(k, s.threads[0]) + Bit(k, Other(s))
  {
    var rest := s.threads[1..];
    assert Count(k, s.threads) == Bit(k, s.threads[0]) + Count(k, rest);
    if |rest| > 0 {
      assert Count(k, rest) == Bit(k, rest[0]) + Count(k, rest[1..]);
    }
  }

  lemma SingleStep(s: State, i: nat)
    requires Inv(s) && Single(s) && i < |s.threads|
    ensures Single(Step(s, i))
  {
    CountFew(Holder, s);
    CountFew(Prober, s);
    LowCounts(Count(Holder, s.threads), Count(Prober, s.threads));
  }

  lemma {:induction false} SingleRun(n: nat, schedule: seq<nat>)
    requires n <= 1
    ensures Single(Run(Init(n), schedule))
  {
    if |schedule| > 0 {
      SingleRun(n, schedule[..|schedule| - 1]);
      RunInv(n, schedule[..|schedule| - 1]);
      var r := Run(Init(n), schedule[..|schedule| - 1]);
      var i := schedule[|schedule| - 1];
      if i < |r.threads| { SingleStep(r, i); }
    }
  }

  // ----- two getters: the leak

  /** An owner, two getters and some idle threads. */
  function Shape(c: Cell, owner: Pc, g: Pc, h: Pc, rest: seq<Pc>): State {
    State(c, [owner, g, h] + rest)
  }

  predicate AllIdle(ts: seq<Pc>) {
    forall i :: 0 <= i < |ts| ==> ts[i].Idle?
  }

  lemma ShapeProbers(c: Cell, owner: Pc, g: Pc, h: Pc, rest: seq<Pc>)
    requires AllIdle(rest)
    ensures Count(Prober, Shape(c, owner, g, h, rest).threads) == Bit(Prober, owner) + Bit(Prober, g) + Bit(Prober, h)
  {
    assert ([owner, g, h] + rest)[1..] == [g, h] + rest;
    assert ([g, h] + rest)[1..] == [h] + rest;
    assert ([h] + rest)[1..] == rest;
    NoneCounted(Prober, rest);
    assert Count(Prober, [h] + rest) == Bit(Prober, h);
    assert Count(Prober, [g, h] + rest) == Bit(Prober, g) + Bit(Prober, h);
  }

  /** One more step of the run: thread `i` of the three moves. */
  lemma Advance(n: nat, schedule: seq<nat>, i: nat, c: Cell, owner: Pc, g: Pc, h: Pc, rest: seq<Pc>, o: Out)
    requires i <= 2 && AllIdle(rest) && Run(Init(n), schedule) == Shape(c, owner, g, h, rest)
    requires o == StepCell(c, Bit(Prober, owner) + Bit(Prober, g) + Bit(Prober, h), [owner, g, h][i])
    ensures Run(Init(n), schedule + [i]) ==
            Shape(o.cell, if i == 0 then o.pc else owner, if i == 1 then o.pc else g, if i == 2 then o.pc else h, rest)
  {
    assert (schedule + [i])[..|schedule|] == schedule;
    ShapeProbers(c, owner, g, h, rest);
    assert ([owner, g, h] + rest)[i := o.pc] == [owner, g, h][i := o.pc] + rest;
    assert [owner, g, h][i := o.pc] == [if i == 0 then o.pc else owner, if i == 1 then o.pc else g, if i == 2 then o.pc else h];
  }

  /** Both getters pass their first checks; the first sees the owner's reference; then the owner drops it. */
  lemma LeakBegins(n: nat, rest: seq<Pc>)
    requires AllIdle(rest) && Init(n) == Shape(Cell(1, true, 0, 1, 0), Drop(true), Idle, Idle, rest)
    ensures Run(Init(n), [] + [1] + [1] + [2] + [2] + [1] + [0]) == Shape(Cell(HIGH, true, 0, HIGH, 1), Gone, Convert, Probe, rest)
  {
    var c := Cell(1, true, 0, 1, 0);
    var d := Drop(true);
    Advance(n, [], 1, c, d, Idle, Idle, rest, Out(c, FirstData));
    Advance(n, [] + [1], 1, c, d, FirstData, Idle, rest, Out(c, Probe));
    Advance(n, [] + [1] + [1], 2, c, d, Probe, Idle, rest, Out(c, FirstData));
    Advance(n, [] + [1] + [1] + [2], 2, c, d, Probe, FirstData, rest, Out(c, Probe));
    var c' := c.(word := 1 + HIGH);
    Advance(n, [] + [1] + [1] + [2] + [2], 1, c, d, Probe, Probe, rest, Out(c', Convert));
    Advance(n, [] + [1] + [1] + [2] + [2] + [1], 0, c', d, Convert, Probe, rest, Out(Cell(HIGH, true, 0, HIGH, 1), Gone));
  }

  /** The second getter sees no reference; the first converts, uses and drops while the second has not yet backed out. */
  lemma LeakEnds(n: nat, start: seq<nat>, rest: seq<Pc>)
    requires AllIdle(rest) && Run(Init(n), start) == Shape(Cell(HIGH, true, 0, HIGH, 1), Gone, Convert, Probe, rest)
    ensures Run(Init(n), start + [2] + [1] + [1] + [1] + [2]) == Shape(Cell(0, true, 0, HIGH, 1), Gone, Idle, Idle, rest)
  {
    var c := Cell(HIGH, true, 0, HIGH, 1);
    var c2, c1 := c.(word := 2 * HIGH), c.(word := HIGH + 1);
    Advance(n, start, 2, c, Gone, Convert, Probe, rest, Out(c2, Unprobe));
    Advance(n, start + [2], 1, c2, Gone, Convert, Unprobe, rest, Out(c1, UseData));
    Advance(n, start + [2] + [1], 1, c1, Gone, UseData, Unprobe, rest, Out(c1, Drop(false)));
    Advance(n, start + [2] + [1] + [1], 1, c1, Gone, Drop(false), Unprobe, rest, Out(c, Idle));
    Advance(n, start + [2] + [1] + [1] + [1], 2, c, Gone, Idle, Unprobe, rest, Out(c.(word := 0), Idle));
  }

  /** The run of two getters and the owner that forgets the pointer. */
  lemma TwoGettersLeak(n: nat)
    requires n >= 2
    ensures exists schedule: seq<nat> :: Leaked(Run(Init(n), schedule))
  {
    var rest := seq(n - 2, _ => Idle);
    assert Init(n) == Shape(Cell(1, true, 0, 1, 0), Drop(true), Idle, Idle, rest);
    LeakBegins(n, rest);
    var start: seq<nat> := [] + [1] + [1] + [2] + [2] + [1] + [0];
    LeakEnds(n, start, rest);
    assert Leaked(Run(Init(n), start + [2] + [1] + [1] + [1] + [2]));
  }

  // ----- which states never release

  /** No continuation releases the pointer. */
  ghost predicate NeverReleased(s: State) {
    forall more: seq<nat> :: Run(s, more).cell.released == 0
  }

  /** Nobody holds a reference or is about to take one, yet the latest drop did not see zero. */
  predicate Forgotten(c: Cell, t: Tally) {
    c.lastDrop != 0 && t.holders == 0 && t.converters == 0
  }

  /** Every later look-up finds no reference and gives up. */
  lemma ForgottenCell(c: Cell, t: Tally, pc: Pc, t': Tally, o: Out)
    requires Sound(c, t) && Forgotten(c, t) && o == StepCell(c, t.probers, pc) && Moved(t, pc, t', o.pc)
    ensures Forgotten(o.cell, t')
  {
    LowCounts(t.holders, t.probers);
  }

  lemma {:induction false} ForgottenForever(s: State, more: seq<nat>)
    requires Inv(s) && Forgotten(s.cell, TallyOf(s.threads))
    ensures var r := Run(s, more); Inv(r) && Forgotten(r.cell, TallyOf(r.threads))
  {
    if |more| > 0 {
      ForgottenForever(s, more[..|more| - 1]);
      var r, i := Run(s, more[..|more| - 1]), more[|more| - 1];
      if i < |r.threads| {
        var o := StepCell(r.cell, Count(Prober, r.threads), r.threads[i]);
        TallyUpdate(r.threads, i, o.pc);
        ForgottenCell(r.cell, TallyOf(r.threads), r.threads[i], TallyOf(r.threads[i := o.pc]), o);
        StepInv(r, i);
      }
    }
  }

  /** The steps a thread has left before it parks, when nobody else moves. */
  function Rank(pc: Pc): nat {
    match pc
    case Convert => 6
    case UseData => 5
    case Drop(_) => 4
    case ZeroRead(_) => 3
    case Clear(_) => 2
    case Release(_) => 1
    case Unprobe => 1
    case _ => 0
  }

  function Ranks(ts: seq<Pc>): nat {
    if |ts| == 0 then 0 else Rank(ts[0]) + Ranks(ts[1..])
  }

  lemma {:induction false} RanksUpdate(ts: seq<Pc>, i: nat, pc: Pc)
    requires i < |ts|
    ensures Ranks(ts[i := pc]) == Ranks(ts) - Rank(ts[i]) + Rank(pc)
  {
    if i == 0 {
      assert ts[i := pc][1..] == ts[1..];
    } else {
      assert ts[i := pc][1..] == ts[1..][i - 1 := pc];
      RanksUpdate(ts[1..], i - 1, pc);
    }
  }

  lemma {:induction false} CountWitness(k: Kind, ts: seq<Pc>) returns (i: nat)
    requires Count(k, ts) > 0
    ensures i < |ts| && Is(k, ts[i])
  {
    if Is(k, ts[0]) {
      i := 0;
    } else {
      i := CountWitness(k, ts[1..]);
      i := i + 1;
    }
  }

  /** Whose turn it is on the way to the release: who is releasing, else who is probing, else who holds a reference. */
  predicate Turn(t: Tally, pc: Pc) {
    if t.zeroing > 0 then Is(Zeroing, pc) else if t.probers > 0 then Is(Prober, pc) else Is(Holder, pc)
  }

  lemma Forward(c: Cell, t: Tally, pc: Pc, t': Tally, o: Out)
    requires Sound(c, t) && t.holders < HIGH && c.released == 0 && !Forgotten(c, t) && Turn(t, pc)
    requires o == StepCell(c, t.probers, pc) && Moved(t, pc, t', o.pc)
    ensures Rank(o.pc) < Rank(pc) && (o.cell.released == 1 || (o.cell.released == 0 && !Forgotten(o.cell, t')))
  {
    LowCounts(t.holders, t.probers);
  }

  lemma NextTurn(s: State) returns (i: nat)
    requires Inv(s) && s.cell.released == 0 && !Forgotten(s.cell, TallyOf(s.threads))
    ensures i < |s.threads| && Turn(TallyOf(s.threads), s.threads[i])
  {
    SubKinds(s.threads);
    if Count(Zeroing, s.threads) > 0 {
      i := CountWitness(Zeroing, s.threads);
    } else if Count(Prober, s.threads) > 0 {
      i := CountWitness(Prober, s.threads);
    } else {
      i := CountWitness(Holder, s.threads);
    }
  }

  lemma {:induction false} RunFront(s: State, i: nat, more: seq<nat>)
    requires i < |s.threads|
    ensures Run(s, [i] + more) == Run(Step(s, i), more)
  {
    if |more| == 0 {
      assert ([i] + more)[..0] == [];
      assert Run(s, []) == s;
    } else {
      assert ([i] + more)[..|more|] == [i] + more[..|more| - 1];
      RunFront(s, i, more[..|more| - 1]);
    }
  }

  /** From every other state, letting the threads finish in turn releases the pointer. */
  lemma {:induction false} Finish(s: State) returns (more: seq<nat>)
    requires Inv(s) && s.cell.released == 0 && !Forgotten(s.cell, TallyOf(s.threads))
    ensures Run(s, more).cell.released == 1
    decreases Ranks(s.threads)
  {
    var i := NextTurn(s);
    var o := StepCell(s.cell, Count(Prober, s.threads), s.threads[i]);
    CountBound(Holder, s.threads);
    TallyUpdate(s.threads, i, o.pc);
    RanksUpdate(s.threads, i, o.pc);
    Forward(s.cell, TallyOf(s.threads), s.threads[i], TallyOf(s.threads[i := o.pc]), o);
    StepInv(s, i);
    var rest := [];
    if o.cell.released == 0 { rest := Finish(Step(s, i)); }
    RunFront(s, i, rest);
    more := [i] + rest;
  }

  /** At any moment of any run: the pointer can never be released any more exactly when it is unreleased and forgotten. */
  lemma NeverReleasedIff(n: nat, schedule: seq<nat>)
    requires n + 1 < HIGH
    ensures var s := Run(Init(n), schedule);
            NeverReleased(s) <==> s.cell.released == 0 && Forgotten(s.cell, TallyOf(s.threads))
  {
    RunInv(n, schedule);
    var s := Run(Init(n), schedule);
    assert Run(s, []) == s;
    if Forgotten(s.cell, TallyOf(s.threads)) {
      forall more: seq<nat> ensures Run(s, more).cell.released == 0 { ForgottenForever(s, more); }
    } else if s.cell.released == 0 {
      var more := Finish(s);
      assert Run(s, more).cell.released != 0;
    }
  }

  /** The run ends in a state from which nothing releases the pointer. */
  ghost predicate Leaks(n: nat, schedule: seq<nat>) {
    NeverReleased(Run(Init(n), schedule))
  }

  /** Some run makes the release impossible exactly when two threads may look the descriptor up. */
  lemma LeakIff(n: nat)
    requires n + 1 < HIGH
    ensures (exists schedule: seq<nat> :: Leaks(n, schedule)) <==> n >= 2
  {
    if n >= 2 {
      TwoGettersLeak(n);
      var schedule: seq<nat> :| Leaked(Run(Init(n), schedule));
      LeakedIsForgotten(n, schedule);
      NeverReleasedIff(n, schedule);
      assert Leaks(n, schedule);
    } else {
      forall schedule: seq<nat> ensures !Leaks(n, schedule) {
        FewNeverForget(n, schedule);
        NeverReleasedIff(n, schedule);
      }
    }
  }

  lemma LeakedIsForgotten(n: nat, schedule: seq<nat>)
    requires n + 1 < HIGH && Leaked(Run(Init(n), schedule))
    ensures var s := Run(Init(n), schedule); Forgotten(s.cell, TallyOf(s.threads))
  {
    RunInv(n, schedule);
    var s := Run(Init(n), schedule);
    NoneCounted(Holder, s.threads);
    NoneCounted(Converter, s.threads);
    NoneCounted(Zeroing, s.threads);
  }

  lemma FewNeverForget(n: nat, schedule: seq<nat>)
    requires n <= 1
    ensures var s := Run(Init(n), schedule); !Forgotten(s.cell, TallyOf(s.threads))
  {
    SingleRun(n, schedule);
    CountFew(Holder, Run(Init(n), schedule));
    CountFew(Converter, Run(Init(n), schedule));
  }
}
