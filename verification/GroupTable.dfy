/**
 * country_find_or_create and region_find_or_create of src/mtproto/ip-stats.c: a table that only
 * grows, read without the lock and extended under it, by any number of processes. One shared access
 * per step; codes are numbers.
 */
module GroupTable {

  datatype Option<T> = None | Some(value: T)

  datatype Pc =
    | Idle
    | Begin(code: int)
    | Scan(code: int, i: nat, count: nat)        // the first look, without the lock
    | Acquire(code: int)
    | Reload(code: int)                          // holds the lock from here ...
    | Rescan(code: int, i: nat, count: nat)
    | Fill(code: int, count: nat)
    | Publish(code: int, count: nat)
    | Release(code: int, r: Option<nat>)         // ... to here
    | Done(code: int, r: Option<nat>)

  /** `entries` has as many places as the table; the first `count` of them are in use. */
  datatype State = State(entries: seq<int>, count: nat, locked: bool, threads: seq<Pc>)

  function Init(cap: nat, n: nat): State {
    State(seq(cap, _ => 0), 0, false, seq(n, _ => Idle))
  }

  predicate Shaped(s: State) {
    s.count <= |s.entries|
  }

  function Go(s: State, t: nat, pc: Pc): State
    requires t < |s.threads|
  {
    s.(threads := s.threads[t := pc])
  }

  function Step(s: State, t: nat): State
    requires t < |s.threads|
  {
    match s.threads[t]
    case Begin(code) => Go(s, t, Scan(code, 0, s.count))
    case Scan(code, i, count) =>
      if i >= count || i >= |s.entries| then Go(s, t, Acquire(code))
      else if s.entries[i] == code then Go(s, t, Done(code, Some(i)))
      else Go(s, t, Scan(code, i + 1, count))
    case Acquire(code) => if s.locked then s else Go(s.(locked := true), t, Reload(code))
    case Reload(code) => Go(s, t, Rescan(code, 0, s.count))
    case Rescan(code, i, count) =>
      if i < count && i < |s.entries| then
        if s.entries[i] == code then Go(s, t, Release(code, Some(i))) else Go(s, t, Rescan(code, i + 1, count))
      else if count >= |s.entries| then Go(s, t, Release(code, None))
      else Go(s, t, Fill(code, count))
    case Fill(code, count) =>
      if count < |s.entries| then Go(s.(entries := s.entries[count := code]), t, Publish(code, count)) else s
    case Publish(code, count) => Go(s.(count := count + 1), t, Release(code, Some(count)))
    case Release(code, r) => Go(s.(locked := false), t, Done(code, r))
    case _ => Go(s, t, Idle)
  }

  datatype Action = Call(t: nat, code: int) | Move(t: nat)

  function Exec(s: State, a: Action): State {
    if a.t >= |s.threads| then s
    else
      match a
      case Call(t, code) => if s.threads[t].Idle? then Go(s, t, Begin(code)) else s
      case Move(t) => Step(s, t)
  }

  function Run(s: State, actions: seq<Action>): State {
    if |actions| == 0 then s else Exec(Run(s, actions[..|actions| - 1]), actions[|actions| - 1])
  }

  // ----- the invariant

  predicate Holds(pc: Pc) {
    pc.Reload? || pc.Rescan? || pc.Fill? || pc.Publish? || pc.Release?
  }

  /** None of the first n entries has the code. */
  predicate Absent(s: State, code: int, n: nat) {
    n <= |s.entries| && forall j :: 0 <= j < n ==> s.entries[j] != code
  }

  /** The entry that was found, or the proof that there is no room for the code. */
  predicate ResultOk(s: State, code: int, r: Option<nat>) {
    match r
    case Some(i) => i < s.count <= |s.entries| && s.entries[i] == code
    case None => s.count == |s.entries| && Absent(s, code, s.count)
  }

  predicate PcOk(s: State, pc: Pc) {
    match pc
    case Scan(code, i, count) => i <= count <= s.count && Absent(s, code, i)
    case Rescan(code, i, count) => i <= count == s.count && Absent(s, code, i)
    case Fill(code, count) => count == s.count < |s.entries| && Absent(s, code, count)
    case Publish(code, count) => count == s.count < |s.entries| && Absent(s, code, count) && s.entries[count] == code
    case Release(code, r) => ResultOk(s, code, r)
    case Done(code, r) => ResultOk(s, code, r)
    case _ => true
  }

  predicate Locals(s: State) {
    forall t :: 0 <= t < |s.threads| ==> PcOk(s, s.threads[t])
  }

  predicate Exclusive(s: State) {
    && (forall t :: 0 <= t < |s.threads| && Holds(s.threads[t]) ==> s.locked)
    && (forall t, u :: 0 <= t < |s.threads| && 0 <= u < |s.threads| && Holds(s.threads[t]) && Holds(s.threads[u]) ==> t == u)
  }

  predicate Distinct(s: State) {
    Shaped(s) && forall i, j :: 0 <= i < j < s.count ==> s.entries[i] != s.entries[j]
  }

  predicate Inv(s: State) {
    Shaped(s) && Locals(s) && Exclusive(s) && Distinct(s)
  }

  /** What a thread may do to the table: only a lock holder changes it, and the entries in use never change. */
  predicate Grows(s: State, s': State, holder: bool) {
    && |s'.entries| == |s.entries| && s.count <= s'.count <= |s.entries| && |s'.threads| == |s.threads|
    && (forall j :: 0 <= j < s.count ==> s'.entries[j] == s.entries[j])
    && (!holder ==> s'.entries == s.entries && s'.count == s.count)
  }

  lemma OtherOk(s: State, s': State, holder: bool, pc: Pc)
    requires Shaped(s) && PcOk(s, pc) && Grows(s, s', holder) && (Holds(pc) ==> !holder)
    ensures PcOk(s', pc)
  {
  }

  /** A thread without the lock changes nothing in the table. */
  lemma StepReader(s: State, t: nat, s': State)
    requires Shaped(s) && t < |s.threads| && PcOk(s, s.threads[t]) && !Holds(s.threads[t]) && s' == Step(s, t)
    ensures |s'.threads| == |s.threads| && s' == s.(locked := s'.locked, threads := s'.threads) && PcOk(s', s'.threads[t])
  {
  }

  /** The lock holder fills the entry past the end and publishes it. */
  lemma StepHolder(s: State, t: nat, s': State)
    requires Shaped(s) && t < |s.threads| && PcOk(s, s.threads[t]) && Holds(s.threads[t]) && s' == Step(s, t)
    ensures Shaped(s') && Grows(s, s', true) && PcOk(s', s'.threads[t])
  {
  }

  lemma StepSelf(s: State, t: nat, s': State)
    requires Shaped(s) && t < |s.threads| && PcOk(s, s.threads[t]) && s' == Step(s, t)
    ensures Shaped(s') && Grows(s, s', Holds(s.threads[t])) && PcOk(s', s'.threads[t])
  {
    if Holds(s.threads[t]) { StepHolder(s, t, s'); } else { StepReader(s, t, s'); }
  }

  lemma StepDistinct(s: State, t: nat)
    requires Shaped(s) && t < |s.threads| && PcOk(s, s.threads[t]) && Distinct(s)
    ensures Distinct(Step(s, t))
  {
  }

  lemma StepExclusive(s: State, t: nat)
    requires t < |s.threads| && Exclusive(s)
    ensures Exclusive(Step(s, t))
  {
  }

  lemma ExecInv(s: State, a: Action)
    requires Inv(s)
    ensures Inv(Exec(s, a)) && Grows(s, Exec(s, a), true)
  {
    if a.t < |s.threads| {
      var s' := Exec(s, a);
      if a.Move? {
        StepSelf(s, a.t, s');
        StepDistinct(s, a.t);
        StepExclusive(s, a.t);
        forall u | 0 <= u < |s.threads| && u != a.t ensures PcOk(s', s'.threads[u]) {
          OtherOk(s, s', Holds(s.threads[a.t]), s.threads[u]);
        }
      }
    }
  }

  lemma {:induction false} RunInv(cap: nat, n: nat, actions: seq<Action>)
    ensures Inv(Run(Init(cap, n), actions))
  {
    if |actions| > 0 {
      RunInv(cap, n, actions[..|actions| - 1]);
      ExecInv(Run(Init(cap, n), actions[..|actions| - 1]), actions[|actions| - 1]);
    }
  }

  // ----- what every run guarantees

  /** No code has two entries, and the table never overflows. */
  lemma CodesUnique(cap: nat, n: nat, actions: seq<Action>, i: nat, j: nat)
    requires i < Run(Init(cap, n), actions).count && j < Run(Init(cap, n), actions).count
    ensures var s := Run(Init(cap, n), actions);
            s.count <= |s.entries| && (s.entries[i] == s.entries[j] ==> i == j)
  {
    RunInv(cap, n, actions);
  }

  /** A call returns the entry of its code; it returns nothing exactly when the table is full and the code is not in it. */
  lemma ResultIsRight(cap: nat, n: nat, actions: seq<Action>, t: nat)
    requires var s := Run(Init(cap, n), actions); t < |s.threads| && s.threads[t].Done?
    ensures var s := Run(Init(cap, n), actions);
            var pc := s.threads[t];
            && s.count <= |s.entries|
            && (pc.r.Some? <==> exists i :: 0 <= i < s.count && s.entries[i] == pc.code)
            && (pc.r.Some? ==> pc.r.value < s.count && s.entries[pc.r.value] == pc.code)
            && (pc.r.None? ==> s.count == |s.entries|)
  {
    RunInv(cap, n, actions);
    var s := Run(Init(cap, n), actions);
    assert PcOk(s, s.threads[t]);
  }

  /** An entry keeps its code for the rest of every run. */
  lemma {:induction false} EntryForever(s: State, actions: seq<Action>, i: nat)
    requires Inv(s) && i < s.count
    ensures var r := Run(s, actions);
            Inv(r) && i < r.count && |r.entries| == |s.entries| && r.entries[i] == s.entries[i]
  {
    if |actions| > 0 {
      EntryForever(s, actions[..|actions| - 1], i);
      ExecInv(Run(s, actions[..|actions| - 1]), actions[|actions| - 1]);
    }
  }

  // ----- the table as a set of codes

  /** The codes that have an entry. */
  function Codes(s: State): set<int>
    requires Shaped(s)
  {
    set i | 0 <= i < s.count :: s.entries[i]
  }

  lemma {:induction false} PrefixSize(e: seq<int>, n: nat)
    requires n <= |e| && forall i, j :: 0 <= i < j < n ==> e[i] != e[j]
    ensures |set i | 0 <= i < n :: e[i]| == n
  {
    var all := set i | 0 <= i < n :: e[i];
    if n == 0 {
      assert all == {};
    } else {
      var fewer := set i | 0 <= i < n - 1 :: e[i];
      PrefixSize(e, n - 1);
      assert all == fewer + {e[n - 1]} && e[n - 1] !in fewer;
    }
  }

  /**
   * Seen as a set, the table changes in one step of a call: the publication adds the call's code, which was
   * not there, while there is room.
   */
  lemma StepCodes(s: State, t: nat, s': State)
    requires Inv(s) && t < |s.threads| && s' == Step(s, t)
    ensures Shaped(s') && |Codes(s)| == s.count
    ensures Codes(s') == Codes(s) || (s.threads[t].Publish? && s.threads[t].code !in Codes(s) && |Codes(s)| < |s.entries|
                                      && Codes(s') == Codes(s) + {s.threads[t].code})
  {
    StepSelf(s, t, s');
    PrefixSize(s.entries, s.count);
    if s.threads[t].Publish? {
      assert PcOk(s, s.threads[t]);
      assert forall x :: x in Codes(s') <==> x in Codes(s) || x == s'.entries[s.count];
    } else {
      assert s'.count == s.count;
    }
  }

  /** A call that returns an entry has its code in the set; one that returns nothing found the set full without it. */
  lemma ReturnCodes(cap: nat, n: nat, actions: seq<Action>, t: nat)
    requires var s := Run(Init(cap, n), actions); t < |s.threads| && s.threads[t].Done?
    ensures var s := Run(Init(cap, n), actions); var pc := s.threads[t];
            && Shaped(s) && (pc.r.Some? <==> pc.code in Codes(s)) && (pc.r.None? ==> |Codes(s)| == |s.entries|)
  {
    RunInv(cap, n, actions);
    ResultIsRight(cap, n, actions, t);
    var s := Run(Init(cap, n), actions);
    PrefixSize(s.entries, s.count);
  }
}
