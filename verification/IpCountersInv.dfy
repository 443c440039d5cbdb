/** The invariant of the address counters, and what it gives. */
module IpCountersInv {
  import opened IpCounters

  predicate Enters(pc: Pc) {
    (pc.Added? || pc.Seated?) && pc.first
  }

  /** Connection t has made its slot active and not yet counted it. */
  predicate Pending(s: State, t: nat, i: nat) {
    t < |s.tokens| && s.tokens[t].slot == i && Enters(s.tokens[t].pc)
  }

  predicate ActiveOk(w: World, s: State)
    requires Shaped(w, s)
  {
    forall i :: 0 <= i < |s.active| ==> s.active[i] == Users(i, s.tokens)
  }

  ghost predicate PendOk(w: World, s: State)
    requires Shaped(w, s)
  {
    && (forall t: nat, i: nat :: Pending(s, t, i) && i < |s.pend| ==> s.pend[i])
    && (forall t: nat, u: nat, i: nat :: Pending(s, t, i) && Pending(s, u, i) ==> t == u)
    && (forall i :: 0 <= i < |s.pend| && s.pend[i] ==> exists t :: Pending(s, t, i))
  }

  /** What a connection has found out about the entry of its group stays true. */
  predicate FoundOk(w: World, s: State)
    requires Shaped(w, s)
  {
    forall t :: 0 <= t < |s.tokens| ==> TokenOk(w, s, s.tokens[t])
  }

  predicate TokenOk(w: World, s: State, x: Token)
    requires x.slot < |w.group|
  {
    && (x.pc.Checked? ==> Tracked(w, s, x.slot))
    && (x.pc.Seated? || x.pc.Sought? ==> if x.pc.found then Tracked(w, s, x.slot) else Untracked(w, s, x.slot))
  }

  /** There is no group, or no room for it. */
  predicate Untracked(w: World, s: State, i: nat)
    requires i < |w.group|
  {
    w.group[i].Some? ==> w.group[i].value !in s.unique && |s.unique| >= w.cap
  }

  predicate Tracked(w: World, s: State, i: nat)
    requires i < |w.group|
  {
    w.group[i].Some? && w.group[i].value in s.unique
  }

  /** The counter of group g: active addresses, plus decrements on their way, minus increments on their way. */
  predicate Law(w: World, s: State, g: int)
    requires Shaped(w, s)
  {
    g in s.unique || |s.unique| < w.cap ==>
      Value(s.unique, g) == Counted(w, g, s.active, s.pend, |w.group|) + Leaving(w, g, s.tokens)
  }

  ghost predicate Laws(w: World, s: State)
    requires Shaped(w, s)
  {
    forall g: int :: Law(w, s, g)
  }

  ghost predicate Inv(w: World, s: State) {
    Shaped(w, s) && ActiveOk(w, s) && PendOk(w, s) && FoundOk(w, s) && Laws(w, s) && s.dropped == 0
  }

  // ----- consequences

  lemma PendIsActive(w: World, s: State, i: nat)
    requires Shaped(w, s) && ActiveOk(w, s) && PendOk(w, s) && i < |s.pend| && s.pend[i]
    ensures s.active[i] > 0
  {
    var t :| Pending(s, t, i);
    UsersMember(i, s.tokens, t);
  }

  lemma NonNegative(w: World, s: State, g: int)
    requires Shaped(w, s) && ActiveOk(w, s) && PendOk(w, s)
    ensures Counted(w, g, s.active, s.pend, |w.group|) >= 0
  {
    forall i | 0 <= i < |s.active| && s.pend[i] ensures s.active[i] > 0 { PendIsActive(w, s, i); }
    CountedPositive(w, g, s.active, s.pend, |w.group|);
  }

  /** A user of a slot that is alone on it leaves nobody pending there. */
  lemma AloneNotPending(w: World, s: State, t: nat, i: nat)
    requires Shaped(w, s) && ActiveOk(w, s) && PendOk(w, s) && t < |s.tokens| && s.tokens[t] == Token(i, Live) && s.active[i] == 1
    ensures !s.pend[i]
  {
    if s.pend[i] {
      var u :| Pending(s, u, i);
      UsersUpdate(i, s.tokens, t, Token(i, Gone));
      UsersMember(i, s.tokens[t := Token(i, Gone)], u);
    }
  }

  // ----- preservation, part by part

  lemma StepActive(w: World, s: State, t: nat)
    requires Shaped(w, s) && ActiveOk(w, s) && t < |s.tokens|
    ensures ActiveOk(w, Step(w, s, t))
  {
    var s' := Step(w, s, t);
    assert s'.tokens == s.tokens[t := s'.tokens[t]];
    forall i | 0 <= i < |s'.active| ensures s'.active[i] == Users(i, s'.tokens) {
      UsersUpdate(i, s.tokens, t, s'.tokens[t]);
    }
  }

  /** The other connections are where they were. */
  predicate OnlyMoved(s: State, s': State, t: nat) {
    |s'.tokens| == |s.tokens| && t < |s.tokens| && forall u :: 0 <= u < |s.tokens| && u != t ==> s'.tokens[u] == s.tokens[u]
  }

  lemma PendBegins(w: World, s: State, s': State, t: nat, i: nat)
    requires Shaped(w, s) && Shaped(w, s') && PendOk(w, s) && OnlyMoved(s, s', t) && i < |s.pend| && !s.pend[i]
    requires s'.tokens[t].slot == i && Enters(s'.tokens[t].pc) && !Enters(s.tokens[t].pc) && s'.pend == s.pend[i := true]
    ensures PendOk(w, s')
  {
    forall u: nat, k: nat | Pending(s', u, k) && k < |s'.pend| && u != t ensures Pending(s, u, k) && k != i { assert Pending(s, u, k); }
    forall k | 0 <= k < |s'.pend| && s'.pend[k] ensures exists u :: Pending(s', u, k) {
      if k == i { assert Pending(s', t, i); } else { var u :| Pending(s, u, k); assert Pending(s', u, k); }
    }
  }

  lemma PendEnds(w: World, s: State, s': State, t: nat, i: nat)
    requires Shaped(w, s) && Shaped(w, s') && PendOk(w, s) && OnlyMoved(s, s', t) && i < |s.pend|
    requires Pending(s, t, i) && !Enters(s'.tokens[t].pc) && s'.pend == s.pend[i := false]
    ensures PendOk(w, s')
  {
    forall u: nat, k: nat | Pending(s', u, k) ensures Pending(s, u, k) && u != t && k != i { assert Pending(s, u, k); }
    forall k | 0 <= k < |s'.pend| && s'.pend[k] ensures exists u :: Pending(s', u, k) {
      var u :| Pending(s, u, k);
      assert Pending(s', u, k);
    }
  }

  lemma PendSame(w: World, s: State, s': State, t: nat)
    requires Shaped(w, s) && Shaped(w, s') && PendOk(w, s) && OnlyMoved(s, s', t) && s'.pend == s.pend
    requires s'.tokens[t].slot == s.tokens[t].slot && (Enters(s'.tokens[t].pc) <==> Enters(s.tokens[t].pc))
    ensures PendOk(w, s')
  {
    forall u: nat, k: nat | Pending(s', u, k) ensures Pending(s, u, k) { }
    forall k | 0 <= k < |s'.pend| && s'.pend[k] ensures exists u :: Pending(s', u, k) {
      var u :| Pending(s, u, k);
      assert Pending(s', u, k);
    }
  }

  lemma StepPend(w: World, s: State, t: nat, s': State)
    requires Shaped(w, s) && ActiveOk(w, s) && PendOk(w, s) && t < |s.tokens| && s' == Step(w, s, t)
    ensures PendOk(w, s')
  {
    var i, pc := s.tokens[t].slot, s.tokens[t].pc;
    if pc.New? && s.active[i] == 0 {
      if s.pend[i] { PendIsActive(w, s, i); }
      PendBegins(w, s, s', t, i);
    } else if pc.Seated? && pc.first {
      PendEnds(w, s, s', t, i);
    } else {
      assert s'.pend == s.pend;
      PendSame(w, s, s', t);
    }
  }

  lemma StepFound(w: World, s: State, t: nat, s': State)
    requires Shaped(w, s) && FoundOk(w, s) && t < |s.tokens| && s' == Step(w, s, t)
    ensures FoundOk(w, s')
  {
    assert TokenOk(w, s, s.tokens[t]);
    forall u | 0 <= u < |s'.tokens| && u != t ensures TokenOk(w, s', s'.tokens[u]) {
      assert TokenOk(w, s, s.tokens[u]);
      OtherFound(w, s, t, s', s.tokens[u]);
    }
  }

  lemma OtherFound(w: World, s: State, t: nat, s': State, x: Token)
    requires Shaped(w, s) && t < |s.tokens| && s' == Step(w, s, t) && TokenOk(w, s, s.tokens[t])
    requires x.slot < |w.group| && TokenOk(w, s, x)
    ensures TokenOk(w, s', x)
  {
    Monotone(w, s, t, s');
  }

  /** No entry is lost, and a full table stays as it is. */
  lemma Monotone(w: World, s: State, t: nat, s': State)
    requires Shaped(w, s) && t < |s.tokens| && s' == Step(w, s, t) && TokenOk(w, s, s.tokens[t])
    ensures s.unique.Keys <= s'.unique.Keys && |s.unique| <= |s'.unique|
    ensures |s.unique| >= w.cap ==> s'.unique.Keys == s.unique.Keys
  {
    var g := GroupOf(w, s.tokens[t].slot);
    UniqueAfter(w, s, t, s', g);
    if s'.unique != s.unique { Grown(s.unique, g.value, Value(s'.unique, g.value)); }
  }

  /** Only the entry of the connection's group changes, and it is created only where there is room. */
  lemma UniqueAfter(w: World, s: State, t: nat, s': State, g: Option<int>)
    requires Shaped(w, s) && t < |s.tokens| && s' == Step(w, s, t) && TokenOk(w, s, s.tokens[t]) && g == GroupOf(w, s.tokens[t].slot)
    ensures s'.unique == s.unique
            || (g.Some? && (g.value in s.unique || |s.unique| < w.cap) && s'.unique == s.unique[g.value := Value(s'.unique, g.value)])
  {
  }

  lemma Grown(m: map<int, int>, k: int, v: int)
    ensures m[k := v].Keys == m.Keys + {k} && |m| <= |m[k := v]| && (k in m ==> m[k := v].Keys == m.Keys)
  {
    assert m[k := v].Keys == m.Keys + {k};
    if k in m { assert m.Keys + {k} == m.Keys; }
  }

  // ----- the law of the counters

  /** A step that changes one slot, one connection and the counter of that slot's group. */
  lemma LawStep(w: World, s: State, s': State, t: nat, g: int)
    requires Shaped(w, s) && Shaped(w, s') && Law(w, s, g) && t < |s.tokens| == |s'.tokens| && s'.tokens == s.tokens[t := s'.tokens[t]]
    requires var i := s.tokens[t].slot;
             && s'.tokens[t].slot == i
             && (forall j :: 0 <= j < |s.active| && j != i ==> s'.active[j] == s.active[j] && s'.pend[j] == s.pend[j])
             && (g in s'.unique || |s'.unique| < w.cap ==> g in s.unique || |s.unique| < w.cap)
             && (g in s'.unique || |s'.unique| < w.cap ==>
                  Value(s'.unique, g) - Value(s.unique, g) ==
                    Share(w, g, s'.active, s'.pend, i) - Share(w, g, s.active, s.pend, i)
                    + (if Leaves(w, s'.tokens[t], g) then 1 else 0) - (if Leaves(w, s.tokens[t], g) then 1 else 0))
    ensures Law(w, s', g)
  {
    var i := s.tokens[t].slot;
    CountedUpdate(w, g, s.active, s.pend, s'.active, s'.pend, i, |w.group|);
    LeavingUpdate(w, g, s.tokens, t, s'.tokens[t]);
  }

  /** A decrement on its way finds its group tracked, or the table full without it; and then the counter is positive. */
  lemma DecrementFinds(w: World, s: State, t: nat, g: int)
    requires Shaped(w, s) && ActiveOk(w, s) && PendOk(w, s) && Law(w, s, g) && t < |s.tokens| && Leaves(w, s.tokens[t], g)
    ensures g in s.unique || |s.unique| >= w.cap
    ensures g in s.unique ==> s.unique[g] > 0
  {
    NonNegative(w, s, g);
    LeavingMember(w, g, s.tokens, t);
  }

  lemma LawNew(w: World, s: State, t: nat, s': State, g: int)
    requires Shaped(w, s) && Law(w, s, g) && t < |s.tokens| && s.tokens[t].pc.New? && s' == Step(w, s, t)
    requires var i := s.tokens[t].slot; s.active[i] >= 0 && (s.pend[i] ==> s.active[i] > 0)
    ensures Law(w, s', g)
  {
    LawStep(w, s, s', t, g);
  }

  /** Looking for the entry of the group. */
  lemma LawFind(w: World, s: State, t: nat, s': State, g: int)
    requires Shaped(w, s) && Law(w, s, g) && t < |s.tokens| && s' == Step(w, s, t)
    requires s.tokens[t].pc.Added? || s.tokens[t].pc.Removed?
    ensures Law(w, s', g)
  {
    LawStep(w, s, s', t, g);
  }

  lemma LawSeated(w: World, s: State, t: nat, s': State, g: int)
    requires Shaped(w, s) && Law(w, s, g) && t < |s.tokens| && s.tokens[t].pc.Seated? && s' == Step(w, s, t)
    requires TokenOk(w, s, s.tokens[t]) && (s.tokens[t].pc.first ==> s.pend[s.tokens[t].slot] && s.active[s.tokens[t].slot] > 0)
    ensures Law(w, s', g)
  {
    Monotone(w, s, t, s');
    LawStep(w, s, s', t, g);
  }

  lemma LawLive(w: World, s: State, t: nat, s': State, g: int)
    requires Shaped(w, s) && Law(w, s, g) && t < |s.tokens| && s.tokens[t].pc.Live? && s' == Step(w, s, t)
    requires var i := s.tokens[t].slot; s.active[i] >= 1 && (s.active[i] == 1 ==> !s.pend[i])
    ensures Law(w, s', g)
  {
    LawStep(w, s, s', t, g);
  }

  lemma LawSought(w: World, s: State, t: nat, s': State, g: int)
    requires Shaped(w, s) && Law(w, s, g) && t < |s.tokens| && s.tokens[t].pc.Sought? && s' == Step(w, s, t)
    requires TokenOk(w, s, s.tokens[t]) && (Leaves(w, s.tokens[t], g) && g in s.unique ==> s.unique[g] > 0)
    ensures Law(w, s', g)
  {
    LawStep(w, s, s', t, g);
  }

  lemma LawChecked(w: World, s: State, t: nat, s': State, g: int)
    requires Shaped(w, s) && Law(w, s, g) && t < |s.tokens| && s.tokens[t].pc.Checked? && s' == Step(w, s, t)
    requires Tracked(w, s, s.tokens[t].slot)
    ensures Law(w, s', g)
  {
    LawStep(w, s, s', t, g);
  }

  lemma StepLaw(w: World, s: State, t: nat, s': State, g: int)
    requires Shaped(w, s) && ActiveOk(w, s) && PendOk(w, s) && FoundOk(w, s) && Laws(w, s) && t < |s.tokens| && s' == Step(w, s, t)
    ensures Law(w, s', g)
  {
    assert Law(w, s, g);
    var i := s.tokens[t].slot;
    assert s.active[i] == Users(i, s.tokens);
    if s.pend[i] { PendIsActive(w, s, i); }
    assert TokenOk(w, s, s.tokens[t]);
    match s.tokens[t].pc
    case New => LawNew(w, s, t, s', g);
    case Added(_) => LawFind(w, s, t, s', g);
    case Seated(first, _) => {
      if first { assert Pending(s, t, i); }
      LawSeated(w, s, t, s', g);
    }
    case Live => {
      UsersMember(i, s.tokens, t);
      if s.active[i] == 1 { AloneNotPending(w, s, t, i); }
      LawLive(w, s, t, s', g);
    }
    case Removed(_) => LawFind(w, s, t, s', g);
    case Sought(_) => {
      if Leaves(w, s.tokens[t], g) { DecrementFinds(w, s, t, g); }
      LawSought(w, s, t, s', g);
    }
    case Checked => LawChecked(w, s, t, s', g);
    case Gone => {}
  }

  /** The guard on the counter never suppresses a decrement. */
  lemma StepDropsNothing(w: World, s: State, t: nat)
    requires Shaped(w, s) && ActiveOk(w, s) && PendOk(w, s) && FoundOk(w, s) && Laws(w, s) && t < |s.tokens|
    ensures Step(w, s, t).dropped == s.dropped
  {
    assert TokenOk(w, s, s.tokens[t]);
    var g := GroupOf(w, s.tokens[t].slot);
    if g.Some? && Leaves(w, s.tokens[t], g.value) {
      assert Law(w, s, g.value);
      DecrementFinds(w, s, t, g.value);
    }
  }

  lemma StepInv(w: World, s: State, t: nat, s': State)
    requires Inv(w, s) && t < |s.tokens| && s' == Step(w, s, t)
    ensures Inv(w, s')
  {
    StepActive(w, s, t);
    StepPend(w, s, t, s');
    StepFound(w, s, t, s');
    StepDropsNothing(w, s, t);
    forall g: int ensures Law(w, s', g) { StepLaw(w, s, t, s', g); }
  }

  // ----- runs

  predicate Fits(w: World, slots: seq<nat>) {
    forall i :: 0 <= i < |slots| ==> slots[i] < |w.group|
  }

  lemma {:induction false} NothingYet(w: World, g: int, i: nat, ts: seq<Token>)
    requires forall t :: 0 <= t < |ts| ==> ts[t].pc.New?
    ensures Users(i, ts) == 0 && Leaving(w, g, ts) == 0
  {
    if |ts| > 0 {
      assert forall t :: 0 <= t < |ts[1..]| ==> ts[1..][t] == ts[t + 1];
      NothingYet(w, g, i, ts[1..]);
    }
  }

  lemma {:induction false} NobodyActive(w: World, g: int, active: seq<int>, pend: seq<bool>, n: nat)
    requires n <= |active| == |pend| == |w.group| && forall i :: 0 <= i < |active| ==> active[i] == 0 && !pend[i]
    ensures Counted(w, g, active, pend, n) == 0
  {
    if n > 0 { NobodyActive(w, g, active, pend, n - 1); }
  }

  lemma InitInv(w: World, slots: seq<nat>)
    requires Fits(w, slots)
    ensures Inv(w, Init(w, slots))
  {
    var s := Init(w, slots);
    forall i | 0 <= i < |s.active| ensures s.active[i] == Users(i, s.tokens) { NothingYet(w, 0, i, s.tokens); }
    forall g: int ensures Law(w, s, g) {
      NothingYet(w, g, 0, s.tokens);
      NobodyActive(w, g, s.active, s.pend, |w.group|);
    }
  }

  lemma {:induction false} RunInv(w: World, slots: seq<nat>, schedule: seq<nat>)
    requires Fits(w, slots)
    ensures Shaped(w, Init(w, slots)) && Inv(w, Run(w, Init(w, slots), schedule))
  {
    InitInv(w, slots);
    if |schedule| > 0 {
      RunInv(w, slots, schedule[..|schedule| - 1]);
      var r := Run(w, Init(w, slots), schedule[..|schedule| - 1]);
      var t := schedule[|schedule| - 1];
      if t < |r.tokens| { StepInv(w, r, t, Step(w, r, t)); }
    }
  }

  // ----- what every run guarantees

  /** Slots of group g with at least one connection. */
  function ActiveIn(w: World, g: int, active: seq<int>, n: nat): nat
    requires n <= |active| == |w.group|
  {
    if n == 0 then 0 else ActiveIn(w, g, active, n - 1) + (if w.group[n - 1] == Some(g) && active[n - 1] > 0 then 1 else 0)
  }

  /** Slots of group g whose first connection has not counted them yet. */
  function EnteringIn(w: World, g: int, pend: seq<bool>, n: nat): nat
    requires n <= |pend| == |w.group|
  {
    if n == 0 then 0 else EnteringIn(w, g, pend, n - 1) + (if w.group[n - 1] == Some(g) && pend[n - 1] then 1 else 0)
  }

  lemma {:induction false} CountedSplits(w: World, g: int, active: seq<int>, pend: seq<bool>, n: nat)
    requires n <= |active| == |pend| == |w.group|
    ensures Counted(w, g, active, pend, n) == ActiveIn(w, g, active, n) - EnteringIn(w, g, pend, n)
  {
    if n > 0 { CountedSplits(w, g, active, pend, n - 1); }
  }

  /** The counter of a tracked group is its active addresses plus pending decrements minus pending increments; the guard drops nothing. */
  lemma UniqueIsActive(w: World, slots: seq<nat>, schedule: seq<nat>, g: int)
    requires Fits(w, slots)
    ensures Shaped(w, Init(w, slots))
    ensures var s := Run(w, Init(w, slots), schedule);
            && s.dropped == 0
            && (g in s.unique ==>
                  s.unique[g] == ActiveIn(w, g, s.active, |w.group|) + Leaving(w, g, s.tokens) - EnteringIn(w, g, s.pend, |w.group|) >= 0)
  {
    RunInv(w, slots, schedule);
    var s := Run(w, Init(w, slots), schedule);
    assert Law(w, s, g);
    CountedSplits(w, g, s.active, s.pend, |w.group|);
    NonNegative(w, s, g);
  }

  /** `active_conns` is the number of connections of the address, so it never goes below zero. */
  lemma ActiveIsConnections(w: World, slots: seq<nat>, schedule: seq<nat>, i: nat)
    requires Fits(w, slots) && i < |w.group|
    ensures Shaped(w, Init(w, slots))
    ensures var s := Run(w, Init(w, slots), schedule);
            s.active[i] == Users(i, s.tokens) >= 0
  {
    RunInv(w, slots, schedule);
  }

  // ----- every connection gets through

  /** How often connection t is scheduled. */
  function Turns(schedule: seq<nat>, t: nat): nat {
    if |schedule| == 0 then 0 else Turns(schedule[..|schedule| - 1], t) + if schedule[|schedule| - 1] == t then 1 else 0
  }

  /** How far a connection is after some turns of its own. */
  predicate HasCome(turns: nat, pc: Pc) {
    match pc
    case New => turns == 0
    case Added(_) => turns == 1
    case Seated(_, _) => turns == 2
    case Live => turns == 3
    case Removed(_) => turns == 4
    case Sought(_) => turns == 5
    case Checked => turns == 6
    case Gone => turns >= 5
  }

  /** Whatever the others do, ip_stats_connect returns with a connection's third access, and its disconnect is over with its seventh. */
  lemma {:induction false} TurnsTaken(w: World, slots: seq<nat>, schedule: seq<nat>, t: nat)
    requires Fits(w, slots) && t < |slots|
    ensures Shaped(w, Init(w, slots))
    ensures var s := Run(w, Init(w, slots), schedule);
            |s.tokens| == |slots| && s.tokens[t].slot == slots[t] && HasCome(Turns(schedule, t), s.tokens[t].pc)
  {
    if |schedule| > 0 {
      TurnsTaken(w, slots, schedule[..|schedule| - 1], t);
      var r := Run(w, Init(w, slots), schedule[..|schedule| - 1]);
      var u := schedule[|schedule| - 1];
      if u < |r.tokens| { TurnTaken(w, r, u, t); }
    }
  }

  lemma TurnTaken(w: World, s: State, u: nat, t: nat)
    requires Shaped(w, s) && u < |s.tokens| && t < |s.tokens|
    ensures var r := Step(w, s, u);
            && |r.tokens| == |s.tokens| && r.tokens[t].slot == s.tokens[t].slot
            && (u != t ==> r.tokens[t] == s.tokens[t])
            && (u == t ==> forall n: nat :: HasCome(n, s.tokens[t].pc) ==> HasCome(n + 1, r.tokens[t].pc))
  {
  }

  /** Once every connection has had its seven turns, every address is inactive and every group counts zero. */
  lemma AllOver(w: World, slots: seq<nat>, schedule: seq<nat>, i: nat, g: int)
    requires Fits(w, slots) && i < |w.group| && forall t :: 0 <= t < |slots| ==> Turns(schedule, t) >= 7
    ensures Shaped(w, Init(w, slots))
    ensures var s := Run(w, Init(w, slots), schedule);
            s.active[i] == 0 && (g in s.unique ==> s.unique[g] == 0)
  {
    RunInv(w, slots, schedule);
    var s := Run(w, Init(w, slots), schedule);
    assert |s.tokens| == |slots| by { if |slots| > 0 { TurnsTaken(w, slots, schedule, 0); } else { NoTokens(w, slots, schedule); } }
    forall t | 0 <= t < |s.tokens| ensures s.tokens[t].pc.Gone? { TurnsTaken(w, slots, schedule, t); }
    forall j | 0 <= j < |w.group| ensures s.active[j] == 0 && !s.pend[j] {
      NobodyLeft(w, g, j, s.tokens);
      ActiveIsConnections(w, slots, schedule, j);
    }
    NobodyLeft(w, g, i, s.tokens);
    NobodyActive(w, g, s.active, s.pend, |w.group|);
    assert Law(w, s, g);
  }

  lemma {:induction false} NoTokens(w: World, slots: seq<nat>, schedule: seq<nat>)
    requires Fits(w, slots) && |slots| == 0
    ensures Shaped(w, Init(w, slots)) && |Run(w, Init(w, slots), schedule).tokens| == 0
  {
    if |schedule| > 0 { NoTokens(w, slots, schedule[..|schedule| - 1]); }
  }

  lemma {:induction false} NobodyLeft(w: World, g: int, i: nat, ts: seq<Token>)
    requires forall t :: 0 <= t < |ts| ==> ts[t].pc.Gone?
    ensures Users(i, ts) == 0 && Leaving(w, g, ts) == 0
  {
    if |ts| > 0 {
      assert forall t :: 0 <= t < |ts[1..]| ==> ts[1..][t] == ts[t + 1];
      NobodyLeft(w, g, i, ts[1..]);
    }
  }
}
