/**
 * The shared hash table of client addresses (src/mtproto/ip-stats.c): linear probing, slots claimed
 * by compare-and-swap and never given back, used by any number of processes at once. One shared
 * access per step; the hash function is arbitrary.
 */
module IpTable {

  /** A slot: address 0 means empty; `ready` is set after the claimer has filled in the location. */
  datatype Slot = Slot(ip: nat, ready: bool)

  type Hash = nat -> nat

  datatype Pc =
    | Idle
    | Probing(ip: nat, k: nat, create: bool)     // about to load slot number k of the probe sequence
    | Claiming(ip: nat, k: nat)                  // saw it empty, about to compare and swap
    | Publishing(ip: nat, k: nat)                // claimed it, about to set `ready`
    | Waiting(ip: nat, k: nat)                   // ip_ht_wait_ready
    | Got(ip: nat, k: nat, isNew: bool)          // returned the slot
    | Missing(ip: nat)                           // ip_ht_find returned NULL at an empty slot
    | Full(ip: nat)                              // scanned the whole table
    | Late(ip: nat)                              // ip_ht_wait_ready gave up and returned NULL

  datatype State = State(slots: seq<Slot>, threads: seq<Pc>)

  function Init(size: nat, n: nat): State {
    State(seq(size, _ => Slot(0, false)), seq(n, _ => Idle))
  }

  /** Number k of the probe sequence that starts at h: `idx = (idx + 1) & MASK` k times. */
  function Probe(h: nat, k: nat, size: nat): (i: nat)
    requires h < size && k < size
    ensures i < size
  {
    if h + k < size then h + k else h + k - size
  }

  /** The slot a thread looks at. */
  function At(hash: Hash, s: State, ip: nat, k: nat): (i: nat)
    requires k < |s.slots|
    ensures i < |s.slots|
  {
    Probe(Start(hash, ip, |s.slots|), k, |s.slots|)
  }

  /** The hash, cut to the size of the table. */
  function Start(hash: Hash, ip: nat, size: nat): (h: nat)
    requires size > 0
    ensures h < size
  {
    if hash(ip) < size then hash(ip) else 0
  }

  function Go(s: State, t: nat, pc: Pc): State
    requires t < |s.threads|
  {
    s.(threads := s.threads[t := pc])
  }

  function Step(hash: Hash, s: State, t: nat): State
    requires t < |s.threads|
  {
    match s.threads[t]
    case Probing(ip, k, create) =>
      if k >= |s.slots| then Go(s, t, Full(ip))
      else
        var cur := s.slots[At(hash, s, ip, k)].ip;
        if cur == ip then Go(s, t, Waiting(ip, k))
        else if cur == 0 then Go(s, t, if create then Claiming(ip, k) else Missing(ip))
        else Go(s, t, Probing(ip, k + 1, create))
    case Claiming(ip, k) =>
      if k >= |s.slots| then s
      else
        var i := At(hash, s, ip, k);
        if s.slots[i].ip == 0 then Go(s.(slots := s.slots[i := Slot(ip, false)]), t, Publishing(ip, k))
        else if s.slots[i].ip == ip then Go(s, t, Waiting(ip, k))
        else Go(s, t, Probing(ip, k + 1, true))
    case Publishing(ip, k) =>
      if k >= |s.slots| then s
      else
        var i := At(hash, s, ip, k);
        Go(s.(slots := s.slots[i := s.slots[i].(ready := true)]), t, Got(ip, k, true))
    case Waiting(ip, k) =>
      if k < |s.slots| && s.slots[At(hash, s, ip, k)].ready then Go(s, t, Got(ip, k, false)) else s
    case _ => Go(s, t, Idle)
  }

  /** A call begins (address 0 is turned away before), a thread goes on, or the clock ends its wait. */
  datatype Action = Call(t: nat, ip: nat, create: bool) | Move(t: nat) | GiveUp(t: nat)

  function Exec(hash: Hash, s: State, a: Action): State {
    if a.t >= |s.threads| then s
    else
      match a
      case Call(t, ip, create) => if s.threads[t].Idle? && ip != 0 then Go(s, t, Probing(ip, 0, create)) else s
      case Move(t) => Step(hash, s, t)
      case GiveUp(t) => if s.threads[t].Waiting? then Go(s, t, Late(s.threads[t].ip)) else s
  }

  function Run(hash: Hash, s: State, actions: seq<Action>): State {
    if |actions| == 0 then s else Exec(hash, Run(hash, s, actions[..|actions| - 1]), actions[|actions| - 1])
  }

  // ----- the invariant

  /** The first k slots of the probe sequence of `ip` are taken by other addresses. */
  predicate Passed(hash: Hash, s: State, ip: nat, k: nat) {
    k <= |s.slots| && forall j :: 0 <= j < k ==> s.slots[At(hash, s, ip, j)].ip != 0 && s.slots[At(hash, s, ip, j)].ip != ip
  }

  predicate Stored(hash: Hash, s: State, ip: nat, k: nat) {
    k < |s.slots| && s.slots[At(hash, s, ip, k)].ip == ip
  }

  predicate PcOk(hash: Hash, s: State, pc: Pc) {
    match pc
    case Probing(ip, k, _) => ip != 0 && Passed(hash, s, ip, k)
    case Claiming(ip, k) => ip != 0 && k < |s.slots| && Passed(hash, s, ip, k)
    case Publishing(ip, k) => ip != 0 && Stored(hash, s, ip, k)
    case Waiting(ip, k) => ip != 0 && Stored(hash, s, ip, k)
    case Got(ip, k, _) => ip != 0 && Stored(hash, s, ip, k) && s.slots[At(hash, s, ip, k)].ready
    case Full(ip) => ip != 0 && Passed(hash, s, ip, |s.slots|)
    case _ => true
  }

  predicate Locals(hash: Hash, s: State) {
    forall t :: 0 <= t < |s.threads| ==> PcOk(hash, s, s.threads[t])
  }

  /** The address in slot i is on its own probe sequence, behind slots that were all taken before. */
  predicate OnPath(hash: Hash, s: State, i: nat)
    requires i < |s.slots|
  {
    s.slots[i].ip != 0 ==> exists k :: 0 <= k < |s.slots| && Reaches(hash, s, s.slots[i].ip, k, i)
  }

  predicate Reaches(hash: Hash, s: State, ip: nat, k: nat, i: nat) {
    k < |s.slots| && At(hash, s, ip, k) == i && Passed(hash, s, ip, k)
  }

  predicate Paths(hash: Hash, s: State) {
    forall i :: 0 <= i < |s.slots| ==> OnPath(hash, s, i)
  }

  predicate Inv(hash: Hash, s: State) {
    Locals(hash, s) && Paths(hash, s)
  }

  // ----- slots only ever go from empty to taken

  predicate Grows(s: State, s': State) {
    && |s'.slots| == |s.slots| && |s'.threads| == |s.threads|
    && forall i :: 0 <= i < |s.slots| && s.slots[i].ip != 0 ==>
         s'.slots[i].ip == s.slots[i].ip && (s.slots[i].ready ==> s'.slots[i].ready)
  }

  lemma StepGrows(hash: Hash, s: State, t: nat)
    requires t < |s.threads|
    ensures Grows(s, Step(hash, s, t))
  {
  }

  lemma PassedStays(hash: Hash, s: State, s': State, ip: nat, k: nat)
    requires Grows(s, s') && Passed(hash, s, ip, k)
    ensures Passed(hash, s', ip, k)
  {
    forall j | 0 <= j < k ensures s'.slots[At(hash, s', ip, j)].ip != 0 && s'.slots[At(hash, s', ip, j)].ip != ip {
      assert At(hash, s', ip, j) == At(hash, s, ip, j);
    }
  }

  lemma PcStays(hash: Hash, s: State, s': State, pc: Pc)
    requires Grows(s, s') && PcOk(hash, s, pc)
    ensures PcOk(hash, s', pc)
  {
    if (pc.Probing? || pc.Claiming?) && pc.k <= |s.slots| { PassedStays(hash, s, s', pc.ip, pc.k); }
    if pc.Full? { PassedStays(hash, s, s', pc.ip, |s.slots|); }
    if (pc.Publishing? || pc.Waiting? || pc.Got?) && pc.k < |s.slots| { assert At(hash, s', pc.ip, pc.k) == At(hash, s, pc.ip, pc.k); }
  }

  lemma PathStays(hash: Hash, s: State, s': State, i: nat)
    requires Grows(s, s') && i < |s.slots| && OnPath(hash, s, i) && s.slots[i].ip != 0
    ensures OnPath(hash, s', i)
  {
    var ip := s.slots[i].ip;
    var k :| 0 <= k < |s.slots| && Reaches(hash, s, ip, k, i);
    PassedStays(hash, s, s', ip, k);
    assert Reaches(hash, s', ip, k, i);
  }

  /** One more slot passed. */
  lemma PassOne(hash: Hash, s: State, ip: nat, k: nat)
    requires Passed(hash, s, ip, k) && k < |s.slots| && s.slots[At(hash, s, ip, k)].ip != 0 && s.slots[At(hash, s, ip, k)].ip != ip
    ensures Passed(hash, s, ip, k + 1)
  {
  }

  lemma StepSelf(hash: Hash, s: State, t: nat)
    requires t < |s.threads| && PcOk(hash, s, s.threads[t])
    ensures PcOk(hash, Step(hash, s, t), Step(hash, s, t).threads[t])
  {
    var pc, s' := s.threads[t], Step(hash, s, t);
    StepGrows(hash, s, t);
    PcStays(hash, s, s', pc);
    if (pc.Probing? || pc.Claiming?) && pc.k < |s.slots| {
      var i := At(hash, s, pc.ip, pc.k);
      if s.slots[i].ip != 0 && s.slots[i].ip != pc.ip {
        PassOne(hash, s, pc.ip, pc.k);
        PassedStays(hash, s, s', pc.ip, pc.k + 1);
      }
    }
  }

  lemma StepPaths(hash: Hash, s: State, t: nat)
    requires t < |s.threads| && PcOk(hash, s, s.threads[t]) && Paths(hash, s)
    ensures Paths(hash, Step(hash, s, t))
  {
    var pc, s' := s.threads[t], Step(hash, s, t);
    StepGrows(hash, s, t);
    forall i | 0 <= i < |s'.slots| ensures OnPath(hash, s', i) {
      if s.slots[i].ip != 0 {
        PathStays(hash, s, s', i);
      } else if s'.slots[i].ip != 0 {
        PassedStays(hash, s, s', pc.ip, pc.k);
        assert Reaches(hash, s', pc.ip, pc.k, i);
      }
    }
  }

  lemma ExecInv(hash: Hash, s: State, a: Action)
    requires Inv(hash, s)
    ensures Inv(hash, Exec(hash, s, a)) && Grows(s, Exec(hash, s, a))
  {
    var s' := Exec(hash, s, a);
    if a.t < |s.threads| {
      if a.Move? {
        StepGrows(hash, s, a.t);
        StepSelf(hash, s, a.t);
        StepPaths(hash, s, a.t);
      } else {
        forall i | 0 <= i < |s.slots| && s.slots[i].ip != 0 ensures OnPath(hash, s', i) { PathStays(hash, s, s', i); }
      }
      forall u | 0 <= u < |s.threads| && u != a.t ensures PcOk(hash, s', s'.threads[u]) { PcStays(hash, s, s', s.threads[u]); }
    }
  }

  lemma {:induction false} RunInv(hash: Hash, size: nat, n: nat, actions: seq<Action>)
    ensures Inv(hash, Run(hash, Init(size, n), actions))
  {
    if |actions| > 0 {
      RunInv(hash, size, n, actions[..|actions| - 1]);
      ExecInv(hash, Run(hash, Init(size, n), actions[..|actions| - 1]), actions[|actions| - 1]);
    }
  }

  // ----- what every run guarantees

  ghost predicate Reachable(hash: Hash, s: State) {
    exists size: nat, n: nat, actions: seq<Action> :: s == Run(hash, Init(size, n), actions)
  }

  lemma ReachableInv(hash: Hash, s: State)
    requires Reachable(hash, s)
    ensures Inv(hash, s)
  {
    var size: nat, n: nat, actions: seq<Action> :| s == Run(hash, Init(size, n), actions);
    RunInv(hash, size, n, actions);
  }

  /** An address occupies at most one slot. */
  lemma OneSlot(hash: Hash, s: State, i: nat, j: nat)
    requires Reachable(hash, s) && i < |s.slots| && j < |s.slots| && s.slots[i].ip == s.slots[j].ip != 0
    ensures i == j
  {
    ReachableInv(hash, s);
    assert OnPath(hash, s, i) && OnPath(hash, s, j);
    var ip := s.slots[i].ip;
    var k :| 0 <= k < |s.slots| && Reaches(hash, s, ip, k, i);
    var m :| 0 <= m < |s.slots| && Reaches(hash, s, ip, m, j);
  }

  /** A claimed slot keeps its address, and what was published stays published, for the rest of every run. */
  lemma {:induction false} ClaimedForever(hash: Hash, s: State, actions: seq<Action>, i: nat)
    requires Inv(hash, s) && i < |s.slots| && s.slots[i].ip != 0
    ensures var r := Run(hash, s, actions);
            && Inv(hash, r) && |r.slots| == |s.slots|
            && r.slots[i].ip == s.slots[i].ip && (s.slots[i].ready ==> r.slots[i].ready)
  {
    if |actions| > 0 {
      ClaimedForever(hash, s, actions[..|actions| - 1], i);
      ExecInv(hash, Run(hash, s, actions[..|actions| - 1]), actions[|actions| - 1]);
    }
  }

  /** A stored address stays reachable by probing: no search for it ends at an empty slot or runs off the table. */
  lemma StoredIsFound(hash: Hash, s: State, t: nat, i: nat)
    requires Reachable(hash, s) && t < |s.threads| && s.threads[t].Probing? && i < |s.slots| && s.slots[i].ip == s.threads[t].ip
    ensures var pc := Step(hash, s, t).threads[t];
            pc.Probing? || pc.Waiting?
  {
    ReachableInv(hash, s);
    var ip := s.threads[t].ip;
    assert PcOk(hash, s, s.threads[t]) && OnPath(hash, s, i);
    var k :| 0 <= k < |s.slots| && Reaches(hash, s, ip, k, i);
  }

  /** The slot that a call returns holds the address it asked for, with the location published. */
  lemma ReturnedIsReady(hash: Hash, s: State, t: nat)
    requires Reachable(hash, s) && t < |s.threads| && s.threads[t].Got?
    ensures var pc := s.threads[t];
            pc.k < |s.slots| && s.slots[At(hash, s, pc.ip, pc.k)] == Slot(pc.ip, true)
  {
    ReachableInv(hash, s);
    assert PcOk(hash, s, s.threads[t]);
  }

  /** Every place of the table is on every probe sequence. */
  lemma ProbeCovers(h: nat, i: nat, size: nat) returns (k: nat)
    requires h < size && i < size
    ensures k < size && Probe(h, k, size) == i
  {
    k := if i >= h then i - h else i + size - h;
  }

  /** A call that found the table full found it full of other addresses, and its address is never stored afterwards. */
  lemma FullForever(hash: Hash, s: State, t: nat, actions: seq<Action>, i: nat)
    requires Reachable(hash, s) && t < |s.threads| && s.threads[t].Full? && i < |s.slots|
    ensures var r := Run(hash, s, actions);
            |r.slots| == |s.slots| && r.slots[i].ip != 0 && r.slots[i].ip != s.threads[t].ip
  {
    ReachableInv(hash, s);
    var ip := s.threads[t].ip;
    assert PcOk(hash, s, s.threads[t]);
    var k := ProbeCovers(Start(hash, ip, |s.slots|), i, |s.slots|);
    assert At(hash, s, ip, k) == i;
    ClaimedForever(hash, s, actions, i);
  }

  // ----- nobody waits in vain

  predicate Publisher(hash: Hash, s: State, i: nat, t: nat) {
    t < |s.threads| && s.threads[t].Publishing? && s.threads[t].k < |s.slots| && At(hash, s, s.threads[t].ip, s.threads[t].k) == i
  }

  /** A taken slot that is not ready has its claimer still at work. */
  ghost predicate Attended(hash: Hash, s: State) {
    forall i :: 0 <= i < |s.slots| && s.slots[i].ip != 0 && !s.slots[i].ready ==> exists t :: Publisher(hash, s, i, t)
  }

  lemma ExecAttended(hash: Hash, s: State, a: Action)
    requires Attended(hash, s)
    ensures Attended(hash, Exec(hash, s, a))
  {
    var s' := Exec(hash, s, a);
    forall i | 0 <= i < |s'.slots| && s'.slots[i].ip != 0 && !s'.slots[i].ready ensures exists t :: Publisher(hash, s', i, t) {
      if s.slots[i].ip != 0 {
        var t :| Publisher(hash, s, i, t);
        assert Publisher(hash, s', i, t);
      } else {
        assert Publisher(hash, s', i, a.t);
      }
    }
  }

  /** A thread that waits for a slot waits for another one that is about to publish it. */
  lemma {:induction false} WaitHasWriter(hash: Hash, size: nat, n: nat, actions: seq<Action>)
    ensures Attended(hash, Run(hash, Init(size, n), actions))
  {
    if |actions| > 0 {
      WaitHasWriter(hash, size, n, actions[..|actions| - 1]);
      ExecAttended(hash, Run(hash, Init(size, n), actions[..|actions| - 1]), actions[|actions| - 1]);
    }
  }
}
