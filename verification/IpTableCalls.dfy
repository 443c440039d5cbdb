/** What one call of ip_ht_find or ip_ht_get_or_create answers, in every run and when it runs alone. */
module IpTableCalls {
  import opened IpTable

  // ----- the call that a thread is in, or was last in

  /** `claimed`: a step of this call turned an empty slot into one with its address. */
  datatype Latest = Nothing | Latest(ip: nat, create: bool, claimed: bool)

  predicate Begins(s: State, t: nat, a: Action) {
    a.Call? && a.t == t < |s.threads| && s.threads[t].Idle? && a.ip != 0
  }

  /** The step stores `ip` in a slot that was empty. */
  predicate Claims(s: State, s': State, ip: nat) {
    |s'.slots| == |s.slots| && exists i :: 0 <= i < |s.slots| && s.slots[i].ip == 0 && s'.slots[i].ip == ip != 0
  }

  function After(hash: Hash, s: State, t: nat, a: Action, l: Latest): Latest {
    if Begins(s, t, a) then Latest(a.ip, a.create, false)
    else if l.Latest? && a == Move(t) && Claims(s, Exec(hash, s, a), l.ip) then l.(claimed := true)
    else l
  }

  function CallOf(hash: Hash, s: State, actions: seq<Action>, t: nat): Latest {
    if |actions| == 0 then Nothing
    else
      var p := actions[..|actions| - 1];
      After(hash, Run(hash, s, p), t, actions[|actions| - 1], CallOf(hash, s, p, t))
  }

  /** Where a thread may be in, or after, a call. */
  predicate Fits(pc: Pc, l: Latest) {
    match pc
    case Idle => true
    case Probing(ip, _, create) => l == Latest(ip, create, false)
    case Claiming(ip, _) => l == Latest(ip, true, false)
    case Publishing(ip, _) => l == Latest(ip, true, true)
    case Waiting(ip, _) => l.Latest? && l.ip == ip && !l.claimed
    case Got(ip, _, isNew) => l.Latest? && l.ip == ip && l.claimed == isNew && (isNew ==> l.create)
    case Missing(ip) => l == Latest(ip, false, false)
    case Full(ip) => l.Latest? && l.ip == ip && !l.claimed
    case Late(ip) => l.Latest? && l.ip == ip && !l.claimed
  }

  lemma MoveFits(hash: Hash, s: State, t: nat, l: Latest)
    requires Inv(hash, s) && t < |s.threads| && Fits(s.threads[t], l)
    ensures Fits(Step(hash, s, t).threads[t], After(hash, s, t, Move(t), l))
  {
    var pc, s' := s.threads[t], Step(hash, s, t);
    assert PcOk(hash, s, pc);
    if pc.Claiming? && s.slots[At(hash, s, pc.ip, pc.k)].ip == 0 {
      assert s'.slots[At(hash, s, pc.ip, pc.k)].ip == pc.ip;
    }
  }

  lemma ActionFits(hash: Hash, s: State, t: nat, a: Action, l: Latest)
    requires Inv(hash, s) && t < |s.threads| && Fits(s.threads[t], l)
    ensures t < |Exec(hash, s, a).threads| && Fits(Exec(hash, s, a).threads[t], After(hash, s, t, a, l))
  {
    if a == Move(t) { MoveFits(hash, s, t, l); }
  }

  lemma {:induction false} RunFits(hash: Hash, size: nat, n: nat, actions: seq<Action>, t: nat)
    requires t < n
    ensures var s := Run(hash, Init(size, n), actions);
            t < |s.threads| && Fits(s.threads[t], CallOf(hash, Init(size, n), actions, t))
  {
    if |actions| > 0 {
      var p := actions[..|actions| - 1];
      RunFits(hash, size, n, p, t);
      RunInv(hash, size, n, p);
      ActionFits(hash, Run(hash, Init(size, n), p), t, actions[|actions| - 1], CallOf(hash, Init(size, n), p, t));
    }
  }

  /**
   * In every run: a call answers for the address it was asked for, a creating call never comes back with "missing",
   * and is_new is reported exactly by the call whose own step put the address into an empty slot.
   */
  lemma AnswerIsRight(hash: Hash, size: nat, n: nat, actions: seq<Action>, t: nat)
    requires t < n && t < |Run(hash, Init(size, n), actions).threads|
    ensures var pc := Run(hash, Init(size, n), actions).threads[t]; var l := CallOf(hash, Init(size, n), actions, t);
            && (pc.Got? || pc.Missing? || pc.Full? || pc.Late? ==> l.Latest? && pc.ip == l.ip)
            && (pc.Missing? ==> !l.create)
            && (pc.Got? ==> pc.isNew == l.claimed)
            && (pc.Missing? || pc.Full? || pc.Late? ==> !l.claimed)
  {
    RunFits(hash, size, n, actions, t);
  }

  // ----- a call that runs alone

  /** Nobody but t is inside a call. */
  predicate Alone(s: State, t: nat) {
    t < |s.threads| && forall u :: 0 <= u < |s.threads| && u != t ==>
      s.threads[u].Idle? || s.threads[u].Got? || s.threads[u].Missing? || s.threads[u].Full? || s.threads[u].Late?
  }

  /** Then what is stored is ready. */
  predicate AllReady(s: State) {
    forall i :: 0 <= i < |s.slots| && s.slots[i].ip != 0 ==> s.slots[i].ready
  }

  lemma AloneReady(hash: Hash, s: State, t: nat)
    requires Attended(hash, s) && Alone(s, t) && !s.threads[t].Publishing?
    ensures AllReady(s)
  {
    forall i, u ensures !Publisher(hash, s, i, u) { }
  }

  /** The state after n steps of thread t. */
  function Steps(hash: Hash, s: State, t: nat, n: nat): (r: State)
    requires t < |s.threads|
    ensures |r.threads| == |s.threads|
    decreases n
  {
    if n == 0 then s else Steps(hash, Step(hash, s, t), t, n - 1)
  }

  /** The first place of the probe sequence, from k on, that is empty or holds the address; the size if there is none. */
  function Stop(hash: Hash, s: State, ip: nat, k: nat): (r: nat)
    requires k <= |s.slots|
    ensures k <= r <= |s.slots|
    decreases |s.slots| - k
  {
    if k == |s.slots| || s.slots[At(hash, s, ip, k)].ip == ip || s.slots[At(hash, s, ip, k)].ip == 0 then k
    else Stop(hash, s, ip, k + 1)
  }

  /** What a call answers at place k of the probe sequence, and the slots it leaves. */
  function AnswerAt(hash: Hash, s: State, ip: nat, create: bool, k: nat): (Pc, seq<Slot>)
    requires k <= |s.slots|
  {
    if k == |s.slots| then (Full(ip), s.slots)
    else
      var i := At(hash, s, ip, k);
      if s.slots[i].ip == ip then (Got(ip, k, false), s.slots)
      else if create then (Got(ip, k, true), s.slots[i := Slot(ip, true)])
      else (Missing(ip), s.slots)
  }

  /** After n steps of its own, from state s, the call of t has its answer, and only t has moved. */
  predicate Answered(hash: Hash, s: State, t: nat, n: nat, answer: (Pc, seq<Slot>))
    requires t < |s.threads|
  {
    var r := Steps(hash, s, t, n);
    r.threads == s.threads[t := answer.0] && r.slots == answer.1
  }

  lemma OneMore(hash: Hash, s: State, t: nat, n: nat, answer: (Pc, seq<Slot>))
    requires t < |s.threads| && Answered(hash, Step(hash, s, t), t, n, answer)
    ensures Answered(hash, s, t, n + 1, answer)
  {
    assert Step(hash, s, t).threads == s.threads[t := Step(hash, s, t).threads[t]];
  }

  lemma AnswerHere(hash: Hash, s: State, t: nat, answer: (Pc, seq<Slot>))
    requires t < |s.threads| && s.threads[t] == answer.0 && s.slots == answer.1
    ensures Answered(hash, s, t, 0, answer)
  {
    assert s.threads[t := s.threads[t]] == s.threads;
  }

  lemma {:induction false} StopSame(hash: Hash, s: State, s1: State, ip: nat, k: nat)
    requires s1.slots == s.slots && k <= |s.slots|
    ensures Stop(hash, s1, ip, k) == Stop(hash, s, ip, k)
    decreases |s.slots| - k
  {
    if k < |s.slots| { StopSame(hash, s, s1, ip, k + 1); }
  }

  /** The address is here. */
  lemma FoundAlone(hash: Hash, s: State, t: nat, ip: nat, k: nat, create: bool)
    requires t < |s.threads| && ip != 0 && k < |s.slots| && s.threads[t] == Probing(ip, k, create) && AllReady(s)
    requires s.slots[At(hash, s, ip, k)].ip == ip
    ensures Answered(hash, s, t, 2, (Got(ip, k, false), s.slots))
  {
    var s1 := Step(hash, s, t);
    AnswerHere(hash, Step(hash, s1, t), t, (Got(ip, k, false), s.slots));
    OneMore(hash, s1, t, 0, (Got(ip, k, false), s.slots));
    OneMore(hash, s, t, 1, (Got(ip, k, false), s.slots));
  }

  /** The slot is empty. */
  lemma ClaimAlone(hash: Hash, s: State, t: nat, ip: nat, k: nat, i: nat)
    requires t < |s.threads| && ip != 0 && k < |s.slots| && s.threads[t] == Probing(ip, k, true)
    requires i == At(hash, s, ip, k) && s.slots[i].ip == 0
    ensures Answered(hash, s, t, 3, (Got(ip, k, true), s.slots[i := Slot(ip, true)]))
  {
    var answer := (Got(ip, k, true), s.slots[i := Slot(ip, true)]);
    var s1 := Step(hash, s, t);
    var s2 := Step(hash, s1, t);
    assert s2.threads[t] == Publishing(ip, k) && s2.slots == s.slots[i := Slot(ip, false)];
    AnswerHere(hash, Step(hash, s2, t), t, answer);
    OneMore(hash, s2, t, 0, answer);
    OneMore(hash, s1, t, 1, answer);
    OneMore(hash, s, t, 2, answer);
  }

  lemma {:induction false} ProbeAlone(hash: Hash, s: State, t: nat, ip: nat, k: nat, create: bool, stop: nat) returns (n: nat)
    requires t < |s.threads| && ip != 0 && k <= |s.slots| && s.threads[t] == Probing(ip, k, create) && AllReady(s)
    requires stop == Stop(hash, s, ip, k)
    ensures Answered(hash, s, t, n, AnswerAt(hash, s, ip, create, stop))
    decreases |s.slots| - k
  {
    var s1 := Step(hash, s, t);
    if k == |s.slots| || (s.slots[At(hash, s, ip, k)].ip == 0 && !create) {
      AnswerHere(hash, s1, t, AnswerAt(hash, s, ip, create, stop));
      OneMore(hash, s, t, 0, AnswerAt(hash, s, ip, create, stop));
      n := 1;
    } else if s.slots[At(hash, s, ip, k)].ip == ip {
      FoundAlone(hash, s, t, ip, k, create);
      n := 2;
    } else if s.slots[At(hash, s, ip, k)].ip == 0 {
      ClaimAlone(hash, s, t, ip, k, At(hash, s, ip, k));
      n := 3;
    } else {
      StopSame(hash, s, s1, ip, k + 1);
      n := ProbeAlone(hash, s1, t, ip, k + 1, create, stop);
      OneMore(hash, s, t, n, AnswerAt(hash, s, ip, create, stop));
      n := n + 1;
    }
  }

  /**
   * From every reachable state in which nobody else is inside a call, a call that runs alone answers as a table
   * would: the slot of a stored address; else, for a creating call with an empty slot on the address's path, the
   * first such slot, with the address stored and ready; else "missing" or "full".
   */
  lemma CallAlone(hash: Hash, size: nat, m: nat, actions: seq<Action>, t: nat, ip: nat, create: bool) returns (n: nat)
    requires var s := Run(hash, Init(size, m), actions); Alone(s, t) && s.threads[t].Idle?
    requires ip != 0
    ensures var s := Run(hash, Init(size, m), actions); var s1 := Exec(hash, s, Call(t, ip, create));
            t < |s1.threads| && Answered(hash, s1, t, n, AnswerAt(hash, s, ip, create, Stop(hash, s, ip, 0)))
  {
    var s := Run(hash, Init(size, m), actions);
    WaitHasWriter(hash, size, m, actions);
    AloneReady(hash, s, t);
    var s1 := Exec(hash, s, Call(t, ip, create));
    StopSame(hash, s, s1, ip, 0);
    n := ProbeAlone(hash, s1, t, ip, 0, create, Stop(hash, s, ip, 0));
  }

  lemma {:induction false} StopPassed(hash: Hash, s: State, ip: nat, k: nat, stop: nat)
    requires k <= |s.slots| && Passed(hash, s, ip, k) && stop == Stop(hash, s, ip, k)
    ensures Passed(hash, s, ip, stop)
    ensures stop < |s.slots| ==> s.slots[At(hash, s, ip, stop)].ip == ip || s.slots[At(hash, s, ip, stop)].ip == 0
    decreases |s.slots| - k
  {
    if k < |s.slots| && s.slots[At(hash, s, ip, k)].ip != ip && s.slots[At(hash, s, ip, k)].ip != 0 {
      PassOne(hash, s, ip, k);
      StopPassed(hash, s, ip, k + 1, stop);
    }
  }

  /** That answer by contents: an old slot exactly for a stored address, "full" exactly when every slot has another one. */
  lemma AnswerMeans(hash: Hash, s: State, ip: nat, create: bool)
    requires Reachable(hash, s) && ip != 0
    ensures var pc := AnswerAt(hash, s, ip, create, Stop(hash, s, ip, 0)).0;
            && (pc.Got? && !pc.isNew <==> exists i :: 0 <= i < |s.slots| && s.slots[i].ip == ip)
            && (pc.Full? <==> forall i :: 0 <= i < |s.slots| ==> s.slots[i].ip != 0 && s.slots[i].ip != ip)
  {
    ReachableInv(hash, s);
    var stop := Stop(hash, s, ip, 0);
    StopPassed(hash, s, ip, 0, stop);
    forall i | 0 <= i < |s.slots| && s.slots[i].ip == ip
      ensures stop < |s.slots| && s.slots[At(hash, s, ip, stop)].ip == ip
    {
      StoredStops(hash, s, ip, i, stop);
    }
    if stop == |s.slots| {
      forall i | 0 <= i < |s.slots| ensures s.slots[i].ip != 0 && s.slots[i].ip != ip {
        var k := ProbeCovers(Start(hash, ip, |s.slots|), i, |s.slots|);
        assert At(hash, s, ip, k) == i;
      }
    }
  }

  lemma StoredStops(hash: Hash, s: State, ip: nat, i: nat, stop: nat)
    requires Paths(hash, s) && ip != 0 && i < |s.slots| && s.slots[i].ip == ip && Passed(hash, s, ip, stop)
    requires stop < |s.slots| ==> s.slots[At(hash, s, ip, stop)].ip == ip || s.slots[At(hash, s, ip, stop)].ip == 0
    ensures stop < |s.slots| && s.slots[At(hash, s, ip, stop)].ip == ip
  {
    assert OnPath(hash, s, i);
    var k :| 0 <= k < |s.slots| && Reaches(hash, s, ip, k, i);
  }
}
