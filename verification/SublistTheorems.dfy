/** What every run of the subclass scheduler guarantees. */
module SublistTheorems {
  import opened SublistModel
  import opened SublistInv

  lemma {:induction false} InitInv(classes: set<int>, n: nat)
    ensures Inv(Init(classes, n))
  {
    var s := Init(classes, n);
    AllIdle(s.threads);
  }

  lemma {:induction false} AllIdle(ts: seq<Pc>)
    requires forall i :: 0 <= i < |ts| ==> ts[i].Idle?
    ensures PermitSum(ts) == 0 && forall c :: ShareSum(c, ts) == 0
  {
    if |ts| > 0 {
      assert forall i :: 0 <= i < |ts[1..]| ==> ts[1..][i] == ts[i + 1];
      AllIdle(ts[1..]);
    }
  }

  lemma {:induction false} RunInv(classes: set<int>, n: nat, actions: seq<Action>)
    ensures Inv(Run(Init(classes, n), actions))
  {
    if |actions| == 0 {
      InitInv(classes, n);
    } else {
      RunInv(classes, n, actions[..|actions| - 1]);
      ExecInv(Run(Init(classes, n), actions[..|actions| - 1]), actions[|actions| - 1]);
    }
  }

  /** The states of all runs. */
  ghost predicate Reachable(s: State) {
    exists classes: set<int>, n: nat, actions: seq<Action> :: s == Run(Init(classes, n), actions)
  }

  lemma ReachableInv(s: State)
    requires Reachable(s)
    ensures Inv(s)
  {
    var classes: set<int>, n: nat, actions: seq<Action> :| s == Run(Init(classes, n), actions);
    RunInv(classes, n, actions);
  }

  /** At most one thread drains the queue of a subclass. */
  lemma OneDrainer(s: State, i: nat, k: nat)
    requires Reachable(s) && i < |s.threads| && k < |s.threads|
    requires Looping(s.threads[i]) && Looping(s.threads[k]) && s.threads[i].c == s.threads[k].c
    ensures i == k
  {
    ReachableInv(s);
    assert HolderOf(s.threads, i, s.threads[i].c) && HolderOf(s.threads, k, s.threads[i].c);
  }

  /** From the last permit taken to the first one posted. */
  predicate Draining(pc: Pc) {
    Looping(pc) || pc.Recheck? || pc.RecheckAllowed? || pc.Relock?
  }

  /** While subclass -1 is being drained, no other thread drains any subclass. */
  lemma AllRunsAlone(s: State, i: nat, k: nat)
    requires Reachable(s) && i < |s.threads| && k < |s.threads|
    requires Draining(s.threads[i]) && s.threads[i].c == ALL && Draining(s.threads[k])
    ensures i == k
  {
    ReachableInv(s);
    if i < k { PermitPair(s.threads, i, k); }
    if k < i { PermitPair(s.threads, k, i); }
  }

  /** Permits held plus permits free is always 16. */
  lemma PermitsConserved(s: State)
    requires Reachable(s)
    ensures s.free + PermitSum(s.threads) == MAX_SUBCLASS_THREADS
  {
    ReachableInv(s);
  }

  /** The drain loop always finds the job it was promised. */
  lemma PopNeverEmpty(s: State, i: nat)
    requires Reachable(s) && i < |s.threads|
    ensures !s.threads[i].Failed?
    ensures s.threads[i].Popping? ==> s.threads[i].c in s.subs && s.subs[s.threads[i].c].jobs > 0
  {
    ReachableInv(s);
    if s.threads[i].Popping? { PopFinds(s, i); }
  }

  /** When all threads are idle, every announced job of every subclass has been processed and every lock is free. */
  lemma QuietMeansDone(s: State, c: int)
    requires Reachable(s) && c in s.subs && forall i :: 0 <= i < |s.threads| ==> s.threads[i].Idle?
    ensures s.subs[c].processed == s.subs[c].allowed && !s.subs[c].locked && s.subs[c].jobs == s.subs[c].ids
    ensures s.free == MAX_SUBCLASS_THREADS
  {
    ReachableInv(s);
    AllIdle(s.threads);
  }

  // ----- no deadlock

  /** The thread waits for a permit and there is none. */
  predicate Blocked(s: State, pc: Pc) {
    pc.Acquire? && s.free == 0
  }

  /** Threads that all wait, at most one of them for all permits, do not hold all of them. */
  lemma {:induction false} WaitersHoldLess(ts: seq<Pc>)
    requires forall i :: 0 <= i < |ts| ==> ts[i].Idle? || (ts[i].Acquire? && ts[i].k < Need(ts[i].c))
    requires forall i, k :: 0 <= i < |ts| && 0 <= k < |ts| && ts[i].Acquire? && ts[k].Acquire? && ts[i].c == ALL == ts[k].c ==> i == k
    ensures PermitSum(ts) < MAX_SUBCLASS_THREADS
    ensures (forall i :: 0 <= i < |ts| && ts[i].Acquire? ==> ts[i].c != ALL) ==> PermitSum(ts) == 0
  {
    if |ts| > 0 {
      var rest := ts[1..];
      assert forall i :: 0 <= i < |rest| ==> rest[i] == ts[i + 1];
      WaitersHoldLess(rest);
      if ts[0].Acquire? && ts[0].c == ALL {
        assert forall i :: 0 <= i < |rest| && rest[i].Acquire? ==> rest[i].c != ALL;
      }
    }
  }

  /** As long as some thread is busy, some thread can take a step: taking 16 permits one by one cannot deadlock. */
  lemma NeverStuck(s: State, i: nat)
    requires Reachable(s) && i < |s.threads| && !s.threads[i].Idle?
    ensures exists k :: 0 <= k < |s.threads| && Enabled(s, Move(k)) && !Blocked(s, s.threads[k])
  {
    ReachableInv(s);
    if forall k :: 0 <= k < |s.threads| ==> s.threads[k].Idle? || Blocked(s, s.threads[k]) {
      forall a, b | 0 <= a < |s.threads| && 0 <= b < |s.threads| && s.threads[a].Acquire? && s.threads[b].Acquire?
                    && s.threads[a].c == ALL == s.threads[b].c ensures a == b {
        assert HolderOf(s.threads, a, ALL) && HolderOf(s.threads, b, ALL);
      }
      WaitersHoldLess(s.threads);
    } else {
      var k :| 0 <= k < |s.threads| && !s.threads[k].Idle? && !Blocked(s, s.threads[k]);
      assert PcOk(s.subs[s.threads[k].c], s.threads[k]);
      assert Enabled(s, Move(k));
    }
  }
}
