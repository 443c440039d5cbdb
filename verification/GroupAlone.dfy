/** A call of country_find_or_create or region_find_or_create that runs alone ends, with the table it promises. */
module GroupAlone {
  import opened GroupTable
  import opened Progress

  /** Whoever finds the lock taken can name its holder. */
  predicate LockHeld(s: State) {
    s.locked ==> exists t :: 0 <= t < |s.threads| && Holds(s.threads[t])
  }

  lemma StepHeld(s: State, t: nat)
    requires t < |s.threads| && LockHeld(s)
    ensures LockHeld(Step(s, t))
  {
    var s' := Step(s, t);
    if s.locked && s'.locked {
      var u :| 0 <= u < |s.threads| && Holds(s.threads[u]);
      assert Holds(s'.threads[u]);
    } else if s'.locked {
      assert Holds(s'.threads[t]);
    }
  }

  lemma ExecHeld(s: State, a: Action)
    requires LockHeld(s)
    ensures LockHeld(Exec(s, a))
  {
    if a.t < |s.threads| {
      if a.Move? {
        StepHeld(s, a.t);
      } else if s.locked {
        var u :| 0 <= u < |s.threads| && Holds(s.threads[u]);
        assert Holds(Exec(s, a).threads[u]);
      }
    }
  }

  lemma {:induction false} RunHeld(cap: nat, n: nat, actions: seq<Action>)
    ensures LockHeld(Run(Init(cap, n), actions))
  {
    if |actions| > 0 {
      RunHeld(cap, n, actions[..|actions| - 1]);
      ExecHeld(Run(Init(cap, n), actions[..|actions| - 1]), actions[|actions| - 1]);
    }
  }

  // ----- the call of thread t

  predicate InCall(pc: Pc) {
    !pc.Idle? && !pc.Done?
  }

  /** No other thread holds the lock. */
  predicate Others(s: State, t: nat) {
    forall u :: 0 <= u < |s.threads| && u != t ==> !Holds(s.threads[u])
  }

  /** A bound on the steps to the end of the call, for a table of `cap` places. */
  function Rank(cap: nat, pc: Pc): nat {
    match pc
    case Begin(_) => 2 * cap + 9
    case Scan(_, i, _) => cap + 8 + if i <= cap then cap - i else 0
    case Acquire(_) => cap + 7
    case Reload(_) => cap + 6
    case Rescan(_, i, _) => 5 + if i <= cap then cap - i else 0
    case Fill(_, _) => 3
    case Publish(_, _) => 2
    case Release(_, _) => 1
    case _ => 0
  }

  lemma StepRank(s: State, t: nat, s': State)
    requires Shaped(s) && t < |s.threads| && InCall(s.threads[t]) && PcOk(s, s.threads[t]) && s' == Step(s, t)
    requires s.threads[t].Acquire? ==> !s.locked
    ensures |s'.threads| == |s.threads| && (forall u :: 0 <= u < |s.threads| && u != t ==> s'.threads[u] == s.threads[u])
    ensures !s'.threads[t].Idle? && s'.threads[t].code == s.threads[t].code
    ensures Rank(|s.entries|, s'.threads[t]) < Rank(|s.entries|, s.threads[t])
  {
  }

  /** The codes of the table at the start, and the call's own code perhaps. */
  predicate Kept(cap: nat, codes: set<int>, code: int, s: State) {
    && Shaped(s) && |s.entries| == cap
    && (Codes(s) == codes || (Codes(s) == codes + {code} && code !in codes && |codes| < cap))
  }

  ghost predicate Inside(cap: nat, codes: set<int>, code: int, t: nat, s: State) {
    && Inv(s) && LockHeld(s) && Kept(cap, codes, code, s) && t < |s.threads| && Others(s, t)
    && InCall(s.threads[t]) && s.threads[t].code == code
  }

  ghost predicate Ended(cap: nat, codes: set<int>, code: int, t: nat, s: State) {
    && Inv(s) && Kept(cap, codes, code, s) && t < |s.threads| && s.threads[t].Done? && s.threads[t].code == code
  }

  function RankOf(cap: nat, t: nat, s: State): nat {
    if t < |s.threads| then Rank(cap, s.threads[t]) else 0
  }

  function Mover(t: nat): State -> State {
    s => Exec(s, Move(t))
  }

  lemma MoveDescends(cap: nat, codes: set<int>, code: int, t: nat, s: State, s': State)
    requires Inside(cap, codes, code, t, s) && s' == Exec(s, Move(t))
    ensures RankOf(cap, t, s) > 0
    ensures Ended(cap, codes, code, t, s') || (Inside(cap, codes, code, t, s') && RankOf(cap, t, s') < RankOf(cap, t, s))
  {
    assert PcOk(s, s.threads[t]);
    StepRank(s, t, s');
    StepCodes(s, t, s');
    ExecInv(s, Move(t));
    ExecHeld(s, Move(t));
  }

  /**
   * A call that runs while nobody else holds the lock returns. It returns an entry if and only if the code had
   * one or the table had room, and then the code has been added to the table; otherwise the table is as it was.
   */
  lemma CallAlone(cap: nat, n: nat, actions: seq<Action>, t: nat) returns (k: nat)
    requires var s := Run(Init(cap, n), actions); t < |s.threads| && InCall(s.threads[t]) && Others(s, t)
    ensures var s := Run(Init(cap, n), actions);
            var r := After(Mover(t), s, k);
            && k <= 2 * cap + 9 && Shaped(s) && Shaped(r) && |r.entries| == |s.entries|
            && t < |r.threads| && r.threads[t].Done? && r.threads[t].code == s.threads[t].code
            && (r.threads[t].r.Some? <==> s.threads[t].code in Codes(s) || |Codes(s)| < |s.entries|)
            && Codes(r) == if r.threads[t].r.Some? then Codes(s) + {s.threads[t].code} else Codes(s)
  {
    var s := Run(Init(cap, n), actions);
    RunInv(cap, n, actions);
    RunHeld(cap, n, actions);
    RunCap(cap, n, actions);
    var codes, code := Codes(s), s.threads[t].code;
    var f := Mover(t);
    var inside := (x: State) => Inside(cap, codes, code, t, x);
    var ended := (x: State) => Ended(cap, codes, code, t, x);
    var rank := (x: State) => RankOf(cap, t, x);
    forall x | inside(x) ensures rank(x) > 0 && (ended(f(x)) || (inside(f(x)) && rank(f(x)) < rank(x))) {
      MoveDescends(cap, codes, code, t, x, f(x));
    }
    k := Ends(f, inside, ended, rank, s);
    Answer(cap, codes, code, t, s, After(f, s, k));
  }

  lemma Answer(cap: nat, codes: set<int>, code: int, t: nat, s: State, r: State)
    requires Inv(s) && codes == Codes(s) && |s.entries| == cap && Ended(cap, codes, code, t, r)
    ensures r.threads[t].r.Some? <==> code in codes || |codes| < cap
    ensures Codes(r) == if r.threads[t].r.Some? then codes + {code} else codes
  {
    assert PcOk(r, r.threads[t]);
    PrefixSize(s.entries, s.count);
    PrefixSize(r.entries, r.count);
    if r.threads[t].r.Some? { assert r.entries[r.threads[t].r.value] in Codes(r); }
  }

  lemma {:induction false} RunCap(cap: nat, n: nat, actions: seq<Action>)
    ensures |Run(Init(cap, n), actions).entries| == cap
  {
    if |actions| > 0 {
      RunCap(cap, n, actions[..|actions| - 1]);
      RunInv(cap, n, actions[..|actions| - 1]);
      ExecInv(Run(Init(cap, n), actions[..|actions| - 1]), actions[|actions| - 1]);
    }
  }
}
