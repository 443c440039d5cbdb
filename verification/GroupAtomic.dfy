/**
 * The table of groups seen from outside: finding or creating an entry is one step somewhere between
 * the call and the return. Every run of GroupTable is a run of this machine.
 */
module GroupAtomic {
  import GroupTable
  import IpCounters

  datatype Pc = Idle | Called(code: int) | Answered(code: int, found: bool)

  /** The codes that have an entry, and where each process is. */
  datatype State = State(codes: set<int>, threads: seq<Pc>)

  datatype Action = Call(t: nat, code: int) | Enter(t: nat) | Return(t: nat)

  /** The code gets an entry unless it has one or the table is full. */
  function Entered(codes: set<int>, code: int, cap: nat): (r: set<int>)
    ensures codes <= r <= codes + {code} && (code in r <==> code in codes || |codes| < cap)
  {
    if code !in codes && |codes| < cap then codes + {code} else codes
  }

  function Exec(cap: nat, s: State, a: Action): State {
    if a.t >= |s.threads| then s
    else
      match (a, s.threads[a.t])
      case (Call(t, code), Idle) => s.(threads := s.threads[t := Called(code)])
      case (Enter(t), Called(code)) =>
        var codes := Entered(s.codes, code, cap);
        State(codes, s.threads[t := Answered(code, code in codes)])
      case (Return(t), Answered(_, _)) => s.(threads := s.threads[t := Idle])
      case _ => s
  }

  function Run(cap: nat, s: State, actions: seq<Action>): State {
    if |actions| == 0 then s else Exec(cap, Run(cap, s, actions[..|actions| - 1]), actions[|actions| - 1])
  }

  // ----- the machine behind a state of the table

  function PcOf(pc: GroupTable.Pc): Pc {
    match pc
    case Idle => Idle
    case Release(code, r) => Answered(code, r.Some?)
    case Done(code, r) => Answered(code, r.Some?)
    case _ => Called(pc.code)
  }

  function StateOf(s: GroupTable.State): (r: State)
    requires GroupTable.Shaped(s)
    ensures |r.threads| == |s.threads|
  {
    State(GroupTable.Codes(s), seq(|s.threads|, i requires 0 <= i < |s.threads| => PcOf(s.threads[i])))
  }

  /** Somebody who answers has entered the code at this very step, found it, or seen the table full without it. */
  predicate Answers(cap: nat, before: set<int>, pc: Pc, after: set<int>, pc': Pc) {
    match pc'
    case Answered(code, found) =>
      if pc.Answered? then pc' == pc && after == before
      else pc == Called(code) && after == Entered(before, code, cap) && (found <==> code in after)
    case Called(code) => pc' == pc && after == before
    case Idle => !pc.Called? && after == before
  }

  /** Whoever has a result has the code in the table, or the table is full without it. */
  lemma ResultCodes(s: GroupTable.State, code: int, r: GroupTable.Option<nat>)
    requires GroupTable.Distinct(s) && GroupTable.ResultOk(s, code, r)
    ensures (r.Some? <==> code in GroupTable.Codes(s)) && (r.None? ==> |GroupTable.Codes(s)| == |s.entries|)
  {
    GroupTable.PrefixSize(s.entries, s.count);
    if r.Some? { assert s.entries[r.value] in GroupTable.Codes(s); }
  }

  /** Positions alone: an answer is given once, to the code that was asked for. */
  lemma StepPc(s: GroupTable.State, t: nat, s': GroupTable.State)
    requires t < |s.threads| && s' == GroupTable.Step(s, t)
    ensures var pc, pc' := PcOf(s.threads[t]), PcOf(s'.threads[t]);
            match pc' {
              case Answered(code, _) => pc' == pc || pc == Called(code)
              case Called(_) => pc' == pc
              case Idle => !pc.Called?
            }
    ensures s.threads[t].Publish? ==> PcOf(s'.threads[t]) == Answered(s.threads[t].code, true)
  {
  }

  lemma StepAnswers(s: GroupTable.State, t: nat, s': GroupTable.State)
    requires GroupTable.Inv(s) && t < |s.threads| && s' == GroupTable.Step(s, t)
    ensures |s'.threads| == |s.threads| && GroupTable.Shaped(s')
    ensures Answers(|s.entries|, GroupTable.Codes(s), PcOf(s.threads[t]), GroupTable.Codes(s'), PcOf(s'.threads[t]))
  {
    StepPc(s, t, s');
    GroupTable.StepSelf(s, t, s');
    GroupTable.StepCodes(s, t, s');
    GroupTable.StepDistinct(s, t);
    var pc, pc' := s.threads[t], s'.threads[t];
    if PcOf(pc').Answered? { ResultCodes(s', pc'.code, pc'.r); }
    if pc.Publish? { assert GroupTable.Codes(s') == GroupTable.Codes(s) + {pc.code}; }
  }

  lemma RunOne(cap: nat, s: State, a: Action)
    ensures Run(cap, s, [a]) == Exec(cap, s, a)
  {
    assert Run(cap, s, [a][..0]) == s;
  }

  /** A step that answers so is the step of the machine, or none. */
  lemma Matched(cap: nat, a: State, t: nat, a': State) returns (more: seq<Action>)
    requires t < |a.threads| == |a'.threads| && a'.threads == a.threads[t := a'.threads[t]]
    requires Answers(cap, a.codes, a.threads[t], a'.codes, a'.threads[t])
    ensures Run(cap, a, more) == a'
  {
    var pc, pc' := a.threads[t], a'.threads[t];
    if pc.Called? && pc'.Answered? {
      more := [Enter(t)];
      RunOne(cap, a, Enter(t));
    } else if pc.Answered? && pc'.Idle? {
      more := [Return(t)];
      RunOne(cap, a, Return(t));
    } else {
      more := [];
    }
  }

  lemma StepThreads(s: GroupTable.State, t: nat, s': GroupTable.State)
    requires t < |s.threads| && s' == GroupTable.Step(s, t) && GroupTable.Shaped(s) && GroupTable.Shaped(s')
    ensures |s'.threads| == |s.threads| && StateOf(s').threads == StateOf(s).threads[t := PcOf(s'.threads[t])]
  {
    assert s'.threads == s.threads[t := s'.threads[t]];
  }

  /** One step of the table is one step of the machine, or none. */
  lemma StepRefines(s: GroupTable.State, t: nat, s': GroupTable.State) returns (more: seq<Action>)
    requires GroupTable.Inv(s) && t < |s.threads| && s' == GroupTable.Step(s, t)
    ensures GroupTable.Shaped(s') && Run(|s.entries|, StateOf(s), more) == StateOf(s')
  {
    StepAnswers(s, t, s');
    StepThreads(s, t, s');
    more := Matched(|s.entries|, StateOf(s), t, StateOf(s'));
  }

  lemma ExecRefines(s: GroupTable.State, a: GroupTable.Action) returns (more: seq<Action>)
    requires GroupTable.Inv(s)
    ensures GroupTable.Shaped(GroupTable.Exec(s, a)) && Run(|s.entries|, StateOf(s), more) == StateOf(GroupTable.Exec(s, a))
  {
    var s' := GroupTable.Exec(s, a);
    more := [];
    if a.t < |s.threads| {
      if a.Move? {
        more := StepRefines(s, a.t, s');
      } else if s.threads[a.t].Idle? {
        more := [Call(a.t, a.code)];
        RunOne(|s.entries|, StateOf(s), more[0]);
        assert StateOf(s').threads == StateOf(s).threads[a.t := Called(a.code)];
      }
    }
  }

  lemma {:induction false} RunConcat(cap: nat, s: State, a: seq<Action>, b: seq<Action>)
    ensures Run(cap, s, a + b) == Run(cap, Run(cap, s, a), b)
  {
    if |b| == 0 {
      assert a + b == a;
    } else {
      assert (a + b)[..|a + b| - 1] == a + b[..|b| - 1];
      RunConcat(cap, s, a, b[..|b| - 1]);
    }
  }

  /** Every run of the table, with all its interleavings, is a run in which every call finds or creates in one step. */
  lemma {:induction false} RunRefines(cap: nat, n: nat, actions: seq<GroupTable.Action>) returns (atomic: seq<Action>)
    ensures var s := GroupTable.Run(GroupTable.Init(cap, n), actions);
            && GroupTable.Shaped(s) && |s.entries| == cap
            && StateOf(s) == Run(cap, State({}, seq(n, _ => Idle)), atomic)
  {
    if |actions| == 0 {
      assert StateOf(GroupTable.Init(cap, n)).threads == seq(n, _ => Idle);
      atomic := [];
    } else {
      var before := RunRefines(cap, n, actions[..|actions| - 1]);
      var s := GroupTable.Run(GroupTable.Init(cap, n), actions[..|actions| - 1]);
      GroupTable.RunInv(cap, n, actions[..|actions| - 1]);
      GroupTable.ExecInv(s, actions[|actions| - 1]);
      var more := ExecRefines(s, actions[|actions| - 1]);
      RunConcat(cap, State({}, seq(n, _ => Idle)), before, more);
      atomic := before + more;
    }
  }

  /** The step of the machine is the step that the counters take. */
  lemma CountersEnter(w: IpCounters.World, unique: map<int, int>, code: int)
    ensures IpCounters.FindOrCreate(w, unique, IpCounters.Some(code)).Keys == Entered(unique.Keys, code, w.cap)
  {
    assert |unique| == |unique.Keys|;
  }
}
