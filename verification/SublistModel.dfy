/**
 * The subclass scheduler of src/jobs/jobs.c: process_one_sublist and the part of unlock_job that
 * feeds it, one shared access per step, for any number of threads and subclasses.
 *
 * The class queue and the job queues of the subclasses are modelled by how many entries they hold
 * (which value a pop returns is the business of the queue model).
 */
module SublistModel {

  const MAX_SUBCLASS_THREADS: nat := 16

  /** The subclass that wants all permits. */
  const ALL: int := -1

  /** struct job_subclass; `jobs` counts its job queue, `ids` the entries of the class queue that name it. */
  datatype Sub = Sub(total: nat, jobs: nat, ids: nat, allowed: nat, processed: nat, locked: bool)

  datatype Pc =
    | Idle
    | StartPush(c: int)                  // unlock_job, queueing a job of a class with subclasses
    | PushJob(c: int)
    | PushId(c: int)
    | Got(c: int)                        // process_one_sublist has popped an id from the class queue
    | TryLock(c: int)
    | Acquire(c: int, k: nat)            // waits for permits, has k of them
    | Check(c: int)                      // the drain loop
    | CheckAllowed(c: int, p: nat)
    | Popping(c: int)
    | Working(c: int)
    | IncRead(c: int)
    | IncWrite(c: int, v: nat)
    | Unlocking(c: int)
    | Recheck(c: int)                    // after the lock was given up
    | RecheckAllowed(c: int, p: nat)
    | Relock(c: int)
    | Release(c: int, k: nat)            // has k permits left to post
    | Failed(c: int)                     // the assertion that a job was found did not hold

  datatype State = State(subs: map<int, Sub>, free: nat, threads: seq<Pc>)

  function Init(classes: set<int>, n: nat): State {
    State(map c | c in classes :: Sub(0, 0, 0, 0, 0, false), MAX_SUBCLASS_THREADS, seq(n, _ => Idle))
  }

  function Need(c: int): nat {
    if c == ALL then MAX_SUBCLASS_THREADS else 1
  }

  datatype Out = Out(sub: Sub, free: nat, pc: Pc)

  /** Pushing a job, then the id of its subclass. */
  function StepPush(b: Sub, free: nat, pc: Pc): Out
    requires pc.StartPush? || pc.PushJob? || pc.PushId?
  {
    match pc
    case StartPush(c) => Out(b.(total := b.total + 1), free, PushJob(c))
    case PushJob(c) => Out(b.(jobs := b.jobs + 1), free, PushId(c))
    case PushId(c) => Out(b.(ids := b.ids + 1), free, Idle)
  }

  predicate Entering(pc: Pc) {
    pc.Got? || pc.TryLock? || (pc.Acquire? && pc.k < Need(pc.c))
  }

  function StepEnter(b: Sub, free: nat, pc: Pc): Out
    requires Entering(pc)
  {
    match pc
    case Got(c) => Out(b.(allowed := b.allowed + 1), free, TryLock(c))
    case TryLock(c) => if b.locked then Out(b, free, Idle) else Out(b.(locked := true), free, Acquire(c, 0))
    case Acquire(c, k) =>
      // sem_wait blocks while there is no permit
      if free == 0 then Out(b, free, pc)
      else Out(b, free - 1, if k + 1 == Need(c) then Check(c) else Acquire(c, k + 1))
  }

  predicate Looping(pc: Pc) {
    pc.Check? || pc.CheckAllowed? || pc.Popping? || pc.Working? || pc.IncRead? || pc.IncWrite? || pc.Unlocking?
  }

  function StepLoop(b: Sub, free: nat, pc: Pc): Out
    requires Looping(pc)
  {
    match pc
    case Check(c) => Out(b, free, CheckAllowed(c, b.processed))
    case CheckAllowed(c, p) => Out(b, free, if p < b.allowed then Popping(c) else Unlocking(c))
    case Popping(c) => if b.jobs == 0 then Out(b, free, Failed(c)) else Out(b.(jobs := b.jobs - 1), free, Working(c))
    case Working(c) => Out(b, free, IncRead(c))
    case IncRead(c) => Out(b, free, IncWrite(c, b.processed))
    case IncWrite(c, v) => Out(b.(processed := v + 1), free, Check(c))
    case Unlocking(c) => Out(b.(locked := false), free, Recheck(c))
  }

  predicate Leaving(pc: Pc) {
    pc.Recheck? || pc.RecheckAllowed? || pc.Relock? || (pc.Release? && pc.k > 0)
  }

  function StepLeave(b: Sub, free: nat, pc: Pc): Out
    requires Leaving(pc)
  {
    match pc
    case Recheck(c) => Out(b, free, RecheckAllowed(c, b.processed))
    case RecheckAllowed(c, p) => Out(b, free, if p < b.allowed then Relock(c) else Release(c, Need(c)))
    case Relock(c) => if b.locked then Out(b, free, Release(c, Need(c))) else Out(b.(locked := true), free, Check(c))
    case Release(c, k) => Out(b, free + 1, if k == 1 then Idle else Release(c, k - 1))
  }

  predicate Moving(pc: Pc) {
    pc.StartPush? || pc.PushJob? || pc.PushId? || Entering(pc) || Looping(pc) || Leaving(pc)
  }

  function StepPc(b: Sub, free: nat, pc: Pc): Out
    requires Moving(pc)
  {
    if Entering(pc) then StepEnter(b, free, pc)
    else if Looping(pc) then StepLoop(b, free, pc)
    else if Leaving(pc) then StepLeave(b, free, pc)
    else StepPush(b, free, pc)
  }

  // ----- runs

  datatype Action =
    | Move(i: nat)                 // the next access of a call in progress
    | BeginPush(i: nat, c: int)    // a thread queues a job of subclass c
    | TakeId(i: nat, c: int)       // a thread pops the id of subclass c from the class queue

  predicate Enabled(s: State, a: Action) {
    a.i < |s.threads| &&
    match a
    case Move(i) => Moving(s.threads[i]) && s.threads[i].c in s.subs
    case BeginPush(i, c) => s.threads[i].Idle? && c in s.subs
    case TakeId(i, c) => s.threads[i].Idle? && c in s.subs && s.subs[c].ids > 0
  }

  function Apply(s: State, i: nat, c: int, o: Out): State
    requires i < |s.threads|
  {
    State(s.subs[c := o.sub], o.free, s.threads[i := o.pc])
  }

  function Effect(s: State, a: Action): Out
    requires Enabled(s, a)
  {
    match a
    case Move(i) => StepPc(s.subs[s.threads[i].c], s.free, s.threads[i])
    case BeginPush(i, c) => Out(s.subs[c], s.free, StartPush(c))
    case TakeId(i, c) => Out(s.subs[c].(ids := s.subs[c].ids - 1), s.free, Got(c))
  }

  function ClassOf(s: State, a: Action): int
    requires Enabled(s, a)
  {
    match a
    case Move(i) => s.threads[i].c
    case BeginPush(_, c) => c
    case TakeId(_, c) => c
  }

  /** One action of a run; an action that is not enabled changes nothing. */
  function Exec(s: State, a: Action): State {
    if Enabled(s, a) then Apply(s, a.i, ClassOf(s, a), Effect(s, a)) else s
  }

  function Run(s: State, actions: seq<Action>): State {
    if |actions| == 0 then s else Exec(Run(s, actions[..|actions| - 1]), actions[|actions| - 1])
  }
}
