/**
 * One asynchronous job of src/jobs/jobs.c: its flags word, its reference counter and every
 * library call that works on them (try_lock_job, unlock_job, job_send_signals, job_decref,
 * job_incref, process_one_job, schedule_job, the flag updates of complete_job), one shared
 * access per step, under any number of threads.
 *
 * A reference is a token (JOB_REF_PASS moves it, job_incref creates one). Every call consumes
 * one token, so the state of the system is the job and, for each token, where it is: in
 * somebody's hands, in a class queue, or at a position inside a library call.
 */
module JobModel {

  type Tid = nat

  /** Signal numbers 0..7 and job classes 0..15. */
  type Sig = n: nat | n < 8
  type Class = n: nat | n < 16

  const JS_RUN: Sig := 0
  const JS_FINISH: Sig := 7
  const JC_NONE: Class := 0
  const JC_MAIN: Class := 3

  /** The parts of `j_flags`: JF_LOCKED, JF_COMPLETED, bits 24..31 and bits 0..15. */
  datatype Flags = Flags(locked: bool, completed: bool, pending: set<Sig>, queued: set<Class>)

  /** What unlock_job looks at in the running thread: `job_class_mask` and whether `current_job` is set. */
  datatype Thr = Thr(mask: set<Class>, busy: bool)

  /** Who called try_lock_job, and with which flags to set or clear. */
  datatype Try =
    | SendFirst(sigs: set<Sig>)
    | SendSecond
    | ProcFirst(qf: set<Class>)
    | ProcSecond

  /** Who drops a reference: unlock_job, which goes on with its `save_subclass`, or job_decref. */
  datatype Dropper = Unlocker(save: int) | Decref

  datatype Pc =
    | Held                                       // in the hands of user code
    | Creating                                   // create_async_job returned: locked, not yet unlocked
    | SchedWrite(seen: Flags)                    // schedule_job read the flags it is about to write back
    | InQueue(c: Class)
    | Proc(c: Class)                             // process_one_job
    | ProcClear(qf: set<Class>)
    | SendRead(sigs: set<Sig>)                   // job_send_signals
    | SendOr(sigs: set<Sig>)
    | TryRead(t: Try)                            // try_lock_job
    | TryCas(t: Try, seen: Flags)
    | Unlock(save: int)                          // unlock_job
    | UnlockCas(save: int, seen: Flags)
    | UnlockTake(save: int, sig: Sig)
    | UnlockQueue(save: int, seen: Flags, c: Class)
    | Exec(save: int, sig: Sig)                  // j_execute is running
    | RetOr(save: int, sigs: set<Sig>, done: bool)
    | RetComplete(save: int)
    | Pushing(c: Class)
    | DropRead(dropper: Dropper)                     // the reference count part of unlock_job and job_decref
    | DropSub(dropper: Dropper)
    | DropSet(dropper: Dropper)
    | Last(dropper: Dropper)
    | LastWrite(save: int, seen: Flags)

  datatype Act = Act(thr: Thr, pc: Pc)

  /** `allowed`, `fast` are the two halves of `j_status`; `sigclass` is `j_sigclass`. `owed` is a history: signals sent and not yet taken for execution. */
  datatype Job = Job(
    flags: Flags,
    allowed: set<Sig>,
    fast: set<Sig>,
    sigclass: seq<Class>,
    subclass: int,
    refcnt: int,
    freed: bool,
    owed: set<Sig>)

  datatype State = State(job: Job, tokens: map<Tid, Act>)

  /** create_async_job: locked, one reference, held by its creator. */
  function Init(tid: Tid, thr: Thr, allowed: set<Sig>, fast: set<Sig>, sigclass: seq<Class>, subclass: int): State {
    State(Job(Flags(true, false, {}, {}), allowed, fast, sigclass, subclass, 1, false, {}), map[tid := Act(thr, Creating)])
  }

  function Todo(j: Job, f: Flags): set<Sig> {
    f.pending * j.allowed
  }

  /** `7 - __builtin_clz (todo)`: the highest signal of the set. */
  function Top(todo: set<Sig>): (r: Sig)
    requires todo != {}
    ensures r in todo && forall x :: x in todo ==> x <= r
  {
    if 7 in todo then 7 else if 6 in todo then 6 else if 5 in todo then 5 else if 4 in todo then 4
    else if 3 in todo then 3 else if 2 in todo then 2 else if 1 in todo then 1 else Zero(todo); 0
  }

  lemma Zero(todo: set<Sig>)
    requires todo != {} && 7 !in todo && 6 !in todo && 5 !in todo && 4 !in todo && 3 !in todo && 2 !in todo && 1 !in todo
    ensures 0 in todo && forall x :: x in todo ==> x == 0
  {
    var x :| x in todo;
    assert x == 0;
  }

  function ClassOf(j: Job, s: Sig): Class {
    if s < |j.sigclass| then j.sigclass[s] else JC_NONE
  }

  predicate RunsHere(j: Job, thr: Thr, s: Sig, save: int) {
    ClassOf(j, s) in thr.mask && (s in j.fast || !thr.busy) && j.subclass == save
  }

  function QueueClass(j: Job, s: Sig): Class {
    if ClassOf(j, s) == JC_NONE then JC_MAIN else ClassOf(j, s)
  }

  // ----- one shared access of one token

  /** What a step does: the job afterwards, and the token's next position (none: the token is gone). */
  datatype Out = Go(job: Job, pc: Pc) | Gone(job: Job)

  function WithFlags(j: Job, f: Flags): Job {
    j.(flags := f)
  }

  /** try_lock_job returned 0. */
  function AfterFailure(t: Try): Pc {
    match t
    case SendFirst(sigs) => SendOr(sigs)
    case ProcFirst(qf) => ProcClear(qf)
    case _ => DropRead(Decref)
  }

  function StepTry(j: Job, pc: Pc): Out
    requires pc.TryRead? || pc.TryCas?
  {
    var f := j.flags;
    match pc
    case TryRead(t) =>
      if !f.locked then Go(j, TryCas(t, f))
      else Go(j, AfterFailure(t))
    case TryCas(t, seen) =>
      if f != seen then Go(j, TryRead(t))
      else
        match t {
        case SendFirst(sigs) =>
          Go(j.(flags := f.(locked := true, pending := f.pending + sigs), owed := j.owed + sigs), Unlock(j.subclass))
        case ProcFirst(qf) => Go(WithFlags(j, f.(locked := true, queued := f.queued - qf)), Unlock(j.subclass))
        case _ => Go(WithFlags(j, f.(locked := true)), Unlock(j.subclass))
        }
  }

  function StepUnlock(j: Job, thr: Thr, pc: Pc): Out
    requires pc.Unlock? || pc.UnlockCas? || pc.UnlockTake? || pc.UnlockQueue? || pc.RetOr? || pc.RetComplete?
  {
    var f := j.flags;
    match pc
    case Unlock(save) =>
      var todo := Todo(j, f);
      if todo == {} then Go(j, UnlockCas(save, f))
      else if RunsHere(j, thr, Top(todo), save) then Go(j, UnlockTake(save, Top(todo)))
      else Go(j, UnlockQueue(save, f, QueueClass(j, Top(todo))))
    case UnlockCas(save, seen) =>
      if f != seen then Go(j, Unlock(save)) else Go(WithFlags(j, f.(locked := false)), DropRead(Unlocker(save)))
    case UnlockTake(save, s) =>
      Go(j.(flags := f.(pending := f.pending - {s}), owed := j.owed - {s}), Exec(save, s))
    case UnlockQueue(save, seen, c) =>
      if f != seen then Go(j, Unlock(save))
      else
        Go(WithFlags(j, f.(locked := false, queued := f.queued + {c})), if c in f.queued then DropRead(Decref) else Pushing(c))
    case RetOr(save, sigs, done) =>
      Go(j.(flags := f.(pending := f.pending + sigs), owed := j.owed + sigs), if done then RetComplete(save) else Unlock(save))
    case RetComplete(save) =>
      Go(WithFlags(j, f.(completed := true)), Unlock(save))
  }

  function StepDrop(j: Job, pc: Pc): Out
    requires pc.DropRead? || pc.DropSub? || pc.DropSet? || pc.Last? || pc.LastWrite?
  {
    match pc
    case DropRead(u) => Go(j, if j.refcnt >= 2 then DropSub(u) else Last(u))
    case DropSub(u) =>
      var j1 := j.(refcnt := j.refcnt - 1);
      if j.refcnt != 1 then Gone(j1) else Go(j1, DropSet(u))
    case DropSet(u) => Go(j.(refcnt := 1), Last(u))
    case Last(u) =>
      // unlock_job writes the flags back with plain loads and stores; job_decref sends the signal
      if u.Unlocker? then Go(j, LastWrite(u.save, j.flags)) else Go(j, SendRead({JS_FINISH}))
    case LastWrite(save, seen) =>
      Go(j.(flags := seen.(locked := true, pending := seen.pending + {JS_FINISH}), owed := j.owed + {JS_FINISH}),
         Unlock(save))
  }

  function StepRest(j: Job, thr: Thr, pc: Pc): Out
    requires pc.SchedWrite? || pc.Proc? || pc.ProcClear? || pc.SendRead? || pc.SendOr? || pc.Pushing?
  {
    var f := j.flags;
    match pc
    case SchedWrite(seen) =>
      Go(j.(flags := seen.(pending := seen.pending + {JS_RUN}), owed := j.owed + {JS_RUN}), Unlock(j.subclass))
    case Proc(_) => Go(j, TryRead(ProcFirst(f.queued * thr.mask)))
    case ProcClear(qf) => Go(WithFlags(j, f.(queued := f.queued - qf)), TryRead(ProcSecond))
    case SendRead(sigs) => Go(j, if sigs <= f.pending then DropRead(Decref) else TryRead(SendFirst(sigs)))
    case SendOr(sigs) =>
      Go(j.(flags := f.(pending := f.pending + sigs), owed := j.owed + sigs), TryRead(SendSecond))
    case Pushing(c) => Go(j, InQueue(c))
  }

  predicate InLibrary(pc: Pc) {
    !pc.Held? && !pc.Creating? && !pc.InQueue? && !pc.Exec?
  }

  function StepPc(j: Job, thr: Thr, pc: Pc): Out
    requires InLibrary(pc)
  {
    if pc.TryRead? || pc.TryCas? then StepTry(j, pc)
    else if pc.DropRead? || pc.DropSub? || pc.DropSet? || pc.Last? || pc.LastWrite? then StepDrop(j, pc)
    else if pc.SchedWrite? || pc.Proc? || pc.ProcClear? || pc.SendRead? || pc.SendOr? || pc.Pushing? then StepRest(j, thr, pc)
    else StepUnlock(j, thr, pc)
  }

  function Apply(s: State, tid: Tid, thr: Thr, o: Out): State {
    match o
    case Go(j, pc) => State(j, s.tokens[tid := Act(thr, pc)])
    case Gone(j) => State(j, s.tokens - {tid})
  }

  // ----- actions

  datatype Action =
    | Move(tid: Tid)                                   // the next shared access of a call
    | Incref(src: Tid, dup: Tid)                      // user code that holds a token copies it
    | Send(tid: Tid, thr: Thr, sigs: set<Sig>)         // job_send_signals on a held token
    | Drop(tid: Tid, thr: Thr)                         // job_decref on a held token
    | Pop(tid: Tid, thr: Thr)                          // a thread takes the entry from its queue
    | Schedule(tid: Tid)                               // schedule_job by the creator
    | Release(tid: Tid)                                // unlock_job by the creator
    | Return(tid: Tid, sigs: set<Sig>, done: bool)     // j_execute returns
    | Change(tid: Tid, allowed: set<Sig>, fast: set<Sig>, sigclass: seq<Class>, subclass: int)

  /** The token is with user code that may use the job: not at all, or holding its lock. */
  predicate UserCode(pc: Pc) {
    pc.Held? || pc.Creating? || (pc.Exec? && pc.sig != JS_FINISH)
  }

  /**
   * Which actions the user code and the threads may take. A thread pops only queues of its own
   * classes; user code neither sends JS_FINISH nor disallows it.
   */
  predicate Enabled(s: State, a: Action) {
    match a
    case Move(tid) => tid in s.tokens && InLibrary(s.tokens[tid].pc)
    case Incref(src, dup) => src in s.tokens && UserCode(s.tokens[src].pc) && dup !in s.tokens
    case Send(tid, _, sigs) => tid in s.tokens && s.tokens[tid].pc.Held? && JS_FINISH !in sigs && sigs != {}
    case Drop(tid, _) => tid in s.tokens && s.tokens[tid].pc.Held?
    case Pop(tid, thr) => tid in s.tokens && s.tokens[tid].pc.InQueue? && s.tokens[tid].pc.c in thr.mask
    case Schedule(tid) => tid in s.tokens && s.tokens[tid].pc.Creating?
    case Release(tid) => tid in s.tokens && s.tokens[tid].pc.Creating?
    case Return(tid, sigs, done) => tid in s.tokens && s.tokens[tid].pc.Exec? && JS_FINISH !in sigs
    case Change(tid, allowed, _, _, _) =>
      && tid in s.tokens && (s.tokens[tid].pc.Creating? || (s.tokens[tid].pc.Exec? && s.tokens[tid].pc.sig != JS_FINISH))
      && JS_FINISH in allowed
  }

  function Put(s: State, tid: Tid, thr: Thr, pc: Pc): State {
    s.(tokens := s.tokens[tid := Act(thr, pc)])
  }

  function Do(s: State, a: Action): State
    requires Enabled(s, a)
  {
    match a
    case Move(tid) => Apply(s, tid, s.tokens[tid].thr, StepPc(s.job, s.tokens[tid].thr, s.tokens[tid].pc))
    case Incref(src, dup) =>
      State(s.job.(refcnt := s.job.refcnt + 1), s.tokens[dup := Act(s.tokens[src].thr, Held)])
    case Send(tid, thr, sigs) => Put(s, tid, thr, SendRead(sigs))
    case Drop(tid, thr) => Put(s, tid, thr, DropRead(Decref))
    case Pop(tid, thr) => Put(s, tid, thr, Proc(s.tokens[tid].pc.c))
    case Schedule(tid) => Put(s, tid, s.tokens[tid].thr, SchedWrite(s.job.flags))
    case Release(tid) => Put(s, tid, s.tokens[tid].thr, Unlock(s.job.subclass))
    case Return(tid, sigs, done) =>
      var pc := s.tokens[tid].pc;
      // the JS_FINISH handler frees the job (job_free, JOB_DESTROYED)
      if pc.sig == JS_FINISH then State(s.job.(freed := true), s.tokens - {tid})
      else Put(s, tid, s.tokens[tid].thr, RetOr(pc.save, sigs, done))
    case Change(tid, allowed, fast, sigclass, subclass) =>
      s.(job := s.job.(allowed := allowed, fast := fast, sigclass := sigclass, subclass := subclass))
  }

  /** Nobody else changes the flags between schedule_job's load and its store. */
  predicate Undisturbed(s: State, a: Action)
    requires Enabled(s, a)
  {
    forall u :: u in s.tokens && s.tokens[u].pc.SchedWrite? ==> a == Move(u) || Do(s, a).job.flags == s.job.flags
  }

  predicate Permitted(careful: bool, s: State, a: Action) {
    Enabled(s, a) && (careful ==> Undisturbed(s, a))
  }

  /** One action of a run; an action that is not permitted changes nothing. */
  function Exe(careful: bool, s: State, a: Action): State {
    if Permitted(careful, s, a) then Do(s, a) else s
  }

  function Run(careful: bool, s: State, actions: seq<Action>): State {
    if |actions| == 0 then s else Exe(careful, Run(careful, s, actions[..|actions| - 1]), actions[|actions| - 1])
  }
}
