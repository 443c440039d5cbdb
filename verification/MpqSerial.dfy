/** Pushing and asking for emptiness when no other call is under way. */
module MpqSerial {
  import opened MpqBlock
  import opened MpqList
  import opened MpqListInv
  import opened MpqListSteps
  import opened MpqListCounts
  import opened MpqTheorems
  import opened MpqTail
  import opened MpqAlone
  import opened MpqSolo
  import opened Progress

  // ----- mpq_is_empty

  /** When no call is under way and everything pushed has been taken, the head block is the last one, open and passed to its end. */
  lemma EmptyBlock(s: State)
    requires ListInv(s) && PushesOk(s) && Quiet(s) && NoneLive(s)
    ensures s.mqHead == |s.blocks| - 1 && !s.blocks[s.mqHead].closed && s.blocks[s.mqHead].tail <= s.blocks[s.mqHead].head
  {
    var last := |s.blocks| - 1;
    var b := s.blocks[last];
    assert BlockInv(b);
    if last > 0 { assert !Live(s, Key(last, 0)); }
    if b.tail > 0 && b.tail - 1 in b.placed { assert !Live(s, Key(last, b.tail - 1)); }
  }

  /** The four steps of mpq_is_empty on such a queue. */
  lemma SaysEmpty(f: State -> State, s: State, tid: Tid, s0: State)
    requires f == StepOf(tid) && Bounds(s) && s0 == s.(threads := s.threads[tid := EmptyLoad])
    requires !s.blocks[s.mqHead].closed && s.blocks[s.mqHead].tail <= s.blocks[s.mqHead].head
    ensures After(f, s0, 4) == s.(threads := s.threads[tid := EmptyRet(true, AllClaimed(s))])
  {
    var h := s.mqHead;
    var s1 := EmptyWalk(f, s, tid, EmptyLoad, EmptyCheck(h));
    var s2 := EmptyWalk(f, s, tid, EmptyCheck(h), EmptyHead(h));
    var s3 := EmptyWalk(f, s, tid, EmptyHead(h), EmptyTail(h, s.blocks[h].head));
    var s4 := EmptyWalk(f, s, tid, EmptyTail(h, s.blocks[h].head), EmptyRet(true, AllClaimed(s)));
    Four(f, s0, s1, s2, s3, s4);
  }

  /** A step of mpq_is_empty, as a step of the machine. */
  lemma EmptyStepIs(f: State -> State, r: State, tid: Tid, th: Thread)
    requires f == StepOf(tid) && tid in r.threads && r.threads[tid] == th
    requires InEmpty(th) && (th.EmptyHead? || th.EmptyTail? ==> HasBlock(r, th.qb))
    ensures CanStep(r, tid) && f(r) == Step(r, tid) == StepEmpty(r, tid, th)
  {
  }

  lemma EmptyWalk(f: State -> State, s: State, tid: Tid, th: Thread, th': Thread) returns (s': State)
    requires f == StepOf(tid) && InEmpty(th) && (th.EmptyHead? || th.EmptyTail? ==> HasBlock(s, th.qb))
    requires StepEmpty(s.(threads := s.threads[tid := th]), tid, th) == s.(threads := s.threads[tid := th][tid := th'])
    ensures s' == s.(threads := s.threads[tid := th']) && f(s.(threads := s.threads[tid := th])) == s'
  {
    EmptyStepIs(f, s.(threads := s.threads[tid := th]), tid, th);
    assert s.threads[tid := th][tid := th'] == s.threads[tid := th'];
    s' := s.(threads := s.threads[tid := th']);
  }

  /** mpq_is_empty under way: it changes nothing in the blocks. */
  ghost predicate Asking(s: State, r: State, tid: Tid) {
    Inv(r) && StillAsking(s, r, tid)
  }

  predicate StillAsking(s: State, r: State, tid: Tid) {
    tid in r.threads && r.threads == s.threads[tid := r.threads[tid]] && r.blocks == s.blocks && InEmpty(r.threads[tid])
  }

  ghost predicate Asked(s: State, r: State, tid: Tid) {
    && tid in r.threads && r.threads == s.threads[tid := r.threads[tid]] && r.blocks == s.blocks
    && r.threads[tid].EmptyRet? && (r.threads[tid].answer ==> NoneLive(s))
  }

  /** One step of mpq_is_empty: an answer 1 means that everything is claimed. */
  predicate EmptyMove(r: State, tid: Tid, r': State) {
    && r'.blocks == r.blocks && OnlyMoved(r, r', tid)
    && (InEmpty(r'.threads[tid]) || (r'.threads[tid].EmptyRet? && (r'.threads[tid].answer ==> AllClaimed(r))))
  }

  lemma EmptyGoes(r: State, tid: Tid, th: Thread, r': State)
    requires InEmpty(th) && (th.EmptyHead? || th.EmptyTail? ==> HasBlock(r, th.qb)) && r' == StepEmpty(r, tid, th)
    requires r'.threads[tid].EmptyRet? && r'.threads[tid].answer ==> r'.threads[tid].empty
    ensures EmptyMove(r, tid, r')
  {
  }

  lemma EmptySteps(f: State -> State, r: State, tid: Tid)
    requires f == StepOf(tid) && Inv(r) && tid in r.threads && InEmpty(r.threads[tid])
    ensures Inv(f(r)) && EmptyMove(r, tid, f(r))
  {
    var th := r.threads[tid];
    assert Local(r, tid, th);
    EmptyStepIs(f, r, tid, th);
    StepOk(r, tid);
    EmptyAt(f(r), tid);
    EmptyGoes(r, tid, th, f(r));
  }

  lemma EmptyNears(f: State -> State, r: State, tid: Tid)
    requires f == StepOf(tid) && Inv(r) && tid in r.threads && InEmpty(r.threads[tid])
    ensures RankOf(r, tid) > 0 && (Ended(f(r), tid) || RankOf(f(r), tid) < RankOf(r, tid))
  {
    Nearer(r, tid);
  }

  lemma AnsweredEmpty(s: State, r: State, tid: Tid)
    requires Asking(s, r, tid) && OthersRest(s, tid) && AllClaimed(r)
    ensures NoneLive(s)
  {
    ClaimedNone(r, tid);
    SameLive(s, r);
  }

  lemma AskStep(s: State, r: State, tid: Tid, r': State)
    requires StillAsking(s, r, tid) && EmptyMove(r, tid, r') && (AllClaimed(r) ==> NoneLive(s))
    ensures Asked(s, r', tid) || (StillAsking(s, r', tid) && !Ended(r', tid))
  {
  }

  lemma AskEnds(f: State -> State, s: State, r: State, tid: Tid) returns (n: nat)
    requires f == StepOf(tid) && Asking(s, r, tid) && OthersRest(s, tid)
    ensures Asked(s, After(f, r, n), tid)
  {
    forall q | Asking(s, q, tid)
      ensures RankOf(q, tid) > 0 && (Asked(s, f(q), tid) || (Asking(s, f(q), tid) && RankOf(f(q), tid) < RankOf(q, tid)))
    {
      EmptySteps(f, q, tid);
      EmptyNears(f, q, tid);
      if AllClaimed(q) { AnsweredEmpty(s, q, tid); }
      AskStep(s, q, tid, f(q));
    }
    n := Ends(f, q => Asking(s, q, tid), q => Asked(s, q, tid), q => RankOf(q, tid), r);
  }

  /** mpq_is_empty, with no other call under way, answers 1 exactly when everything pushed has been taken. */
  lemma EmptyAlone(sem: bool, schedule: seq<Action>, tid: Tid) returns (n: nat)
    requires Quiet(Run(sem, schedule))
    ensures var s := Run(sem, schedule); var r := After(StepOf(tid), Exec(s, Enter(tid, CallIsEmpty)), n);
            && tid in r.threads && r.blocks == s.blocks && r.threads == s.threads[tid := r.threads[tid]]
            && r.threads[tid].EmptyRet? && (r.threads[tid].answer <==> NoneLive(s))
  {
    RunOk(sem, schedule);
    RunTail(sem, schedule);
    BeginOk(Run(sem, schedule), tid, CallIsEmpty);
    n := EmptyFrom(StepOf(tid), Run(sem, schedule), tid, Begin(Run(sem, schedule), tid, CallIsEmpty));
  }

  lemma EmptyFrom(f: State -> State, s: State, tid: Tid, s0: State) returns (n: nat)
    requires f == StepOf(tid) && Inv(s) && PushesOk(s) && Quiet(s) && Inv(s0) && s0 == s.(threads := s.threads[tid := EmptyLoad])
    ensures var r := After(f, s0, n);
            && tid in r.threads && r.blocks == s.blocks && r.threads == s.threads[tid := r.threads[tid]]
            && r.threads[tid].EmptyRet? && (r.threads[tid].answer <==> NoneLive(s))
  {
    if NoneLive(s) {
      EmptyBlock(s);
      SaysEmpty(f, s, tid, s0);
      n := 4;
    } else {
      n := AskEnds(f, s, s0, tid);
    }
  }

  // ----- mpq_push

  /** One step of a push of v: it goes on with its value, or stores it under a key that was free. */
  ghost predicate PushMove(r: State, tid: Tid, th: Thread, v: Value, r': State)
    requires Carries(th, v)
  {
    && OnlyMoved(r, r', tid) && (forall k :: Taken(r', k) <==> Taken(r, k))
    && var th' := r'.threads[tid];
       || (Carries(th', v) && th'.before == th.before && forall k :: Placed(r', k) <==> Placed(r, k))
       || (exists k :: HasStored(th', k) && StoredNow(r, r', k, v, th.before))
  }

  ghost predicate StoredNow(r: State, r': State, k: Key, v: Value, before: set<Key>) {
    && Stores(r', k, v) && !Placed(r, k) && (forall x :: Placed(r', x) <==> Placed(r, x) || x == k)
    && k in r'.preceding && r'.preceding[k] == before
  }

  lemma InPushGoes(r: State, tid: Tid, th: Thread, r': State)
    requires th.InPush? && HasBlock(r, th.qb) && !th.push.Stored? && !th.push.Refused? && PushOk(r.blocks[th.qb], tid, th.push)
    requires r' == StepInPush(r, tid, th)
    ensures PushMove(r, tid, th, th.val, r')
  {
    var b := r.blocks[th.qb];
    PushStores(b, tid, th.val, th.push);
    var (b', at') := PushStep(b, tid, th.val, th.push);
    assert r'.blocks == r.blocks[th.qb := b'];
    if at'.Stored? {
      InPushStored(r, th, r', b', at'.t);
      assert HasStored(r'.threads[tid], Key(th.qb, at'.t));
    } else {
      InPushNothing(r, th, r', b');
    }
  }

  lemma InPushStored(r: State, th: Thread, r': State, b': Block, t: nat)
    requires th.InPush? && th.qb < |r.blocks| && r'.blocks == r.blocks[th.qb := b'] && b'.taken == r.blocks[th.qb].taken
    requires t !in r.blocks[th.qb].placed && b'.placed == r.blocks[th.qb].placed[t := th.val]
    requires r'.preceding == r.preceding[Key(th.qb, t) := th.before]
    ensures StoredNow(r, r', Key(th.qb, t), th.val, th.before) && forall k :: Taken(r', k) <==> Taken(r, k)
  {
  }

  lemma InPushNothing(r: State, th: Thread, r': State, b': Block)
    requires th.InPush? && th.qb < |r.blocks| && r'.blocks == r.blocks[th.qb := b'] && b'.taken == r.blocks[th.qb].taken
    requires b'.placed == r.blocks[th.qb].placed
    ensures (forall k :: Placed(r', k) <==> Placed(r, k)) && (forall k :: Taken(r', k) <==> Taken(r, k))
  {
  }

  lemma LinkGoes(r: State, tid: Tid, th: Thread, r': State)
    requires th.PushLink? && th.val != 0 && th.qb < |r.blocks| && r' == StepLink(r, tid, th)
    ensures PushMove(r, tid, th, th.val, r')
  {
    if th.qb + 1 == |r.blocks| {
      var k := Key(th.qb + 1, 0);
      assert HasStored(r'.threads[tid], k) && StoredNow(r, r', k, th.val, th.before);
    }
  }

  lemma PushListGoes(r: State, tid: Tid, th: Thread, r': State)
    requires th.PushLoad? || th.PushCheck? || th.PushNext? || th.PushHelp? || th.PushAlloc?
    requires r' == StepPush(r, tid, th)
    ensures PushMove(r, tid, th, th.val, r')
  {
    assert r'.blocks == r.blocks;
  }

  lemma PushMoves(r: State, tid: Tid, th: Thread, v: Value, r': State)
    requires Inv(r) && CanStep(r, tid) && th == r.threads[tid] && Carries(th, v) && r' == Step(r, tid)
    ensures PushMove(r, tid, th, v, r')
  {
    assert Local(r, tid, th);
    if th.InPush? { InPushGoes(r, tid, th, r'); }
    else if th.PushLink? { LinkGoes(r, tid, th, r'); }
    else { PushListGoes(r, tid, th, r'); }
  }

  /** The rest of a push that has stored its value. */
  lemma StoredGoes(r: State, tid: Tid, th: Thread, k: Key, r': State)
    requires CanStep(r, tid) && th == r.threads[tid] && HasStored(th, k) && r' == Step(r, tid)
    ensures OnlyMoved(r, r', tid) && r'.blocks == r.blocks && r'.preceding == r.preceding && HasStored(r'.threads[tid], k)
  {
    PushKeepsItsKey(r, tid, k, r');
  }

  /** A push of v under way that began in s. */
  ghost predicate Pushing(s: State, r: State, tid: Tid, v: Value) {
    Inv(r) && PushSoFar(s, r, tid, v)
  }

  ghost predicate PushSoFar(s: State, r: State, tid: Tid, v: Value) {
    && tid in r.threads && r.threads == s.threads[tid := r.threads[tid]] && (forall k :: Taken(r, k) <==> Taken(s, k))
    && var th := r.threads[tid];
       || (Carries(th, v) && th.before == s.returned && forall k :: Placed(r, k) <==> Placed(s, k))
       || (!th.PushRet? && PushStored(s, r, th, v))
  }

  ghost predicate PushStored(s: State, r: State, th: Thread, v: Value) {
    exists k :: HasStored(th, k) && StoredNow(s, r, k, v, s.returned)
  }

  ghost predicate PushDone(s: State, r: State, tid: Tid, v: Value) {
    Inv(r) && PushResult(s, r, tid, v)
  }

  ghost predicate PushResult(s: State, r: State, tid: Tid, v: Value) {
    && tid in r.threads && r.threads == s.threads[tid := r.threads[tid]] && (forall k :: Taken(r, k) <==> Taken(s, k))
    && r.threads[tid].PushRet? && PushStored(s, r, r.threads[tid], v)
  }

  lemma CarriesOn(s: State, r: State, tid: Tid, v: Value, r': State)
    requires PushSoFar(s, r, tid, v) && Carries(r.threads[tid], v) && PushMove(r, tid, r.threads[tid], v, r')
    ensures PushOutcome(s, r', tid, v)
  {
    var th' := r'.threads[tid];
    if !Carries(th', v) {
      var k :| HasStored(th', k) && StoredNow(r, r', k, v, r.threads[tid].before);
      assert StoredNow(s, r', k, v, s.returned);
    }
  }

  lemma StoredOn(s: State, r: State, tid: Tid, v: Value, k: Key, r': State)
    requires PushSoFar(s, r, tid, v) && HasStored(r.threads[tid], k) && StoredNow(s, r, k, v, s.returned)
    requires OnlyMoved(r, r', tid) && r'.blocks == r.blocks && r'.preceding == r.preceding && HasStored(r'.threads[tid], k)
    ensures PushOutcome(s, r', tid, v)
  {
    assert forall x :: Taken(r', x) <==> Taken(r, x);
    assert forall x :: Placed(r', x) <==> Placed(r, x);
    assert StoredNow(s, r', k, v, s.returned);
  }

  lemma PushSteps(f: State -> State, r: State, tid: Tid, th: Thread, v: Value)
    requires f == StepOf(tid) && Inv(r) && tid in r.threads && th == r.threads[tid] && Carries(th, v)
    ensures Inv(f(r)) && PushMove(r, tid, th, v, f(r))
  {
    assert Local(r, tid, th);
    StepOk(r, tid);
    PushMoves(r, tid, th, v, Step(r, tid));
  }

  lemma StoredSteps(f: State -> State, r: State, tid: Tid, th: Thread, k: Key)
    requires f == StepOf(tid) && Inv(r) && tid in r.threads && th == r.threads[tid] && HasStored(th, k) && !th.PushRet?
    ensures Inv(f(r)) && OnlyMoved(r, f(r), tid) && f(r).blocks == r.blocks && f(r).preceding == r.preceding && HasStored(f(r).threads[tid], k)
  {
    StepOk(r, tid);
    StoredGoes(r, tid, th, k, Step(r, tid));
  }

  lemma PushStepsOn(f: State -> State, s: State, r: State, tid: Tid, v: Value)
    requires f == StepOf(tid) && Inv(r) && PushSoFar(s, r, tid, v)
    ensures Inv(f(r)) && PushOutcome(s, f(r), tid, v)
  {
    var th := r.threads[tid];
    if Carries(th, v) {
      PushSteps(f, r, tid, th, v);
      CarriesOn(s, r, tid, v, f(r));
    } else {
      var k :| HasStored(th, k) && StoredNow(s, r, k, v, s.returned);
      StoredSteps(f, r, tid, th, k);
      StoredOn(s, r, tid, v, k, f(r));
    }
  }

  /** The push goes on, or has returned. */
  ghost predicate PushOutcome(s: State, r: State, tid: Tid, v: Value) {
    PushSoFar(s, r, tid, v) || PushResult(s, r, tid, v)
  }

  lemma PushSide(s: State, r: State, tid: Tid, v: Value)
    requires PushSoFar(s, r, tid, v)
    ensures OnPushSide(r.threads[tid])
  {
  }

  lemma PushNears(f: State -> State, r: State, tid: Tid)
    requires f == StepOf(tid) && Inv(r) && tid in r.threads && OnPushSide(r.threads[tid])
    ensures RankOf(r, tid) > 0 && (Ended(f(r), tid) || RankOf(f(r), tid) < RankOf(r, tid))
  {
    Nearer(r, tid);
  }

  lemma NotEnded(r: State, tid: Tid)
    requires tid in r.threads && OnPushSide(r.threads[tid])
    ensures !Ended(r, tid)
  {
  }

  /** The push has gone on, so it has come nearer, or it has returned. */
  lemma PushRound(s: State, tid: Tid, v: Value, r: State, less: bool)
    requires PushOutcome(s, r, tid, v) && (Ended(r, tid) || less)
    ensures PushResult(s, r, tid, v) || (PushSoFar(s, r, tid, v) && less)
  {
    if PushSoFar(s, r, tid, v) {
      PushSide(s, r, tid, v);
      NotEnded(r, tid);
    }
  }

  lemma PushEnds(f: State -> State, s: State, r: State, tid: Tid, v: Value) returns (n: nat)
    requires f == StepOf(tid) && Pushing(s, r, tid, v)
    ensures PushDone(s, After(f, r, n), tid, v)
  {
    forall q | Pushing(s, q, tid, v)
      ensures RankOf(q, tid) > 0 && (PushDone(s, f(q), tid, v) || (Pushing(s, f(q), tid, v) && RankOf(f(q), tid) < RankOf(q, tid)))
    {
      PushStepsOn(f, s, q, tid, v);
      PushSide(s, q, tid, v);
      PushNears(f, q, tid);
      PushRound(s, tid, v, f(q), RankOf(f(q), tid) < RankOf(q, tid));
    }
    n := Ends(f, q => Pushing(s, q, tid, v), q => PushDone(s, q, tid, v), q => RankOf(q, tid), r);
  }

  /** The value is in the queue, under a key that is newer than everything stored, and nothing else has changed. */
  ghost predicate Appends(s: State, r: State, tid: Tid, v: Value) {
    && tid in r.threads && r.threads[tid].PushRet?
    && var k := r.threads[tid].key;
       && !Placed(s, k) && Stores(r, k, v) && !Taken(r, k)
       && (forall x :: Live(r, x) <==> Live(s, x) || x == k) && (forall x :: Placed(s, x) ==> Older(x, k))
  }

  lemma DoneAppends(s: State, r: State, tid: Tid, v: Value)
    requires ListInv(s) && Returned(s) && Quiet(s) && Order(r) && PushResult(s, r, tid, v)
    ensures Appends(s, r, tid, v)
  {
    var k :| HasStored(r.threads[tid], k) && StoredNow(s, r, k, v, s.returned);
    NotTaken(s, k);
    NewerThanAll(s, r, k);
    assert forall x :: Live(r, x) <==> Live(s, x) || x == k;
  }

  lemma NewerThanAll(s: State, r: State, k: Key)
    requires Returned(s) && Quiet(s) && Order(r) && k in r.preceding && r.preceding[k] == s.returned
    ensures forall x :: Placed(s, x) ==> Older(x, k)
  {
    assert AfterEarlier(r, k);
    forall x | Placed(s, x) ensures Older(x, k) { assert x in s.returned; }
  }

  lemma NotTaken(s: State, k: Key)
    requires ListInv(s) && !Placed(s, k)
    ensures !Taken(s, k)
  {
    if k.blk < |s.blocks| { assert BlockInv(s.blocks[k.blk]); }
  }

  /** mpq_push, with no other call under way: the value is behind everything that is in the queue. */
  lemma PushAlone(sem: bool, schedule: seq<Action>, tid: Tid, v: Value) returns (n: nat)
    requires Quiet(Run(sem, schedule)) && v != 0
    ensures var s := Run(sem, schedule);
            Appends(s, After(StepOf(tid), Exec(s, Enter(tid, CallPush(v))), n), tid, v)
  {
    RunOk(sem, schedule);
    RunTail(sem, schedule);
    var s := Run(sem, schedule);
    BeginOk(s, tid, CallPush(v));
    n := PushFrom(StepOf(tid), s, tid, v, Begin(s, tid, CallPush(v)));
  }

  lemma PushFrom(f: State -> State, s: State, tid: Tid, v: Value, s0: State) returns (n: nat)
    requires f == StepOf(tid) && Inv(s) && PushesOk(s) && Quiet(s) && Inv(s0) && s0 == s.(threads := s.threads[tid := PushLoad(v, s.returned)])
    ensures Appends(s, After(f, s0, n), tid, v)
  {
    PushBegins(s, tid, v, s0);
    n := PushEnds(f, s, s0, tid, v);
    DoneAppends(s, After(f, s0, n), tid, v);
  }

  lemma PushBegins(s: State, tid: Tid, v: Value, s0: State)
    requires s0 == s.(threads := s.threads[tid := PushLoad(v, s.returned)])
    ensures PushSoFar(s, s0, tid, v)
  {
    assert forall k :: Placed(s0, k) <==> Placed(s, k);
    assert forall k :: Taken(s0, k) <==> Taken(s, k);
  }
}
