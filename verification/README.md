# mtbolt in Dafny

A model of the concurrent and arithmetic core of mtbolt, an MTProto proxy written in C, with
proofs of what that core promises. `dafny verify dfyconfig.toml` checks the whole project.

| part | modules | what is modelled |
|---|---|---|
| queue | `MpqBlock`, `MpqList`, `MpqListInv`, `MpqListEmpty`, `MpqListSteps`, `MpqListCounts`, `MpqTheorems`; `MpqAlone`, `MpqTail`, `MpqSolo`, `MpqSerial`, `MpqPermits` for calls that run alone | the multi-producer/multi-consumer queue: a ring of nodes settled by double-word CAS, a list of blocks, a hand-written semaphore |
| jobs | `JobModel`, `JobInv`, `JobSteps`, `JobTheorems`, `JobSignals`, `JobAlone` | one asynchronous job: its flags word, its references, every library call on them |
| subclasses | `SublistModel`, `SublistInv`, `SublistTheorems`, `SublistAlone` | the subclass scheduler with its lock, two counters and 16 permits |
| descriptors | `ConnRef`, `ConnRefTheorems` | the packed 64-bit reference counter of a file descriptor |
| statistics | `StatsLock` | the two-copy sequence lock between a worker and the master |
| events | `HeapSpec`, `EventHeap` | the binary heap of events with back-pointers |
| connections | `ExtRing`, `ExtIndex`, `ExtTable`, `ExtRun` | the table of external connections: linked hash chains, id table, three kinds of linked rings, and whole runs of its operations |
| addresses | `IpTable`, `IpTableCalls`, `IpCounters`, `IpCountersInv`, `GroupTable`, `GroupAlone`, `GroupAtomic` | the lock-free table of client addresses, its counters, the country and region tables |
| checksums | `Gf2`, `CrcDivision`, `CrcPartial`, `CrcCombine`, `GfMul`, `GfField`, `Crc64`, `CrcPolynomials` | CRC-32, CRC-32C and CRC-64: tables, matrices, field multiplication, combination |
| digest | `Md5Spec`, `Md5Code`, `Md5Stream` | MD5 with its streaming buffer, against RFC 1321 |
| IPv6 text | `Ipv6Text`, `Ipv6Parse`, `Ipv6Grammar`, `Ipv6RoundTrip`, `Ipv6Dotted` | the printer and the parser of section 2.2 of RFC 4291 addresses, which live in different files, and the grammar the parser accepts |

## Reading the model

A concurrent part is a state, a step function that performs one shared access of one thread, and
`Run`, which follows a schedule. A schedule is any sequence of "this thread enters this call" and
"this thread takes its next step"; an action that cannot happen changes nothing. Theorems about
`Run` or about `Reachable` states therefore speak of every interleaving of any number of threads.
The step functions are the model of the code; the rows below name the lemmas about them. Fields
described as histories (who drew a ticket, which value was stored under it, which ids were issued)
are written by the steps and read by none of them.

Two kinds of theorems complement each other. Those about `Run` say what never goes wrong; those of
the modules named `...Alone`, `MpqSolo`, `MpqSerial`, `MpqPermits` and `IpTableCalls` say that a call
gets its work done when it is left alone in any reachable state, and what it then returns. They share
`Progress`, where a rank that every step lowers bounds the number of steps.

Code that works in place is a class with the fields it changes, or a method over an array, and
its contract is tied to a specification that does not mention the loop: long division for the
checksums, the RFC 1321 digest for MD5, the set of queued events for the heap, the set of live
connections for the tables.

Assumptions, for all parts: shared accesses are sequentially consistent; tickets and counters do
not wrap around (the queue's 62-bit tickets, the reference counter, the 32-bit halves of the
descriptor counter); memory is never exhausted. Random numbers, addresses returned by the
allocator, the location of an address and the values of statistics are parameters, so the theorems
hold for all of them.

## Where the code falls short of what one would expect

Each of these is a lemma with the exact condition.

- `schedule_job` sets JS_RUN by a plain read-modify-write of the flags. If somebody else already
  holds a reference, a signal sent in between is lost (`ScheduleRace`). It is safe against all
  continuations if and only if the caller holds the only reference (`ScheduleSafeIff`). All other
  theorems about jobs are stated for runs in which nobody else changes the flags between the load
  and the store, and without any condition afterwards (`SafeAfterwards`). A caller with the only
  reference meets this by itself (`SettledStep`); the caller at src/net/net-conn-targets.c:442-463
  sets the counter to 2 and enters the job into the target table first, and meets it because the
  second reference can only be reached under TargetsLock, which it holds until schedule_job returns.
- The job pointer of a descriptor can stay unreleased for ever when two threads look the descriptor
  up while its owner drops it: the getter that drops last sees the other one's probe in the high
  half, and the prober that backs out last does not look at the data (`TwoGettersLeak`). This can
  happen if and only if at least two threads look it up (`LeakIff`), and at any moment of any run the
  release is still possible exactly when somebody holds or converts a reference, or the latest drop
  saw zero (`NeverReleasedIff`). The pointer is never released twice and never under a getter.
- `greater_ev` subtracts priorities. It is the intended order if and only if the difference fits an
  int (`GreaterEvIsOrder`), and this shows at the heap: two events pop in the right order if and only
  if theirs does (`PopOfTwo`). Positions, back-pointers and the set of queued events are right for all
  priorities; the order is proved for queued events whose priorities differ pairwise by an int (`Put`,
  `Remove`, `PopHead`).
- The text `conv_ipv6_internal` prints for an IPv4-mapped address is rejected by `parse_text_ipv6`;
  every other address round-trips (`RoundTripIff`). The printer also never compresses a block of
  zeros at the end of an address, because it records a block only when a non-zero group follows;
  its test `k == 8` can never be true (`PrintGap` is only reached with `k < 8`).
- `parse_text_ipv6` accepts a double colon that stands for no group at all, when eight words surround
  it, unless it comes after the eighth (`AcceptedIff`).
- RPC_CLOSE_EXT removes the connection an id names without looking at who sent it, unlike answers
  and acknowledgements (`CloseExt`, `Route`).

## Model

| member | source | states |
|---|---|---|
| `MpqBlock.SlotIsRemainder` | src/common/mp-queue.c:288-292 | the node a ticket falls on is the remainder of the ticket by the block size |
| `MpqBlock.AllocOk` | src/common/mp-queue.c:227-245 | a new block, with or without a first value, satisfies the block invariant |
| `MpqBlock.DrawPopOk` | src/common/mp-queue.c:290-290 | drawing a pop ticket keeps the invariant and leaves the drawer with that ticket open |
| `MpqBlock.TakeOk` | src/common/mp-queue.c:306-314 | taking the value whose index is the own ticket keeps the invariant: the value is recorded as taken by that ticket and by no other |
| `MpqBlock.PassEmptyOk` | src/common/mp-queue.c:323-330 | passing an empty node makes its ticket unusable for every later push, and loses no value |
| `MpqBlock.MarkUnsafeOk` | src/common/mp-queue.c:315-322 | marking a node unsafe while it holds an older value keeps that value for its own popper |
| `MpqBlock.PassLaterOk` | src/common/mp-queue.c:301-303 | giving up on a node that already belongs to a later ticket skips a ticket that no push can have used or will use |
| `MpqBlock.PopCasNullOk` | src/common/mp-queue.c:323-330 | the double-word CAS of a pop that read a null value keeps the invariant whether it succeeds or fails, although index and value were read by two separate loads |
| `MpqBlock.PopCasValueOk` | src/common/mp-queue.c:306-322 | the same for a pop that read a value: it takes its own value, marks an older one unsafe or retries |
| `MpqBlock.FixOk` | src/common/mp-queue.c:263-284 | moving the tail up to the head (mpq_fix_state) keeps the invariant: no ticket it jumps over holds or will hold a value |
| `MpqBlock.PopStepOk` | src/common/mp-queue.c:286-342 | every shared access of mpq_block_pop keeps the invariant, moves the block only forward, and leaves the popper with its own facts: a returned value is the one stored under its own ticket and now taken, and a ticket it gives up is one no push can use any more |
| `MpqBlock.StoreOk` | src/common/mp-queue.c:361-372 | the CAS of a push that finds its node unchanged stores under a ticket no popper has given up, even if the node was marked unsafe in between |
| `MpqBlock.PushStepOk` | src/common/mp-queue.c:344-381 | every shared access of mpq_block_push keeps the invariant, moves the block only forward, and closes it only for good |
| `MpqBlock.PopOkStable` | src/common/mp-queue.c:286-342 | what a popper knows stays true under any step of another thread |
| `MpqBlock.PushOkStable` | src/common/mp-queue.c:344-381 | what a pusher knows stays true under any step of another thread |
| `MpqListSteps.StepList` | src/common/mp-queue.c:442-610 | every step keeps the list invariant (chain of blocks, drained prefix, bounds) and changes every block only forward |
| `MpqListSteps.StepOwners` | src/common/mp-queue.c:442-610 | every step keeps each drawn, unsettled ticket in the hands of exactly one thread working on that block |
| `MpqListSteps.StepLocal` | src/common/mp-queue.c:442-610 | the facts a thread relies on hold again after its own step |
| `MpqListCounts.StepOrder` | src/common/mp-queue.c:542-610 | every step keeps the record of which pushes had returned before each push began, with older values in front of younger ones |
| `MpqListCounts.StepCounts` | src/common/mp-queue.c:125-167 | every step keeps the semaphore account: its value, the permits out and the values not yet announced or taken balance |
| `MpqListEmpty.LastBlockClaimed` | src/common/mp-queue.c:286-342 | a popper that finds the tail of the last block at or below its head sees a queue whose values all have their consumers |
| `MpqListEmpty.LiveWorkers` | src/common/mp-queue.c:286-342 | when all values are claimed, there are at least as many distinct poppers at work as values left |
| `MpqListEmpty.PermitMeansValue` | src/common/mp-queue.c:612-675 | a consumer that holds a permit and no ticket always faces a queue with an unclaimed value |
| `MpqTheorems.InitOk` | src/common/mp-queue.c:227-245 | the freshly initialised queue satisfies the invariant |
| `MpqTheorems.StepOk` | src/common/mp-queue.c:125-688 | one step of any thread keeps the whole invariant |
| `MpqTheorems.RunOk` | src/common/mp-queue.c:125-688 | the invariant holds after every schedule of any number of threads and calls |
| `MpqTheorems.PermitsAreHonoured` | src/common/mp-queue.c:612-688 | in every run, successful waits never exceed posts, posts never exceed stored values, and a consumer that won a permit never returns null: the assertions at 647 and 673 hold (that a permit is won when there is one is PopPermitted, that a trial fails only without one GivesUpWithoutPermits) |
| `MpqTheorems.NeverStuck` | src/common/mp-queue.c:286-610 | a thread inside a queue function can always take its next step: no access is out of bounds |
| `MpqTheorems.NoValueLost` | src/common/mp-queue.c:286-381 | a stored value not yet delivered is in its node, and its pop ticket is undrawn or held by a popper still working on it |
| `MpqTheorems.DeliveredOnce` | src/common/mp-queue.c:286-342 | over a whole run the log of deliveries names each ticket at most once, and exactly the taken tickets |
| `MpqTheorems.DeliveredFaithfully` | src/common/mp-queue.c:286-342 | over a whole run every entry of the log of deliveries is the value stored under its ticket |
| `MpqTheorems.PushStoresItsValue` | src/common/mp-queue.c:344-381 | a push carries its value unchanged until the step that stores it, in a node or as the first value of a new block, under a ticket nobody had used |
| `MpqTheorems.PushKeepsItsKey` | src/common/mp-queue.c:542-610 | after that the push only finishes: it returns the key its value was stored under |
| `MpqTheorems.DeliveredValue` | src/common/mp-queue.c:442-488 | what a pop returned is the value stored under the ticket this thread drew itself |
| `MpqTheorems.BehindHead` | src/common/mp-queue.c:442-488 | a block the list head has passed is closed and drained: every value left in it has a popper already at work on it |
| `MpqTheorems.ClosedForever` | src/common/mp-queue.c:344-381 | once a block is closed, no later schedule stores a value at or after the closing ticket |
| `MpqTheorems.FirstInFirstOut` | src/common/mp-queue.c:442-610 | if the push of a had returned when the push of b began, the pop ticket of a is drawn no later than that of b |
| `MpqTheorems.OrderIsRecorded` | src/common/mp-queue.c:542-610 | every stored value has its record of earlier pushes, so FirstInFirstOut speaks of all of them |
| `MpqTheorems.EmptyMeansClaimed` | src/common/mp-queue.c:442-540 | when mpq_pop has returned null, or mpq_is_empty has answered 1, some prefix of the schedule, taken during that call, ends in a state in which every value has its consumer; a null return happens only without a semaphore |
| `MpqTheorems.FlagIsWitnessed` | src/common/mp-queue.c:286-540 | a thread carries the record behind EmptyMeansClaimed only after a step taken in a state in which every value was claimed |
| `MpqTheorems.FlagHasMoment` | src/common/mp-queue.c:286-540 | for every run and every thread that carries the record, the prefix of the run at which all values were claimed lies inside the call that set it |
| `MpqAlone.CallReturns` | src/common/mp-queue.c:442-688 | from every reachable state, whatever the other threads have left half done, a thread that takes steps alone returns from its call; only mpq_pop_w may come to wait for a permit instead |
| `MpqTail.RunTail` | src/common/mp-queue.c:542-610 | in every run the last block is open or has a push about to link its successor, its highest ticket is passed, holds a value or has its push at work, and every stored value belongs to a push that has returned or is about to |
| `MpqSolo.QuietOrder` | src/common/mp-queue.c:442-610 | when no call is under way, whatever has been taken is older than whatever is left |
| `MpqSolo.PopAlone` | src/common/mp-queue.c:442-488 | after every run that leaves no call under way: a pop alone returns the oldest value left and takes nothing else, and null if and only if none is left |
| `MpqPermits.PermitsAreValues` | src/common/mp-queue.c:125-167 | when no call is under way the value of the semaphore is the number of values in the queue |
| `MpqPermits.PopPermitted` | src/common/mp-queue.c:612-675 | after every run that leaves no call under way and a value in the queue: mpq_pop_w, and mpq_pop_nw with at least one trial, return the oldest value |
| `MpqPermits.PopNotPermitted` | src/common/mp-queue.c:651-674 | with no value in the queue, mpq_pop_nw returns null after its trials and changes nothing |
| `MpqPermits.TrialsAccounted` | src/common/mp-queue.c:651-674 | in every run a thread that is trying has as many moments without a permit behind it, within its call, as it has used up trials |
| `MpqPermits.GivesUpWithoutPermits` | src/common/mp-queue.c:651-674 | in every run mpq_pop_nw called with k trials returns null only if at k successive moments within the call the semaphore was not positive |
| `MpqSerial.EmptyAlone` | src/common/mp-queue.c:490-540 | after every run that leaves no call under way: mpq_is_empty answers 1 if and only if every value pushed has been taken |
| `MpqSerial.PushAlone` | src/common/mp-queue.c:542-610 | after every run that leaves no call under way: a push alone adds its value behind all others and changes nothing else |
| `JobModel.Top` | src/jobs/jobs.c:657-657 | the signal unlock_job picks is the highest one of the pending allowed set |
| `JobSteps.TryMoves` | src/jobs/jobs.c:602-615 | try_lock_job takes the lock only when it was free, and its caller then holds it |
| `JobSteps.UnlockMoves` | src/jobs/jobs.c:617-748 | within unlock_job the lock stays with the caller until the CAS that releases it |
| `JobSteps.UnlockSelf` | src/jobs/jobs.c:617-748 | the local facts of unlock_job hold again after each of its steps, including the last-reference window |
| `JobSteps.DropSelf` | src/jobs/jobs.c:634-645 | the local facts of dropping a reference hold after each step, for unlock_job and job_decref alike |
| `JobSteps.MoveLock` | src/jobs/jobs.c:602-778 | every library step keeps "lock bit set if and only if exactly one token holds it" |
| `JobSteps.MoveRefs` | src/jobs/jobs.c:617-806 | every library step keeps the counter equal to the tokens outside the last-reference window |
| `JobSteps.MoveQueues` | src/jobs/jobs.c:617-823 | every library step keeps each queued bit covered by a queue entry or a token about to push or clear it |
| `JobSteps.MoveSignals` | src/jobs/jobs.c:617-823 | every library step keeps a servant for each pending allowed signal |
| `JobTheorems.DoInv` | src/jobs/jobs.c:602-823 | every action, by the library or by user code holding a reference, keeps the invariant |
| `JobTheorems.RunOk` | src/jobs/jobs.c:602-823 | the invariant holds in every run in which nobody else changes the flags between the load and the store of schedule_job |
| `JobTheorems.ExclusiveExecution` | src/jobs/jobs.c:662-697 | the handler of a job runs in at most one thread, and nobody else is inside unlock_job for it meanwhile |
| `JobTheorems.SendPosts` | src/jobs/jobs.c:751-778 | job_send_signals leaves its sending part only when all its signals are owed to the job |
| `JobTheorems.OwedUntilTaken` | src/jobs/jobs.c:617-778 | a signal once owed stays owed until the very step that starts the handler for it (that the handler starts only for owed signals is ExecTakes, that each execution has its own posting ExecutionsArePosted) |
| `JobSignals.ExecTakes` | src/jobs/jobs.c:657-671 | in every run, the only action that gives a handler a signal is its own thread's step, and then the signal was sent and not yet taken, is allowed, has its class in the mask of that thread, and is now taken |
| `JobSignals.ChoosesGreatest` | src/jobs/jobs.c:657-657 | the signal unlock_job decides on is, at that moment, the greatest one sent, not taken and allowed |
| `JobSignals.ExecutedWasGreatest` | src/jobs/jobs.c:657-671 | in every run, the signal a handler runs with was chosen as the greatest at some moment of that run |
| `JobSignals.ExecutionsArePosted` | src/jobs/jobs.c:617-778 | over a whole run the executions of a signal never outnumber its postings, counting an owed one as well |
| `JobSteps.StepPreserves` | src/jobs/jobs.c:617-748 | nobody but the holder of the lock takes a pending signal away |
| `JobTheorems.SignalHasServant` | src/jobs/jobs.c:617-823 | in every reachable state an owed allowed signal has a lock holder, a queue entry or a thread that must still push, clear or try the lock |
| `JobTheorems.QuietMeansDelivered` | src/jobs/jobs.c:617-823 | when all references are in user hands no allowed signal is left, nothing is queued and the lock is free |
| `JobTheorems.CounterCountsTokens` | src/jobs/jobs.c:617-806 | the reference counter equals the number of outstanding tokens, except zero in the last holder's own window |
| `JobTheorems.FinishIsLast` | src/jobs/jobs.c:634-645 | the JS_FINISH handler, and the code that sends the signal, run only when one token is left |
| `JobTheorems.SendShortcut` | src/jobs/jobs.c:754-758 | the short cut of job_send_signals never drops the last reference of a job with JS_FINISH pending: the assertion at 756 holds |
| `JobTheorems.FreedIsFinal` | src/jobs/jobs.c:1656-1662 | a freed job has no token left: no continuation touches it again, so it is freed once |
| `JobTheorems.UserNotFinishing` | src/jobs/jobs.c:640-645 | while user code or a handler holds a reference, JS_FINISH is not pending |
| `JobTheorems.ScheduleRace` | src/jobs/jobs.c:1131-1135 | counterexample: with a second reference in somebody's hands, a concrete run of schedule_job loses any signal sent through that reference |
| `JobTheorems.ScheduleSafeIff` | src/jobs/jobs.c:1131-1135 | with the other references in user hands, no continuation of schedule_job loses a signal if and only if the caller's reference is the only one |
| `JobTheorems.SettledStep` | src/jobs/jobs.c:1131-1135 | with the only reference, no action of anybody can disturb schedule_job |
| `JobTheorems.SafeAfterwards` | src/jobs/jobs.c:1131-1135 | once schedule_job or the creator's unlock_job is done, or while schedule_job runs with the only reference, the invariant holds in every run, without any condition |
| `JobAlone.CallEnds` | src/jobs/jobs.c:602-823 | from every reachable state a library call whose thread moves alone is over within 22 steps: in a handler, in a queue, or with the reference gone |
| `JobAlone.SendAlone` | src/jobs/jobs.c:751-778 | a signal sent to a job that nobody is busy with is executed by the sender's next five steps if the sender's thread runs its class; otherwise the sixth leaves it in the queue of its class, marked as queued |
| `JobAlone.PopAlone` | src/jobs/jobs.c:808-823 | an entry taken from a queue brings the greatest pending allowed signal to its handler in five steps, if the thread may run it |
| `JobAlone.ReturnAlone` | src/jobs/jobs.c:617-645 | a handler that returns with nothing left to do frees the lock and gives its reference back in five steps |
| `JobAlone.LastReturnAlone` | src/jobs/jobs.c:634-671 | if that reference is the last one, JS_FINISH is executed instead, with the only token |
| `SublistInv.StepFair` | src/jobs/jobs.c:971-1034 | every step of process_one_sublist is fair to its subclass: lock, counters and permits change only as the position allows |
| `SublistInv.StepAccount` | src/jobs/jobs.c:725-740 | queued, announced and processed jobs of a subclass plus the shares of its threads balance across every step |
| `SublistInv.FairInv` | src/jobs/jobs.c:971-1034 | a fair step that keeps the account keeps the invariant of all subclasses and threads |
| `SublistInv.PopFinds` | src/jobs/jobs.c:1006-1010 | the thread at the pop always has a job in the subclass queue |
| `SublistTheorems.RunInv` | src/jobs/jobs.c:971-1034 | the invariant holds in every run, for any subclasses and any number of threads |
| `SublistTheorems.OneDrainer` | src/jobs/jobs.c:971-1034 | at most one thread drains the queue of a subclass |
| `SublistTheorems.AllRunsAlone` | src/jobs/jobs.c:971-1034 | while subclass -1 is drained, no other thread drains any subclass |
| `SublistTheorems.PermitsConserved` | src/jobs/jobs.c:971-1034 | permits held plus permits free is 16 in every reachable state |
| `SublistTheorems.PopNeverEmpty` | src/jobs/jobs.c:1006-1010 | the pop of the drain loop never comes back empty: the assertion on it holds |
| `SublistTheorems.QuietMeansDone` | src/jobs/jobs.c:971-1034 | when all threads are idle, every announced job of every subclass has been processed, all locks and all permits are free |
| `SublistTheorems.NeverStuck` | src/jobs/jobs.c:971-1034 | while a thread is busy some thread can take a step: collecting 16 permits one by one cannot deadlock |
| `SublistAlone.SomeRoom` | src/jobs/jobs.c:986-996 | while a thread is busy, some busy thread finds all the permits it still needs: the one that has begun to collect all 16, if there is one |
| `SublistAlone.ThreadRests` | src/jobs/jobs.c:971-1034 | such a thread comes to rest by its own moves, with every id it took announced once and no other thread disturbed |
| `SublistAlone.AllCanFinish` | src/jobs/jobs.c:971-1034 | from every reachable state there is a continuation in which all calls are completed |
| `SublistAlone.AllCanBeProcessed` | src/jobs/jobs.c:971-1034 | from every reachable state at rest, one thread alone can process every queued job of a subclass, each once: none is lost between the job queue and the class queue |
| `ConnRefTheorems.CellSound` | src/net/net-connections.c:1407-1449 | every step on the packed counter keeps both halves equal to the references and the probes outstanding |
| `ConnRefTheorems.RunInv` | src/net/net-connections.c:1407-1449 | the invariant of the packed counter holds in every run of n getters and the owner |
| `ConnRefTheorems.ReleasedAtMostOnce` | src/net/net-connections.c:1407-1415 | the job pointer is released at most once, and only after the data field was cleared |
| `ConnRefTheorems.NeverUnderAGetter` | src/net/net-connections.c:1417-1449 | between a getter's successful check and its own drop the pointer is there, unreleased, and nobody has begun to release it (that a look-up succeeds while the owner has its reference is LookupSucceeds, that it fails only afterwards NullMeansDropped) |
| `ConnRefTheorems.NullMeansDropped` | src/net/net-connections.c:1417-1431 | in every run, a look-up returns NULL only at a moment at which the low half is 0 or the data is null, and then the owner's reference is gone |
| `ConnRefTheorems.LookupSucceeds` | src/net/net-connections.c:1417-1431 | in every run, a look-up that begins while the owner has its reference uses the data after four steps of its own, whatever the others do meanwhile, as long as the owner has not dropped it |
| `ConnRefTheorems.QuietReleasedIff` | src/net/net-connections.c:1407-1449 | when everybody is done, the pointer was released if and only if no prober stood between its two additions at the latest drop |
| `ConnRefTheorems.TwoGettersLeak` | src/net/net-connections.c:1417-1449 | counterexample: a concrete run of two getters and the owner that never releases the pointer |
| `ConnRefTheorems.ForgottenForever` | src/net/net-connections.c:1407-1449 | once nobody holds or converts a reference and the latest drop did not see zero, this stays so: later look-ups find no reference and give up |
| `ConnRefTheorems.Forward` | src/net/net-connections.c:1407-1449 | otherwise whoever is releasing, else whoever is probing, else whoever holds a reference, comes nearer to the release with its next step |
| `ConnRefTheorems.Finish` | src/net/net-connections.c:1407-1449 | from every such state with the pointer unreleased there is a continuation that releases it |
| `ConnRefTheorems.NeverReleasedIff` | src/net/net-connections.c:1407-1449 | at every moment of every run of any number of getters: no continuation releases the pointer if and only if it is unreleased, nobody holds or converts a reference and the latest drop did not see zero |
| `ConnRefTheorems.LeakIff` | src/net/net-connections.c:1407-1449 | some run reaches a state from which no continuation releases the pointer if and only if two or more threads may look the descriptor up |
| `StatsLock.RunInv` | src/mtproto/mtproto-proxy-stats.c:324-357 | the invariant of the two copies, the writer and the reader holds in every run |
| `StatsLock.SnapshotIsPublication` | src/mtproto/mtproto-proxy-stats.c:344-357 | every accepted snapshot is field by field one publication of the copy it was taken from |
| `StatsLock.SnapshotIsLatest` | src/mtproto/mtproto-proxy-stats.c:344-357 | at the moment it is accepted the snapshot is the latest publication of its copy |
| `StatsLock.RunRounds` | src/mtproto/mtproto-proxy-stats.c:153-223 | in every run the number of the writer's steps determines how many publications each copy has had, and where in its round the writer is |
| `StatsLock.PublishedIsWritten` | src/mtproto/mtproto-proxy-stats.c:153-223 | publication k + 1 of each copy is, field by field, what round k of update_local_stats_copy stored into that copy |
| `StatsLock.ReaderAlone` | src/mtproto/mtproto-proxy-stats.c:324-357 | from every reachable state in which the reader begins, its own steps end in an accepted snapshot while the writer pauses |
| `StatsLock.OneCopyReadable` | src/mtproto/mtproto-proxy-stats.c:153-223 | the two copies are never both being written |
| `StatsLock.WriteReader` | src/mtproto/mtproto-proxy-stats.c:153-223 | a write into the copy being read makes the reader's second look at the counter fail |
| `HeapSpec.GreaterEvIsOrder` | src/net/net-events.c:92-96 | greater_ev is the order by priority, then time, if and only if the difference of the priorities fits an int |
| `HeapSpec.NearIsOrder` | src/net/net-events.c:92-96 | for any two events whose priority difference fits an int, greater_ev says which is later |
| `HeapSpec.TopIsMin` | src/net/net-events.c:98-121 | in an ordered heap the top is no greater than any event |
| `HeapSpec.KeyChange` | src/net/net-events.c:161-178 | whatever happens to one event's key, the other events stay ordered around its position |
| `HeapSpec.SinkOrder` | src/net/net-events.c:131-138 | moving the smaller child up keeps the order around the hole |
| `HeapSpec.RiseOrder` | src/net/net-events.c:167-174 | moving the parent down keeps the order around the hole |
| `HeapSpec.Room` | src/net/net-events.c:165-166 | an event outside the heap means the heap is not full: the growing write is in bounds, whatever the keys are |
| `EventHeap.Heap.constructor` | src/net/net-events.c:63-64 | an empty heap with exact back-pointers, for any number of events and any keys |
| `EventHeap.Heap.SetKey` | src/net/net-events.c:161-178 | an arbitrary change of one event's key, to any value, keeps the back-pointers exact and leaves the others ordered around that event |
| `EventHeap.Heap.Put` | src/net/net-events.c:161-178 | the event is queued and all others stay queued with exact back-pointers, whatever the keys; from a heap ordered around the event, the order is restored if the priorities of the queued events differ pairwise by an int |
| `EventHeap.Heap.Remove` | src/net/net-events.c:123-159 | exactly this event goes, 0 is returned if and only if it was not queued, back-pointers stay exact whatever the keys; the rest is ordered if it is comparable; with a hole allowed, a childless hole is returned |
| `EventHeap.Heap.PopHead` | src/net/net-events.c:98-121 | from an ordered heap, returns a minimum of the queued events; removes exactly it, -1 if and only if there is none; what stays is ordered if it is comparable |
| `EventHeap.PopOfTwo` | src/net/net-events.c:92-178 | for all keys: two events put into an empty heap in this order pop a minimum first if and only if the difference of their priorities fits an int |
| `EventHeap.Heap.Place` | src/net/net-events.c:167-176 | the event settles where the comparisons take it, with exact back-pointers whatever the keys, and in order when the keys are comparable |
| `EventHeap.Heap.Lower` | src/net/net-events.c:168-173 | moving the greater parent down keeps shape and order around the new hole |
| `EventHeap.Heap.Sink` | src/net/net-events.c:131-138 | the hole sinks to a position without children; the queued events stay, and the order of the rest when the keys are comparable |
| `EventHeap.Heap.TakeOut` | src/net/net-events.c:123-138 | taking out a queued event empties only that event's place and leaves a childless hole, with the rest in order when comparable |
| `EventHeap.Heap.MakePlace` | src/net/net-events.c:165-166 | a new event gets the next place, a queued one leaves a childless hole; the rest keeps shape and order around it |
| `EventHeap.Heap.LeaveHole` | src/net/net-events.c:139-142 | the event is out and the childless hole holds a null pointer |
| `EventHeap.Heap.CloseHole` | src/net/net-events.c:143-157 | the last event closes a childless hole: same events, one place fewer, back-pointers exact, in order when the keys are comparable |
| `EventHeap.Heap.MoveLast` | src/net/net-events.c:143-156 | the last event settles at or above the childless hole: same events, valid back-pointers, in order when comparable |
| `EventHeap.Heap.SinkFor` | src/net/net-events.c:107-117 | the hole at the top sinks to where the last event may stand |
| `EventHeap.Heap.CloseTop` | src/net/net-events.c:98-121 | closing the hole at the top with the last event keeps the events and the back-pointers, and the order when the keys are comparable |
| `EventHeap.Heap.Choose` | src/net/net-events.c:132-134 | one of the children of the hole, and the smaller one when the keys are comparable |
| `EventHeap.Heap.Lift` | src/net/net-events.c:112-116 | moving the smaller child up keeps shape and order around the new hole |
| `Ipv6Text.FindGap` | src/net/net-events.c:870-882 | finds the first longest block of zero groups that ends before the last group, and whether all groups are zero |
| `Ipv6Text.ConvIpv6` | src/net/net-events.c:870-908 | the buffer is the text that leaves out the first longest block of zeros ending before the last group, or the dotted form for a mapped address (what these texts spell is PrintedSpells, what the dotted form spells MappedPrints) |
| `Ipv6Text.PrintGap` | src/net/net-events.c:891-900 | the groups before the block, the double colon, the groups after it |
| `Ipv6Parse.ReadHex` | src/mtproto/mtproto-proxy-http.c:197-205 | reads at most four hexadecimal digits, or reports a fifth |
| `Ipv6Parse.ReadSeparator` | src/mtproto/mtproto-proxy-http.c:180-196 | accepts a colon, a first double colon, or the end after a double colon, and rejects everything else |
| `Ipv6Parse.ReadGroups` | src/mtproto/mtproto-proxy-http.c:172-217 | the bytes stored are those of the groups the text names, in network order, or the text is malformed |
| `Ipv6Parse.Spread` | src/mtproto/mtproto-proxy-http.c:223-228 | the groups after the double colon move to the end and the gap is zero |
| `Ipv6Parse.OpenGap` | src/mtproto/mtproto-proxy-http.c:223-228 | the sixteen bytes are those of the groups with the missing ones as zeros at the place of the double colon |
| `Ipv6Parse.ParseTextIpv6` | src/mtproto/mtproto-proxy-http.c:172-230 | returns -1 on exactly the texts that Parse rejects, which by AcceptedIff are those outside the grammar, and otherwise the length of the whole text with the sixteen bytes of the address |
| `Ipv6Grammar.ScanIs` | src/mtproto/mtproto-proxy-http.c:197-205 | the scanner reads all the digits that are there and has their number, or reports that they are more than four |
| `Ipv6Grammar.Accepts` | src/mtproto/mtproto-proxy-http.c:178-217 | from any point of a text of the grammar the loop reads the words that are left and stops at the end of the text |
| `Ipv6Grammar.SpelledIsParsed` | src/mtproto/mtproto-proxy-http.c:172-230 | a text of the grammar is read as the numbers of its words, with zeros at the place of the double colon |
| `Ipv6Grammar.Recover` | src/mtproto/mtproto-proxy-http.c:178-217 | when the loop goes on to the end of the text, what it read is words with one mark before each |
| `Ipv6Grammar.ParsedIsSpelled` | src/mtproto/mtproto-proxy-http.c:172-230 | an accepted text consists of words with their marks |
| `Ipv6Grammar.AcceptedIff` | src/mtproto/mtproto-proxy-http.c:172-230 | a text is accepted if and only if it is eight words of one to four digits with colons between, or at most eight words with one double colon, before one of them or at the end, but not after an eighth word |
| `Ipv6RoundTrip.HexIsWord` | src/net/net-events.c:892-906 | a printed group is a word of the grammar, and its number is the group |
| `Ipv6RoundTrip.FullForm` | src/net/net-events.c:901-906 | the form without a zero block reads back as the same groups |
| `Ipv6RoundTrip.FrontForm` | src/net/net-events.c:895-900 | the form with a leading double colon, also for a single group, reads back as the same groups |
| `Ipv6RoundTrip.MiddleForm` | src/net/net-events.c:891-900 | the form with an inner double colon reads back as the same groups |
| `Ipv6RoundTrip.DottedForm` | src/net/net-events.c:887-889 | the reader rejects every text with a dot, so the dotted form |
| `Ipv6RoundTrip.MappedGap` | src/net/net-events.c:887-889 | the dotted branch is taken if and only if the address is IPv4-mapped |
| `Ipv6RoundTrip.RoundTripIff` | src/net/net-events.c:870-908 | the printed text parses to the same address if and only if the address is not IPv4-mapped; the mapped ones are rejected |
| `Ipv6RoundTrip.PrintedSpells` | src/net/net-events.c:870-908 | the text of an address that is not mapped spells, in order and without leading zeros, exactly the groups outside the first longest block, with the double colon in its place |
| `Ipv6Dotted.DecReads` | src/net/net-events.c:887-889 | a byte is printed as the decimal numeral that stands for it, without a leading zero |
| `Ipv6Dotted.MappedPrints` | src/net/net-events.c:887-889 | the text of a mapped address is "::ffff:" and, between three dots, the decimal numerals of bytes 12 to 15 in order |
| `Ipv6Dotted.PrintsApart` | src/net/net-events.c:870-908 | two different addresses, mapped or not, never print alike |
| `Ipv6RoundTrip.AddressRoundTrip` | src/mtproto/mtproto-proxy-http.c:172-230 | for every 16-byte address and the text printed for it, parsing the text puts back the same 16 bytes, or rejects it if the address is mapped |
| `Ipv6RoundTrip.PrintedPlain` | src/net/net-events.c:870-908 | printed text consists of hexadecimal digits, colons and dots only |
| `Ipv6RoundTrip.PrintAndParse` | src/mtproto/mtproto-proxy-http.c:172-230 | running the parser on what the printer wrote returns the length of the whole text and the same sixteen bytes, or -1 if and only if the address is mapped |
| `Gf2.MulXLinear` | src/common/crc32.c:695-701 | multiplication by x is linear |
| `Gf2.PowAdd` | src/common/crc32.c:695-701 | multiplying by x m + n times is multiplying n times and then m times |
| `Gf2.PowNonZero` | src/common/crc32.c:735-747 | with a constant term in the polynomial, no power of x maps a non-zero register to zero |
| `CrcDivision.CrcIsRemainder` | src/common/crc32.c:392-427 | the bit-at-a-time register equals the remainder of polynomial long division, for every message and start value |
| `CrcDivision.CrcConcat` | src/common/crc32.c:392-427 | the register after two messages is the second from where the first ended |
| `CrcDivision.CrcLinear` | src/common/crc32.c:806-819 | the effect of the start value and that of the message add up |
| `CrcPartial.ByteUpdateIsCrc` | src/common/crc32.c:640-646 | one table look-up per byte is eight steps of the division |
| `CrcPartial.WordUpdateIsCrc` | src/common/crc32.c:395-395 | the four look-ups of DO_ONE are 32 steps of the division |
| `CrcPartial.DoFour` | src/common/crc32.c:396-396 | DO_FOUR advances the CRC by sixteen bytes |
| `CrcPartial.PartialFourTables` | src/common/crc32.c:392-427 | the four-table code with its 32/16/8/4/2/1 split gives the CRC of the data for every length and start value |
| `CrcPartial.PartialWords` | src/common/crc32c.c:580-591 | the 16, 8 and 4 byte tails bring the CRC to the last word boundary |
| `CrcPartial.PartialRest` | src/common/crc32c.c:594-602 | the 2 and 1 byte tails finish it |
| `CrcPartial.PartialOneTable` | src/common/crc32.c:640-646 | the one-table loop gives the CRC of the data for every length and start value |
| `CrcPolynomials.HaveConstantTerm` | src/common/crc32.c:814-854 | the CRC-32, CRC-32C and CRC-64 polynomials have a constant term |
| `CrcPolynomials.TermIsBit` | src/common/crc32.c:814-854 | the reflected word of x to the e is the one bit at its place |
| `CrcPolynomials.Crc32Terms` | src/common/crc32.c:431-432 | the CRC-32 constant is the sum of the terms of degree 26, 23, 22, 16, 12, 11, 10, 8, 7, 5, 4, 2, 1 and 0 |
| `CrcPolynomials.Crc32cTerms` | src/common/crc32c.c:606-606 | the CRC-32C constant is the sum of the terms of degree 28, 27, 26, 25, 23, 22, 20, 19, 18, 14, 13, 11, 10, 9, 8, 6 and 0 |
| `CrcPolynomials.Crc64Terms` | src/common/crc32.c:849-858 | the CRC-64 constant is the sum of the terms of ECMA-182 below degree 64 |
| `CrcCombine.TimesIsPow` | src/common/crc32.c:716-726 | multiplying a vector by the matrix of a power of x is multiplying by that power |
| `CrcCombine.MatrixTimes` | src/common/crc32.c:716-726 | the loop over the set bits of the vector computes that product |
| `CrcCombine.MatrixSquare` | src/common/crc32.c:728-733 | squaring the matrix doubles the power and touches nothing before it |
| `CrcCombine.ComputePowers` | src/common/crc32.c:735-747 | matrix n of the table is x to the power 2^n; the last entry is not zero |
| `CrcCombine.CombinePowers` | src/common/crc32.c:765-775 | the binary-exponent loop computes the zero-bit operator to the power 8 times the length, for every length of an int64 |
| `CrcCombine.CombineIsConcat` | src/common/crc32.c:806-819 | the CRC of a concatenation is the first CRC moved past the second message, plus the second CRC from start value 0 |
| `CrcCombine.Powers.constructor` | src/common/crc32.c:807-808 | the power table starts all zero |
| `CrcCombine.Powers.Combine` | src/common/crc32c.c:608-620 | for all byte strings A and B and every start value, combining crc(A) with crc(B) and the length of B gives crc(A + B); lengths not above 0 return the first CRC |
| `GfMul.HornerIsSum` | src/common/crc32.c:859-870 | the shift-and-add loop computes the sum of the powers of x selected by the second factor |
| `GfField.ProductTimesX` | src/common/crc32.c:851-857 | multiplying the right factor by x multiplies the product by x: the reduction is right |
| `GfField.ProductCommutes` | src/common/crc32.c:859-870 | the product is commutative |
| `GfField.ProductAssociates` | src/common/crc32.c:859-870 | the product is associative |
| `GfField.PowersMultiply` | src/common/crc32.c:859-870 | x^m times x^n is x^(m+n) |
| `GfField.TimesPow` | src/common/crc32.c:859-870 | multiplying by the register of x^k is k times multiplying by x modulo the polynomial |
| `GfField.Mul` | src/common/crc32.c:703-714 | the loop of gf32_mul and gf64_mul computes the product modulo the polynomial |
| `Crc64.SmallPower` | src/common/crc32.c:874-897 | below the degree, x^m is a single bit |
| `Crc64.PolyIsPower` | src/common/crc32.c:874-897 | the polynomial as a register is x^64 |
| `Crc64.NextEntry` | src/common/crc32.c:880-885 | from x^(8*2^n - 1) the loop gets x^(8*2^n + 63) and x^(8*2^(n+1) - 1) |
| `Crc64.FillEntry` | src/common/crc32.c:881-884 | one round stores entry pair n and hands on the start of the next |
| `Crc64.InitPowerBuf` | src/common/crc32.c:874-897 | entry pair n of the power buffer is x^(8*2^n + 63) and x^(8*2^n - 1); the entries the code asserts on have the asserted values |
| `Crc64.FactorIsPow` | src/common/crc32.c:941-941 | one factor of the combination moves the register past 2^n bytes |
| `Crc64.CombineProducts` | src/common/crc32.c:937-949 | the loop over the set bits of the length moves the register past that many bytes |
| `Crc64.PowerBuffer.constructor` | src/common/crc32.c:872-872 | the power buffer starts all zero |
| `Crc64.PowerBuffer.Combine` | src/common/crc32.c:929-951 | compute_crc64_combine_generic agrees with the byte loop on every concatenation, for every start value; lengths not above 0 return the first CRC |
| `Md5Code.LowHalfLaws` | src/common/md5.c:93-193 | the unmasked 64-bit additions, rotations and round functions agree with 32-bit arithmetic on the lower halves |
| `Md5Code.P` | src/common/md5.c:95-98 | one step of the code is one step of RFC 1321 section 3.4 on the lower halves |
| `Md5Code.Round1` | src/common/md5.c:105-122 | the sixteen calls of round 1 have the constants, words and rotations of RFC 1321 |
| `Md5Code.Round2` | src/common/md5.c:126-143 | the same for round 2 |
| `Md5Code.Round3` | src/common/md5.c:147-164 | the same for round 3 |
| `Md5Code.Round4` | src/common/md5.c:168-185 | the same for round 4 |
| `Md5Code.Process` | src/common/md5.c:72-193 | md5_process applies the RFC 1321 block step to the chaining words, modulo 2^32 |
| `Md5Stream.Carry` | src/common/md5.c:209-213 | the overflow test of the 64-bit length is exact |
| `Md5Stream.LengthSplit` | src/common/md5.c:256-261 | the two words that md5_finish writes are the message length in bits modulo 2^64, low byte first |
| `Md5Stream.Context.constructor` | src/common/md5.c:61-70 | a context that has seen the empty message |
| `Md5Stream.Context.AddLength` | src/common/md5.c:206-213 | the two counters hold the length of the whole message after the addition |
| `Md5Stream.Context.CompleteBlock` | src/common/md5.c:215-223 | the buffered bytes and the start of the input make one block, which is absorbed |
| `Md5Stream.Context.Blocks` | src/common/md5.c:225-230 | whole blocks are absorbed straight from the input, and less than a block is left |
| `Md5Stream.Context.Feed` | src/common/md5.c:215-236 | all whole blocks of the message so far are absorbed and the rest of it is in the buffer |
| `Md5Stream.Context.KeepRest` | src/common/md5.c:232-236 | the bytes after the last whole block are at the front of the buffer |
| `Md5Stream.Context.Lengthen` | src/common/md5.c:215-236 | from the state and buffer of a message to those of the message with a piece appended |
| `Md5Stream.Context.Update` | src/common/md5.c:198-237 | the context stands for the old message followed by the new piece; lengths not above 0 change nothing |
| `Md5Stream.FinalBytes` | src/common/md5.c:256-267 | the bytes md5_finish appends make the padded message of RFC 1321 sections 3.1 and 3.2 |
| `Md5Stream.Context.Finish` | src/common/md5.c:250-273 | the output is the RFC 1321 digest of everything that was fed in |
| `Md5Stream.DigestOfPieces` | src/common/md5.c:198-273 | for every way of splitting the input the digest is that of the concatenation |
| `ExtRing.InsertSound` | src/mtproto/mtproto-proxy.c:328-331 | linking a node in before the head appends it to that ring and leaves every other ring alone |
| `ExtRing.DeleteSound` | src/mtproto/mtproto-proxy.c:285-289 | unlinking a node takes it out of its ring and leaves every other ring alone |
| `ExtRing.Lists.Open` | src/mtproto/mtproto-proxy.c:679-682 | an empty list appears, nothing else changes |
| `ExtRing.Lists.Close` | src/mtproto/mtproto-proxy.c:703-705 | an empty list disappears, nothing else changes |
| `ExtRing.Lists.InsertTail` | src/mtproto/mtproto-proxy.c:328-331 | the pointer assignments append the node at the end of the list |
| `ExtRing.Lists.Delete` | src/mtproto/mtproto-proxy.c:285-289 | the pointer assignments take exactly this node out, the others keep their order |
| `ExtIndex.ExtHash` | src/mtproto/mtproto-proxy.c:251-254 | the hash is an index of the chain table |
| `ExtIndex.NextId` | src/mtproto/mtproto-proxy.c:337-338 | the new id is greater than the last id of its slot, not zero, and names its slot |
| `ExtIndex.TablesInsert` | src/mtproto/mtproto-proxy.c:316-345 | after an insertion hash chains, id table, counter and the record of issued ids describe the same set, and the id was never issued before |
| `ExtIndex.TablesDelete` | src/mtproto/mtproto-proxy.c:295-306 | after a deletion they still do, for the set without that connection |
| `ExtIndex.StaleForever` | src/mtproto/mtproto-proxy.c:337-357 | between any two moments of a recorded run every id keeps the record it was issued with, and one whose connection is gone matches nothing again |
| `ExtIndex.IssuedOnce` | src/mtproto/mtproto-proxy.c:337-346 | in a recorded run no id comes into being twice |
| `ExtRun.Do` | src/mtproto/mtproto-proxy.c:258-413 | one call of any kind: the tables stay in agreement, the live connections change exactly as that call says (when a link ends, for every descriptor: exactly the members of its list go), ids keep their meaning, and an answer reaches only the client of its id, from that id's middle-end; a call that breaks an assertion changes nothing |
| `ExtRun.RunAll` | src/mtproto/mtproto-proxy.c:258-413 | for every sequence of get, create, remove, close, link-up, link-down, LRU and answer calls on any valid table: the tables agree at the end, no id was issued twice, every id keeps its meaning and never matches again once stale, and every answer that reached a client was for an id issued to that client (fd, generation) with that middle-end (fd, generation) |
| `ExtRun.RunTheorem` | src/mtproto/mtproto-proxy.c:337-357 | the same two facts about ids for every record of a run |
| `ExtTable.Table.constructor` | src/mtproto/mtproto-proxy.c:226-243 | empty tables that agree |
| `ExtTable.Table.Find` | src/mtproto/mtproto-proxy.c:274-309 | the walk along the h_next pointers finds the connection with this key and the link that points at it, or there is no such connection |
| `ExtTable.Table.Unchain` | src/mtproto/mtproto-proxy.c:296-297 | rewriting the link takes exactly this connection out of its pointer chain and leaves every other chain as it is |
| `ExtTable.Table.Enchain` | src/mtproto/mtproto-proxy.c:316-317 | the connection becomes the first of its pointer chain, every other chain is as it was |
| `ExtIndex.ChainedInsert` | src/mtproto/mtproto-proxy.c:316-317 | prepending to a linked chain gives the linked chain of the longer sequence |
| `ExtIndex.ChainedDelete` | src/mtproto/mtproto-proxy.c:296-297 | bypassing a structure, at the head or behind another one, gives the linked chain without it |
| `ExtTable.Table.GetByInFd` | src/mtproto/mtproto-proxy.c:258-270 | returns the only connection of the client descriptor, or there is none; descriptor 0 has none; the assertion that next and prev agree holds |
| `ExtTable.Table.GetByInConnId` | src/mtproto/mtproto-proxy.c:272-346 | finds, deletes or creates exactly as the mode says; all five structures and the counter describe the same set afterwards; a creation issues a new id and records it for this client, and no record of an earlier id changes |
| `ExtTable.Table.EnterNew` | src/mtproto/mtproto-proxy.c:313-345 | one connection is new, under an id never issued before and recorded for this client, and every earlier record stays |
| `ExtTable.Table.UseFound` | src/mtproto/mtproto-proxy.c:277-307 | a connection that is there is returned, deleted or reported, by mode, and nothing else changes |
| `ExtTable.Table.Delete` | src/mtproto/mtproto-proxy.c:285-306 | removing a connection takes it out of its rings, chain, slot and counter, and nothing else changes |
| `ExtTable.Table.ChooseSlot` | src/mtproto/mtproto-proxy.c:333-336 | the slot of the first candidate that is free, where the candidates are the client descriptor, if the connection id is 0, and then the random numbers in the order drawn |
| `ExtTable.Table.FindByOutConnId` | src/mtproto/mtproto-proxy.c:348-357 | exactly the live connection that has this id |
| `ExtTable.Table.Create` | src/mtproto/mtproto-proxy.c:360-379 | a new connection between this client and this middle-end under an id never issued before; all structures agree |
| `ExtTable.Table.Bind` | src/mtproto/mtproto-proxy.c:367-377 | the connection joins the list of its middle-end, and its id now stands for that pair |
| `ExtTable.Table.Remove` | src/mtproto/mtproto-proxy.c:383-413 | the assertions about the tables hold, exactly this connection goes, every list loses exactly it, and every id keeps its record |
| `ExtTable.Table.Route` | src/mtproto/mtproto-proxy.c:537-588 | an answer or acknowledgement reaches a client if and only if it comes from the middle-end descriptor and generation of a live connection with that id, and then the client the id was issued for |
| `ExtTable.Table.CloseExt` | src/mtproto/mtproto-proxy.c:589-599 | whatever middle-end sent the packet, what is left is the connections with another id: a function of the id alone |
| `ExtTable.Table.CloseClient` | src/mtproto/mtproto-proxy-http.c:102-110 | the connection of the client descriptor goes, if there is one, and no other |
| `ExtTable.Table.Ready` | src/mtproto/mtproto-proxy.c:669-686 | the descriptor gets an empty list |
| `ExtTable.Table.RemoveFirst` | src/mtproto/mtproto-proxy.c:698-702 | one round removes the first connection of the list, and the pointer saved before is the new first |
| `ExtTable.Table.RemoveAll` | src/mtproto/mtproto-proxy.c:698-702 | the loop empties the list and removes exactly its members |
| `ExtTable.Table.Close` | src/mtproto/mtproto-proxy.c:688-709 | exactly the members of the descriptor's list go, which for a descriptor other than 0 are the connections that name it; all others are untouched, and no id changes its meaning |
| `ExtIndex.MembersAreNamed` | src/mtproto/mtproto-proxy.c:688-709 | for a descriptor other than 0, a connection is in its list if and only if it names it |
| `ExtTable.Table.LruTouch` | src/mtproto/mtproto-proxy.c:995-1001 | the connection becomes the youngest, the others keep their order |
| `ExtTable.Table.LruForget` | src/mtproto/mtproto-proxy.c:987-993 | the connection leaves the list, the others keep their order |
| `ExtTable.Table.LruInsertConn` | src/mtproto/mtproto-proxy.c:1010-1015 | the client's connection of that generation becomes the youngest; without one the list is unchanged |
| `ExtTable.Table.LruDeleteConn` | src/mtproto/mtproto-proxy.c:1003-1008 | the client's connection leaves the list; without one the list is unchanged |
| `IpTable.RunInv` | src/mtproto/ip-stats.c:109-154 | the probing invariant of the table holds in every run of any number of workers |
| `IpTable.OneSlot` | src/mtproto/ip-stats.c:123-154 | an address occupies at most one slot, whatever the interleaving |
| `IpTable.ClaimedForever` | src/mtproto/ip-stats.c:123-154 | a claimed slot keeps its address, and a published location stays published, for the rest of every run |
| `IpTable.StoredIsFound` | src/mtproto/ip-stats.c:109-121 | no search for a stored address ends at an empty slot or runs off the table |
| `IpTable.ReturnedIsReady` | src/mtproto/ip-stats.c:98-154 | the slot a call returns holds the address asked for, with the location published (when a call returns a slot, and which, is CallAlone; what is_new means AnswerIsRight) |
| `IpTable.FullForever` | src/mtproto/ip-stats.c:123-154 | a call that found the table full found only other addresses, and its address is never stored afterwards |
| `IpTable.WaitHasWriter` | src/mtproto/ip-stats.c:98-107 | in every run, with waits cut short by the clock at any moment, a taken slot that is not ready has another thread about to publish it |
| `IpTable.ProbeCovers` | src/mtproto/ip-stats.c:109-121 | every slot is on every probe sequence |
| `IpTableCalls.AnswerIsRight` | src/mtproto/ip-stats.c:123-154 | in every run a call answers for the address it was asked for, a creating call never answers "missing", and is_new is set if and only if this call's own CAS turned the slot from 0 to the address |
| `IpTableCalls.CallAlone` | src/mtproto/ip-stats.c:109-154 | from every reachable state in which nobody else is inside a call, a call alone answers: the slot of a stored address; else, if it may create and there is an empty slot on the path, the first one, then stored and ready, as new; else "missing" or "full" |
| `IpTableCalls.AnswerMeans` | src/mtproto/ip-stats.c:109-154 | by contents: an old slot if and only if the address is stored, "full" if and only if every slot has another address |
| `IpCountersInv.RunInv` | src/mtproto/ip-stats.c:339-420 | the counter invariant holds in every run of tracked connections |
| `IpCountersInv.ActiveIsConnections` | src/mtproto/ip-stats.c:339-420 | active_conns is the number of connections of the address that are in, and never negative |
| `IpCountersInv.UniqueIsActive` | src/mtproto/ip-stats.c:339-420 | unique_ips of a tracked country is its active addresses plus pending decrements minus pending increments, and no decrement was ever dropped |
| `IpCountersInv.TurnsTaken` | src/mtproto/ip-stats.c:339-420 | in every run, a connection is where the number of its own steps puts it: ip_stats_connect has returned with the third, the disconnect is over by the seventh, whatever the others do |
| `IpCountersInv.AllOver` | src/mtproto/ip-stats.c:339-420 | once every connection has had its steps, every active_conns and every unique_ips is 0 |
| `IpCountersInv.DecrementFinds` | src/mtproto/ip-stats.c:396-420 | a decrement finds its country tracked with a positive counter, or the table full without it |
| `IpCountersInv.StepFound` | src/mtproto/ip-stats.c:349-353 | what a connection found out about its group's entry stays true: an entry is never lost, a full table stays as it is |
| `IpCountersInv.StepDropsNothing` | src/mtproto/ip-stats.c:396-420 | the guard on the counter never suppresses a decrement |
| `GroupTable.RunInv` | src/mtproto/ip-stats.c:169-225 | the invariant of the country and region tables holds in every run |
| `GroupTable.CodesUnique` | src/mtproto/ip-stats.c:169-225 | no code has two entries and the table never overflows |
| `GroupTable.ResultIsRight` | src/mtproto/ip-stats.c:169-225 | a call returns the entry of its code, and nothing if and only if the code is not in the full table |
| `GroupTable.EntryForever` | src/mtproto/ip-stats.c:169-225 | an entry keeps its code for the rest of every run |
| `GroupTable.StepCodes` | src/mtproto/ip-stats.c:169-225 | seen as a set of codes, the table changes only by one publication, which adds a code that was not there while there was room |
| `GroupAtomic.StepRefines` | src/mtproto/ip-stats.c:169-225 | each shared access of a call is the one step of find-or-create, or a return, or nothing, seen from outside |
| `GroupAtomic.RunRefines` | src/mtproto/ip-stats.c:169-225 | every run of the table, with all its interleavings, is a run in which each call finds or creates its entry in one step between its call and its return, with the same set of codes and the same answers |
| `GroupAtomic.CountersEnter` | src/mtproto/ip-stats.c:349-353 | that one step is the one the counters take |
| `GroupTable.ReturnCodes` | src/mtproto/ip-stats.c:169-225 | a call returns an entry if and only if its code is in the set, and nothing only when the set is full |
| `GroupAlone.CallAlone` | src/mtproto/ip-stats.c:169-225 | from every reachable state in which nobody else holds the lock, a call alone returns within 2n + 9 steps, with an entry if and only if the code had one or there was room; the table has then gained that code and nothing else |
| `MpqListSteps.SeesEmpty` | src/common/mp-queue.c:333-339 | what a popper may conclude from the tail it reads after skipping: without a successor block, every value of the queue is claimed |
| `EventHeap.Heap.LiftLast` | src/net/net-events.c:143-145 | the last event leaves its place and is the one on its way; the rest keeps its places |
| `EventHeap.Heap.Settle` | src/net/net-events.c:118-119 | the event on its way fills the hole: the same events and this one, in order if it fits between parent and children |
| `Ipv6Text.PrintLead` | src/net/net-events.c:892-894 | the first groups, each with its colon |
| `Ipv6Text.PrintTail` | src/net/net-events.c:898-900 | the last groups, each after its colon |
| `Ipv6Parse.Store` | src/mtproto/mtproto-proxy-http.c:212-213 | the bytes so far are those of the groups so far, in network order |
| `CrcDivision.CrcShort` | src/common/crc32.c:395-395 | a message no longer than the register may be added to it at once |
| `CrcPartial.DoOne` | src/common/crc32.c:395-395 | DO_ONE advances the CRC by four bytes |
| `CrcPartial.DoByte` | src/common/crc32.c:419-424 | one table look-up advances the CRC by one byte |
| `CrcCombine.FirstPowers` | src/common/crc32.c:738-741 | the first matrix is multiplication by x |
| `CrcCombine.NextPower` | src/common/crc32.c:742-744 | the next matrix is the next power, the ones before stay |
| `CrcCombine.LastColumn` | src/common/crc32.c:745-745 | the last entry is not zero, which the code asserts and uses as its initialised mark |
| `Crc64.LastEntry` | src/common/crc32.c:896-896 | the last entry of the power buffer is not zero |
| `Crc64.FirstEntries` | src/common/crc32.c:887-891 | entries 3, 5 and 7 are the single bits the code asserts |
| `Crc64.Lowest` | src/common/crc32.c:937-939 | ffsll and the shift split a length into a power of two and an odd factor |
| `Crc64.Factor` | src/common/crc32.c:941-941 | the code's factor moves the register past 2^n bytes |
| `Crc64.CombineRest` | src/common/crc32.c:943-949 | the loop over the higher bits of the length reaches the same register as all zero bytes at once |
| `Md5Code.AllRounds` | src/common/md5.c:105-187 | the 64 calls in a row are the 64 steps of RFC 1321 section 3.4 |
| `Md5Stream.Context.Absorb` | src/common/md5.c:219-227 | one more block of the message is in the chaining words |
| `Md5Stream.Context.CopyIn` | src/common/md5.c:232-236 | the bytes follow the ones already in the buffer |
| `Md5Stream.Context.FeedBlocks` | src/common/md5.c:225-236 | whole blocks are absorbed, the rest of the message is in the buffer |
| `Md5Stream.Context.Append` | src/common/md5.c:198-237 | the context stands for the old message followed by all of the input |
| `ExtIndex.TablesBind` | src/mtproto/mtproto-proxy.c:367-377 | naming the middle-end of a connection keeps all tables in agreement |
| `ExtIndex.ListsEnter` | src/mtproto/mtproto-proxy.c:322-332 | the lists hold exactly the connections naming their descriptor, after one joined its client's list |
| `ExtIndex.ListsDelete` | src/mtproto/mtproto-proxy.c:285-295 | the same after one left all its lists |
| `ExtIndex.ListsBind` | src/mtproto/mtproto-proxy.c:367-377 | the same after one joined its middle-end's list |
| `ExtTable.Table.Unlist` | src/mtproto/mtproto-proxy.c:285-294 | the node is in no list of this kind afterwards, the other members keep their order |
| `ExtTable.Table.UnlistAll` | src/mtproto/mtproto-proxy.c:285-295 | the connection is out of all its lists, every list loses exactly it, and the lists describe the other connections |
| `ExtTable.Table.Forget` | src/mtproto/mtproto-proxy.c:296-305 | chain, slot and counter drop exactly this connection |
| `ExtTable.Table.Record` | src/mtproto/mtproto-proxy.c:316-345 | chain, slot, id and counter gain exactly this connection, under an id never issued before |
| `ExtTable.Table.EnterList` | src/mtproto/mtproto-proxy.c:322-332 | the connection joins its client's list, which is opened if need be |
| `ExtTable.Table.Enter` | src/mtproto/mtproto-proxy.c:314-345 | a new connection in all tables, in its client's list, without a middle-end |
| `ExtTable.Table.SetKey` | src/mtproto/mtproto-proxy.c:377-377 | the key changes and nothing else; the tables still agree |
| `ExtRing.OpenSound` | src/mtproto/mtproto-proxy.c:679-682 | an empty ring may be added to the others |
| `ExtRing.CloseSound` | src/mtproto/mtproto-proxy.c:703-705 | an empty ring may be taken away |

## Left out

- Reuse of queue blocks: hazard pointers, garbage and prepared pools (src/common/mp-queue.c:83-107, 174-261, 690-714). Blocks are modelled as never freed or reused; reclamation is a separate protocol.
- Fairness: a call that runs alone returns (`CallReturns`, `CallEnds`, `AllCanFinish`, `CallAlone`); that a retry loop ends while other threads keep interfering is not claimed, and for lock-free code it need not.
- Weak memory, and counters that wrap around.
- The futex sleep inside mp_sem_wait: a waiting thread re-reads the value instead.
- complete_subjob and the children counter (src/jobs/jobs.c:825-861): each of its paths ends in job_signal or job_decref on one token of the parent, both of which the model has; the counter by itself would add only easy members.
- The SIGRTMAX wake-up of the main thread, insert_node_into_job_list's own use of try_lock_job, job messages and job timers.
- j_subclass of a job that changes while the job is queued: the model carries the subclass unlock_job saved.
- JobTheorems.RunOk: assumes that JS_FINISH is allowed and is sent only by the library, as the code's own assertion at src/jobs/jobs.c:647 does, and that nobody else changes the flags between the load and the store of schedule_job, which is exact for a caller with the only reference (ScheduleSafeIff); TargetsLock itself is not modelled.
- ConnRefTheorems.NeverUnderAGetter: connection_get_by_fd is modelled up to the drop of its own reference; the walk from the socket job to the connection job and the generation check (src/net/net-connections.c:1433-1459) are not. Fewer than 2^32 - 1 getters.
- StatsLock.SnapshotIsPublication: the fields are opaque integers; summing the snapshots of several workers is not modelled.
- EventHeap.Heap.Put: epoll and the run loop around the heap are not modelled.
- ExtTable.Table.ChooseSlot: the random numbers are a parameter, one of which has a free slot; that drawing ends is not modelled. The assertion that the table is at most half full is the caller's condition.
- ExtTable.Table.Remove: the notifications to the other side and fail_connection (src/mtproto/mtproto-proxy.c:387-409) are not modelled.
- ExtTable.Table.Route: message contents and connection_get_by_fd_generation, which may still find that client gone, are not modelled.
- ExtTable.Table.LruTouch: the loop that closes the oldest connections when buffers run out (check_all_conn_buffers) is not modelled.
- IpTable.ReturnedIsReady: the clock of ip_ht_wait_ready may end a wait at any moment, not only after two seconds; what the callers then leave uncounted is not followed up.
- IpCountersInv.UniqueIsActive: covers the unique_ips counters of countries and regions, one table at a time; total_ips, total_conns, the coordinates and ip_stats_transport_seen would add only easy members. Each disconnect follows its own tracked connect. Finding or creating an entry is one step here, which RunRefines justifies.
- GroupTable.ResultIsRight: codes are opaque values; comparing two letters or a string is not modelled.
- Crc64.InitPowerBuf: states every entry as a power of x and the three single-bit entries; the multi-bit literals of the assertions at src/common/crc32.c:888-895 are not evaluated.
- CrcPartial.PartialFourTables: the look-up tables are given by the function that generates them; the literal tables in the sources are not compared with it. In crc32c.c the block counter is an int, which is exact for lengths below 2^36.
- The carry-less multiplication and SSE 4.2 variants of the checksums.
- Md5Stream.Context.Update: the message length is unbounded here; the code's 64-bit bit count is what RFC 1321 asks for, modulo 2^64.
- md5_hex, and the SHA, AES and Diffie-Hellman code around it, which wraps a foreign library.
- Ipv6Parse.ParseTextIpv6: says nothing about the output array when -1 is returned.
- TLS, obfuscation and HTTP parsing, statistics rendering, configuration, worker supervision, sockets.
