/**
 * One ring block of the multi-producer/multi-consumer queue (src/common/mp-queue.c):
 * mpq_block_pop, mpq_block_push and mpq_fix_state, one shared access per step.
 *
 * A popping or pushing thread is described by its position in the code and its local
 * variables (`PopAt`, `PushAt`). The fields of `Block` after `nodes` are histories: no step
 * reads them, the theorems are stated over them.
 */
module MpqBlock {

  type Tid = nat

  /** A queued pointer; 0 is the null pointer. */
  type Value = nat

  const MAX_PUSH_ITERATIONS: nat := 10

  /** `h & (size - 1)` for a power of two: the node that ticket `t` falls on. */
  function Slot(t: nat, size: nat): (i: nat)
    requires 0 < size
    ensures i < size
  {
    if t < size then t else Slot(t - size, size)
  }

  /** The slot is the remainder of the ticket. */
  lemma {:induction false} SlotIsRemainder(t: nat, size: nat) returns (q: nat)
    requires 0 < size
    ensures t == q * size + Slot(t, size)
  {
    if t < size {
      q := 0;
    } else {
      var q' := SlotIsRemainder(t - size, size);
      q := q' + 1;
      assert q * size == q' * size + size;
    }
  }

  datatype Node = Node(safe: bool, idx: nat, val: Value)

  datatype Block = Block(
    size: nat,
    head: nat,
    tail: nat,                  // mqb_tail without its top bit
    closed: bool,               // the top bit of mqb_tail
    nodes: seq<Node>,
    closedAt: nat,              // the tail when the closed bit was first set
    placed: map<nat, Value>,    // push tickets that stored a value
    taken: set<nat>,            // pop tickets that returned a value
    skipped: set<nat>,          // pop tickets given up
    popOwner: seq<Tid>,         // who drew each pop ticket
    pushOwner: map<nat, Tid>)   // who drew each usable push ticket
  {
    predicate Shaped() {
      0 < size == |nodes|
    }

    /** The node that ticket `t` works on. */
    function At(t: nat): Node
      requires Shaped()
    {
      nodes[Slot(t, size)]
    }

    function Put(t: nat, n: Node): Block
      requires Shaped()
    {
      this.(nodes := nodes[Slot(t, size) := n])
    }

    /** Every usable push ticket is below this number. */
    function Limit(): nat {
      if closed then closedAt else tail
    }

    /** A value sits in the block: stored and not yet returned by a pop. */
    predicate Live(t: nat) {
      t in placed && t !in taken
    }

    /** Nothing can be added any more and every pop ticket that matters has been drawn. */
    predicate Drained() {
      closed && closedAt <= head
    }
  }

  /** alloc_mpq_block: an empty block, or one whose ticket 0 already holds `first`. */
  function AllocBlock(first: Value, size: nat, tid: Tid): Block {
    var nodes := seq(size, i requires 0 <= i < size => Node(true, i, if i == 0 then first else 0));
    if first == 0 then Block(size, 0, 0, false, nodes, 0, map[], {}, {}, [], map[])
    else Block(size, 0, 1, false, nodes, 0, map[0 := first], {}, {}, [], map[0 := tid])
  }

  // ----- mpq_block_pop and mpq_fix_state

  datatype PopAt =
    | Ticket
    | ReadVal(h: nat)
    | ReadIdx(h: nat, val: Value)
    | Cas(h: nat, val: Value, safe: bool, idx: nat)
    | ReadTail(h: nat)
    | FixTail
    | FixHead(t: nat, wasClosed: bool)
    | FixRecheck(t: nat, h: nat)
    | FixCas(t: nat, h: nat)
    | Got(h: nat, val: Value)
    | Null

  function Skip(b: Block, h: nat): Block {
    b.(skipped := b.skipped + {h})
  }

  function PopStep(b: Block, tid: Tid, at: PopAt): (Block, PopAt)
    requires b.Shaped() && !at.Got? && !at.Null?
  {
    match at
    case Ticket =>
      (b.(head := b.head + 1, popOwner := b.popOwner + [tid]), ReadVal(b.head))
    case ReadVal(h) =>
      (b, ReadIdx(h, b.At(h).val))
    case ReadIdx(h, val) =>
      var n := b.At(h);
      if n.idx > h then (Skip(b, h), ReadTail(h)) else (b, Cas(h, val, n.safe, n.idx))
    case Cas(h, val, safe, idx) =>
      if b.At(h) != Node(safe, idx, val) then (b, ReadVal(h))
      else if val == 0 then (Skip(b.Put(h, Node(safe, h + b.size, 0)), h), ReadTail(h))
      else if idx == h then (b.Put(h, Node(safe, idx + b.size, 0)).(taken := b.taken + {h}), Got(h, val))
      else (Skip(b.Put(h, Node(false, idx, val)), h), ReadTail(h))
    case ReadTail(h) =>
      (b, if b.tail <= h + 1 then FixTail else Ticket)
    case FixTail =>
      (b, FixHead(b.tail, b.closed))
    case FixHead(t, c) =>
      // the source compares unsigned, so a closed tail is above every head
      (b, if c || b.head <= t then Null else FixRecheck(t, b.head))
    case FixRecheck(t, h) =>
      (b, if b.closed || b.tail != t then FixTail else FixCas(t, h))
    case FixCas(t, h) =>
      if b.closed || b.tail != t then (b, FixTail) else (b.(tail := h), Null)
  }

  // ----- mpq_block_push

  datatype PushAt =
    | Draw(iters: nat)
    | LoadVal(iters: nat, t: nat)
    | LoadIdx(iters: nat, t: nat, found: Value)
    | LoadHead(iters: nat, t: nat, idx: nat)
    | Store(iters: nat, t: nat, safe: bool, idx: nat)
    | Full(iters: nat, t: nat)
    | Close
    | Stored(t: nat)
    | Refused

  function PushStep(b: Block, tid: Tid, v: Value, at: PushAt): (Block, PushAt)
    requires b.Shaped() && !at.Stored? && !at.Refused?
  {
    match at
    case Draw(n) =>
      var b1 := b.(tail := b.tail + 1);
      if b.closed then (b1, Refused) else (b1.(pushOwner := b.pushOwner[b.tail := tid]), LoadVal(n, b.tail))
    case LoadVal(n, t) =>
      (b, LoadIdx(n, t, b.At(t).val))
    case LoadIdx(n, t, found) =>
      var node := b.At(t);
      if found != 0 || node.idx > t then (b, Full(n, t))
      else if node.safe then (b, Store(n, t, true, node.idx))
      else (b, LoadHead(n, t, node.idx))
    case LoadHead(n, t, idx) =>
      (b, if b.head <= t then Store(n, t, false, idx) else Full(n, t))
    case Store(n, t, safe, idx) =>
      if b.At(t) != Node(safe, idx, 0) then (b, Full(n, t))
      else (b.Put(t, Node(true, t, v)).(placed := b.placed[t := v]), Stored(t))
    case Full(n, t) =>
      (b, if t - b.head >= b.size || n + 1 > MAX_PUSH_ITERATIONS then Close else Draw(n + 1))
    case Close =>
      (if b.closed then b else b.(closed := true, closedAt := b.tail), Refused)
  }

  // ----- the invariant of one block

  predicate Tickets(b: Block) {
    && (b.closed ==> b.closedAt <= b.tail)
    && |b.popOwner| == b.head
    && (forall t :: t in b.pushOwner ==> t < b.Limit())
    && (forall t :: t in b.placed ==> t in b.pushOwner && b.placed[t] != 0)
    && (forall t :: t in b.taken ==> t < b.head && t in b.placed)
    && (forall t :: t in b.skipped ==> t < b.head && t !in b.placed)
  }

  predicate NodeOk(b: Block, i: nat)
    requires b.Shaped() && i < b.size
  {
    var n := b.nodes[i];
    && Slot(n.idx, b.size) == i
    && (n.val != 0 ==> b.Live(n.idx) && b.placed[n.idx] == n.val)
  }

  /** No push with ticket `t` can ever settle on this node. */
  predicate Barred(n: Node, t: nat) {
    n.idx > t || !n.safe
  }

  /** The nodes hold exactly the live values, each in the node of its own ticket. */
  predicate Contents(b: Block)
    requires b.Shaped()
  {
    && (forall i :: 0 <= i < b.size ==> NodeOk(b, i))
    && (forall t :: t in b.placed && t !in b.taken ==> b.At(t).idx == t && b.At(t).val != 0)
    && (forall t :: t in b.skipped ==> Barred(b.At(t), t))
  }

  predicate BlockInv(b: Block) {
    b.Shaped() && Tickets(b) && Contents(b)
  }

  predicate HoldsPop(at: PopAt, h: nat) {
    (at.ReadVal? || at.ReadIdx? || at.Cas?) && at.h == h
  }

  /** The drawn pop ticket is still open. */
  predicate Open(b: Block, tid: Tid, h: nat) {
    h < |b.popOwner| && b.popOwner[h] == tid && h !in b.taken && h !in b.skipped
  }

  predicate PopOk(b: Block, tid: Tid, at: PopAt) {
    match at
    case ReadVal(h) => Open(b, tid, h)
    case ReadIdx(h, _) => Open(b, tid, h)
    case Cas(h, _, _, idx) => Open(b, tid, h) && idx <= h
    case ReadTail(h) => h < b.head
    case FixRecheck(t, h) => t < h <= b.head
    case FixCas(t, h) => t < h <= b.head
    case Got(h, val) => h < |b.popOwner| && b.popOwner[h] == tid && h in b.taken && h in b.placed && b.placed[h] == val != 0
    case _ => true
  }

  predicate HoldsPush(at: PushAt, t: nat) {
    (at.LoadVal? || at.LoadIdx? || at.LoadHead? || at.Store?) && at.t == t
  }

  /** The drawn push ticket is still open. */
  predicate Unsettled(b: Block, tid: Tid, t: nat) {
    t in b.pushOwner && b.pushOwner[t] == tid && t !in b.placed
  }

  /**
   * The head test of mpq_block_push on an unsafe node stays good for as long as the node
   * has not changed: every pop that gave up on this node had an earlier ticket.
   */
  predicate UnsafeFresh(b: Block, t: nat, idx: nat)
    requires b.Shaped()
  {
    b.At(t) == Node(false, idx, 0) ==>
      forall k :: k in b.skipped && Slot(k, b.size) == Slot(t, b.size) ==> k < t
  }

  predicate PushOk(b: Block, tid: Tid, at: PushAt)
    requires b.Shaped()
  {
    match at
    case LoadVal(_, t) => Unsettled(b, tid, t)
    case LoadIdx(_, t, _) => Unsettled(b, tid, t)
    case LoadHead(_, t, idx) => Unsettled(b, tid, t) && idx <= t && idx <= b.At(t).idx
    case Store(_, t, safe, idx) =>
      Unsettled(b, tid, t) && idx <= t && idx <= b.At(t).idx && (!safe ==> UnsafeFresh(b, t, idx))
    case Stored(t) => t in b.placed && t in b.pushOwner && b.pushOwner[t] == tid
    case Refused => b.closed
    case _ => true
  }

  // ----- what a step of thread `tid` does, seen from another thread

  /** A node only moves forward: it fills up or its index grows. */
  predicate NodeForward(n: Node, n': Node) {
    n' == n || (n'.idx >= n.idx && (n'.val != 0 || n'.idx > n.idx))
  }

  predicate CountersForward(b: Block, b': Block) {
    && b.Shaped() && b'.Shaped() && b'.size == b.size
    && b.head <= b'.head
    && b.Limit() <= b'.Limit()
    && (b.closed ==> b'.closed && b'.closedAt == b.closedAt)
  }

  predicate NodesForward(b: Block, b': Block)
    requires b.Shaped() && b'.Shaped() && b'.size == b.size
  {
    forall i :: 0 <= i < b.size ==> NodeForward(b.nodes[i], b'.nodes[i])
  }

  predicate SkippedBy(b': Block, tid: Tid, k: nat)
    requires b'.Shaped()
  {
    k < |b'.popOwner| && b'.popOwner[k] == tid && (b'.At(k).val != 0 || b'.At(k).idx > k)
  }

  predicate HistoryForward(b: Block, b': Block, tid: Tid)
    requires b'.Shaped()
  {
    && b.popOwner <= b'.popOwner
    && (forall t :: t in b.pushOwner ==> t in b'.pushOwner && b'.pushOwner[t] == b.pushOwner[t])
    && (forall t :: t in b.placed ==> t in b'.placed && b'.placed[t] == b.placed[t])
    && (forall t :: t in b'.placed && t !in b.placed ==> t in b'.pushOwner && b'.pushOwner[t] == tid)
    && b.taken <= b'.taken && b.skipped <= b'.skipped
    && (forall t :: t in b'.taken && t !in b.taken ==> t < |b'.popOwner| && b'.popOwner[t] == tid)
    && (forall t :: t in b'.skipped && t !in b.skipped ==> SkippedBy(b', tid, t))
  }

  predicate Forward(b: Block, b': Block, tid: Tid) {
    CountersForward(b, b') && NodesForward(b, b') && HistoryForward(b, b', tid)
  }

  lemma PopOkStable(b: Block, b': Block, tid: Tid, u: Tid, at: PopAt)
    requires Forward(b, b', tid) && u != tid && PopOk(b, u, at)
    ensures PopOk(b', u, at)
  {
  }

  lemma UnsafeFreshStable(b: Block, b': Block, tid: Tid, t: nat, idx: nat)
    requires Forward(b, b', tid) && UnsafeFresh(b, t, idx) && idx <= t && idx <= b.At(t).idx
    ensures UnsafeFresh(b', t, idx)
  {
    if b'.At(t) == Node(false, idx, 0) {
      assert NodeForward(b.nodes[Slot(t, b.size)], b'.nodes[Slot(t, b.size)]);
      forall k | k in b'.skipped && Slot(k, b.size) == Slot(t, b.size) ensures k < t {
        if k !in b.skipped { assert SkippedBy(b', tid, k); }
      }
    }
  }

  lemma PushOkStable(b: Block, b': Block, tid: Tid, u: Tid, at: PushAt)
    requires Forward(b, b', tid) && u != tid && PushOk(b, u, at)
    ensures PushOk(b', u, at)
  {
    if at.LoadHead? || at.Store? {
      assert NodeForward(b.nodes[Slot(at.t, b.size)], b'.nodes[Slot(at.t, b.size)]);
    }
    if at.Store? && !at.safe { UnsafeFreshStable(b, b', tid, at.t, at.idx); }
  }

  /** What a step of mpq_block_pop by `tid` must leave behind. */
  predicate PopDone(b: Block, tid: Tid, r: (Block, PopAt)) {
    match r case (b', at') => BlockInv(b') && PopOk(b', tid, at') && Forward(b, b', tid)
  }

  predicate PushDone(b: Block, tid: Tid, r: (Block, PushAt)) {
    match r case (b', at') => BlockInv(b') && PushOk(b', tid, at') && Forward(b, b', tid)
  }

  // ----- every step keeps the invariant

  lemma AllocOk(first: Value, size: nat, tid: Tid)
    requires 0 < size
    ensures BlockInv(AllocBlock(first, size, tid))
  {
    var b := AllocBlock(first, size, tid);
    forall i | 0 <= i < b.size ensures NodeOk(b, i) {}
  }

  lemma TakeOk(b: Block, tid: Tid, h: nat, safe: bool, val: Value)
    requires BlockInv(b) && Open(b, tid, h) && val != 0 && b.At(h) == Node(safe, h, val)
    ensures PopDone(b, tid, (b.Put(h, Node(safe, h + b.size, 0)).(taken := b.taken + {h}), Got(h, val)))
  {
    var b' := b.Put(h, Node(safe, h + b.size, 0)).(taken := b.taken + {h});
    assert NodeOk(b, Slot(h, b.size));
    assert Slot(h + b.size, b.size) == Slot(h, b.size);
    forall j | 0 <= j < b.size ensures NodeOk(b', j) { assert NodeOk(b, j); }
  }

  lemma MarkUnsafeOk(b: Block, tid: Tid, h: nat, safe: bool, idx: nat, val: Value)
    requires BlockInv(b) && Open(b, tid, h) && val != 0 && idx < h && b.At(h) == Node(safe, idx, val)
    ensures PopDone(b, tid, (Skip(b.Put(h, Node(false, idx, val)), h), ReadTail(h)))
  {
    var b' := Skip(b.Put(h, Node(false, idx, val)), h);
    assert NodeOk(b, Slot(h, b.size));
    forall j | 0 <= j < b.size ensures NodeOk(b', j) { assert NodeOk(b, j); }
  }

  lemma PassEmptyOk(b: Block, tid: Tid, h: nat, safe: bool, idx: nat)
    requires BlockInv(b) && Open(b, tid, h) && idx <= h && b.At(h) == Node(safe, idx, 0)
    ensures PopDone(b, tid, (Skip(b.Put(h, Node(safe, h + b.size, 0)), h), ReadTail(h)))
  {
    var b' := Skip(b.Put(h, Node(safe, h + b.size, 0)), h);
    assert Slot(h + b.size, b.size) == Slot(h, b.size);
    forall j | 0 <= j < b.size ensures NodeOk(b', j) { assert NodeOk(b, j); }
  }

  lemma PassLaterOk(b: Block, tid: Tid, h: nat)
    requires BlockInv(b) && Open(b, tid, h) && b.At(h).idx > h
    ensures BlockInv(Skip(b, h)) && Forward(b, Skip(b, h), tid)
  {
    forall j | 0 <= j < b.size ensures NodeOk(Skip(b, h), j) { assert NodeOk(b, j); }
  }

  lemma DrawPopOk(b: Block, tid: Tid)
    requires BlockInv(b)
    ensures var b' := b.(head := b.head + 1, popOwner := b.popOwner + [tid]);
            BlockInv(b') && Forward(b, b', tid) && Open(b', tid, b.head)
  {
    var b' := b.(head := b.head + 1, popOwner := b.popOwner + [tid]);
    forall j | 0 <= j < b.size ensures NodeOk(b', j) { assert NodeOk(b, j); }
  }

  /** The counters of the tail change; the nodes do not. */
  lemma TailOk(b: Block, b': Block, tid: Tid)
    requires BlockInv(b) && b' == b.(tail := b'.tail, closed := b'.closed, closedAt := b'.closedAt, pushOwner := b'.pushOwner)
    requires CountersForward(b, b') && Tickets(b')
    requires forall t :: t in b.pushOwner ==> t in b'.pushOwner && b'.pushOwner[t] == b.pushOwner[t]
    ensures BlockInv(b') && Forward(b, b', tid)
  {
    forall j | 0 <= j < b.size ensures NodeOk(b', j) { assert NodeOk(b, j); }
  }

  lemma StillOk(b: Block, tid: Tid)
    requires b.Shaped()
    ensures Forward(b, b, tid)
  {
  }

  lemma PopCasNullOk(b: Block, tid: Tid, at: PopAt)
    requires BlockInv(b) && PopOk(b, tid, at) && at.Cas? && at.val == 0
    ensures PopDone(b, tid, PopStep(b, tid, at))
  {
    if b.At(at.h) != Node(at.safe, at.idx, at.val) { StillOk(b, tid); }
    else { PassEmptyOk(b, tid, at.h, at.safe, at.idx); }
  }

  lemma PopCasValueOk(b: Block, tid: Tid, at: PopAt)
    requires BlockInv(b) && PopOk(b, tid, at) && at.Cas? && at.val != 0
    ensures PopDone(b, tid, PopStep(b, tid, at))
  {
    if b.At(at.h) != Node(at.safe, at.idx, at.val) { StillOk(b, tid); }
    else if at.idx == at.h { TakeOk(b, tid, at.h, at.safe, at.val); }
    else { MarkUnsafeOk(b, tid, at.h, at.safe, at.idx, at.val); }
  }

  lemma FixOk(b: Block, tid: Tid, at: PopAt)
    requires BlockInv(b) && PopOk(b, tid, at) && at.FixCas?
    ensures PopDone(b, tid, PopStep(b, tid, at))
  {
    if b.closed || b.tail != at.t { StillOk(b, tid); } else { TailOk(b, b.(tail := at.h), tid); }
  }

  lemma PopStepOk(b: Block, tid: Tid, at: PopAt)
    requires BlockInv(b) && PopOk(b, tid, at) && !at.Got? && !at.Null?
    ensures PopDone(b, tid, PopStep(b, tid, at))
  {
    StillOk(b, tid);
    match at
    case Ticket => DrawPopOk(b, tid);
    case ReadIdx(h, _) => if b.At(h).idx > h { PassLaterOk(b, tid, h); }
    case Cas(_, val, _, _) => if val == 0 { PopCasNullOk(b, tid, at); } else { PopCasValueOk(b, tid, at); }
    case FixCas(_, _) => FixOk(b, tid, at);
    case _ =>
  }

  /** The CAS of a push finds the node unchanged: no pop ever gave up on this ticket. */
  lemma StoreOk(b: Block, tid: Tid, v: Value, at: PushAt)
    requires BlockInv(b) && at.Store? && PushOk(b, tid, at) && v != 0 && b.At(at.t) == Node(at.safe, at.idx, 0)
    ensures PushDone(b, tid, PushStep(b, tid, v, at))
  {
    var (b', at') := PushStep(b, tid, v, at);
    assert at.t !in b.skipped;
    forall j | 0 <= j < b.size ensures NodeOk(b', j) { assert NodeOk(b, j); }
  }

  lemma PushStepOk(b: Block, tid: Tid, v: Value, at: PushAt)
    requires BlockInv(b) && PushOk(b, tid, at) && v != 0 && !at.Stored? && !at.Refused?
    ensures PushDone(b, tid, PushStep(b, tid, v, at))
  {
    var b' := PushStep(b, tid, v, at).0;
    StillOk(b, tid);
    match at
    case Draw(_) => TailOk(b, b', tid);
    case Close => TailOk(b, b', tid);
    case Store(_, t, safe, idx) => if b.At(t) == Node(safe, idx, 0) { StoreOk(b, tid, v, at); }
    case _ =>
  }
}
