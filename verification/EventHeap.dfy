/**
 * The event heap of src/net/net-events.c: a binary heap of descriptors in an array that starts at
 * index 1, with the position of every event kept in the event (`in_queue`, 0 when not queued).
 * An event is named by its descriptor; its priority and timestamp may change while it is queued.
 */
module HeapSpec {

  datatype Key = Key(prio: int, ts: int)

  /** `(int) x`. */
  function Int32(x: int): int {
    (x + 0x8000_0000) % 0x1_0000_0000 - 0x8000_0000
  }

  function GreaterEv(a: Key, b: Key): int {
    var x := Int32(a.prio - b.prio);
    if x != 0 then x else if a.ts > b.ts then 1 else 0
  }

  /** The intended order: by priority, then by time. */
  predicate Leq(a: Key, b: Key) {
    a.prio < b.prio || (a.prio == b.prio && a.ts <= b.ts)
  }

  /** The comparison is the intended order exactly when the priority difference fits an int. */
  lemma GreaterEvIsOrder(a: Key, b: Key)
    requires -0x8000_0000 <= a.prio < 0x8000_0000 && -0x8000_0000 <= b.prio < 0x8000_0000
    ensures (GreaterEv(a, b) > 0 <==> !Leq(a, b)) <==> Near(a, b)
  {
  }

  /** The difference of the priorities fits an int. */
  predicate Near(a: Key, b: Key) {
    -0x8000_0000 <= a.prio - b.prio < 0x8000_0000
  }

  lemma NearIsOrder(a: Key, b: Key)
    requires Near(a, b)
    ensures GreaterEv(a, b) > 0 <==> !Leq(a, b)
  {
  }

  /** Any two of the events have priorities whose difference fits an int. */
  predicate Comparable(key: seq<Key>, s: set<int>) {
    forall e, f :: e in s && f in s && 0 <= e < |key| && 0 <= f < |key| ==> Near(key[e], key[f])
  }

  // ----- shape: heap array and back-pointers

  /**
   * Positions 1..n other than `hole` hold events that point back at them; queued events are where
   * they say. `fly` is the event on its way to a new place (-1 when there is none).
   */
  predicate Shape(h: seq<int>, q: seq<int>, n: nat, hole: nat, fly: int) {
    && n < |h|
    && (forall k :: 1 <= k <= n && k != hole ==> 0 <= h[k] < |q| && q[h[k]] == k && h[k] != fly)
    && (forall e :: 0 <= e < |q| && e != fly ==> 0 <= q[e] <= n && q[e] < |h| && (q[e] != 0 ==> q[e] != hole && h[q[e]] == e))
  }

  function Queued(q: seq<int>): set<int> {
    set e | 0 <= e < |q| && q[e] != 0
  }

  /** A position that is in use has a queued event. */
  lemma HasEvent(h: seq<int>, q: seq<int>, n: nat, hole: nat, fly: int, j: nat)
    requires Shape(h, q, n, hole, fly) && 1 <= j <= n && j != hole
    ensures 0 <= h[j] < |q| && h[j] in Queued(q)
  {
  }

  // ----- order

  /** Every event is after its parent, edges at `hole` left out, with the hole's parent before the hole's children. */
  predicate Order(h: seq<int>, key: seq<Key>, n: nat, hole: nat) {
    && n < |h|
    && (forall k :: 1 <= k <= n && k != hole ==> 0 <= h[k] < |key|)
    && (forall k :: 2 <= k <= n && k != hole && k / 2 != hole ==> Leq(key[h[k / 2]], key[h[k]]))
    && (forall k :: 4 <= k <= n && k / 2 == hole ==> Leq(key[h[hole / 2]], key[h[k]]))
  }

  /** The event at the top is a minimum. */
  lemma {:induction false} TopIsMin(h: seq<int>, key: seq<Key>, n: nat, k: nat)
    requires Order(h, key, n, 0) && 1 <= k <= n
    ensures Leq(key[h[1]], key[h[k]])
  {
    if k > 1 { TopIsMin(h, key, n, k / 2); }
  }

  /** Whatever happens to one event's key, the others stay ordered around its position. */
  lemma KeyChange(h: seq<int>, key: seq<Key>, key': seq<Key>, n: nat, e: int, p: nat)
    requires Order(h, key, n, 0) && |key'| == |key| && 1 <= p <= n && h[p] == e
    requires forall k :: 1 <= k <= n && k != p ==> h[k] != e
    requires forall f :: 0 <= f < |key| && f != e ==> key'[f] == key[f]
    ensures Order(h, key', n, p)
  {
    forall k | 4 <= k <= n && k / 2 == p ensures Leq(key'[h[p / 2]], key'[h[k]]) {
      assert Leq(key[h[p / 2]], key[h[p]]) && Leq(key[h[k / 2]], key[h[k]]);
    }
  }

  // ----- moving an event into the hole

  lemma MoveShape(h: seq<int>, q: seq<int>, n: nat, hole: nat, fly: int, j: nat)
    requires Shape(h, q, n, hole, fly) && 1 <= hole <= n && 1 <= j <= n && j != hole
    ensures Shape(h[hole := h[j]], q[h[j] := hole], n, j, fly) && Queued(q[h[j] := hole]) == Queued(q)
  {
  }

  predicate SmallerChild(h: seq<int>, key: seq<Key>, n: nat, hole: nat, j: nat)
    requires Order(h, key, n, hole)
  {
    && 1 <= hole && (j == 2 * hole || j == 2 * hole + 1) && j <= n
    && Leq(key[h[j]], key[h[2 * hole]]) && (2 * hole < n ==> Leq(key[h[j]], key[h[2 * hole + 1]]))
  }

  /** Moving up the smaller child. */
  lemma SinkOrder(h: seq<int>, key: seq<Key>, n: nat, hole: nat, j: nat)
    requires Order(h, key, n, hole) && SmallerChild(h, key, n, hole, j)
    ensures Order(h[hole := h[j]], key, n, j)
  {
    var h' := h[hole := h[j]];
    assert j / 2 == hole;
    forall k | 2 <= k <= n && k != j && k / 2 != j ensures Leq(key[h'[k / 2]], key[h'[k]]) {
      if k == hole {
        assert Leq(key[h[hole / 2]], key[h[j]]);
      } else if k / 2 == hole {
        assert k == 2 * hole || k == 2 * hole + 1;
      }
    }
    SinkBypass(h, key, n, hole, j);
  }

  lemma SinkBypass(h: seq<int>, key: seq<Key>, n: nat, hole: nat, j: nat)
    requires Order(h, key, n, hole) && 1 <= hole < j <= n && j / 2 == hole
    ensures forall k :: 4 <= k <= n && k / 2 == j ==> Leq(key[h[j]], key[h[k]])
  {
    forall k | 4 <= k <= n && k / 2 == j ensures Leq(key[h[j]], key[h[k]]) {
      assert Leq(key[h[k / 2]], key[h[k]]);
    }
  }

  /** `e` may stand above everything below the hole. */
  predicate AboveHole(h: seq<int>, key: seq<Key>, n: nat, hole: nat, e: int)
    requires Order(h, key, n, hole) && 0 <= e < |key|
  {
    forall k :: 2 <= k <= n && k / 2 == hole ==> Leq(key[e], key[h[k]])
  }

  /** Moving down the parent of the hole when it is greater than `e`. */
  lemma RiseOrder(h: seq<int>, key: seq<Key>, n: nat, hole: nat)
    requires Order(h, key, n, hole) && 2 <= hole <= n
    ensures Order(h[hole := h[hole / 2]], key, n, hole / 2)
  {
    var j := hole / 2;
    var h' := h[hole := h[j]];
    forall k | 2 <= k <= n && k != j && k / 2 != j ensures Leq(key[h'[k / 2]], key[h'[k]]) {
      if k / 2 == hole { assert Leq(key[h[hole / 2]], key[h[k]]); }
    }
    forall k | 4 <= k <= n && k / 2 == j ensures Leq(key[h'[j / 2]], key[h'[k]]) {
      assert Leq(key[h[j / 2]], key[h[j]]);
      assert k != hole ==> Leq(key[h[k / 2]], key[h[k]]);
    }
  }

  lemma RiseAbove(h: seq<int>, key: seq<Key>, n: nat, hole: nat, e: int)
    requires Order(h, key, n, hole) && 2 <= hole <= n && 0 <= e < |key| && !Leq(key[h[hole / 2]], key[e])
    requires Order(h[hole := h[hole / 2]], key, n, hole / 2)
    ensures AboveHole(h[hole := h[hole / 2]], key, n, hole / 2, e)
  {
    forall k | 2 <= k <= n && k / 2 == hole / 2 && k != hole ensures Leq(key[e], key[h[k]]) {
      assert Leq(key[h[k / 2]], key[h[k]]);
    }
  }

  lemma AboveChildren(h: seq<int>, key: seq<Key>, n: nat, hole: nat, j: nat, e: int)
    requires Order(h, key, n, hole) && 1 <= hole && 0 <= e < |key|
    requires 2 * hole > n || (SmallerChild(h, key, n, hole, j) && Leq(key[e], key[h[j]]))
    ensures AboveHole(h, key, n, hole, e)
  {
    forall k | 2 <= k <= n && k / 2 == hole ensures Leq(key[e], key[h[k]]) {
      assert k == 2 * hole || k == 2 * hole + 1;
    }
  }

  /** `e` may stand below the parent of the hole. */
  predicate BelowParent(h: seq<int>, key: seq<Key>, n: nat, hole: nat, e: int)
    requires Order(h, key, n, hole) && hole <= n && 0 <= e < |key|
  {
    hole > 1 ==> Leq(key[h[hole / 2]], key[e])
  }

  /** No queued event is before the top. */
  lemma QueuedAfterTop(h: seq<int>, q: seq<int>, key: seq<Key>, n: nat, e: int)
    requires Shape(h, q, n, 0, -1) && Order(h, key, n, 0) && |q| == |key| && 0 <= e < |q| && q[e] != 0
    ensures n >= 1 && Leq(key[h[1]], key[e])
  {
    TopIsMin(h, key, n, q[e]);
  }

  lemma PlaceShape(h: seq<int>, q: seq<int>, n: nat, hole: nat, e: int)
    requires Shape(h, q, n, hole, e) && 1 <= hole <= n && 0 <= e < |q|
    ensures Shape(h[hole := e], q[e := hole], n, 0, -1) && Queued(q[e := hole]) == Queued(q) + {e}
  {
  }

  lemma PlaceOrder(h: seq<int>, key: seq<Key>, n: nat, hole: nat, e: int)
    requires Order(h, key, n, hole) && 1 <= hole <= n && 0 <= e < |key| && AboveHole(h, key, n, hole, e)
    requires BelowParent(h, key, n, hole, e)
    ensures Order(h[hole := e], key, n, 0)
  {
  }

  /** The array after the loop that carries `e` upwards from the hole `i`, whatever the keys are. */
  function Climb(h: seq<int>, key: seq<Key>, i: nat, e: int): (r: seq<int>)
    requires 1 <= i < |h| && 0 <= e < |key| && forall k :: 1 <= k < i ==> 0 <= h[k] < |key|
    ensures |r| == |h|
    decreases i
  {
    if i == 1 || GreaterEv(key[h[i / 2]], key[e]) <= 0 then h[i := e] else Climb(h[i := h[i / 2]], key, i / 2, e)
  }

  /** The second event stays below the first unless the comparison says that the first is greater. */
  lemma ClimbSecond(h: seq<int>, key: seq<Key>, e: int)
    requires 2 < |h| && 0 <= e < |key| && 0 <= h[1] < |key|
    ensures Climb(h, key, 2, e)[1] == if GreaterEv(key[h[1]], key[e]) <= 0 then h[1] else e
  {
    assert 2 / 2 == 1;
  }

  /** Taking an event out leaves a hole where it was. */
  lemma TakeShape(h: seq<int>, q: seq<int>, n: nat, e: int)
    requires Shape(h, q, n, 0, -1) && 0 <= e < |q| && q[e] != 0
    ensures Shape(h, q[e := 0], n, q[e], -1) && Queued(q[e := 0]) == Queued(q) - {e}
  {
    assert q[e] < |h| && h[q[e]] == e;
  }

  lemma TakeOrder(h: seq<int>, key: seq<Key>, n: nat, p: nat)
    requires Order(h, key, n, 0) && 1 <= p <= n
    ensures Order(h, key, n, p)
  {
    forall k | 4 <= k <= n && k / 2 == p ensures Leq(key[h[p / 2]], key[h[k]]) {
      assert Leq(key[h[p / 2]], key[h[p]]) && Leq(key[h[k / 2]], key[h[k]]);
    }
  }

  /** The last position, once it is the hole, can be given up. */
  lemma ShrinkShape(h: seq<int>, q: seq<int>, n: nat)
    requires Shape(h, q, n, n, -1) && n >= 1
    ensures Shape(h, q, n - 1, 0, -1)
  {
  }

  /** The event at the last position sets out for another place. */
  lemma FlyShape(h: seq<int>, q: seq<int>, n: nat, hole: nat)
    requires Shape(h, q, n, hole, -1) && 1 <= hole < n
    ensures 0 <= h[n] < |q| && Shape(h, q, n - 1, hole, h[n]) && Shape(h[n := -1], q, n - 1, hole, h[n])
    ensures Queued(q) + {h[n]} == Queued(q)
  {
  }

  lemma FlyOrder(h: seq<int>, key: seq<Key>, n: nat, hole: nat)
    requires Order(h, key, n, hole) && 1 <= hole <= n
    ensures Order(h, key, n - 1, hole) && Order(h[n := -1], key, n - 1, hole)
    ensures hole == n ==> Order(h, key, n - 1, 0)
  {
  }

  /** One more position: it is the hole, and the event that is not queued yet is on its way. */
  lemma GrowShape(h: seq<int>, q: seq<int>, n: nat, e: int)
    requires Shape(h, q, n, 0, -1) && n + 1 < |h| && 0 <= e < |q| && q[e] == 0
    ensures Shape(h, q, n + 1, n + 1, e)
  {
  }

  lemma GrowOrder(h: seq<int>, key: seq<Key>, n: nat)
    requires Order(h, key, n, 0) && n + 1 < |h|
    ensures Order(h, key, n + 1, n + 1)
  {
  }

  /** The events that are out of the heap are all zero: a heap that is full has no event left outside. */
  lemma {:induction false} Room(h: seq<int>, q: seq<int>, n: nat, e: int)
    requires Shape(h, q, n, 0, -1) && 0 <= e < |q| && q[e] == 0
    ensures n < |q|
  {
    var used := set k | 1 <= k <= n :: h[k];
    Images(h, q, n);
    assert used <= Below(|q|) - {e};
    Subset(used, Below(|q|) - {e});
  }

  lemma {:induction false} Images(h: seq<int>, q: seq<int>, n: nat)
    requires n < |h| && forall k :: 1 <= k <= n ==> 0 <= h[k] < |q| && q[h[k]] == k
    ensures |set k | 1 <= k <= n :: h[k]| == n
  {
    var all := set k | 1 <= k <= n :: h[k];
    if n == 0 {
      assert all == {};
    } else {
      var fewer := set k | 1 <= k <= n - 1 :: h[k];
      Images(h, q, n - 1);
      assert all == fewer + {h[n]};
      assert h[n] !in fewer;
    }
  }

  function Below(n: nat): (r: set<int>)
    ensures |r| == n && forall x :: x in r <==> 0 <= x < n
  {
    if n == 0 then {} else Below(n - 1) + {n - 1}
  }

  lemma Subset(a: set<int>, b: set<int>)
    requires a <= b
    ensures |a| <= |b|
  {
    assert b == a + (b - a);
  }
}

module EventHeap {
  import opened HeapSpec

  class Heap {
    const maxEvents: nat
    const heap: array<int>       // ev_heap; -1 for a null pointer
    const inQueue: array<int>
    const key: array<Key>
    var size: nat

    predicate Fits()
      reads this
    {
      heap.Length == maxEvents + 1 && inQueue.Length == maxEvents && key.Length == maxEvents && heap != inQueue && size <= maxEvents
    }

    /** Back-pointers are exact. This holds whatever the keys are. */
    predicate Valid()
      reads this, heap, inQueue
    {
      Fits() && Shape(heap[..], inQueue[..], size, 0, -1)
    }

    /** Heap order, by the intended order of the keys. */
    predicate Ordered()
      reads this, heap, key
    {
      Order(heap[..], key[..], size, 0)
    }

    /** Heap order, except that the key of `ev` may have been changed since it was queued. */
    predicate OrderedAround(ev: int)
      requires Valid() && 0 <= ev < maxEvents
      reads this, heap, inQueue, key
    {
      Order(heap[..], key[..], size, inQueue[ev])
    }

    constructor (maxEvents: nat, keys: array<Key>)
      requires keys.Length == maxEvents
      ensures Valid() && Ordered() && this.maxEvents == maxEvents && key == keys && fresh(heap) && fresh(inQueue)
      ensures size == 0 && Queued(inQueue[..]) == {}
    {
      this.maxEvents := maxEvents;
      heap := new int[maxEvents + 1](_ => -1);
      inQueue := new int[maxEvents](_ => 0);
      key := keys;
      size := 0;
    }

    // The methods below the interface carry two ghost arguments: the events `s` that are queued or on
    // their way, and whether the order is known (`good`): then the keys of `s` are comparable too.

    /** What is known about the keys: they are comparable, and in order around the hole. */
    ghost predicate Known(good: bool, s: set<int>, n: nat, hole: nat)
      reads this, heap, inQueue, key
    {
      && Queued(inQueue[..]) <= s
      && (good ==> Comparable(key[..], s) && Order(heap[..], key[..], n, hole))
    }

    /** What greater_ev answers about two events of `s`. */
    lemma Compare(good: bool, s: set<int>, e: int, f: int)
      requires key.Length == maxEvents && 0 <= e < maxEvents && 0 <= f < maxEvents && e in s && f in s
      requires good ==> Comparable(key[..], s)
      ensures good ==> (GreaterEv(key[e], key[f]) > 0 <==> !Leq(key[e], key[f]))
    {
      if good {
        assert Near(key[..][e], key[..][f]);
        NearIsOrder(key[e], key[f]);
      }
    }

    /** The loop that looks for the place of `ev` upwards from the hole, and puts it there. */
    method Place(ev: int, start: nat, ghost good: bool, ghost s: set<int>) returns (i: nat)
      requires Fits() && 0 <= ev < maxEvents && 1 <= start <= size && ev in s
      requires Shape(heap[..], inQueue[..], size, start, ev) && Known(good, s, size, start)
      requires good ==> AboveHole(heap[..], key[..], size, start, ev)
      modifies heap, inQueue
      ensures Valid() && inQueue[ev] == i && Queued(inQueue[..]) == old(Queued(inQueue[..])) + {ev}
      ensures good ==> Ordered()
      ensures heap[..] == Climb(old(heap[..]), key[..], start, ev)
    {
      i := start;
      while i > 1
        invariant 1 <= i <= size
        invariant Shape(heap[..], inQueue[..], size, i, ev) && Known(good, s, size, i)
        invariant good ==> AboveHole(heap[..], key[..], size, i, ev)
        invariant Queued(inQueue[..]) == old(Queued(inQueue[..]))
        invariant Climb(heap[..], key[..], i, ev) == Climb(old(heap[..]), key[..], start, ev)
      {
        var j := i / 2;
        var x := heap[j];
        assert heap[..][j] == x && x in Queued(inQueue[..]);
        Compare(good, s, x, ev);
        if GreaterEv(key[x], key[ev]) <= 0 { break; }
        Lower(ev, i, good, s);
        i := j;
      }
      Settle(ev, i, good, s);
    }

    /** The parent of the hole moves down. */
    method Lower(ev: int, i: nat, ghost good: bool, ghost s: set<int>)
      requires Fits() && 0 <= ev < maxEvents && 2 <= i <= size && ev in s
      requires Shape(heap[..], inQueue[..], size, i, ev) && Known(good, s, size, i)
      requires good ==> !Leq(key[heap[i / 2]], key[ev])
      modifies heap, inQueue
      ensures Shape(heap[..], inQueue[..], size, i / 2, ev) && Known(good, s, size, i / 2)
      ensures good ==> AboveHole(heap[..], key[..], size, i / 2, ev)
      ensures Queued(inQueue[..]) == old(Queued(inQueue[..])) && heap[..] == old(heap[..])[i := old(heap[i / 2])]
    {
      MoveShape(heap[..], inQueue[..], size, i, ev, i / 2);
      if good {
        RiseOrder(heap[..], key[..], size, i);
        RiseAbove(heap[..], key[..], size, i, ev);
      }
      Fill(heap[i / 2], i);
    }

    /** Puts the event on its way into the hole. */
    method Settle(ev: int, i: nat, ghost good: bool, ghost s: set<int>)
      requires Fits() && 0 <= ev < maxEvents && 1 <= i <= size
      requires Shape(heap[..], inQueue[..], size, i, ev) && Known(good, s, size, i)
      requires good ==> AboveHole(heap[..], key[..], size, i, ev) && BelowParent(heap[..], key[..], size, i, ev)
      modifies heap, inQueue
      ensures Valid() && inQueue[ev] == i && Queued(inQueue[..]) == old(Queued(inQueue[..])) + {ev}
      ensures good ==> Ordered()
      ensures heap[..] == old(heap[..])[i := ev]
    {
      PlaceShape(heap[..], inQueue[..], size, i, ev);
      if good { PlaceOrder(heap[..], key[..], size, i, ev); }
      Fill(ev, i);
    }

    /** `ev_heap[i] = x; x->in_queue = i`. */
    method Fill(x: int, i: nat)
      requires heap.Length == maxEvents + 1 && inQueue.Length == maxEvents && heap != inQueue
      requires 0 <= x < maxEvents && 1 <= i <= maxEvents
      modifies heap, inQueue
      ensures heap[..] == old(heap[..])[i := x] && inQueue[..] == old(inQueue[..])[x := i]
    {
      heap[i] := x;
      inQueue[x] := i;
    }

    /** The choice between the children of the hole, given that it has one. */
    method Choose(i: nat, fly: int, ghost good: bool, ghost s: set<int>) returns (j: nat)
      requires Fits() && 1 <= i && 2 * i <= size && Shape(heap[..], inQueue[..], size, i, fly) && Known(good, s, size, i)
      ensures (j == 2 * i || j == 2 * i + 1) && j <= size && 0 <= heap[j] < maxEvents && heap[j] in s
      ensures good ==> SmallerChild(heap[..], key[..], size, i, j)
    {
      j := 2 * i;
      HasEvent(heap[..], inQueue[..], size, i, fly, j);
      if j < size {
        HasEvent(heap[..], inQueue[..], size, i, fly, j + 1);
        Compare(good, s, heap[j], heap[j + 1]);
        if GreaterEv(key[heap[j]], key[heap[j + 1]]) > 0 { j := j + 1; }
      }
    }

    /** The chosen child moves up into the hole. */
    method Lift(i: nat, j: nat, fly: int, ghost good: bool, ghost s: set<int>)
      requires Fits() && 1 <= i < j <= size && Shape(heap[..], inQueue[..], size, i, fly) && Known(good, s, size, i)
      requires good ==> SmallerChild(heap[..], key[..], size, i, j)
      modifies heap, inQueue
      ensures Shape(heap[..], inQueue[..], size, j, fly) && Known(good, s, size, j)
      ensures Queued(inQueue[..]) == old(Queued(inQueue[..])) && heap[..] == old(heap[..])[i := old(heap[j])]
    {
      MoveShape(heap[..], inQueue[..], size, i, fly, j);
      if good { SinkOrder(heap[..], key[..], size, i, j); }
      Fill(heap[j], i);
    }

    /** The loop that lets the hole sink to a position without children. */
    method Sink(start: nat, ghost good: bool, ghost s: set<int>) returns (i: nat)
      requires Fits() && 1 <= start <= size
      requires Shape(heap[..], inQueue[..], size, start, -1) && Known(good, s, size, start)
      modifies heap, inQueue
      ensures start <= i <= size < 2 * i
      ensures Shape(heap[..], inQueue[..], size, i, -1) && Known(good, s, size, i)
      ensures Queued(inQueue[..]) == old(Queued(inQueue[..]))
    {
      i := start;
      while 2 * i <= size
        invariant start <= i <= size
        invariant Shape(heap[..], inQueue[..], size, i, -1) && Known(good, s, size, i)
        invariant Queued(inQueue[..]) == old(Queued(inQueue[..]))
        decreases size - i
      {
        var j := Choose(i, -1, good, s);
        Lift(i, j, -1, good, s);
        i := j;
      }
    }

    /** Takes a queued event out and lets the hole sink. */
    method TakeOut(ev: int, ghost good: bool, ghost s: set<int>) returns (i: nat)
      requires Valid() && 0 <= ev < maxEvents && inQueue[ev] != 0 && Queued(inQueue[..]) - {ev} <= s
      requires good ==> Comparable(key[..], s) && OrderedAround(ev)
      modifies heap, inQueue
      ensures Fits() && 1 <= i <= size < 2 * i && inQueue[ev] == 0
      ensures Shape(heap[..], inQueue[..], size, i, -1) && Known(good, s, size, i)
      ensures Queued(inQueue[..]) == old(Queued(inQueue[..])) - {ev}
    {
      i := inQueue[ev];
      TakeShape(heap[..], inQueue[..], size, ev);
      inQueue[ev] := 0;
      i := Sink(i, good, s);
      assert ev !in Queued(inQueue[..]);
    }

    /** Takes the event out of the last place `n`, which is then past the end. */
    method LiftLast(n: nat, i: nat) returns (last: int)
      requires Fits() && 1 <= i < n == size + 1 <= maxEvents && Shape(heap[..], inQueue[..], n, i, -1)
      modifies heap
      ensures heap[..] == old(heap[..])[n := -1] && last == old(heap[n]) && 0 <= last < maxEvents
      ensures Shape(heap[..], inQueue[..], size, i, last) && Queued(inQueue[..]) + {last} == Queued(inQueue[..])
    {
      FlyShape(heap[..], inQueue[..], n, i);
      last := heap[n];
      ghost var before := heap[..];
      heap[n] := -1;
      assert heap[..] == before[n := -1];
    }

    /** The last event, from place `n`, settles at or above the childless hole. */
    method MoveLast(n: nat, i: nat, ghost good: bool, ghost s: set<int>)
      requires Fits() && 1 <= i < n == size + 1 <= maxEvents && n < 2 * i
      requires Shape(heap[..], inQueue[..], n, i, -1) && Known(good, s, n, i)
      modifies heap, inQueue
      ensures Valid() && Queued(inQueue[..]) == old(Queued(inQueue[..]))
      ensures good ==> Ordered()
    {
      if good { FlyOrder(heap[..], key[..], n, i); }
      var last := LiftLast(n, i);
      assert last in Queued(inQueue[..]);
      if good { AboveChildren(heap[..], key[..], size, i, 0, last); }
      var at := Place(last, i, good, s);
    }

    /** Moves the last event into a childless hole. */
    method CloseHole(i: nat, ghost good: bool, ghost s: set<int>)
      requires Fits() && 1 <= i <= size < 2 * i
      requires Shape(heap[..], inQueue[..], size, i, -1) && Known(good, s, size, i)
      modifies this`size, heap, inQueue
      ensures Valid() && size == old(size) - 1 && Queued(inQueue[..]) == old(Queued(inQueue[..]))
      ensures good ==> Ordered()
    {
      var n := size;
      size := n - 1;
      if i < n {
        MoveLast(n, i, good, s);
      } else {
        ShrinkShape(heap[..], inQueue[..], n);
        if good { FlyOrder(heap[..], key[..], n, i); }
      }
    }

    /**
     * remove_event_from_heap: with `allowHole` it leaves a childless hole and returns it. The order
     * of the rest is kept if the rest is comparable.
     */
    method Remove(ev: int, allowHole: bool) returns (r: nat)
      requires Valid() && 0 <= ev < maxEvents
      modifies this`size, heap, inQueue
      ensures Fits() && inQueue[ev] == 0 && Queued(inQueue[..]) == old(Queued(inQueue[..])) - {ev}
      ensures r == 0 <==> old(inQueue[ev]) == 0
      ensures r == 0 ==> size == old(size) && heap[..] == old(heap[..]) && inQueue[..] == old(inQueue[..])
      ensures r != 0 && !allowHole ==> Valid() && size == old(size) - 1 && r == old(size)
      ensures r != 0 && !allowHole && old(OrderedAround(ev)) && Comparable(key[..], Queued(inQueue[..])) ==> Ordered()
      ensures r != 0 && allowHole ==>
                && size == old(size) && r <= size < 2 * r && Shape(heap[..], inQueue[..], size, r, -1)
                && (old(OrderedAround(ev)) && Comparable(key[..], Queued(inQueue[..])) ==> Order(heap[..], key[..], size, r))
    {
      if inQueue[ev] == 0 { return 0; }
      ghost var s := Queued(inQueue[..]) - {ev};
      ghost var good := OrderedAround(ev) && Comparable(key[..], s);
      if allowHole {
        r := LeaveHole(ev, good, s);
      } else {
        r := size;
        var i := TakeOut(ev, good, s);
        CloseHole(i, good, s);
        assert ev !in Queued(inQueue[..]);
      }
    }

    /** TakeOut, with a null pointer in the hole. */
    method LeaveHole(ev: int, ghost good: bool, ghost s: set<int>) returns (i: nat)
      requires Valid() && 0 <= ev < maxEvents && inQueue[ev] != 0 && Queued(inQueue[..]) - {ev} <= s
      requires good ==> Comparable(key[..], s) && OrderedAround(ev)
      modifies heap, inQueue
      ensures Fits() && 1 <= i <= size < 2 * i && inQueue[ev] == 0
      ensures Shape(heap[..], inQueue[..], size, i, -1) && Known(good, s, size, i)
      ensures Queued(inQueue[..]) == old(Queued(inQueue[..])) - {ev}
    {
      i := TakeOut(ev, good, s);
      heap[i] := -1;
    }

    /** The place from which `ev` starts: a childless hole, old or new. */
    method MakePlace(ev: int, ghost good: bool, ghost s: set<int>) returns (i: nat)
      requires Valid() && 0 <= ev < maxEvents && s == Queued(inQueue[..]) + {ev}
      requires good ==> Comparable(key[..], s) && OrderedAround(ev)
      modifies this`size, heap, inQueue
      ensures Fits() && 1 <= i <= size < 2 * i && Shape(heap[..], inQueue[..], size, i, ev) && Known(good, s, size, i)
      ensures size == old(size) + (if old(inQueue[ev]) == 0 then 1 else 0) && Queued(inQueue[..]) == old(Queued(inQueue[..])) - {ev}
      ensures old(inQueue[ev]) == 0 ==> i == size && heap[..] == old(heap[..])
    {
      if inQueue[ev] != 0 {
        ghost var rest := Queued(inQueue[..]) - {ev};
        assert good ==> Comparable(key[..], rest);
        i := Remove(ev, true);
      } else {
        Room(heap[..], inQueue[..], size, ev);
        GrowShape(heap[..], inQueue[..], size, ev);
        if good { GrowOrder(heap[..], key[..], size); }
        size := size + 1;
        i := size;
      }
    }

    /**
     * put_event_into_heap: queues `ev`, or moves it after its key was changed. It restores the order
     * if the queued events are comparable.
     */
    method Put(ev: int) returns (i: nat)
      requires Valid() && 0 <= ev < maxEvents
      modifies this`size, heap, inQueue
      ensures Valid() && inQueue[ev] == i && Queued(inQueue[..]) == old(Queued(inQueue[..])) + {ev}
      ensures size == old(size) + (if old(inQueue[ev]) == 0 then 1 else 0)
      ensures old(OrderedAround(ev)) && Comparable(key[..], Queued(inQueue[..])) ==> Ordered()
      ensures old(inQueue[ev]) == 0 ==> size < heap.Length && heap[..] == Climb(old(heap[..]), key[..], size, ev)
    {
      ghost var s := Queued(inQueue[..]) + {ev};
      ghost var good := OrderedAround(ev) && Comparable(key[..], s);
      i := MakePlace(ev, good, s);
      if good { AboveChildren(heap[..], key[..], size, i, 0, ev); }
      ghost var from, start, keys := heap[..], i, key[..];
      i := Place(ev, i, good, s);
      assert key[..] == keys && heap[..] == Climb(from, keys, start, ev);
    }

    /** The loop of pop_heap_head: the hole sinks until `x`, the last event, may stand in it. */
    method SinkFor(x: int, ghost good: bool, ghost s: set<int>) returns (i: nat)
      requires Fits() && 1 <= size && 0 <= x < maxEvents && x in s
      requires Shape(heap[..], inQueue[..], size, 1, x) && Known(good, s, size, 1)
      modifies heap, inQueue
      ensures 1 <= i <= size && Queued(inQueue[..]) == old(Queued(inQueue[..]))
      ensures Shape(heap[..], inQueue[..], size, i, x) && Known(good, s, size, i)
      ensures good ==> AboveHole(heap[..], key[..], size, i, x) && BelowParent(heap[..], key[..], size, i, x)
    {
      i := 1;
      while 2 * i <= size
        invariant 1 <= i <= size && Queued(inQueue[..]) == old(Queued(inQueue[..]))
        invariant Shape(heap[..], inQueue[..], size, i, x) && Known(good, s, size, i)
        invariant good ==> BelowParent(heap[..], key[..], size, i, x)
        decreases size - i
      {
        var j := Choose(i, x, good, s);
        Compare(good, s, x, heap[j]);
        if GreaterEv(key[x], key[heap[j]]) <= 0 {
          if good { AboveChildren(heap[..], key[..], size, i, j, x); }
          return;
        }
        Lift(i, j, x, good, s);
        i := j;
      }
      if good { AboveChildren(heap[..], key[..], size, i, 0, x); }
    }

    /** The event sinks from the hole at the top to its place. */
    method Replant(x: int, ghost good: bool, ghost s: set<int>)
      requires Fits() && 1 <= size && 0 <= x < maxEvents && x in s
      requires Shape(heap[..], inQueue[..], size, 1, x) && Known(good, s, size, 1)
      modifies heap, inQueue
      ensures Valid() && Queued(inQueue[..]) == old(Queued(inQueue[..])) + {x}
      ensures good ==> Ordered()
    {
      var i := SinkFor(x, good, s);
      Settle(x, i, good, s);
    }

    /** Closes the hole at the top with the last event. */
    method CloseTop(ghost good: bool, ghost s: set<int>)
      requires Fits() && 1 <= size && Shape(heap[..], inQueue[..], size, 1, -1) && Known(good, s, size, 1)
      modifies this`size, heap, inQueue
      ensures Valid() && size == old(size) - 1 && Queued(inQueue[..]) == old(Queued(inQueue[..]))
      ensures good ==> Ordered()
    {
      var n := size;
      size := n - 1;
      if good { FlyOrder(heap[..], key[..], n, 1); }
      if size == 0 {
        ShrinkShape(heap[..], inQueue[..], n);
        return;
      }
      var x := heap[n];
      FlyShape(heap[..], inQueue[..], n, 1);
      assert x in Queued(inQueue[..]);
      Replant(x, good, s);
    }

    /**
     * pop_heap_head: the event at the top, or -1 when there is none. From an ordered heap it is a
     * minimum; what stays is ordered if it is comparable.
     */
    method PopHead() returns (ev: int)
      requires Valid()
      modifies this`size, heap, inQueue
      ensures Valid() && (ev == -1 <==> old(size) == 0)
      ensures ev == -1 ==> size == 0 && inQueue[..] == old(inQueue[..])
      ensures ev != -1 ==>
                && ev == old(heap[1]) && ev in old(Queued(inQueue[..])) && Queued(inQueue[..]) == old(Queued(inQueue[..])) - {ev}
                && size == old(size) - 1 && 0 <= ev < maxEvents
                && (old(Ordered()) ==> forall e :: 0 <= e < maxEvents && e in old(Queued(inQueue[..])) ==> Leq(key[ev], key[e]))
      ensures old(Ordered()) && Comparable(key[..], Queued(inQueue[..])) ==> Ordered()
    {
      if size == 0 { return -1; }
      ev := heap[1];
      assert heap[..][1] == ev && inQueue[ev] == 1;
      ghost var s := Queued(inQueue[..]) - {ev};
      ghost var good := Ordered() && Comparable(key[..], s);
      if Ordered() { Least(ev); }
      TakeShape(heap[..], inQueue[..], size, ev);
      if good { TakeOrder(heap[..], key[..], size, 1); }
      inQueue[ev] := 0;
      CloseTop(good, s);
    }

    lemma Least(ev: int)
      requires Valid() && Ordered() && size >= 1 && heap[1] == ev && 0 <= ev < maxEvents
      ensures forall e :: 0 <= e < maxEvents && e in Queued(inQueue[..]) ==> Leq(key[ev], key[e])
    {
      forall e | 0 <= e < maxEvents && e in Queued(inQueue[..]) ensures Leq(key[ev], key[e]) {
        QueuedAfterTop(heap[..], inQueue[..], key[..], size, e);
      }
    }

    /** The program changes an event's priority and timestamp at will. */
    method SetKey(ev: int, k: Key)
      requires Valid() && 0 <= ev < maxEvents
      modifies key
      ensures Valid() && key[..] == old(key[..])[ev := k] && (old(Ordered()) ==> OrderedAround(ev))
    {
      ghost var before := key[..];
      key[ev] := k;
      if inQueue[ev] != 0 && Order(heap[..], before, size, 0) {
        KeyChange(heap[..], before, key[..], size, ev, inQueue[ev]);
      }
    }
  }

  /**
   * Two events put into an empty heap, in this order, whatever the keys of all events are: what is
   * popped is a minimum of the two exactly when the difference of their priorities fits an int.
   */
  method PopOfTwo(keys: array<Key>, e: int, f: int) returns (x: int)
    requires 0 <= e < keys.Length && 0 <= f < keys.Length && e != f
    requires -0x8000_0000 <= keys[e].prio < 0x8000_0000 && -0x8000_0000 <= keys[f].prio < 0x8000_0000
    ensures x == e || x == f
    ensures Leq(keys[x], keys[e]) && Leq(keys[x], keys[f]) <==> Near(keys[e], keys[f])
  {
    var h := new Heap(keys.Length, keys);
    ghost var empty := h.heap[..];
    var i := h.Put(e);
    assert h.heap[..] == empty[1 := e];
    ghost var one := h.heap[..];
    i := h.Put(f);
    ClimbSecond(one, h.key[..], f);
    x := h.PopHead();
    GreaterEvIsOrder(keys[e], keys[f]);
  }
}
