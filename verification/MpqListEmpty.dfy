/**
 * Why a consumer that won a permit never finds the queue empty: if every value were claimed,
 * each would be claimed by a different consumer holding a permit, and the one looking would
 * be one too many.
 */
module MpqListEmpty {
  import opened MpqBlock
  import opened MpqList
  import opened MpqListInv

  /** Seen from a block without successor, nothing can be left: all usable tickets are below the head. */
  lemma LastBlockClaimed(s: State, qb: nat)
    requires ListInv(s) && qb <= s.mqHead && qb + 1 == |s.blocks| && s.blocks[qb].Limit() <= s.blocks[qb].head
    ensures AllClaimed(s)
  {
    forall b | 0 <= b < |s.blocks| ensures Claimed(s.blocks[b]) {
      assert BlockInv(s.blocks[b]);
      if b < qb { assert s.blocks[b].Drained(); }
    }
  }

  /** Threads that hold an open pop ticket in one of the first `n` blocks. */
  function Workers(threads: map<Tid, Thread>, n: nat): set<Tid> {
    set u | u in threads && threads[u].InPop? && threads[u].qb < n && HasTicket(threads[u].pop)
  }

  predicate HasTicket(at: PopAt) {
    at.ReadVal? || at.ReadIdx? || at.Cas?
  }

  lemma {:induction false} ImageSize(l: set<nat>, w: set<Tid>, owner: seq<Tid>)
    requires forall t :: t in l ==> t < |owner| && owner[t] in w
    requires forall t, u :: t in l && u in l && owner[t] == owner[u] ==> t == u
    ensures |l| <= |w|
  {
    if l != {} {
      var t :| t in l;
      ImageSize(l - {t}, w - {owner[t]}, owner);
    }
  }

  /** The live tickets of one claimed block belong to as many different workers on that block. */
  lemma BlockWorkers(s: State, n: nat)
    requires ListInv(s) && Owners(s) && 0 < n <= |s.blocks| && Claimed(s.blocks[n - 1])
    ensures |s.blocks[n - 1].placed| - |s.blocks[n - 1].taken| <= |Workers(s.threads, n) - Workers(s.threads, n - 1)|
  {
    var b := s.blocks[n - 1];
    assert BlockInv(b);
    var l := b.placed.Keys - b.taken;
    assert b.taken <= b.placed.Keys;
    assert |l| == |b.placed| - |b.taken|;
    var w := Workers(s.threads, n) - Workers(s.threads, n - 1);
    forall t | t in l
      ensures t < |b.popOwner| && b.popOwner[t] in w && Popping(s.threads[b.popOwner[t]], n - 1, t)
    {
      assert OpenTicket(s.blocks[n - 1], t);
    }
    ImageSize(l, w, b.popOwner);
  }

  lemma {:induction false} LiveWorkers(s: State, n: nat)
    requires ListInv(s) && Owners(s) && AllClaimed(s) && n <= |s.blocks|
    ensures PlacedCount(s.blocks[..n]) - TakenCount(s.blocks[..n]) <= |Workers(s.threads, n)|
  {
    if n > 0 {
      LiveWorkers(s, n - 1);
      BlockWorkers(s, n);
      assert s.blocks[..n][..n - 1] == s.blocks[..n - 1];
      var a, c := Workers(s.threads, n - 1), Workers(s.threads, n);
      assert a <= c;
      assert |c| == |a| + |c - a| by { assert c == a + (c - a); }
    }
  }

  /** A consumer with a permit and no open ticket is looking at a queue with an unclaimed value. */
  lemma PermitMeansValue(s: State, tid: Tid)
    requires ListInv(s) && Owners(s) && Counts(s) && s.sem
    requires tid in s.threads && Holder(s.threads[tid]) && !(s.threads[tid].InPop? && HasTicket(s.threads[tid].pop))
    ensures !AllClaimed(s)
  {
    if AllClaimed(s) {
      var n := |s.blocks|;
      LiveWorkers(s, n);
      assert s.blocks[..n] == s.blocks;
      var w, h := Workers(s.threads, n), Holders(s.threads);
      assert w <= h - {tid};
      Smaller(w, h - {tid});
      assert false;
    }
  }

  lemma {:induction false} Smaller(a: set<Tid>, b: set<Tid>)
    requires a <= b
    ensures |a| <= |b|
  {
    assert b == a + (b - a);
  }
}
