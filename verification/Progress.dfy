/** Calls that come to an end: a step function, and a rank that every step lowers. */
module Progress {

  /** The state after k steps. */
  function After<T>(f: T -> T, s: T, k: nat): T
    decreases k
  {
    if k == 0 then s else After(f, f(s), k - 1)
  }

  /** Every step from inside a call ends it, or leaves it with a lower rank. */
  ghost predicate Descends<T(!new)>(f: T -> T, inside: T -> bool, ended: T -> bool, rank: T -> nat) {
    forall s {:trigger f(s)} :: inside(s) ==> rank(s) > 0 && (ended(f(s)) || (inside(f(s)) && rank(f(s)) < rank(s)))
  }

  /** Then a call ends within as many steps as its rank. */
  lemma {:induction false} Ends<T(!new)>(f: T -> T, inside: T -> bool, ended: T -> bool, rank: T -> nat, s: T) returns (k: nat)
    requires Descends(f, inside, ended, rank) && inside(s)
    ensures 0 < k <= rank(s) && ended(After(f, s, k))
    decreases rank(s)
  {
    if ended(f(s)) {
      assert After(f, s, 1) == After(f, f(s), 0);
      k := 1;
    } else {
      k := Ends(f, inside, ended, rank, f(s));
      assert After(f, s, k + 1) == After(f, f(s), k);
      k := k + 1;
    }
  }

  lemma {:induction false} AfterSum<T>(f: T -> T, s: T, a: nat, b: nat)
    ensures After(f, s, a + b) == After(f, After(f, s, a), b)
    decreases a
  {
    if a > 0 { AfterSum(f, f(s), a - 1, b); }
  }

  lemma Joined<T>(f: T -> T, s: T, a: nat, t: T, b: nat, u: T, k: nat)
    requires After(f, s, a) == t && After(f, t, b) == u && k == a + b
    ensures After(f, s, k) == u
  {
    AfterSum(f, s, a, b);
  }

  lemma Two<T>(f: T -> T, s0: T, s1: T, s2: T)
    requires s1 == f(s0) && s2 == f(s1)
    ensures After(f, s0, 2) == s2
  {
    assert After(f, s0, 2) == After(f, s1, 1) == After(f, s2, 0);
  }

  lemma Three<T>(f: T -> T, s0: T, s1: T, s2: T, s3: T)
    requires s1 == f(s0) && s2 == f(s1) && s3 == f(s2)
    ensures After(f, s0, 3) == s3
  {
    assert After(f, s0, 3) == After(f, s1, 2) == After(f, s2, 1) == After(f, s3, 0);
  }

  lemma Four<T>(f: T -> T, s0: T, s1: T, s2: T, s3: T, s4: T)
    requires s1 == f(s0) && s2 == f(s1) && s3 == f(s2) && s4 == f(s3)
    ensures After(f, s0, 4) == s4
  {
    assert After(f, s0, 4) == After(f, s1, 3) == After(f, s2, 2) == After(f, s3, 1) == After(f, s4, 0);
  }

  lemma Five<T>(f: T -> T, s0: T, s1: T, s2: T, s3: T, s4: T, s5: T)
    requires s1 == f(s0) && s2 == f(s1) && s3 == f(s2) && s4 == f(s3) && s5 == f(s4)
    ensures After(f, s0, 5) == s5
  {
    assert After(f, s0, 5) == After(f, s1, 4) == After(f, s2, 3) == After(f, s3, 2) == After(f, s4, 1) == After(f, s5, 0);
  }
}
