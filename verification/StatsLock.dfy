/**
 * The statistics of one worker (src/mtproto/mtproto-proxy-stats.c): the worker keeps two copies,
 * each guarded by a counter that is odd while the copy is being written; the master copies one of
 * them and accepts what it got when the counter has not moved.
 *
 * Every load and store of a field is a step of its own, and the master's block copy may read the
 * fields in any order. What the worker writes into a field is arbitrary (the live statistics at
 * that moment); a publication is the content of a copy at the end of update_local_stats_copy.
 */
module StatsLock {

  /** `published` is a history: entry k is the content of the copy when its counter reached 2 * k. */
  datatype Copy = Copy(cnt: nat, fields: seq<int>, published: seq<seq<int>>)

  datatype Writer = Rest | Begin(c: bool) | Fill(c: bool, k: nat)

  /** `F`, `s_cnt` and `W` of the reader's loop; `got` says which fields of `W` have been copied. */
  datatype Reader =
    | Pick1
    | Pick0
    | Copying(f: bool, cnt: nat, got: map<nat, int>)
    | Accepted(f: bool, cnt: nat, w: map<nat, int>)

  /** The copy at `WStats + 2 * i` is `zero`, the next one `one`. */
  datatype State = State(size: nat, zero: Copy, one: Copy, writer: Writer, reader: Reader)

  function Init(size: nat): State {
    var blank := seq(size, _ => 0);
    State(size, Copy(0, blank, [blank]), Copy(0, blank, [blank]), Rest, Pick1)
  }

  function At(s: State, c: bool): Copy {
    if c then s.one else s.zero
  }

  function Put(s: State, c: bool, b: Copy): State {
    if c then s.(one := b) else s.(zero := b)
  }

  /** What the writer does next; `v` is the value stored by a field update. */
  function Write(s: State, v: int): State {
    match s.writer
    case Rest => s.(writer := Begin(false))
    case Begin(c) =>
      var b := At(s, c);
      Put(s, c, b.(cnt := b.cnt + 1)).(writer := Fill(c, 0))
    case Fill(c, k) =>
      var b := At(s, c);
      if k < |b.fields| then Put(s, c, b.(fields := b.fields[k := v])).(writer := Fill(c, k + 1))
      else Put(s, c, b.(cnt := b.cnt + 1, published := b.published + [b.fields])).(writer := if c then Rest else Begin(true))
  }

  /** What the reader does next; `j` is the field its block copy reads, if it is there. */
  function Read(s: State, j: nat): State {
    match s.reader
    case Pick1 => s.(reader := if s.one.cnt % 2 == 0 then Copying(true, s.one.cnt, map[]) else Pick0)
    case Pick0 => s.(reader := if s.zero.cnt % 2 == 0 then Copying(false, s.zero.cnt, map[]) else Pick1)
    case Copying(f, cnt, got) =>
      var b := At(s, f);
      if j < |b.fields| && j !in got then s.(reader := Copying(f, cnt, got[j := b.fields[j]]))
      else if exists i :: 0 <= i < s.size && i !in got then s
      else s.(reader := if cnt == b.cnt then Accepted(f, cnt, got) else Pick1)
    case Accepted(_, _, _) => s.(reader := Pick1)
  }

  datatype Action = Writing(v: int) | Reading(j: nat)

  function Run(s: State, actions: seq<Action>): State {
    if |actions| == 0 then s
    else
      var r := Run(s, actions[..|actions| - 1]);
      match actions[|actions| - 1]
      case Writing(v) => Write(r, v)
      case Reading(j) => Read(r, j)
  }

  // ----- the invariant

  /** The writer is between the two increments of copy `c`. */
  predicate MidWrite(w: Writer, c: bool) {
    w.Fill? && w.c == c
  }

  predicate CopyOk(s: State, c: bool) {
    var b := At(s, c);
    && |b.fields| == s.size
    && (b.cnt % 2 == 1 <==> MidWrite(s.writer, c))
    && |b.published| == b.cnt / 2 + 1
    && (forall k :: 0 <= k < |b.published| ==> |b.published[k]| == s.size)
    && (b.cnt % 2 == 0 ==> b.fields == b.published[b.cnt / 2])
  }

  /** While the counter has not moved, what was copied agrees with the publication the counter names. */
  predicate ReaderOk(s: State)
    requires CopyOk(s, false) && CopyOk(s, true)
  {
    match s.reader
    case Copying(f, cnt, got) =>
      && cnt % 2 == 0 && cnt <= At(s, f).cnt
      && (cnt == At(s, f).cnt ==> forall j :: j in got ==> j < s.size && got[j] == At(s, f).fields[j])
    case Accepted(f, cnt, w) =>
      && cnt % 2 == 0 && cnt <= At(s, f).cnt
      && (forall j :: 0 <= j < s.size ==> j in w && w[j] == At(s, f).published[cnt / 2][j])
    case _ => true
  }

  predicate Inv(s: State) {
    CopyOk(s, false) && CopyOk(s, true) && ReaderOk(s)
  }

  lemma WriteCopies(s: State, v: int)
    requires CopyOk(s, false) && CopyOk(s, true)
    ensures CopyOk(Write(s, v), false) && CopyOk(Write(s, v), true)
  {
    if s.writer.Fill? { assert CopyOk(s, s.writer.c); }
  }

  /** A write to the copy being read moves its counter away, or happens when it already has moved. */
  lemma WriteReader(s: State, v: int)
    requires CopyOk(s, false) && CopyOk(s, true) && CopyOk(Write(s, v), false) && CopyOk(Write(s, v), true)
    requires ReaderOk(s)
    ensures ReaderOk(Write(s, v))
  {
  }

  lemma WriteInv(s: State, v: int)
    requires Inv(s)
    ensures Inv(Write(s, v))
  {
    WriteCopies(s, v);
    WriteReader(s, v);
  }

  lemma ReadInv(s: State, j: nat)
    requires Inv(s)
    ensures Inv(Read(s, j))
  {
  }

  lemma {:induction false} RunInv(size: nat, actions: seq<Action>)
    ensures Inv(Run(Init(size), actions))
  {
    if |actions| > 0 {
      RunInv(size, actions[..|actions| - 1]);
      var r := Run(Init(size), actions[..|actions| - 1]);
      match actions[|actions| - 1]
      case Writing(v) => WriteInv(r, v);
      case Reading(j) => ReadInv(r, j);
    }
  }

  // ----- what the reader gets

  /** Every accepted snapshot is, field by field, one publication of the copy it was taken from. */
  lemma SnapshotIsPublication(size: nat, actions: seq<Action>)
    requires Run(Init(size), actions).reader.Accepted?
    ensures var s := Run(Init(size), actions);
            exists k :: 0 <= k < |At(s, s.reader.f).published| && Agrees(s.reader.w, At(s, s.reader.f).published[k], size)
  {
    RunInv(size, actions);
    SizeFixed(size, actions);
    var s := Run(Init(size), actions);
    assert Agrees(s.reader.w, At(s, s.reader.f).published[s.reader.cnt / 2], size);
  }

  predicate Agrees(w: map<nat, int>, content: seq<int>, size: nat) {
    |content| == size && forall j :: 0 <= j < size ==> j in w && w[j] == content[j]
  }

  lemma {:induction false} SizeFixed(size: nat, actions: seq<Action>)
    ensures Run(Init(size), actions).size == size
  {
    if |actions| > 0 { SizeFixed(size, actions[..|actions| - 1]); }
  }

  /** The snapshot is the latest publication of its copy at the moment it is accepted. */
  lemma SnapshotIsLatest(size: nat, actions: seq<Action>, j: nat)
    requires Run(Init(size), actions).reader.Copying? && Read(Run(Init(size), actions), j).reader.Accepted?
    ensures var s := Run(Init(size), actions);
            var b := At(s, s.reader.f);
            |b.published| > 0 && Agrees(Read(s, j).reader.w, b.published[|b.published| - 1], size)
  {
    RunInv(size, actions);
    SizeFixed(size, actions);
    var s := Run(Init(size), actions);
    ReadInv(s, j);
  }

  /** The two copies are never both being written, so the reader's choice always has a copy to take. */
  lemma OneCopyReadable(size: nat, actions: seq<Action>)
    ensures var s := Run(Init(size), actions);
            s.zero.cnt % 2 == 0 || s.one.cnt % 2 == 0
  {
    RunInv(size, actions);
  }

  // ----- what is published is what was written

  /** The values of the writer's steps, in order. */
  function Written(actions: seq<Action>): seq<int> {
    if |actions| == 0 then []
    else
      var w, a := Written(actions[..|actions| - 1]), actions[|actions| - 1];
      if a.Writing? then w + [a.v] else w
  }

  /** The number of writer's steps before round k: a round is one step to begin and, for each copy, an increment, the fields and an increment. */
  function Start(size: nat, k: nat): nat {
    if k == 0 then 0 else Start(size, k - 1) + 1 + (size + 2) + (size + 2)
  }

  /** The step of round k that stores the first field of the copy. */
  function Place(size: nat, k: nat, c: bool): nat {
    Start(size, k) + 1 + (if c then size + 2 else 0) + 1
  }

  /** The steps of its round that the writer has done. */
  function Done(size: nat, w: Writer): nat {
    match w
    case Rest => 0
    case Begin(c) => 1 + (if c then size + 2 else 0)
    case Fill(c, k) => 1 + (if c then size + 2 else 0) + 1 + k
  }

  /** The fields are what was stored from step `at` on. */
  predicate Holds(ws: seq<int>, at: nat, fields: seq<int>, n: nat) {
    n <= |fields| && at + n <= |ws| && forall j :: 0 <= j < n ==> fields[j] == ws[at + j]
  }

  predicate CopyHolds(s: State, ws: seq<int>, c: bool) {
    forall k :: 0 <= k < |At(s, c).published| - 1 ==> Holds(ws, Place(s.size, k, c), At(s, c).published[k + 1], s.size)
  }

  /** `n` rounds are complete. */
  predicate Rounds(s: State, ws: seq<int>, n: nat) {
    && |s.one.published| == n + 1
    && |s.zero.published| == (if (s.writer.Begin? || s.writer.Fill?) && s.writer.c then n + 2 else n + 1)
    && |ws| == Start(s.size, n) + Done(s.size, s.writer)
    && CopyHolds(s, ws, false) && CopyHolds(s, ws, true)
    && (s.writer.Fill? ==> s.writer.k <= s.size && Holds(ws, Place(s.size, n, s.writer.c), At(s, s.writer.c).fields, s.writer.k))
  }

  lemma HoldsLonger(ws: seq<int>, v: int, at: nat, fields: seq<int>, n: nat)
    requires Holds(ws, at, fields, n)
    ensures Holds(ws + [v], at, fields, n)
  {
  }

  lemma CopyHoldsLonger(s: State, ws: seq<int>, v: int, c: bool)
    requires CopyHolds(s, ws, c)
    ensures CopyHolds(s, ws + [v], c)
  {
    forall k | 0 <= k < |At(s, c).published| - 1
      ensures Holds(ws + [v], Place(s.size, k, c), At(s, c).published[k + 1], s.size)
    {
      HoldsLonger(ws, v, Place(s.size, k, c), At(s, c).published[k + 1], s.size);
    }
  }

  /** One step of the writer. */
  lemma WriteRounds(s: State, ws: seq<int>, n: nat, v: int) returns (m: nat)
    requires CopyOk(s, false) && CopyOk(s, true) && Rounds(s, ws, n)
    ensures Rounds(Write(s, v), ws + [v], m)
  {
    CopyHoldsLonger(s, ws, v, false);
    CopyHoldsLonger(s, ws, v, true);
    m := if s.writer.Fill? && s.writer.c && s.writer.k >= s.size then n + 1 else n;
    if s.writer.Fill? { HoldsLonger(ws, v, Place(s.size, n, s.writer.c), At(s, s.writer.c).fields, s.writer.k); }
  }

  lemma ReadRounds(s: State, ws: seq<int>, n: nat, j: nat)
    requires Rounds(s, ws, n)
    ensures Rounds(Read(s, j), ws, n)
  {
    assert At(Read(s, j), false) == s.zero && At(Read(s, j), true) == s.one;
  }

  lemma {:induction false} RunRounds(size: nat, actions: seq<Action>) returns (n: nat)
    ensures Rounds(Run(Init(size), actions), Written(actions), n)
  {
    if |actions| == 0 {
      n := 0;
    } else {
      var p := actions[..|actions| - 1];
      n := RunRounds(size, p);
      RunInv(size, p);
      match actions[|actions| - 1]
      case Writing(v) => n := WriteRounds(Run(Init(size), p), Written(p), n, v);
      case Reading(j) => ReadRounds(Run(Init(size), p), Written(p), n, j);
    }
  }

  /** Publication k + 1 of each copy is, field by field, what round k of update_local_stats_copy stored into it. */
  lemma PublishedIsWritten(size: nat, actions: seq<Action>, c: bool, k: nat)
    requires k + 1 < |At(Run(Init(size), actions), c).published|
    ensures Holds(Written(actions), Place(size, k, c), At(Run(Init(size), actions), c).published[k + 1], size)
  {
    var n := RunRounds(size, actions);
    SizeFixed(size, actions);
  }

  // ----- a reader that is not overtaken gets its snapshot

  predicate OnlyReads(actions: seq<Action>) {
    forall i :: 0 <= i < |actions| ==> actions[i].Reading?
  }

  lemma {:induction false} RunFront(s: State, j: nat, rest: seq<Action>)
    ensures Run(s, [Reading(j)] + rest) == Run(Read(s, j), rest)
  {
    var all := [Reading(j)] + rest;
    if |rest| == 0 {
      assert all[..0] == [] && Run(s, all[..0]) == s;
    } else {
      assert all[..|all| - 1] == [Reading(j)] + rest[..|rest| - 1];
      RunFront(s, j, rest[..|rest| - 1]);
    }
  }

  /** The block copy from field n on, and the comparison after it. */
  lemma {:induction false} CopiesOn(s: State, n: nat) returns (steps: seq<Action>)
    requires Inv(s) && s.reader.Copying? && s.reader.cnt == At(s, s.reader.f).cnt && n <= s.size
    requires forall j :: j in s.reader.got <==> 0 <= j < n
    ensures OnlyReads(steps) && Run(s, steps).reader.Accepted?
    decreases s.size - n
  {
    var s' := Read(s, n);
    ReadInv(s, n);
    if n == s.size {
      steps := [Reading(n)];
      RunFront(s, n, []);
    } else {
      var rest := CopiesOn(s', n + 1);
      RunFront(s, n, rest);
      steps := [Reading(n)] + rest;
    }
  }

  /** From every reachable state in which the reader begins, its own steps end in an accepted snapshot if the writer pauses. */
  lemma ReaderAlone(size: nat, actions: seq<Action>) returns (steps: seq<Action>)
    requires Run(Init(size), actions).reader.Pick1?
    ensures OnlyReads(steps) && Run(Run(Init(size), actions), steps).reader.Accepted?
  {
    RunInv(size, actions);
    var s := Run(Init(size), actions);
    var s1 := Read(s, 0);
    ReadInv(s, 0);
    if s1.reader.Copying? {
      var rest := CopiesOn(s1, 0);
      RunFront(s, 0, rest);
      steps := [Reading(0)] + rest;
    } else {
      ReadInv(s1, 0);
      var rest := CopiesOn(Read(s1, 0), 0);
      RunFront(s1, 0, rest);
      RunFront(s, 0, [Reading(0)] + rest);
      steps := [Reading(0)] + ([Reading(0)] + rest);
    }
  }
}
