/**
 * The per-country (and per-region) counters of src/mtproto/ip-stats.c under concurrent connects and
 * disconnects: `active_conns` of an address, `unique_ips` of its group. Every access to a counter is
 * a step of its own, for any number of connections; every disconnect follows the connect of its own
 * connection. Finding or creating the group's entry is one step: GroupTable has its shared accesses,
 * and GroupAtomic shows that every run of them is a run in which each call takes effect in one step.
 *
 * A slot of the address table stands for its address. The group of a slot is its country, or its
 * region where one is tracked; None when it has none.
 */
module IpCounters {

  datatype Option<T> = None | Some(value: T)

  /** Where a connection is between ip_stats_connect and ip_stats_disconnect. */
  datatype Pc =
    | New
    | Added(first: bool)                // has incremented active_conns; first: it was 0
    | Seated(first: bool, found: bool)  // has looked for the entry of its group
    | Live                              // ip_stats_connect has returned
    | Removed(last: bool)               // has decremented active_conns; last: it was 1
    | Sought(found: bool)               // has looked for the entry of its group
    | Checked                           // has seen unique_ips > 0
    | Gone

  datatype Token = Token(slot: nat, pc: Pc)

  /**
   * `active` per slot, `unique` per tracked group. `pend` is a history: a connection has made the slot
   * active and not yet counted it. `dropped` counts decrements that the guard suppressed.
   */
  datatype State = State(active: seq<int>, pend: seq<bool>, unique: map<int, int>, tokens: seq<Token>, dropped: nat)

  /** The fixed data: the group of each slot and the size of the group table. */
  datatype World = World(group: seq<Option<int>>, cap: nat)

  function Init(w: World, slots: seq<nat>): State {
    var n := |w.group|;
    State(seq(n, _ => 0), seq(n, _ => false), map[], seq(|slots|, i requires 0 <= i < |slots| => Token(slots[i], New)), 0)
  }

  /** country_find_or_create, region_find_or_create: the table with the group in it, if there is room. */
  function FindOrCreate(w: World, unique: map<int, int>, g: Option<int>): map<int, int> {
    if g.Some? && g.value !in unique && |unique| < w.cap then unique[g.value := 0] else unique
  }

  function GroupOf(w: World, slot: nat): Option<int>
    requires slot < |w.group|
  {
    w.group[slot]
  }

  function Value(unique: map<int, int>, g: int): int {
    if g in unique then unique[g] else 0
  }

  predicate Shaped(w: World, s: State) {
    && |s.active| == |s.pend| == |w.group|
    && forall t :: 0 <= t < |s.tokens| ==> s.tokens[t].slot < |w.group|
  }

  function Put(s: State, t: nat, pc: Pc): State
    requires t < |s.tokens|
  {
    s.(tokens := s.tokens[t := s.tokens[t].(pc := pc)])
  }

  /** The next shared access of connection t. */
  function Step(w: World, s: State, t: nat): (r: State)
    requires Shaped(w, s) && t < |s.tokens|
    ensures Shaped(w, r)
  {
    var i := s.tokens[t].slot;
    var g := GroupOf(w, i);
    match s.tokens[t].pc
    case New =>
      var first := s.active[i] == 0;
      Put(s.(active := s.active[i := s.active[i] + 1], pend := s.pend[i := s.pend[i] || first]), t, Added(first))
    case Added(first) =>
      var u := FindOrCreate(w, s.unique, g);
      Put(s.(unique := u), t, Seated(first, g.Some? && g.value in u))
    case Seated(first, found) =>
      if !first then Put(s, t, Live)
      else
        var u := if found && g.Some? then s.unique[g.value := Value(s.unique, g.value) + 1] else s.unique;
        Put(s.(unique := u, pend := s.pend[i := false]), t, Live)
    case Live =>
      Put(s.(active := s.active[i := s.active[i] - 1]), t, Removed(s.active[i] == 1))
    case Removed(last) =>
      if !last then Put(s, t, Gone)
      else
        var u := FindOrCreate(w, s.unique, g);
        Put(s.(unique := u), t, Sought(g.Some? && g.value in u))
    case Sought(found) =>
      if !found || g.None? then Put(s, t, Gone)
      else if Value(s.unique, g.value) > 0 then Put(s, t, Checked)
      else Put(s.(dropped := s.dropped + 1), t, Gone)
    case Checked =>
      if g.Some? && g.value in s.unique then Put(s.(unique := s.unique[g.value := s.unique[g.value] - 1]), t, Gone)
      else Put(s, t, Gone)
    case Gone => s
  }

  function Run(w: World, s: State, schedule: seq<nat>): (r: State)
    requires Shaped(w, s)
    ensures Shaped(w, r)
  {
    if |schedule| == 0 then s
    else
      var r := Run(w, s, schedule[..|schedule| - 1]);
      var t := schedule[|schedule| - 1];
      if t < |r.tokens| then Step(w, r, t) else r
  }

  // ----- counting

  /** Connections that keep slot i active. */
  function Users(i: nat, ts: seq<Token>): nat {
    if |ts| == 0 then 0 else (if Uses(ts[0], i) then 1 else 0) + Users(i, ts[1..])
  }

  predicate Uses(t: Token, i: nat) {
    t.slot == i && (t.pc.Added? || t.pc.Seated? || t.pc.Live?)
  }

  /** Decrements of group g on their way. */
  function Leaving(w: World, g: int, ts: seq<Token>): nat {
    if |ts| == 0 then 0 else (if Leaves(w, ts[0], g) then 1 else 0) + Leaving(w, g, ts[1..])
  }

  predicate Leaves(w: World, t: Token, g: int) {
    t.slot < |w.group| && w.group[t.slot] == Some(g) && (t.pc.Checked? || t.pc.Sought? || (t.pc.Removed? && t.pc.last))
  }

  /** Slots of group g that are active and counted. */
  function Counted(w: World, g: int, active: seq<int>, pend: seq<bool>, n: nat): int
    requires n <= |active| == |pend| == |w.group|
  {
    if n == 0 then 0 else Counted(w, g, active, pend, n - 1) + Share(w, g, active, pend, n - 1)
  }

  function Share(w: World, g: int, active: seq<int>, pend: seq<bool>, i: nat): int
    requires i < |active| == |pend| == |w.group|
  {
    if w.group[i] != Some(g) then 0 else (if active[i] > 0 then 1 else 0) - (if pend[i] then 1 else 0)
  }

  lemma {:induction false} UsersUpdate(i: nat, ts: seq<Token>, t: nat, x: Token)
    requires t < |ts|
    ensures Users(i, ts[t := x]) == Users(i, ts) - (if Uses(ts[t], i) then 1 else 0) + (if Uses(x, i) then 1 else 0)
  {
    if t == 0 {
      assert ts[t := x][1..] == ts[1..];
    } else {
      assert ts[t := x][1..] == ts[1..][t - 1 := x];
      UsersUpdate(i, ts[1..], t - 1, x);
    }
  }

  lemma {:induction false} LeavingUpdate(w: World, g: int, ts: seq<Token>, t: nat, x: Token)
    requires t < |ts|
    ensures Leaving(w, g, ts[t := x]) == Leaving(w, g, ts) - (if Leaves(w, ts[t], g) then 1 else 0) + (if Leaves(w, x, g) then 1 else 0)
  {
    if t == 0 {
      assert ts[t := x][1..] == ts[1..];
    } else {
      assert ts[t := x][1..] == ts[1..][t - 1 := x];
      LeavingUpdate(w, g, ts[1..], t - 1, x);
    }
  }

  lemma {:induction false} CountedUpdate(w: World, g: int, active: seq<int>, pend: seq<bool>, active': seq<int>, pend': seq<bool>, i: nat, n: nat)
    requires n <= |active| == |pend| == |w.group| == |active'| == |pend'| && i < |active|
    requires forall j :: 0 <= j < |active| && j != i ==> active'[j] == active[j] && pend'[j] == pend[j]
    ensures Counted(w, g, active', pend', n) ==
            Counted(w, g, active, pend, n) + (if i < n then Share(w, g, active', pend', i) - Share(w, g, active, pend, i) else 0)
  {
    if n > 0 { CountedUpdate(w, g, active, pend, active', pend', i, n - 1); }
  }

  lemma {:induction false} UsersMember(i: nat, ts: seq<Token>, t: nat)
    requires t < |ts| && Uses(ts[t], i)
    ensures Users(i, ts) > 0
  {
    if t > 0 { UsersMember(i, ts[1..], t - 1); }
  }

  lemma {:induction false} LeavingMember(w: World, g: int, ts: seq<Token>, t: nat)
    requires t < |ts| && Leaves(w, ts[t], g)
    ensures Leaving(w, g, ts) > 0
  {
    if t > 0 { LeavingMember(w, g, ts[1..], t - 1); }
  }

  lemma {:induction false} CountedPositive(w: World, g: int, active: seq<int>, pend: seq<bool>, n: nat)
    requires n <= |active| == |pend| == |w.group| && forall i :: 0 <= i < |active| && pend[i] ==> active[i] > 0
    ensures Counted(w, g, active, pend, n) >= 0
  {
    if n > 0 { CountedPositive(w, g, active, pend, n - 1); }
  }
}
