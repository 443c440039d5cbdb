/**
 * The packed reference counter of a descriptor (src/net/net-connections.c): the low 32 bits of one
 * 64-bit word count references, the high bits count threads that are probing. One lifetime of a
 * descriptor: the owner holds one reference and drops it once, any number of threads call
 * connection_get_by_fd.
 */
module ConnRef {

  const HIGH: int := 0x1_0000_0000

  /** `owner` marks the owner's drop, which is its last action. */
  datatype Pc =
    | Idle
    | Gone                      // the owner has dropped its reference
    | FirstData                 // the low half was not zero; looks at `data` next
    | Probe
    | Unprobe
    | Convert
    | UseData
    | Drop(owner: bool)         // connection_event_incref (fd, -1)
    | ZeroRead(owner: bool)     // the word became zero
    | Clear(owner: bool)
    | Release(owner: bool)
    | Crashed                   // took a reference on a null `data`

  /** `released` counts job_decref calls on `data`; `lastDrop` and `lastProbers` record the word and the number of probers just after the latest drop. */
  datatype Cell = Cell(word: int, data: bool, released: nat, lastDrop: int, lastProbers: nat)

  datatype State = State(cell: Cell, threads: seq<Pc>)

  /** An open descriptor with its owner and `n` threads that may look it up. */
  function Init(n: nat): State {
    State(Cell(1, true, 0, 1, 0), [Drop(true)] + seq(n, _ => Idle))
  }

  function Low(word: int): nat {
    word % HIGH
  }

  function End(owner: bool): Pc {
    if owner then Gone else Idle
  }

  // ----- counting threads

  datatype Kind = Holder | Prober | Converter | Zeroing | Clearing

  predicate Is(k: Kind, pc: Pc) {
    match k
    case Holder => pc.UseData? || pc.Drop?
    case Prober => pc.Unprobe? || pc.Convert?
    case Converter => pc.Convert?
    case Zeroing => pc.ZeroRead? || pc.Clear? || pc.Release?
    case Clearing => pc.ZeroRead? || pc.Clear?
  }

  function Count(k: Kind, ts: seq<Pc>): nat {
    if |ts| == 0 then 0 else (if Is(k, ts[0]) then 1 else 0) + Count(k, ts[1..])
  }

  // ----- steps

  datatype Out = Out(cell: Cell, pc: Pc)

  /** One shared access; `probers` is only recorded. */
  function StepCell(c: Cell, probers: nat, pc: Pc): Out {
    var w := c.word;
    match pc
    case Idle => Out(c, if Low(w) == 0 then Idle else FirstData)
    case FirstData => Out(c, if c.data then Probe else Idle)
    case Probe => Out(c.(word := w + HIGH), if Low(w) != 0 then Convert else Unprobe)
    case Unprobe => Out(c.(word := w - HIGH), if Low(w) != 0 then Probe else Idle)
    case Convert => Out(c.(word := w + 1 - HIGH), UseData)
    case UseData => Out(c, if c.data then Drop(false) else Crashed)
    case Drop(o) => Out(c.(word := w - 1, lastDrop := w - 1, lastProbers := probers), if w - 1 == 0 then ZeroRead(o) else End(o))
    case ZeroRead(o) => Out(c, if c.data then Clear(o) else End(o))
    case Clear(o) => Out(c.(data := false), Release(o))
    case Release(o) => Out(c.(released := c.released + 1), End(o))
    case Gone => Out(c, Gone)
    case Crashed => Out(c, Crashed)
  }

  function Step(s: State, i: nat): State
    requires i < |s.threads|
  {
    var o := StepCell(s.cell, Count(Prober, s.threads), s.threads[i]);
    State(o.cell, s.threads[i := o.pc])
  }

  function Run(s: State, schedule: seq<nat>): State {
    if |schedule| == 0 then s
    else
      var r := Run(s, schedule[..|schedule| - 1]);
      var i := schedule[|schedule| - 1];
      if i < |r.threads| then Step(r, i) else r
  }
}
