/** InFlight (android/.../UnlockFlow.kt): bind and cancel of a dial. */
module InFlight {
  // The cancel function of a dial is bound on an IO thread, and Cancel may be pressed on
  // the main thread at any time. Both fields are volatile, so a run is an interleaving of
  // single reads and writes.

  /** How far each of the two calls is; Calling: it has read what tells it to
      call the function. */
  datatype Pc = Before | Wrote | Calling | Done

  datatype Race = Race(bind: Pc, cancel: Pc, target: bool, cancelled: bool, calls: nat)

  datatype Thread = Binder | Canceller

  const BEGUN := Race(Before, Before, false, false, 0)

  function Next(r: Race, t: Thread): Race {
    match t
    case Binder => (
      match r.bind
      case Before => r.(bind := Wrote, target := true)
      case Wrote => r.(bind := if r.cancelled then Calling else Done)
      case Calling => r.(bind := Done, calls := r.calls + 1)
      case Done => r)
    case Canceller => (
      match r.cancel
      case Before => r.(cancel := Wrote, cancelled := true)
      case Wrote => r.(cancel := if r.target then Calling else Done)
      case Calling => r.(cancel := Done, calls := r.calls + 1)
      case Done => r)
  }

  function Run(r: Race, ts: seq<Thread>): Race
    decreases |ts|
  {
    if ts == [] then r else Run(Next(r, ts[0]), ts[1..])
  }

  function Owed(pc: Pc): nat {
    if pc.Calling? then 1 else 0
  }

  /** Whoever wrote second has read the other's write: so once both have read, one
      at least has called or is about to. */
  predicate Inv(r: Race) {
    && r.target == !r.bind.Before? && r.cancelled == !r.cancel.Before?
    && ((r.bind.Calling? || r.bind.Done?) && (r.cancel.Calling? || r.cancel.Done?) ==> r.calls + Owed(r.bind) + Owed(r.cancel) >= 1)
    && (r.bind.Done? && r.cancel.Before? ==> r.calls == 0)
    && (r.cancel.Done? && r.bind.Before? ==> r.calls == 0)
    && (r.bind.Done? && r.cancel.Wrote? && !r.target ==> r.calls >= 1)
    && r.calls <= (if r.bind.Done? then 1 else 0) + (if r.cancel.Done? then 1 else 0)
    && ((r.bind.Calling? || r.cancel.Calling?) ==> r.target && r.cancelled)
  }

  lemma {:induction false} RunKeeps(r: Race, ts: seq<Thread>)
    requires Inv(r)
    ensures Inv(Run(r, ts))
    decreases |ts|
  {
    if ts != [] {
      assert Inv(Next(r, ts[0]));
      RunKeeps(Next(r, ts[0]), ts[1..]);
    }
  }

  /** With bind and cancel in any order, interleaved in any way, the dial is
      cancelled at least once, and at most once by each of the two. */
  lemma CancelledAtLeastOnce(ts: seq<Thread>)
    ensures var r := Run(BEGUN, ts);
      && (r.bind.Done? && r.cancel.Done? ==> 1 <= r.calls <= 2)
      && (r.bind.Before? || r.cancel.Before? ==> r.calls == 0)
  {
    RunKeeps(BEGUN, ts);
  }
}
