/** Staying findable. */
module Announce {
  import opened Basics

  // The announce loop (mrcore/transport/syncthing_relay.go) against what a phone
  // makes of the record (machine_status.go). Times are in milliseconds.

  const WAITING_RECORD_MAX_AGE := 150_000
  const DEFAULT_ANNOUNCE_REFRESH := 60_000
  const DEFAULT_ANNOUNCE_INTERVAL := 2_000

  // ---- what discovery says ----

  datatype State = WAITING | STALE | ABSENT

  datatype MachineStatus = MachineStatus(state: State, age: int)

  /** StatusOf; a record without a usable timestamp has none. */
  function StatusOf(found: bool, seen: Option<int>, now: int): MachineStatus {
    if !found then MachineStatus(ABSENT, -1)
    else if seen.None? then MachineStatus(STALE, -1)
    else
      var age := if now - seen.value < 0 then 0 else now - seen.value;
      MachineStatus(if age <= WAITING_RECORD_MAX_AGE then WAITING else STALE, age)
  }

  // ---- the loop ----

  /** The loop's two variables; lastAt is unset before the first success. */
  datatype Announced = Announced(last: seq<string>, lastAt: Option<int>)

  /** One pass: what there is to announce, when that is looked at, and, should it
      announce, when the server takes the record in, when the call returns and
      whether it succeeds. */
  datatype Pass = Pass(addrs: seq<string>, now: int, seen: int, finished: int, ok: bool)

  predicate Due(s: Announced, p: Pass, refresh: int) {
    p.addrs != [] && (p.addrs != s.last || s.lastAt.None? || p.now - s.lastAt.value >= refresh)
  }

  function AfterPass(s: Announced, p: Pass, refresh: int): Announced {
    if Due(s, p, refresh) && p.ok then Announced(p.addrs, Some(p.finished)) else s
  }

  function AfterPasses(s: Announced, ps: seq<Pass>, refresh: int): Announced
    decreases |ps|
  {
    if ps == [] then s else AfterPasses(AfterPass(s, ps[0], refresh), ps[1..], refresh)
  }

  lemma {:induction false} OneMorePass(s: Announced, ps: seq<Pass>, p: Pass, refresh: int)
    ensures AfterPasses(s, ps + [p], refresh) == AfterPass(AfterPasses(s, ps, refresh), p, refresh)
    decreases |ps|
  {
    if ps == [] {
      assert [p][1..] == [];
    } else {
      assert (ps + [p])[1..] == ps[1..] + [p];
      OneMorePass(AfterPass(s, ps[0], refresh), ps[1..], p, refresh);
    }
  }

  /** After a pass its address, if any, is the published one and young, or its
      announcement was due and failed in this pass. */
  predicate UpToDate(before: Announced, s: Announced, p: Pass, refresh: int) {
    p.addrs == [] || (Due(before, p, refresh) && !p.ok)
    || (s.last == p.addrs && s.lastAt.Some? && p.now - s.lastAt.value < refresh)
  }

  /** These addresses were announced less than a refresh ago. */
  predicate Young(s: Announced, p: Pass, refresh: int) {
    s.last == p.addrs && s.lastAt.Some? && p.now - s.lastAt.value < refresh
  }

  class AnnounceLoop {
    const refresh: int
    var lastAnnounced: seq<string>
    var lastAt: Option<int>

    constructor (refresh: int)
      ensures this.refresh == refresh && Value() == Announced([], None)
    {
      this.refresh, lastAnnounced, lastAt := refresh, [], None;
    }

    function Value(): Announced
      reads this
    {
      Announced(lastAnnounced, lastAt)
    }

    method RunPass(p: Pass)
      requires refresh > 0 && p.now <= p.finished
      modifies this
      ensures Value() == AfterPass(old(Value()), p, refresh)
      ensures UpToDate(old(Value()), Value(), p, refresh)
      ensures Value() == old(Value()) || (p.ok && p.addrs != [] && Value() == Announced(p.addrs, Some(p.finished)))
      ensures !old(Young(Value(), p, refresh)) && p.ok && p.addrs != [] ==> Value() == Announced(p.addrs, Some(p.finished))
      ensures old(Young(Value(), p, refresh)) ==> Value() == old(Value())
    {
      if |p.addrs| == 0 {
        // nothing to announce: no relay address available
      } else if p.addrs != lastAnnounced || lastAt.None? || p.now - lastAt.value >= refresh {
        if p.ok {
          lastAnnounced := p.addrs;
          lastAt := Some(p.finished);
        }
      }
    }

    method RunPasses(ps: seq<Pass>)
      requires refresh > 0 && forall i :: 0 <= i < |ps| ==> ps[i].now <= ps[i].finished
      modifies this
      ensures Value() == AfterPasses(old(Value()), ps, refresh)
      ensures ps != [] ==> UpToDate(AfterPasses(old(Value()), ps[..|ps| - 1], refresh), Value(), ps[|ps| - 1], refresh)
    {
      for i := 0 to |ps|
        invariant Value() == AfterPasses(old(Value()), ps[..i], refresh)
        invariant i > 0 ==> UpToDate(AfterPasses(old(Value()), ps[..i - 1], refresh), Value(), ps[i - 1], refresh)
      {
        OneMorePass(old(Value()), ps[..i], ps[i], refresh);
        assert ps[..i + 1] == ps[..i] + [ps[i]];
        RunPass(ps[i]);
      }
      assert ps[..|ps|] == ps;
    }
  }

  // ---- what a phone sees ----

  /** When the record that discovery has at time t was taken in; passes begun
      after t play no part. */
  function SeenAt(s: Announced, record: Option<int>, ps: seq<Pass>, refresh: int, t: int): Option<int>
    decreases |ps|
  {
    if ps == [] || ps[0].now > t then record
    else
      var taken := Due(s, ps[0], refresh) && ps[0].ok && ps[0].seen <= t;
      SeenAt(AfterPass(s, ps[0], refresh), if taken then Some(ps[0].seen) else record, ps[1..], refresh, t)
  }

  /** Passes that follow one another, each begun at most d after the one before,
      whose announcements take at most `latency` and succeed, with an address to
      announce every time. */
  predicate Steady(ps: seq<Pass>, before: int, d: int, latency: int)
    decreases |ps|
  {
    ps != [] ==>
      && ps[0].ok && ps[0].addrs != []
      && before < ps[0].now <= before + d
      && ps[0].now <= ps[0].seen <= ps[0].finished <= ps[0].now + latency
      && (|ps| > 1 ==> ps[0].finished < ps[1].now)
      && Steady(ps[1..], ps[0].now, d, latency)
  }

  function LastBegun(ps: seq<Pass>, before: int): int
    decreases |ps|
  {
    if ps == [] then before else LastBegun(ps[1..], ps[0].now)
  }

  /** From a record taken in at r and known to the loop as of s.lastAt, the record
      is never older than this, until d after the last pass. */
  lemma {:induction false} NeverOlder(s: Announced, r: int, ps: seq<Pass>, before: int, refresh: int, d: int, latency: int, t: int)
    requires refresh > 0 && d >= 0 && latency >= 0 && Steady(ps, before, d, latency)
    requires s.lastAt.Some? && r <= s.lastAt.value <= r + latency && before < s.lastAt.value + refresh
    requires r <= t && before <= t <= LastBegun(ps, before) + d
    ensures SeenAt(s, Some(r), ps, refresh, t).Some?
    ensures var seen := SeenAt(s, Some(r), ps, refresh, t).value; seen <= t <= seen + refresh + d + 2 * latency
    decreases |ps|
  {
    if ps != [] && ps[0].now <= t {
      var p := ps[0];
      var s' := AfterPass(s, p, refresh);
      if !Due(s, p, refresh) {
        NeverOlder(s, r, ps[1..], p.now, refresh, d, latency, t);
      } else if p.seen <= t {
        NeverOlder(s', p.seen, ps[1..], p.now, refresh, d, latency, t);
      } else {
        assert SeenAt(s', Some(r), ps[1..], refresh, t) == Some(r);
      }
    }
  }

  /** From the first announcement on, and until d after the last pass, a phone is
      told that the machine is waiting, whatever the addresses do in between. */
  lemma AlwaysWaiting(ps: seq<Pass>, refresh: int, d: int, latency: int, t: int)
    requires refresh > 0 && d >= 0 && latency >= 0
    requires refresh + d + 2 * latency <= WAITING_RECORD_MAX_AGE
    requires ps != [] && Steady(ps, ps[0].now - 1, d + 1, latency) && Steady(ps[1..], ps[0].now, d, latency)
    requires ps[0].seen <= t <= LastBegun(ps, ps[0].now) + d
    ensures var seen := SeenAt(Announced([], None), None, ps, refresh, t);
      seen.Some? && StatusOf(true, seen, t).state == WAITING
  {
    var p := ps[0];
    NeverOlder(AfterPass(Announced([], None), p, refresh), p.seen, ps[1..], p.now, refresh, d, latency, t);
  }

  /** How often the passes announce, whether or not that succeeds. */
  function Calls(s: Announced, ps: seq<Pass>, refresh: int): nat
    decreases |ps|
  {
    if ps == [] then 0 else (if Due(s, ps[0], refresh) then 1 else 0) + Calls(AfterPass(s, ps[0], refresh), ps[1..], refresh)
  }

  /** While the addresses stay what was announced and the announcements succeed, there
      is at most one for every whole refresh. */
  lemma {:induction false} NotMoreOften(s: Announced, ps: seq<Pass>, refresh: int, d: int, latency: int, before: int)
    requires refresh > 0 && d >= 0 && latency >= 0 && Steady(ps, before, d, latency)
    requires forall i :: 0 <= i < |ps| ==> ps[i].addrs == s.last
    requires s.lastAt.Some? && s.lastAt.value <= LastBegun(ps, before) + latency
    ensures Calls(s, ps, refresh) > 0 ==> refresh * Calls(s, ps, refresh) <= LastBegun(ps, before) - s.lastAt.value
    decreases |ps|
  {
    if ps != [] {
      var s' := AfterPass(s, ps[0], refresh);
      LastIsLater(ps[1..], ps[0].now, d, latency);
      NotMoreOften(s', ps[1..], refresh, d, latency, ps[0].now);
      if Due(s, ps[0], refresh) {
        var later := Calls(s', ps[1..], refresh);
        assert refresh * (1 + later) == refresh + refresh * later;
      }
    }
  }

  lemma {:induction false} LastIsLater(ps: seq<Pass>, before: int, d: int, latency: int)
    requires Steady(ps, before, d, latency)
    ensures LastBegun(ps, before) >= before
    decreases |ps|
  {
    if ps != [] {
      LastIsLater(ps[1..], ps[0].now, d, latency);
    }
  }

  /** Only a record of the last 150 seconds says WAITING: a machine that stopped
      announcing goes stale, one without a record is absent. */
  lemma StateIff(found: bool, seen: Option<int>, now: int)
    ensures StatusOf(found, seen, now).state == WAITING <==> found && seen.Some? && now - seen.value <= 150_000
    ensures StatusOf(found, seen, now).state == ABSENT <==> !found
    ensures var age := StatusOf(found, seen, now).age;
      if found && seen.Some? then age >= 0 && age >= now - seen.value && (age > 0 ==> age == now - seen.value) else age == -1
  {
  }
}
