/** How patient a dial is. */
module DialRetry {
  import opened Basics

  // dialRelay (mrcore/transport/syncthing_relay.go) and its delays
  // (discovery_backoff.go). Durations are in nanoseconds; jitter is a real number in
  // [0, 1), as rand.Float64 gives.

  const SECOND := 1_000_000_000
  const DIAL_RETRY_SCHEDULE := [3 * SECOND, 5 * SECOND, 8 * SECOND, 12 * SECOND]
  const DIAL_RETRY_MAX := 15 * SECOND
  const DIAL_RETRY_AFTER_MAX := 60 * SECOND

  /** dialRetryDelay; the conversion to a Duration cuts off the fraction. */
  function DialRetryDelay(retry: int, r: real): (d: int)
    ensures d <= DIAL_RETRY_MAX
  {
    var base := if 0 <= retry < |DIAL_RETRY_SCHEDULE| then DIAL_RETRY_SCHEDULE[retry] else DIAL_RETRY_MAX;
    var d := (base as real * (1.0 + 0.2 * (2.0 * r - 1.0))).Floor;
    if d < DIAL_RETRY_MAX then d else DIAL_RETRY_MAX
  }

  /** What is left of a delay at the least: four fifths of the schedule's. */
  function LeastDelay(retry: nat): int {
    if retry == 0 then 2_400_000_000
    else if retry == 1 then 4_000_000_000
    else if retry == 2 then 6_400_000_000
    else if retry == 3 then 9_600_000_000
    else 12_000_000_000
  }

  lemma Jitter(base: real, r: real)
    requires 0.0 <= r < 1.0 && base >= 0.0
    ensures base * 0.8 <= base * (1.0 + 0.2 * (2.0 * r - 1.0)) <= base * 1.2
  {
    var f := 1.0 + 0.2 * (2.0 * r - 1.0);
    assert 0.8 <= f <= 1.2;
  }

  /** No more than six fifths of the schedule's. */
  function MostDelay(retry: nat): int {
    if retry == 0 then 3_600_000_000
    else if retry == 1 then 6_000_000_000
    else if retry == 2 then 9_600_000_000
    else if retry == 3 then 14_400_000_000
    else DIAL_RETRY_MAX
  }

  lemma DelayBounds(retry: nat, r: real)
    requires 0.0 <= r < 1.0
    ensures LeastDelay(retry) <= DialRetryDelay(retry, r) <= MostDelay(retry) <= DIAL_RETRY_MAX
    ensures DialRetryDelay(retry, 0.5) * 4 == LeastDelay(retry) * 5
  {
    var base := if retry < |DIAL_RETRY_SCHEDULE| then DIAL_RETRY_SCHEDULE[retry] else DIAL_RETRY_MAX;
    Jitter(base as real, r);
    assert LeastDelay(retry) as real == base as real * 0.8;
  }

  /** boundedRetryAfter; a negative remaining means there is no deadline. */
  function BoundedRetryAfter(retryAfter: int, remaining: int): (d: int)
    ensures 0 <= d <= DIAL_RETRY_AFTER_MAX
    ensures remaining >= 0 ==> d <= remaining
    ensures d == 0 || d <= retryAfter
    ensures retryAfter > 0 ==> d == retryAfter || d == DIAL_RETRY_AFTER_MAX || d == remaining
    ensures 0 <= retryAfter <= DIAL_RETRY_AFTER_MAX && (remaining < 0 || retryAfter <= remaining) ==> d == retryAfter
  {
    var least := if retryAfter > 0 then retryAfter else 0;
    var d := Min(least, DIAL_RETRY_AFTER_MAX);
    if remaining >= 0 then Min(d, remaining) else d
  }

  /** The earliest a lookup can begin, counted from the first. */
  function Earliest(i: nat): int {
    if i == 0 then 0 else Earliest(i - 1) + LeastDelay(i - 1)
  }

  lemma {:induction false} NoEarlier(begun: seq<int>, i: nat)
    requires i < |begun| && forall j :: 0 <= j < |begun| ==> begun[j] >= 0
    requires forall j: nat :: j + 1 < |begun| ==> begun[j + 1] >= begun[j] + LeastDelay(j)
    ensures begun[i] >= Earliest(i)
  {
    if i > 0 {
      NoEarlier(begun, i - 1);
    }
  }

  /** With the least jitter and lookups that take no time the tenth still fits
      into 90 seconds, and the eleventh never does. */
  lemma TenFitNotEleven()
    ensures Earliest(9) == 82_400_000_000 && Earliest(10) == 94_400_000_000
  {
    assert Earliest(4) == Earliest(3) + LeastDelay(3) && Earliest(3) == Earliest(2) + LeastDelay(2);
    assert Earliest(2) == Earliest(1) + LeastDelay(1) && Earliest(1) == LeastDelay(0);
    assert Earliest(7) == Earliest(4) + 36_000_000_000;
    assert Earliest(10) == Earliest(7) + 36_000_000_000;
  }

  /** Every lookup begins within the budget, and no sooner than the schedule lets
      it after the one before; the first of them is attempt `retry`. */
  ghost predicate SpacedFrom(begun: seq<int>, budget: int, retry: nat) {
    && (forall i: nat :: i < |begun| ==> 0 <= begun[i] <= budget)
    && (forall i: nat :: i + 1 < |begun| ==> begun[i + 1] >= begun[i] + LeastDelay(retry + i))
  }

  ghost predicate Spaced(begun: seq<int>, budget: int) {
    SpacedFrom(begun, budget, 0)
  }

  /** Whatever the jitter, the Retry-Afters and the lookups' own durations, no more
      than ten lookups begin within 90 seconds. */
  lemma TenLookupsAtMost(begun: seq<int>, budget: int)
    requires Spaced(begun, budget) && budget <= 90 * SECOND
    ensures |begun| <= 10
  {
    TenFitNotEleven();
    if |begun| > 10 {
      NoEarlier(begun, 10);
    }
  }

  /** One lookup: how long it and the dial that follows take, whether it connects,
      the Retry-After of a 429, and the jitter of the delay after it. */
  datatype Lookup = Lookup(takes: nat, connects: bool, retryAfter: Option<int>, jitter: real)

  /** What a dial did: when each lookup began, and every wait between two. */
  datatype Dialling = Dialling(begun: seq<int>, waits: seq<int>, connected: bool)

  predicate Jittered(lookups: seq<Lookup>) {
    forall i :: 0 <= i < |lookups| ==> 0.0 <= lookups[i].jitter < 1.0
  }

  /** The backoff, or the Retry-After if longer. */
  function WaitOf(retry: nat, lookup: Lookup, remaining: int): int
  {
    var backoff := DialRetryDelay(retry, lookup.jitter);
    match lookup.retryAfter
    case None => backoff
    case Some(told) =>
      if BoundedRetryAfter(told, remaining) > backoff then BoundedRetryAfter(told, remaining) else backoff
  }

  /** What a dial does from its attempt `retry` on, which begins at `now`, with w
      choosing its waits. */
  function DialledBy(w: (nat, Lookup, int) -> int, lookups: seq<Lookup>, budget: nat, now: int, retry: nat): (d: Dialling)
    ensures |d.waits| <= |d.begun|
    decreases |lookups| - retry
  {
    if retry >= |lookups| then Dialling([], [], false)
    else
      var over := now + lookups[retry].takes;
      var wait := w(retry, lookups[retry], budget - over);
      if lookups[retry].connects && over <= budget then Dialling([now], [], true)
      else if over + wait > budget then Dialling([now], [wait], false)
      else
        var rest := DialledBy(w, lookups, budget, over + wait, retry + 1);
        Dialling([now] + rest.begun, [wait] + rest.waits, rest.connected)
  }

  function Dialled(lookups: seq<Lookup>, budget: nat): Dialling {
    DialledBy(WaitOf, lookups, budget, 0, 0)
  }

  /** The wait after a failed attempt. */
  method WaitAfter(retry: nat, lookup: Lookup, remaining: int) returns (wait: int)
    requires 0.0 <= lookup.jitter < 1.0
    ensures wait == WaitOf(retry, lookup, remaining)
    ensures LeastDelay(retry) <= wait <= DIAL_RETRY_AFTER_MAX
    ensures lookup.retryAfter.None? ==> wait == DialRetryDelay(retry, lookup.jitter)
    ensures lookup.retryAfter.Some? ==> wait >= BoundedRetryAfter(lookup.retryAfter.value, remaining)
    ensures wait >= DialRetryDelay(retry, lookup.jitter)
    ensures wait > DialRetryDelay(retry, lookup.jitter) ==>
      lookup.retryAfter.Some? && wait == BoundedRetryAfter(lookup.retryAfter.value, remaining)
  {
    DelayBounds(retry, lookup.jitter);
    wait := DialRetryDelay(retry, lookup.jitter);
    if lookup.retryAfter.Some? {
      var told := BoundedRetryAfter(lookup.retryAfter.value, remaining);
      if told > wait {
        wait := told;
      }
    }
  }

  ghost predicate WaitsWithinBounds(waits: seq<int>, retry: nat) {
    forall i: nat :: i < |waits| ==> LeastDelay(retry + i) <= waits[i] <= DIAL_RETRY_AFTER_MAX
  }

  predicate BoundedWait(w: (nat, Lookup, int) -> int, retry: nat, lookup: Lookup, remaining: int) {
    LeastDelay(retry) <= w(retry, lookup, remaining) <= DIAL_RETRY_AFTER_MAX
  }

  ghost predicate WaitsBounded(w: (nat, Lookup, int) -> int, lookups: seq<Lookup>) {
    forall retry: nat, remaining: int :: retry < |lookups| ==> BoundedWait(w, retry, lookups[retry], remaining)
  }

  lemma JitteredWaitsAre(lookups: seq<Lookup>)
    requires Jittered(lookups)
    ensures WaitsBounded(WaitOf, lookups)
  {
    forall retry: nat, remaining: int | retry < |lookups|
      ensures BoundedWait(WaitOf, retry, lookups[retry], remaining)
    {
      WaitBounds(retry, lookups[retry], remaining);
    }
  }

  lemma WaitBounds(retry: nat, lookup: Lookup, remaining: int)
    requires 0.0 <= lookup.jitter < 1.0
    ensures LeastDelay(retry) <= WaitOf(retry, lookup, remaining) <= DIAL_RETRY_AFTER_MAX
  {
    DelayBounds(retry, lookup.jitter);
  }

  lemma SpacedAfter(begun: seq<int>, budget: int, now: int, retry: nat)
    requires SpacedFrom(begun, budget, retry + 1) && 0 <= now <= budget
    requires begun != [] ==> begun[0] >= now + LeastDelay(retry)
    ensures SpacedFrom([now] + begun, budget, retry)
  {
    var all := [now] + begun;
    forall i: nat | i + 1 < |all|
      ensures all[i + 1] >= all[i] + LeastDelay(retry + i)
    {
      if i > 0 {
        assert all[i + 1] == begun[i] && all[i] == begun[i - 1] && begun[i] >= begun[i - 1] + LeastDelay(retry + 1 + (i - 1));
      }
    }
  }

  lemma WaitsAfter(waits: seq<int>, wait: int, retry: nat)
    requires WaitsWithinBounds(waits, retry + 1) && LeastDelay(retry) <= wait <= DIAL_RETRY_AFTER_MAX
    ensures WaitsWithinBounds([wait] + waits, retry)
  {
    forall i: nat | i < |[wait] + waits|
      ensures LeastDelay(retry + i) <= ([wait] + waits)[i] <= DIAL_RETRY_AFTER_MAX
    {
      if i > 0 {
        assert ([wait] + waits)[i] == waits[i - 1] && LeastDelay(retry + 1 + (i - 1)) <= waits[i - 1] <= DIAL_RETRY_AFTER_MAX;
      }
    }
  }

  /** What one more attempt in front of a dial makes of it. */
  lemma OneMoreAttempt(now: int, wait: int, rest: Dialling, budget: int, retry: nat)
    requires 0 <= now <= budget && LeastDelay(retry) <= wait <= DIAL_RETRY_AFTER_MAX
    requires SpacedFrom(rest.begun, budget, retry + 1) && WaitsWithinBounds(rest.waits, retry + 1)
    requires rest.begun != [] ==> rest.begun[0] >= now + wait
    ensures SpacedFrom([now] + rest.begun, budget, retry) && WaitsWithinBounds([wait] + rest.waits, retry)
  {
    SpacedAfter(rest.begun, budget, now, retry);
    WaitsAfter(rest.waits, wait, retry);
  }

  /** One attempt that is the last. */
  lemma LastAttempt(now: int, wait: int, budget: int, retry: nat)
    requires 0 <= now <= budget && LeastDelay(retry) <= wait <= DIAL_RETRY_AFTER_MAX
    ensures SpacedFrom([now], budget, retry) && WaitsWithinBounds([wait], retry) && WaitsWithinBounds([], retry)
  {
  }

  function After(begun: seq<int>, waits: seq<int>, rest: Dialling): Dialling {
    Dialling(begun + rest.begun, waits + rest.waits, rest.connected)
  }

  /** One attempt of a dial, the wait after it being given. */
  lemma DialStep(w: (nat, Lookup, int) -> int, lookups: seq<Lookup>, budget: nat, now: int, retry: nat, wait: int)
    requires retry < |lookups|
    requires wait == w(retry, lookups[retry], budget - (now + lookups[retry].takes))
    ensures var over, d := now + lookups[retry].takes, DialledBy(w, lookups, budget, now, retry);
      && (lookups[retry].connects && over <= budget ==> d == Dialling([now], [], true))
      && (!(lookups[retry].connects && over <= budget) && over + wait > budget ==> d == Dialling([now], [wait], false))
      && (!(lookups[retry].connects && over <= budget) && over + wait <= budget ==>
            d == After([now], [wait], DialledBy(w, lookups, budget, over + wait, retry + 1)))
  {
  }

  /** Whatever the jitter, the Retry-Afters and the lookups' own durations, a dial
      keeps to the schedule and never waits longer than a minute. */
  lemma {:induction false} DialKeepsToTheSchedule(w: (nat, Lookup, int) -> int, lookups: seq<Lookup>, budget: nat, now: int, retry: nat)
    requires WaitsBounded(w, lookups) && 0 <= now <= budget && retry <= |lookups|
    ensures SpacedFrom(DialledBy(w, lookups, budget, now, retry).begun, budget, retry)
    ensures WaitsWithinBounds(DialledBy(w, lookups, budget, now, retry).waits, retry)
    ensures DialledBy(w, lookups, budget, now, retry).begun != [] ==> DialledBy(w, lookups, budget, now, retry).begun[0] == now
    decreases |lookups| - retry
  {
    if retry < |lookups| {
      var over := now + lookups[retry].takes;
      var wait := w(retry, lookups[retry], budget - over);
      assert BoundedWait(w, retry, lookups[retry], budget - over);
      DialStep(w, lookups, budget, now, retry, wait);
      if (lookups[retry].connects && over <= budget) || over + wait > budget {
        LastAttempt(now, wait, budget, retry);
      } else {
        DialKeepsToTheSchedule(w, lookups, budget, over + wait, retry + 1);
        OneMoreAttempt(now, wait, DialledBy(w, lookups, budget, over + wait, retry + 1), budget, retry);
      }
    }
  }

  lemma {:induction false} OnlyTheLastConnects(w: (nat, Lookup, int) -> int, lookups: seq<Lookup>, budget: nat, now: int, retry: nat)
    requires retry <= |lookups|
    ensures var d := DialledBy(w, lookups, budget, now, retry);
      |d.begun| <= |lookups| - retry && (d.connected ==> d.begun != [] && lookups[retry + |d.begun| - 1].connects)
    decreases |lookups| - retry
  {
    if retry < |lookups| {
      var over := now + lookups[retry].takes;
      OnlyTheLastConnects(w, lookups, budget, over + w(retry, lookups[retry], budget - over), retry + 1);
    }
  }

  /** Attempt i of a dial gets through in time. */
  predicate GetsThrough(lookups: seq<Lookup>, budget: int, begun: seq<int>, retry: nat, i: nat)
    requires retry + i < |lookups| && i < |begun|
  {
    lookups[retry + i].connects && begun[i] + lookups[retry + i].takes <= budget
  }

  /** Each attempt begins when the one before it, and the wait after that, are over. */
  ghost predicate InTurn(lookups: seq<Lookup>, retry: nat, d: Dialling)
    requires retry + |d.begun| <= |lookups| && |d.begun| <= |d.waits| + 1
  {
    forall i: nat :: i + 1 < |d.begun| ==> d.begun[i + 1] == d.begun[i] + lookups[retry + i].takes + d.waits[i]
  }

  /** What is waited after has not got through. */
  ghost predicate WaitsAfterFailures(lookups: seq<Lookup>, budget: int, retry: nat, d: Dialling)
    requires retry + |d.begun| <= |lookups| && |d.waits| <= |d.begun|
  {
    forall i: nat :: i < |d.waits| ==> !GetsThrough(lookups, budget, d.begun, retry, i)
  }

  /** A dial that does not give up: it ends connected with the first attempt that gets
      through in time, and else only when there are no more, or the next would begin
      too late. */
  ghost predicate Persists(lookups: seq<Lookup>, budget: int, now: int, retry: nat, d: Dialling) {
    && |d.begun| <= |lookups| - retry && (retry < |lookups| ==> d.begun != [] && d.begun[0] == now)
    && |d.waits| == (if d.connected then |d.begun| - 1 else |d.begun|)
    && InTurn(lookups, retry, d) && WaitsAfterFailures(lookups, budget, retry, d)
    && (d.connected ==> d.begun != [] && GetsThrough(lookups, budget, d.begun, retry, |d.begun| - 1))
    && (!d.connected && |d.begun| < |lookups| - retry ==>
          var last := |d.begun| - 1; last >= 0 && d.begun[last] + lookups[retry + last].takes + d.waits[last] > budget)
  }

  lemma InTurnAfter(lookups: seq<Lookup>, now: int, retry: nat, wait: int, rest: Dialling)
    requires retry + 1 + |rest.begun| <= |lookups| && |rest.begun| <= |rest.waits| + 1
    requires InTurn(lookups, retry + 1, rest)
    requires rest.begun != [] ==> rest.begun[0] == now + lookups[retry].takes + wait
    ensures InTurn(lookups, retry, After([now], [wait], rest))
  {
    var d := After([now], [wait], rest);
    forall i: nat | i + 1 < |d.begun|
      ensures d.begun[i + 1] == d.begun[i] + lookups[retry + i].takes + d.waits[i]
    {
      if i > 0 {
        assert d.begun[i + 1] == rest.begun[i - 1 + 1] && d.begun[i] == rest.begun[i - 1] && d.waits[i] == rest.waits[i - 1];
        assert lookups[retry + i] == lookups[retry + 1 + (i - 1)];
      }
    }
  }

  lemma GetsThroughAfter(lookups: seq<Lookup>, budget: int, now: int, retry: nat, begun: seq<int>, i: nat)
    requires i < |begun| && retry + 1 + i < |lookups|
    ensures GetsThrough(lookups, budget, [now] + begun, retry, i + 1) <==> GetsThrough(lookups, budget, begun, retry + 1, i)
  {
    assert ([now] + begun)[i + 1] == begun[i];
  }

  lemma FailuresAfter(lookups: seq<Lookup>, budget: int, now: int, retry: nat, wait: int, rest: Dialling)
    requires retry + 1 + |rest.begun| <= |lookups| && |rest.waits| <= |rest.begun|
    requires WaitsAfterFailures(lookups, budget, retry + 1, rest)
    requires !(lookups[retry].connects && now + lookups[retry].takes <= budget)
    ensures WaitsAfterFailures(lookups, budget, retry, After([now], [wait], rest))
  {
    var d := After([now], [wait], rest);
    forall i: nat | i < |d.waits|
      ensures !GetsThrough(lookups, budget, d.begun, retry, i)
    {
      if i > 0 {
        GetsThroughAfter(lookups, budget, now, retry, rest.begun, i - 1);
      }
    }
  }

  lemma PersistsAfter(lookups: seq<Lookup>, budget: int, now: int, retry: nat, wait: int, rest: Dialling)
    requires retry < |lookups| && Persists(lookups, budget, now + lookups[retry].takes + wait, retry + 1, rest)
    requires !(lookups[retry].connects && now + lookups[retry].takes <= budget)
    ensures Persists(lookups, budget, now, retry, After([now], [wait], rest))
  {
    InTurnAfter(lookups, now, retry, wait, rest);
    FailuresAfter(lookups, budget, now, retry, wait, rest);
    if rest.connected {
      GetsThroughAfter(lookups, budget, now, retry, rest.begun, |rest.begun| - 1);
    }
  }

  lemma PersistsAtLast(lookups: seq<Lookup>, budget: int, now: int, retry: nat, wait: int, connected: bool)
    requires retry < |lookups| && (connected <==> lookups[retry].connects && now + lookups[retry].takes <= budget)
    requires connected || now + lookups[retry].takes + wait > budget
    ensures Persists(lookups, budget, now, retry, Dialling([now], if connected then [] else [wait], connected))
  {
  }

  lemma {:induction false} DialPersists(w: (nat, Lookup, int) -> int, lookups: seq<Lookup>, budget: nat, now: int, retry: nat)
    requires retry <= |lookups|
    ensures Persists(lookups, budget, now, retry, DialledBy(w, lookups, budget, now, retry))
    decreases |lookups| - retry
  {
    if retry < |lookups| {
      var over := now + lookups[retry].takes;
      var wait := w(retry, lookups[retry], budget - over);
      DialStep(w, lookups, budget, now, retry, wait);
      if (lookups[retry].connects && over <= budget) || over + wait > budget {
        PersistsAtLast(lookups, budget, now, retry, wait, lookups[retry].connects && over <= budget);
      } else {
        DialPersists(w, lookups, budget, over + wait, retry + 1);
        PersistsAfter(lookups, budget, now, retry, wait, DialledBy(w, lookups, budget, over + wait, retry + 1));
      }
    }
  }

  lemma ThenMore(begun: seq<int>, waits: seq<int>, now: int, wait: int, rest: Dialling)
    ensures After(begun, waits, After([now], [wait], rest)) == After(begun + [now], waits + [wait], rest)
  {
    assert begun + ([now] + rest.begun) == (begun + [now]) + rest.begun;
    assert waits + ([wait] + rest.waits) == (waits + [wait]) + rest.waits;
  }

  /** dialRelay with a budget: the loop ends with a connection or when its context
      does, which is noticed in the wait; lookups in a context that has ended fail. */
  method DialRelay(lookups: seq<Lookup>, budget: nat) returns (d: Dialling)
    requires Jittered(lookups)
    ensures d == Dialled(lookups, budget)
    ensures |d.waits| <= |d.begun| <= |lookups|
    ensures Spaced(d.begun, budget) && WaitsWithinBounds(d.waits, 0)
    ensures budget <= 90 * SECOND ==> |d.begun| <= 10
    ensures Persists(lookups, budget, 0, 0, d)
    ensures d.connected ==> d.begun != [] && lookups[|d.begun| - 1].connects
  {
    DialPersists(WaitOf, lookups, budget, 0, 0);
    JitteredWaitsAre(lookups);
    DialKeepsToTheSchedule(WaitOf, lookups, budget, 0, 0);
    OnlyTheLastConnects(WaitOf, lookups, budget, 0, 0);
    if budget <= 90 * SECOND {
      TenLookupsAtMost(Dialled(lookups, budget).begun, budget);
    }
    d := DialLoop(lookups, budget);
  }

  /** The attempt gets through. */
  lemma Connecting(begun: seq<int>, waits: seq<int>, lookups: seq<Lookup>, budget: nat, now: int, retry: nat)
    requires retry < |lookups| && lookups[retry].connects && now + lookups[retry].takes <= budget
    ensures After(begun, waits, DialledBy(WaitOf, lookups, budget, now, retry)) == Dialling(begun + [now], waits, true)
  {
  }

  /** It does not, and neither would the next. */
  lemma GivingUp(begun: seq<int>, waits: seq<int>, lookups: seq<Lookup>, budget: nat, now: int, retry: nat, wait: int)
    requires retry < |lookups| && !(lookups[retry].connects && now + lookups[retry].takes <= budget)
    requires wait == WaitOf(retry, lookups[retry], budget - (now + lookups[retry].takes))
    requires now + lookups[retry].takes + wait > budget
    ensures After(begun, waits, DialledBy(WaitOf, lookups, budget, now, retry)) == Dialling(begun + [now], waits + [wait], false)
  {
  }

  /** There is another. */
  lemma GoingOn(begun: seq<int>, waits: seq<int>, lookups: seq<Lookup>, budget: nat, now: int, retry: nat, wait: int, next: int)
    requires retry < |lookups| && !(lookups[retry].connects && now + lookups[retry].takes <= budget)
    requires wait == WaitOf(retry, lookups[retry], budget - (now + lookups[retry].takes))
    requires next == now + lookups[retry].takes + wait && next <= budget
    ensures After(begun, waits, DialledBy(WaitOf, lookups, budget, now, retry))
         == After(begun + [now], waits + [wait], DialledBy(WaitOf, lookups, budget, next, retry + 1))
  {
    DialStep(WaitOf, lookups, budget, now, retry, wait);
    ThenMore(begun, waits, now, wait, DialledBy(WaitOf, lookups, budget, next, retry + 1));
  }

  method DialLoop(lookups: seq<Lookup>, budget: nat) returns (d: Dialling)
    requires Jittered(lookups)
    ensures d == Dialled(lookups, budget)
  {
    var begun, waits: seq<int> := [], [];
    var now := 0;
    for retry := 0 to |lookups|
      invariant Dialled(lookups, budget) == After(begun, waits, DialledBy(WaitOf, lookups, budget, now, retry))
    {
      ghost var before, rested, began := begun, waits, now;
      begun := begun + [now];
      now := now + lookups[retry].takes;
      if lookups[retry].connects && now <= budget {
        Connecting(before, rested, lookups, budget, began, retry);
        return Dialling(begun, waits, true);
      }
      var wait := WaitAfter(retry, lookups[retry], budget - now);
      waits := waits + [wait];
      now := now + wait;
      if now > budget {
        GivingUp(before, rested, lookups, budget, began, retry, wait);
        return Dialling(begun, waits, false);
      }
      GoingOn(before, rested, lookups, budget, began, retry, wait, now);
    }
    return Dialling(begun, waits, false);
  }

  // ---- the bound is met ----

  lemma {:induction false} EarliestGrows(i: nat, j: nat)
    requires i <= j
    ensures Earliest(i) <= Earliest(j)
  {
    if i < j {
      EarliestGrows(i, j - 1);
    }
  }

  /** Lookups that fail at once, with the least jitter. */
  function Fastest(n: nat): (lookups: seq<Lookup>)
    ensures Jittered(lookups)
  {
    seq(n, _ => Lookup(0, false, None, 0.0))
  }

  lemma LeastJitter(retry: nat)
    ensures DialRetryDelay(retry, 0.0) == LeastDelay(retry)
  {
    var base := if retry < |DIAL_RETRY_SCHEDULE| then DIAL_RETRY_SCHEDULE[retry] else DIAL_RETRY_MAX;
    assert base as real * 0.8 == LeastDelay(retry) as real;
  }

  lemma FastestWait(n: nat, retry: nat, remaining: int)
    requires retry < n
    ensures WaitOf(retry, Fastest(n)[retry], remaining) == LeastDelay(retry)
  {
    LeastJitter(retry);
  }

  lemma FastestStep(n: nat, retry: nat, budget: nat, now: int)
    requires retry < n
    ensures |DialledBy(WaitOf, Fastest(n), budget, now, retry).begun|
         == if now + LeastDelay(retry) > budget then 1
            else 1 + |DialledBy(WaitOf, Fastest(n), budget, now + LeastDelay(retry), retry + 1).begun|
  {
    FastestWait(n, retry, budget - now);
    DialStep(WaitOf, Fastest(n), budget, now, retry, LeastDelay(retry));
  }

  lemma {:induction false} FastestFrom(n: nat, retry: nat, budget: nat)
    requires retry < 10 <= n && Earliest(9) <= budget < Earliest(10)
    ensures |DialledBy(WaitOf, Fastest(n), budget, Earliest(retry), retry).begun| == 10 - retry
    decreases 10 - retry
  {
    FastestStep(n, retry, budget, Earliest(retry));
    assert Earliest(retry + 1) == Earliest(retry) + LeastDelay(retry);
    if retry < 9 {
      EarliestGrows(retry + 1, 9);
      FastestFrom(n, retry + 1, budget);
    }
  }

  /** Within 90 seconds ten lookups do begin, if there is nothing but failures, they
      come at once and the jitter is the least; with as many as one likes, ten is
      also where it ends. */
  lemma TenLookupsCanBegin(n: nat)
    requires n >= 10
    ensures |Dialled(Fastest(n), 90 * SECOND).begun| == 10
  {
    TenFitNotEleven();
    FastestFrom(n, 0, 90 * SECOND);
  }
}
