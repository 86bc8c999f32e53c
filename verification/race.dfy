/** mrcore/transport/multi.go: racing several transports. The loop in race, the
    attempts, the relaunch timers, the draining of late results, the caller's context
    and the owner of the winning connection run at the same time, so a run is any
    sequence of their steps. What every step keeps: the counting of results, what the
    channel holds, which connections are open and whose contexts are cancelled. */
module TransportRace {
  import opened Basics

  /** One configured transport. Attempts are numbered in the order of launch. */
  datatype Leg =
    | Idle
    | Running(attempt: nat)
    | Reported(attempt: nat)
    | Blocked(attempt: nat)
    | Waiting

  datatype Report = Report(leg: nat, attempt: nat, ok: bool)

  /** Where the loop is. Deciding: a success was taken off the channel and the
      others are about to be cancelled. */
  datatype Phase =
    | Racing
    | Deciding(leg: nat, attempt: nat, still: int)
    | Won(leg: nat, attempt: nat, release: Option<nat>)
    | GaveUp
    | AllFailed

  /** chan is the results channel, open the connections nobody has closed,
      cancelled the attempts whose own context was cancelled, drain what
      closeLateArrivals has still to receive, late the launches after a result
      had decided the race. */
  datatype Race = Race(
    retry: bool, legs: seq<Leg>, chan: seq<Report>, phase: Phase, outstanding: int,
    cancels: map<nat, nat>, cancelled: set<nat>, failed: set<nat>, ctxDone: bool,
    open: set<nat>, returned: seq<nat>, released: bool, launched: nat, drain: int, late: nat)

  datatype Event =
    | Succeeds(leg: nat)
    | Fails(leg: nat)
    | CtxDone
    | SeeDone
    | Receive
    | Decide
    | TimerFires(leg: nat)
    | Abandon(leg: nat)
    | Drain
    | CloseWinner

  predicate Enabled(s: Race, e: Event) {
    match e
    case Succeeds(i) => i < |s.legs| && s.legs[i].Running?
    case Fails(i) => i < |s.legs| && s.legs[i].Running?
    case CtxDone => true
    case SeeDone => s.phase.Racing? && s.ctxDone
    case Receive => s.phase.Racing? && s.chan != [] && s.chan[0].leg < |s.legs|
    case Decide => s.phase.Deciding?
    case TimerFires(i) => i < |s.legs| && s.legs[i].Waiting?
    case Abandon(i) => i < |s.legs| && s.legs[i].Waiting? && s.ctxDone
    case Drain => s.drain > 0 && s.chan != [] && s.chan[0].leg < |s.legs|
    case CloseWinner => s.phase.Won? && !s.released
  }

  /** The goroutine of an attempt sends its result; a full channel blocks it. */
  function Send(s: Race, i: nat, ok: bool): Race
    requires i < |s.legs| && s.legs[i].Running?
  {
    var a := s.legs[i].attempt;
    var conns := if ok then s.open + {a} else s.open;
    if |s.chan| < |s.legs| then
      s.(legs := s.legs[i := Reported(a)], chan := s.chan + [Report(i, a, ok)], open := conns)
    else s.(legs := s.legs[i := Blocked(a)], open := conns)
  }

  function Launch(s: Race, i: nat): Race
    requires i < |s.legs|
  {
    s.(legs := s.legs[i := Running(s.launched)], cancels := s.cancels[i := s.launched],
       outstanding := s.outstanding + 1, launched := s.launched + 1,
       late := if s.phase.Racing? then s.late else s.late + 1)
  }

  function LaunchFrom(s: Race, i: nat): Race
    decreases |s.legs| - i
  {
    if i >= |s.legs| then s else LaunchFrom(Launch(s, i), i + 1)
  }

  function Unstarted(retry: bool, n: nat): Race {
    Race(retry, seq(n, _ => Idle), [], Racing, 0, map[], {}, {}, false, {}, [], false, 0, 0, 0)
  }

  /** Every transport is launched, in order. Listen retries a failed leg, Dial
      does not. */
  function Start(retry: bool, n: nat): Race {
    LaunchFrom(Unstarted(retry, n), 0)
  }

  /** cancelAllExcept: the attempts whose cancel functions are called. */
  function Losers(cancels: map<nat, nat>, winner: Option<nat>): set<nat> {
    set i | i in cancels && winner != Some(i) :: cancels[i]
  }

  function TakeFailure(s: Race): Race
    requires s.chan != [] && s.chan[0].leg < |s.legs|
  {
    var r := s.chan[0];
    var outstanding, failed := s.outstanding - 1, s.failed + {r.leg};
    var own := if r.leg in s.cancels then {s.cancels[r.leg]} else {};
    var cancels := s.cancels - {r.leg};
    var finished := |failed| == |s.legs| && outstanding == 0;
    var s' := s.(outstanding := outstanding, failed := failed, cancels := cancels, cancelled := s.cancelled + own,
                 chan := s.chan[1..]);
    if s.retry then s'.(legs := s.legs[r.leg := Waiting])
    else if finished then
      s'.(legs := s.legs[r.leg := Idle], cancelled := s.cancelled + own + Losers(cancels, None), phase := AllFailed)
    else s'.(legs := s.legs[r.leg := Idle])
  }

  function Step(s: Race, e: Event): Race
    requires Enabled(s, e)
  {
    match e
    case Succeeds(i) => Send(s, i, true)
    case Fails(i) => Send(s, i, false)
    case CtxDone => s.(ctxDone := true)
    case SeeDone => s.(phase := GaveUp, cancelled := s.cancelled + Losers(s.cancels, None))
    case Receive =>
      var r := s.chan[0];
      if r.ok then
        s.(chan := s.chan[1..], legs := s.legs[r.leg := Idle], outstanding := s.outstanding - 1,
           phase := Deciding(r.leg, r.attempt, s.outstanding - 1))
      else TakeFailure(s)
    case Decide =>
      var winner := s.phase.leg;
      s.(cancelled := s.cancelled + Losers(s.cancels, Some(winner)),
         phase := Won(winner, s.phase.attempt, if winner in s.cancels then Some(s.cancels[winner]) else None),
         drain := if s.phase.still > 0 then s.phase.still else 0,
         returned := s.returned + [s.phase.attempt])
    case TimerFires(i) => Launch(s, i)
    case Abandon(i) => s.(legs := s.legs[i := Idle])
    case Drain =>
      var r := s.chan[0];
      s.(chan := s.chan[1..], legs := s.legs[r.leg := Idle], drain := s.drain - 1,
         open := if r.ok then s.open - {r.attempt} else s.open)
    case CloseWinner =>
      s.(open := s.open - {s.phase.attempt}, released := true,
         cancelled := s.cancelled + (if s.phase.release.Some? then {s.phase.release.value} else {}))
  }

  predicate Allowed(s: Race, es: seq<Event>)
    decreases |es|
  {
    es == [] || (Enabled(s, es[0]) && Allowed(Step(s, es[0]), es[1..]))
  }

  function Run(s: Race, es: seq<Event>): Race
    requires Allowed(s, es)
    decreases |es|
  {
    if es == [] then s else Run(Step(s, es[0]), es[1..])
  }

  // ---- counting legs ----

  function RunningLegs(legs: seq<Leg>): nat { Count(legs, (l: Leg) => l.Running?) }

  function ReportedLegs(legs: seq<Leg>): nat { Count(legs, (l: Leg) => l.Reported?) }

  lemma LegsChange(legs: seq<Leg>, i: nat, l: Leg)
    requires i < |legs|
    ensures RunningLegs(legs[i := l]) == RunningLegs(legs) - (if legs[i].Running? then 1 else 0) + (if l.Running? then 1 else 0)
    ensures ReportedLegs(legs[i := l]) == ReportedLegs(legs) - (if legs[i].Reported? then 1 else 0) + (if l.Reported? then 1 else 0)
  {
    CountUpdate(legs, (l: Leg) => l.Running?, i, l);
    CountUpdate(legs, (l: Leg) => l.Reported?, i, l);
  }

  // ---- what every step keeps ----

  predicate Live(l: Leg) {
    l.Running? || l.Reported?
  }

  /** Live attempts are numbered apart, have been launched, and are the ones
      whose cancel functions are kept; no leg hangs in its send. */
  ghost predicate Legs(s: Race) {
    && (forall i :: 0 <= i < |s.legs| ==> !s.legs[i].Blocked?)
    && (forall i :: 0 <= i < |s.legs| && Live(s.legs[i]) ==> i in s.cancels && s.cancels[i] == s.legs[i].attempt)
    && (forall i :: i in s.cancels ==> i < |s.legs| && s.cancels[i] < s.launched)
    && (forall i, j :: i in s.cancels && j in s.cancels && i != j ==> s.cancels[i] != s.cancels[j])
    && (forall a :: a in s.cancelled ==> a < s.launched)
    && (!s.retry ==> forall i :: 0 <= i < |s.legs| ==> !s.legs[i].Waiting?)
  }

  /** The channel holds one report of each leg that has sent, and no other. */
  ghost predicate Channel(s: Race) {
    && (forall k :: 0 <= k < |s.chan| ==> s.chan[k].leg < |s.legs| && s.legs[s.chan[k].leg] == Reported(s.chan[k].attempt))
    && (forall j, k :: 0 <= j < k < |s.chan| ==> s.chan[j].leg != s.chan[k].leg)
    && |s.chan| == ReportedLegs(s.legs)
  }

  predicate Buffered(chan: seq<Report>, a: nat) {
    exists k :: 0 <= k < |chan| && chan[k].ok && chan[k].attempt == a
  }

  predicate Held(s: Race, a: nat) {
    (s.phase.Deciding? && a == s.phase.attempt) || (s.phase.Won? && !s.released && a == s.phase.attempt)
  }

  /** The open connections are those of the successes still in the channel, and
      the one that was taken off it to be returned. */
  ghost predicate Connections(s: Race) {
    forall a :: a in s.open <==> Buffered(s.chan, a) || Held(s, a)
  }

  /** Nothing gets lost in the counting. */
  predicate Counts(s: Race) {
    && (s.phase.Racing? ==> s.outstanding == RunningLegs(s.legs) + |s.chan| && s.drain == 0 && s.late == 0)
    && (s.phase.Deciding? ==> s.phase.still + s.late == RunningLegs(s.legs) + |s.chan| && s.drain == 0 && s.phase.still >= 0)
    && (s.phase.Won? ==> s.drain + s.late == RunningLegs(s.legs) + |s.chan| && s.drain >= 0)
    && (s.phase.GaveUp? || s.phase.AllFailed? ==> s.drain == 0)
    && (!s.retry ==> s.late == 0)
    && (s.phase.AllFailed? ==> !s.retry && RunningLegs(s.legs) == 0 && s.chan == [])
    && s.returned == (if s.phase.Won? then [s.phase.attempt] else [])
    && (s.phase.GaveUp? ==> s.ctxDone)
    && (s.released ==> s.phase.Won?)
  }

  /** Before a result decides, nobody live is cancelled; afterwards the winner is
      not, until it is closed. */
  ghost predicate Contexts(s: Race) {
    && (s.phase.Racing? || s.phase.Deciding? ==>
          forall i :: 0 <= i < |s.legs| && Live(s.legs[i]) ==> s.legs[i].attempt !in s.cancelled)
    && (s.phase.Deciding? || s.phase.Won? ==>
          && s.phase.leg < |s.legs| && s.legs[s.phase.leg].Idle?
          && s.phase.leg in s.cancels && s.cancels[s.phase.leg] == s.phase.attempt)
    && (s.phase.Deciding? ==> s.phase.attempt !in s.cancelled)
    && (s.phase.Won? ==> s.phase.release == Some(s.phase.attempt) && (s.phase.attempt in s.cancelled <==> s.released))
  }

  ghost predicate Inv(s: Race) {
    Legs(s) && Channel(s) && Connections(s) && Counts(s) && Contexts(s)
  }

  /** A leg that still runs has room in the channel for its result. */
  lemma RoomToSend(s: Race, i: nat)
    requires Channel(s) && i < |s.legs| && s.legs[i].Running?
    ensures |s.chan| < |s.legs|
  {
    LegsChange(s.legs, i, Reported(0));
    CountBound(s.legs[i := Reported(0)], (l: Leg) => l.Reported?);
  }

  lemma SendKeepsConnections(s: Race, i: nat, ok: bool)
    requires Connections(s) && i < |s.legs| && s.legs[i].Running? && |s.chan| < |s.legs|
    ensures Connections(Send(s, i, ok))
  {
    var s' := Send(s, i, ok);
    assert s'.chan[|s.chan|] == Report(i, s.legs[i].attempt, ok);
    assert forall k :: 0 <= k < |s.chan| ==> s'.chan[k] == s.chan[k];
    forall a
      ensures Buffered(s'.chan, a) <==> Buffered(s.chan, a) || (ok && a == s.legs[i].attempt)
    {
      if Buffered(s.chan, a) {
        var k :| 0 <= k < |s.chan| && s.chan[k].ok && s.chan[k].attempt == a;
        assert s'.chan[k] == s.chan[k];
      }
    }
  }

  lemma SendKeeps(s: Race, i: nat, ok: bool)
    requires Inv(s) && i < |s.legs| && s.legs[i].Running?
    ensures Inv(Send(s, i, ok))
  {
    RoomToSend(s, i);
    LegsChange(s.legs, i, Reported(s.legs[i].attempt));
    SendKeepsConnections(s, i, ok);
  }

  lemma LaunchKeeps(s: Race, i: nat)
    requires Inv(s) && i < |s.legs| && (s.legs[i].Waiting? || (s.legs[i].Idle? && s.phase.Racing?))
    ensures Inv(Launch(s, i))
  {
    LegsChange(s.legs, i, Running(s.launched));
  }

  lemma {:induction false} LaunchFromKeeps(s: Race, i: nat)
    requires Inv(s) && s.phase.Racing?
    requires forall j :: i <= j < |s.legs| ==> s.legs[j].Idle?
    ensures Inv(LaunchFrom(s, i)) && LaunchFrom(s, i).retry == s.retry
    ensures |LaunchFrom(s, i).legs| == |s.legs| && LaunchFrom(s, i).phase.Racing?
    decreases |s.legs| - i
  {
    if i < |s.legs| {
      LaunchKeeps(s, i);
      LaunchFromKeeps(Launch(s, i), i + 1);
    }
  }

  lemma StartInv(retry: bool, n: nat)
    ensures Inv(Start(retry, n)) && |Start(retry, n).legs| == n && Start(retry, n).retry == retry
  {
    var s := Unstarted(retry, n);
    CountBound(s.legs, (l: Leg) => l.Running?);
    CountBound(s.legs, (l: Leg) => l.Reported?);
    LaunchFromKeeps(s, 0);
  }

  /** What taking the first report off the channel leaves of it. */
  lemma Taken(s: Race, l: Leg)
    requires Legs(s) && Channel(s) && s.chan != [] && !Live(l)
    ensures var i := s.chan[0].leg;
      var legs := s.legs[i := l];
      && RunningLegs(legs) == RunningLegs(s.legs)
      && |s.chan[1..]| == ReportedLegs(legs)
      && (forall k :: 0 <= k < |s.chan| - 1 ==> s.chan[1..][k].leg != i && legs[s.chan[1..][k].leg] == Reported(s.chan[1..][k].attempt))
      && !Buffered(s.chan[1..], s.chan[0].attempt)
      && (forall a :: Buffered(s.chan, a) <==> Buffered(s.chan[1..], a) || (s.chan[0].ok && a == s.chan[0].attempt))
  {
    var i := s.chan[0].leg;
    var rest := s.chan[1..];
    LegsChange(s.legs, i, l);
    forall k | 0 <= k < |rest|
      ensures rest[k].leg != i && rest[k].attempt != s.chan[0].attempt
      ensures s.legs[i := l][rest[k].leg] == Reported(rest[k].attempt)
    {
      assert rest[k] == s.chan[k + 1];
      assert Live(s.legs[i]) && Live(s.legs[rest[k].leg]);
    }
    forall a
      ensures Buffered(s.chan, a) <==> Buffered(rest, a) || (s.chan[0].ok && a == s.chan[0].attempt)
    {
      if Buffered(s.chan, a) {
        var k :| 0 <= k < |s.chan| && s.chan[k].ok && s.chan[k].attempt == a;
        assert k > 0 ==> rest[k - 1] == s.chan[k];
      }
      if Buffered(rest, a) {
        var k :| 0 <= k < |rest| && rest[k].ok && rest[k].attempt == a;
        assert rest[k] == s.chan[k + 1];
      }
    }
  }

  lemma ReceiveSuccessKeeps(s: Race)
    requires Inv(s) && Enabled(s, Receive) && s.chan[0].ok
    ensures Inv(Step(s, Receive))
  {
    Taken(s, Idle);
    assert Live(s.legs[s.chan[0].leg]);
    assert s.phase.Racing?;
  }

  lemma ReceiveFailureKeeps(s: Race)
    requires Inv(s) && Enabled(s, Receive) && !s.chan[0].ok
    ensures Inv(Step(s, Receive))
  {
    var s' := TakeFailure(s);
    Taken(s, if s.retry then Waiting else Idle);
    assert Live(s.legs[s.chan[0].leg]);
    assert s'.legs == s.legs[s.chan[0].leg := if s.retry then Waiting else Idle];
    FailureKeepsLegs(s);
    FailureKeepsContexts(s);
    assert Counts(s');
  }

  lemma FailureKeepsLegs(s: Race)
    requires Inv(s) && Enabled(s, Receive)
    ensures Legs(TakeFailure(s))
  {
    assert Live(s.legs[s.chan[0].leg]);
  }

  lemma FailureKeepsContexts(s: Race)
    requires Inv(s) && Enabled(s, Receive)
    ensures Contexts(TakeFailure(s))
  {
    assert Live(s.legs[s.chan[0].leg]);
  }

  lemma DecideKeeps(s: Race)
    requires Inv(s) && Enabled(s, Decide)
    ensures Inv(Step(s, Decide))
  {
  }

  lemma DrainKeeps(s: Race)
    requires Inv(s) && Enabled(s, Drain)
    ensures Inv(Step(s, Drain))
  {
    Taken(s, Idle);
    assert Live(s.legs[s.chan[0].leg]);
  }

  lemma ContextEndKeeps(s: Race)
    requires Inv(s)
    ensures Inv(s.(ctxDone := true))
    ensures s.phase.Racing? && s.ctxDone ==> Inv(Step(s, SeeDone))
  {
  }

  lemma CloseKeeps(s: Race)
    requires Inv(s) && Enabled(s, CloseWinner)
    ensures Inv(Step(s, CloseWinner))
  {
    assert forall k :: 0 <= k < |s.chan| ==> Live(s.legs[s.chan[k].leg]);
  }

  lemma AbandonKeeps(s: Race, i: nat)
    requires Inv(s) && Enabled(s, Abandon(i))
    ensures Inv(Step(s, Abandon(i)))
  {
    LegsChange(s.legs, i, Idle);
  }

  lemma StepShape(s: Race, e: Event)
    requires Enabled(s, e)
    ensures |Step(s, e).legs| == |s.legs| && Step(s, e).retry == s.retry
  {
  }

  lemma ReceiveKeeps(s: Race)
    requires Inv(s) && Enabled(s, Receive)
    ensures Inv(Step(s, Receive))
  {
    if s.chan[0].ok {
      ReceiveSuccessKeeps(s);
    } else {
      ReceiveFailureKeeps(s);
    }
  }

  lemma StepKeeps(s: Race, e: Event)
    requires Inv(s) && Enabled(s, e)
    ensures Inv(Step(s, e))
  {
    if e.Succeeds? {
      SendKeeps(s, e.leg, true);
    } else if e.Fails? {
      SendKeeps(s, e.leg, false);
    } else if e.Receive? {
      ReceiveKeeps(s);
    } else if e.Decide? {
      DecideKeeps(s);
    } else if e.TimerFires? {
      LaunchKeeps(s, e.leg);
    } else if e.Abandon? {
      AbandonKeeps(s, e.leg);
    } else if e.Drain? {
      DrainKeeps(s);
    } else if e.CloseWinner? {
      CloseKeeps(s);
    } else {
      ContextEndKeeps(s);
    }
  }

  lemma {:induction false} RunKeeps(s: Race, es: seq<Event>)
    requires Inv(s) && Allowed(s, es)
    ensures Inv(Run(s, es)) && |Run(s, es).legs| == |s.legs| && Run(s, es).retry == s.retry
    decreases |es|
  {
    if es != [] {
      StepKeeps(s, es[0]);
      StepShape(s, es[0]);
      RunKeeps(Step(s, es[0]), es[1..]);
    }
  }
}
