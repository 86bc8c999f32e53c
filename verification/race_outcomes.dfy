/** What every run of a transport race comes to: how many connections are returned,
    which are closed, whose context is over, what is left after a race was won, lost or
    given up, and the runs that show where something stays open. */
module TransportRaceOutcomes {
  import opened Basics
  import opened TransportRace

  /** The state of a race over n transports after some run of it. */
  ghost predicate Reached(s: Race, retry: bool, n: nat) {
    exists es :: Allowed(Start(retry, n), es) && Run(Start(retry, n), es) == s
  }

  lemma ReachedInv(s: Race, retry: bool, n: nat)
    requires Reached(s, retry, n)
    ensures Inv(s) && Trying(s) && LosersCancelled(s)
    ensures |s.legs| == n && s.retry == retry
  {
    var es :| Allowed(Start(retry, n), es) && Run(Start(retry, n), es) == s;
    StartInv(retry, n);
    StartTries(retry, n);
    RunKeeps(Start(retry, n), es);
    RunKeepsTrying(Start(retry, n), es);
  }

  // ---- two more invariants ----

  /** While a race is on, Listen has given up on no transport, and Dial only on
      those that failed; a Dial all of whose transports failed has said so. */
  ghost predicate Trying(s: Race) {
    s.phase.Racing? || s.phase.AllFailed? ==>
      && (forall i :: 0 <= i < |s.legs| && s.legs[i].Idle? ==> if s.retry then s.ctxDone else i in s.failed)
      && (forall i :: i in s.failed ==> i < |s.legs|)
      && (s.phase.Racing? && !s.retry && |s.legs| > 0 ==> s.outstanding > 0)
  }

  /** After a Dial, whoever is still trying has had its context cancelled. */
  ghost predicate LosersCancelled(s: Race) {
    !s.retry && !s.phase.Racing? && !s.phase.Deciding? ==>
      forall i :: 0 <= i < |s.legs| && Live(s.legs[i]) ==> s.legs[i].attempt in s.cancelled
  }

  lemma {:induction false} LaunchFromRuns(s: Race, i: nat)
    requires forall j :: 0 <= j < i && j < |s.legs| ==> s.legs[j].Running?
    requires s.phase.Racing? && s.failed == {} && s.outstanding == i <= |s.legs|
    ensures var s' := LaunchFrom(s, i);
      && |s'.legs| == |s.legs| && s'.phase.Racing? && s'.failed == {} && s'.outstanding == |s.legs|
      && forall j :: 0 <= j < |s'.legs| ==> s'.legs[j].Running?
    decreases |s.legs| - i
  {
    if i < |s.legs| {
      LaunchFromRuns(Launch(s, i), i + 1);
    }
  }

  lemma StartTries(retry: bool, n: nat)
    ensures Trying(Start(retry, n)) && LosersCancelled(Start(retry, n))
  {
    LaunchFromRuns(Unstarted(retry, n), 0);
  }

  lemma {:induction false} FullSet(s: set<nat>, n: nat)
    requires forall i: nat :: i in s <==> i < n
    ensures |s| == n
  {
    if n > 0 {
      FullSet(s - {n - 1}, n - 1);
    }
  }

  /** When the last attempt of a Dial has failed, every transport has. */
  lemma LastFailureFinishes(s: Race)
    requires Inv(s) && Trying(s) && Enabled(s, Receive) && !s.chan[0].ok && !s.retry && s.outstanding == 1
    ensures Step(s, Receive).phase.AllFailed?
  {
    Taken(s, Idle);
    var legs := s.legs[s.chan[0].leg := Idle];
    CountBound(legs, (l: Leg) => l.Running?);
    CountBound(legs, (l: Leg) => l.Reported?);
    forall i: nat | i < |legs|
      ensures i in s.failed + {s.chan[0].leg}
    {
      assert !legs[i].Running? && !legs[i].Reported?;
      assert i != s.chan[0].leg ==> s.legs[i].Idle?;
    }
    FullSet(s.failed + {s.chan[0].leg}, |s.legs|);
    assert Step(s, Receive) == TakeFailure(s);
  }

  lemma StepKeepsTrying(s: Race, e: Event)
    requires Inv(s) && Trying(s) && Enabled(s, e)
    ensures Trying(Step(s, e))
  {
    if e.Receive? && !s.chan[0].ok {
      FailureKeepsTrying(s);
    } else if e.Succeeds? || e.Fails? {
      SendKeepsTrying(s, e.leg, e.Succeeds?);
    } else if e.TimerFires? || e.Abandon? {
      WaiterKeepsTrying(s, e);
    } else {
      LoopKeepsTrying(s, e);
    }
  }

  lemma SendKeepsTrying(s: Race, i: nat, ok: bool)
    requires Trying(s) && i < |s.legs| && s.legs[i].Running?
    ensures Trying(Send(s, i, ok))
  {
  }

  lemma WaiterKeepsTrying(s: Race, e: Event)
    requires Inv(s) && Trying(s) && Enabled(s, e) && (e.TimerFires? || e.Abandon?)
    ensures Trying(Step(s, e))
  {
  }

  lemma LoopKeepsTrying(s: Race, e: Event)
    requires Inv(s) && Trying(s) && Enabled(s, e)
    requires e.CtxDone? || e.SeeDone? || e.Decide? || e.Drain? || e.CloseWinner? || (e.Receive? && s.chan[0].ok)
    ensures Trying(Step(s, e))
  {
  }

  lemma FailureKeepsTrying(s: Race)
    requires Inv(s) && Trying(s) && Enabled(s, Receive) && !s.chan[0].ok
    ensures Trying(TakeFailure(s))
  {
    if !s.retry && s.outstanding == 1 {
      LastFailureFinishes(s);
    }
  }

  lemma StepKeepsLosersCancelled(s: Race, e: Event)
    requires Inv(s) && LosersCancelled(s) && Enabled(s, e)
    ensures LosersCancelled(Step(s, e))
  {
    if !s.retry {
      if e.Receive? && !s.chan[0].ok {
        FinishedLeavesNobody(s);
      } else if e.Succeeds? || e.Fails? {
        SendKeepsLosersCancelled(s, e.leg, e.Succeeds?);
      } else if e.Decide? || e.SeeDone? {
        EverybodyElseIsCancelled(s, e);
      } else if e.Drain? {
        assert s.drain > 0;
      }
    }
  }

  lemma FinishedLeavesNobody(s: Race)
    requires Inv(s) && Enabled(s, Receive) && !s.chan[0].ok && !s.retry
    ensures LosersCancelled(TakeFailure(s))
  {
    var s' := TakeFailure(s);
    ReceiveFailureKeeps(s);
    CountBound(s'.legs, (l: Leg) => l.Running?);
    CountBound(s'.legs, (l: Leg) => l.Reported?);
  }

  lemma SendKeepsLosersCancelled(s: Race, i: nat, ok: bool)
    requires LosersCancelled(s) && i < |s.legs| && s.legs[i].Running?
    ensures LosersCancelled(Send(s, i, ok))
  {
    var s' := Send(s, i, ok);
    assert forall j :: 0 <= j < |s'.legs| && Live(s'.legs[j]) ==> Live(s.legs[j]) && s'.legs[j].attempt == s.legs[j].attempt;
  }

  lemma EverybodyElseIsCancelled(s: Race, e: Event)
    requires Inv(s) && Enabled(s, e) && (e.Decide? || e.SeeDone?)
    ensures LosersCancelled(Step(s, e))
  {
    var s' := Step(s, e);
    forall i | 0 <= i < |s'.legs| && Live(s'.legs[i])
      ensures s'.legs[i].attempt in s'.cancelled
    {
      assert i in s.cancels && s.cancels[i] == s.legs[i].attempt;
    }
  }

  lemma {:induction false} RunKeepsTrying(s: Race, es: seq<Event>)
    requires Inv(s) && Trying(s) && LosersCancelled(s) && Allowed(s, es)
    ensures Trying(Run(s, es)) && LosersCancelled(Run(s, es))
    decreases |es|
  {
    if es != [] {
      StepKeeps(s, es[0]);
      StepKeepsTrying(s, es[0]);
      StepKeepsLosersCancelled(s, es[0]);
      RunKeepsTrying(Step(s, es[0]), es[1..]);
    }
  }

  // ---- main results ----

  /** In every interleaving at most one connection is returned, no attempt ever
      hangs on its result, and the loop's counter is exact. */
  lemma AtMostOneConnection(s: Race, retry: bool, n: nat)
    requires Reached(s, retry, n)
    ensures |s.returned| <= 1 && (s.returned != [] <==> s.phase.Won?)
    ensures |s.legs| == n && |s.chan| <= n && forall i :: 0 <= i < |s.legs| ==> !s.legs[i].Blocked?
    ensures s.phase.Racing? ==> s.outstanding == RunningLegs(s.legs) + |s.chan|
  {
    ReachedInv(s, retry, n);
    CountBound(s.legs, (l: Leg) => l.Reported?);
  }

  lemma WinnerIsNotBuffered(s: Race)
    requires Inv(s) && s.phase.Won?
    ensures !Buffered(s.chan, s.phase.attempt)
  {
    forall k | 0 <= k < |s.chan|
      ensures s.chan[k].attempt != s.phase.attempt
    {
      assert Live(s.legs[s.chan[k].leg]);
    }
  }

  /** An attempt's context is over: its own cancel function was called, or the
      context it was made from, the caller's, has ended. */
  predicate ContextOver(s: Race, a: nat) {
    a in s.cancelled || s.ctxDone
  }

  /** The winner's connection is open for exactly as long as its owner has not
      closed it, and nobody else ever calls its cancel function; but its context
      is over as soon as the caller's is. */
  lemma WinnersContextIsOverIff(s: Race, retry: bool, n: nat)
    requires Reached(s, retry, n) && s.phase.Won?
    ensures s.returned == [s.phase.attempt]
    ensures s.phase.attempt in s.open <==> !s.released
    ensures s.phase.attempt in s.cancelled <==> s.released
    ensures ContextOver(s, s.phase.attempt) <==> s.released || s.ctxDone
  {
    ReachedInv(s, retry, n);
    WinnerIsNotBuffered(s);
  }

  /** So a caller whose own context ends, as it does when the one who gave the race
      a deadline returns, ends the context of a connection that was returned and
      is open. */
  lemma TheCallerEndsTheWinnersContext(s: Race, retry: bool, n: nat)
    requires Reached(s, retry, n) && s.phase.Won? && !s.released
    ensures var s' := Step(s, CtxDone);
      Reached(s', retry, n) && s'.phase == s.phase && !s'.released
      && s'.phase.attempt in s'.open && ContextOver(s', s'.phase.attempt)
  {
    OneAfterAnother(s, retry, n, CtxDone);
    WinnersContextIsOverIff(Step(s, CtxDone), retry, n);
  }

  /** Nothing is left to happen by itself: nobody is trying and the drain has
      ended or waits for a result that is not there. */
  predicate Quiet(s: Race) {
    RunningLegs(s.legs) == 0 && !Enabled(s, Drain)
  }

  function TheWinner(s: Race): set<nat> {
    if s.phase.Won? && !s.released then {s.phase.attempt} else {}
  }

  lemma DrainCanGoOn(s: Race)
    requires Inv(s)
    ensures s.drain > 0 && s.chan != [] ==> Enabled(s, Drain)
  {
  }

  /** A win of a Dial leaves every other success closed and the channel empty,
      and has cancelled whoever still tries. */
  lemma DialLeavesNothingOpen(s: Race, n: nat)
    requires Reached(s, false, n) && s.phase.Won?
    ensures s.drain == RunningLegs(s.legs) + |s.chan|
    ensures forall i :: 0 <= i < |s.legs| && s.legs[i].Running? ==> s.legs[i].attempt in s.cancelled
    ensures Quiet(s) ==> s.chan == [] && s.open == TheWinner(s)
  {
    ReachedInv(s, false, n);
    DrainCanGoOn(s);
  }

  /** A Dial fails only when every transport has, and then nothing is open; while
      it goes on there is always a result, or an attempt, to wait for. */
  lemma DialFailsOnlyIfAllDo(s: Race, n: nat)
    requires Reached(s, false, n) && n > 0
    ensures s.phase.AllFailed? ==> s.open == {} && forall i: nat :: i < n ==> i in s.failed
    ensures s.phase.Racing? ==> s.chan != [] || exists i :: 0 <= i < |s.legs| && s.legs[i].Running?
  {
    ReachedInv(s, false, n);
    CountBound(s.legs, (l: Leg) => l.Running?);
    CountBound(s.legs, (l: Leg) => l.Reported?);
    forall i: nat | i < n && s.phase.AllFailed?
      ensures i in s.failed
    {
      assert s.legs[i].Idle?;
    }
  }

  /** A Listen gives up on no transport while it waits: each is trying, has
      reported, or is about to be tried again. */
  lemma ListenKeepsTryingAll(s: Race, n: nat)
    requires Reached(s, true, n) && s.phase.Racing? && !s.ctxDone
    ensures |s.legs| == n && forall i :: 0 <= i < |s.legs| ==> s.legs[i].Running? || s.legs[i].Reported? || s.legs[i].Waiting?
  {
    ReachedInv(s, true, n);
    forall i | 0 <= i < n
      ensures !s.legs[i].Idle? && !s.legs[i].Blocked?
    {
    }
  }

  /** After a win of a Listen, one result is left over for each relaunch that came
      after it: the drain was counted before. Without such a relaunch nothing is. */
  lemma ListenLeavesTheLateOnes(s: Race, n: nat)
    requires Reached(s, true, n) && s.phase.Won?
    ensures s.drain + s.late == RunningLegs(s.legs) + |s.chan|
    ensures forall a :: a in s.open <==> a in TheWinner(s) || Buffered(s.chan, a)
    ensures Quiet(s) ==> |s.chan| == s.late
    ensures Quiet(s) && s.late == 0 ==> s.open == TheWinner(s)
  {
    ReachedInv(s, true, n);
    DrainCanGoOn(s);
  }

  /** Stopped by its context, a race closes nothing, then or later. */
  lemma {:induction false} GivingUpClosesNothing(s: Race, es: seq<Event>)
    requires Inv(s) && s.phase.GaveUp? && Allowed(s, es)
    ensures Run(s, es).phase.GaveUp? && s.open <= Run(s, es).open
    decreases |es|
  {
    if es != [] {
      StepKeeps(s, es[0]);
      assert Step(s, es[0]).phase.GaveUp? && s.open <= Step(s, es[0]).open;
      GivingUpClosesNothing(Step(s, es[0]), es[1..]);
    }
  }

  // ---- the two leaks ----

  lemma OneAfterAnother(s: Race, retry: bool, n: nat, e: Event)
    requires Reached(s, retry, n) && Enabled(s, e)
    ensures Reached(Step(s, e), retry, n)
  {
    var es :| Allowed(Start(retry, n), es) && Run(Start(retry, n), es) == s;
    Extend(Start(retry, n), es, e);
  }

  lemma {:induction false} Extend(s: Race, es: seq<Event>, e: Event)
    requires Allowed(s, es) && Enabled(Run(s, es), e)
    ensures Allowed(s, es + [e]) && Run(s, es + [e]) == Step(Run(s, es), e)
    decreases |es|
  {
    if es == [] {
      assert [e][1..] == [];
    } else {
      Extend(Step(s, es[0]), es[1..], e);
      assert (es + [e])[1..] == es[1..] + [e];
    }
  }

  lemma Begins(retry: bool, n: nat)
    ensures Reached(Start(retry, n), retry, n)
  {
    assert Allowed(Start(retry, n), []) && Run(Start(retry, n), []) == Start(retry, n);
  }

  lemma StartOfTwo(retry: bool)
    ensures Start(retry, 2) == Race(retry, [Running(0), Running(1)], [], Racing, 2, map[0 := 0, 1 := 1], {}, {}, false,
                                    {}, [], false, 2, 0, 0)
  {
    var s := Unstarted(retry, 2);
    assert LaunchFrom(s, 0) == LaunchFrom(Launch(s, 0), 1);
    assert LaunchFrom(Launch(s, 0), 1) == LaunchFrom(Launch(Launch(s, 0), 1), 2);
    assert Launch(Launch(s, 0), 1).legs == [Running(0), Running(1)];
  }

  /** A listen over two transports: the first has failed and waits to be tried
      again, the second has won. */
  lemma SecondLegWins() returns (s: Race)
    ensures Reached(s, true, 2)
    ensures s == Race(true, [Waiting, Idle], [], Won(1, 1, Some(1)), 0, map[1 := 1], {0}, {0}, false, {1}, [1], false, 2, 0, 0)
  {
    StartOfTwo(true);
    Begins(true, 2);
    s := Start(true, 2);
    OneAfterAnother(s, true, 2, Fails(0));
    s := Step(s, Fails(0));
    assert s.legs == [Reported(0), Running(1)] && s.chan == [Report(0, 0, false)];
    OneAfterAnother(s, true, 2, Receive);
    s := Step(s, Receive);
    assert s.legs == [Waiting, Running(1)] && s.chan == [] && s.cancels == map[1 := 1] && s.cancelled == {0};
    OneAfterAnother(s, true, 2, Succeeds(1));
    s := Step(s, Succeeds(1));
    assert s.legs == [Waiting, Reported(1)] && s.chan == [Report(1, 1, true)];
    OneAfterAnother(s, true, 2, Receive);
    s := Step(s, Receive);
    assert s.legs == [Waiting, Idle] && s.chan == [];
    OneAfterAnother(s, true, 2, Decide);
    s := Step(s, Decide);
    assert s.cancelled == {0};
  }

  /** The first transport is then relaunched and succeeds: that connection stays
      open with nobody to close it, and its attempt was never cancelled. */
  lemma ARelaunchOutlivesTheWin() returns (s: Race)
    ensures Reached(s, true, 2) && Quiet(s) && s.phase.Won? && s.returned == [1]
    ensures 2 in s.open && !ContextOver(s, 2)
  {
    s := SecondLegWins();
    OneAfterAnother(s, true, 2, TimerFires(0));
    s := Step(s, TimerFires(0));
    OneAfterAnother(s, true, 2, Succeeds(0));
    s := Step(s, Succeeds(0));
    CountBound(s.legs, (l: Leg) => l.Running?);
  }

  /** A listen is won and its connection in use when the caller's context ends. */
  lemma TheWinnersContextCanEndFirst() returns (s: Race)
    ensures Reached(s, true, 2) && s.phase.Won? && s.returned == [1]
    ensures !s.released && 1 in s.open && ContextOver(s, 1)
  {
    s := SecondLegWins();
    TheCallerEndsTheWinnersContext(s, true, 2);
    s := Step(s, CtxDone);
  }

  /** One leg succeeds at the moment the caller's context ends: the loop may see
      the context first, and the connection stays open and is not returned. */
  lemma AContextEndCanLeak() returns (s: Race)
    ensures Reached(s, false, 2) && s.phase.GaveUp? && s.returned == [] && 0 in s.open
  {
    StartOfTwo(false);
    Begins(false, 2);
    s := Start(false, 2);
    OneAfterAnother(s, false, 2, Succeeds(0));
    s := Step(s, Succeeds(0));
    OneAfterAnother(s, false, 2, CtxDone);
    s := Step(s, CtxDone);
    OneAfterAnother(s, false, 2, SeeDone);
    s := Step(s, SeeDone);
  }
}
