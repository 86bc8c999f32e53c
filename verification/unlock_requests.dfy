/** What the machine is told, and what the screen says. */
module UnlockRequests {
  import opened Basics
  import opened UnlockFlow
  import opened UnlockSafety
  import opened UnlockStuck
  import opened UnlockLines
  import opened UnlockOutcomes

  // How a request ends, in the state in which nothing is under way any more: nobody
  // answers it, it is declined, or it is approved; a dial that is cancelled as it
  // succeeds, and one that is not.

  function Closed(w: Wire): Wire { w.(open := false) }

  function ToldNo(w: Wire): Wire { w.(open := false, declined := true) }

  function RanOutOfTime(w: Wire): Wire { w.(open := false, declined := true, timedOut := true) }

  /** All but these two coroutines are over. */
  predicate OnlyTwo(s: Flow, i: nat, j: nat) {
    i < |s.tasks| && j < |s.tasks| && forall k :: 0 <= k < |s.tasks| && k != i && k != j ==> s.tasks[k].pc.Ended?
  }

  lemma OneOfTwo(s: Flow, i: nat, j: nat, e: Event)
    requires OnlyTwo(s, i, j) && Enabled(s, e) && NoPress([e])
    ensures !e.PressConnect? && !e.PressApprove? && !e.PressCancel? && (e.i == i || e.i == j)
  {
    assert !([e][0]).PressConnect? && !([e][0]).PressApprove? && !([e][0]).PressCancel?;
  }

  lemma CalmIs(s: Flow, x: nat, exp: nat)
    requires Reached(s) && Calm(s, x, exp)
    ensures x < |s.tasks| && x != exp && s.tasks[x].kind.Dial? && s.tasks[x].wire.open && !s.tasks[x].wire.timedOut
    ensures s.tasks[exp].kind.Expiry? && s.inFlight.None?
  {
    ReachedLines(s);
    assert TaskOk(s, x) && TaskOk(s, exp);
  }

  // ---- nobody answers ----

  predicate Lapsing(s: Flow, x: nat, exp: nat, w: Wire) {
    && OnlyTwo(s, exp, exp) && x < |s.tasks| && s.tasks[x].kind.Dial? && s.tasks[exp].kind.Expiry? && !s.tasks[exp].cancelled && w.open
    && var pc := s.tasks[exp].pc;
    && (pc.Delay? ==> s.screen.Approve?)
    && (pc.Delay? || pc == Queued(DeclineForTime) || pc == Started(DeclineForTime) ==> s.session == Some(x) && s.tasks[x].wire == w)
    && (pc.Back? || pc.Ended? ==> s.session.None? && s.tasks[x].wire == RanOutOfTime(w))
    && (pc.Ended? ==> s.screen.Failed?)
    && (pc.Delay? || pc.Ended? || InBlock(pc))
  }

  lemma LapseResumes(s: Flow, x: nat, exp: nat, w: Wire)
    requires Refs(s) && Lapsing(s, x, exp, w) && CanResume(s.tasks[exp])
    ensures Lapsing(ResumeExpiry(s, exp), x, exp, w)
  {
  }

  lemma LapseEndsBlock(s: Flow, x: nat, exp: nat, w: Wire, outcome: Outcome)
    requires Lapsing(s, x, exp, w) && s.tasks[exp].pc.Started?
    ensures Lapsing(End(s, exp, outcome), x, exp, w)
  {
    DeclineThenClose(s, x);
  }

  lemma LapsesOn(s: Flow, x: nat, exp: nat, w: Wire, e: Event)
    requires Refs(s) && Lapsing(s, x, exp, w) && Enabled(s, e) && NoPress([e])
    ensures Lapsing(Step(s, e), x, exp, w)
  {
    OneOfTwo(s, exp, exp, e);
    if e.Resume? {
      LapseResumes(s, x, exp, w);
    } else if e.IoEnds? {
      LapseEndsBlock(s, x, exp, w, e.outcome);
    }
  }

  lemma {:induction false} LapseRuns(s: Flow, x: nat, exp: nat, w: Wire, es: seq<Event>)
    requires Inv(s) && Lapsing(s, x, exp, w) && Allowed(s, es) && NoPress(es)
    ensures Lapsing(Run(s, es), x, exp, w)
    decreases |es|
  {
    if es != [] {
      FirstPress(es);
      StepKeeps(s, es[0]);
      LapsesOn(s, x, exp, w, es[0]);
      LapseRuns(Step(s, es[0]), x, exp, w, es[1..]);
    }
  }

  /** A request that nobody answers: the machine is told that its time ran out, the
      session is closed, and the screen says so. */
  lemma NobodyAnswers(s: Flow, x: nat, exp: nat, es: seq<Event>)
    requires Reached(s) && Calm(s, x, exp) && Allowed(s, es) && NoPress(es) && AllEnded(Run(s, es))
    ensures var f := Run(s, es);
      f.screen.Failed? && f.session.None? && WireOf(f, x) == RanOutOfTime(WireOf(s, x))
  {
    CalmIs(s, x, exp);
    ReachedLines(s);
    LapseRuns(s, x, exp, WireOf(s, x), es);
    assert Run(s, es).tasks[exp].pc.Ended?;
  }

  // ---- it is declined ----

  predicate Leaving(s: Flow, x: nat, exp: nat, g: nat, w: Wire) {
    && OnlyTwo(s, exp, g) && x < |s.tasks| && exp != g && w.open
    && s.tasks[x].kind.Dial? && s.tasks[exp].kind.Expiry? && s.tasks[g].kind.GoHome?
    && s.tasks[exp].cancelled && (s.tasks[exp].pc.Delay? || s.tasks[exp].pc.Ended?) && !s.tasks[g].cancelled
    && var pc := s.tasks[g].pc;
    && (pc.Ready? || pc.Ended? || (InJob(pc) && pc.job.DeclineTheSession?))
    && (if pc.Back? || pc.Ended? then s.session.None? && s.tasks[x].wire == ToldNo(w)
        else s.session == Some(x) && s.tasks[x].wire == w)
    && (pc.Ended? ==> s.screen.Home?)
  }

  lemma DeclinedThenClosed(s: Flow, x: nat)
    requires s.session == Some(x) && x < |s.tasks| && s.tasks[x].wire.open
    ensures CloseSession(DeclineSession(s, false))
         == s.(tasks := s.tasks[x := s.tasks[x].(wire := ToldNo(s.tasks[x].wire))]).(session := None)
  {
    var t := s.tasks[x];
    assert DeclineSession(s, false).tasks == s.tasks[x := t.(wire := t.wire.(declined := true))];
  }

  lemma LeavesOn(s: Flow, x: nat, exp: nat, g: nat, w: Wire, e: Event)
    requires Leaving(s, x, exp, g, w) && Enabled(s, e) && NoPress([e])
    ensures Leaving(Step(s, e), x, exp, g, w)
  {
    OneOfTwo(s, exp, g, e);
    if e.IoEnds? {
      DeclinedThenClosed(s, x);
    }
  }

  lemma {:induction false} LeaveRuns(s: Flow, x: nat, exp: nat, g: nat, w: Wire, es: seq<Event>)
    requires Leaving(s, x, exp, g, w) && Allowed(s, es) && NoPress(es)
    ensures Leaving(Run(s, es), x, exp, g, w)
    decreases |es|
  {
    if es != [] {
      FirstPress(es);
      LeavesOn(s, x, exp, g, w, es[0]);
      LeaveRuns(Step(s, es[0]), x, exp, g, w, es[1..]);
    }
  }

  /** A waiting machine whose request is declined, cancelled or left is told no, and not
      that its time ran out; the session is closed and the screen is Home. */
  lemma CancelTellsTheMachine(s: Flow, x: nat, exp: nat, es: seq<Event>)
    requires Reached(s) && Calm(s, x, exp)
    requires Allowed(Step(s, PressCancel), es) && NoPress(es) && AllEnded(Run(Step(s, PressCancel), es))
    ensures var f, w := Run(Step(s, PressCancel), es), WireOf(s, x);
      && f.screen.Home? && f.session.None? && WireOf(f, x) == ToldNo(w)
      && !WireOf(f, x).open && WireOf(f, x).declined && !WireOf(f, x).timedOut
  {
    CalmIs(s, x, exp);
    var g, s1 := |s.tasks|, Step(s, PressCancel);
    assert Leaving(s1, x, exp, g, WireOf(s, x));
    LeaveRuns(s1, x, exp, g, WireOf(s, x), es);
    assert Run(s1, es).tasks[g].pc.Ended?;
  }

  // ---- a dial is cancelled ----

  /** The only thing under way is dial d, which can still be cancelled. */
  predicate Dialling(s: Flow, d: nat) {
    && OnlyTwo(s, d, d) && s.tasks[d].kind.Dial? && s.inFlight == Some(d)
    && (s.tasks[d].pc.Ready? || (InJob(s.tasks[d].pc) && s.tasks[d].pc.job.DialIt?))
  }

  predicate Dropping(s: Flow, d: nat) {
    && OnlyTwo(s, d, d)
    && var t := s.tasks[d];
    && t.kind.Dial? && t.dropped && !t.cancelled
    && (t.pc.Ready? || t.pc.Ended? || (InJob(t.pc) && (t.pc.job.DialIt? || t.pc.job.DeclineTheSession?)))
    && (if t.pc.Ended? || (InJob(t.pc) && t.pc.job.DeclineTheSession?) then true else s.session != Some(d))
    && (InJob(t.pc) && t.pc.job.DeclineTheSession? ==> t.reached)
    && (InJob(t.pc) && t.pc.job.DeclineTheSession? && !t.pc.Back? ==> s.session == Some(d))
    && (if !t.reached then t.wire == NO_WIRE
        else if t.pc.Ended? || (t.pc.Back? && t.pc.job.DeclineTheSession?) then s.session.None? && t.wire == ToldNo(NEW_WIRE)
        else t.wire == NEW_WIRE)
    && (t.pc.Ended? ==> s.screen.Home?)
  }

  lemma DropResumes(s: Flow, d: nat)
    requires Dropping(s, d) && CanResume(s.tasks[d])
    ensures Dropping(ResumeDial(s, d), d)
  {
  }

  lemma DropBegins(s: Flow, d: nat)
    requires Refs(s) && Dropping(s, d) && s.tasks[d].pc.Queued?
    ensures Dropping(Begin(s, d), d)
  {
    if s.tasks[d].pc.job.DialIt? {
      ClosesAnother(s, d);
      DropStarts(CloseSession(s), d);
    } else {
      DropStarts(s, d);
    }
  }

  lemma ClosesAnother(s: Flow, d: nat)
    requires Refs(s) && Dropping(s, d) && s.tasks[d].pc == Queued(DialIt)
    ensures Dropping(CloseSession(s), d) && CloseSession(s).tasks[d] == s.tasks[d]
  {
  }

  lemma DropStarts(s: Flow, d: nat)
    requires Dropping(s, d) && s.tasks[d].pc.Queued?
    ensures Dropping(To(s, d, Started(s.tasks[d].pc.job)), d)
  {
  }

  lemma DropEnds(s: Flow, d: nat, outcome: Outcome)
    requires Dropping(s, d) && s.tasks[d].pc.Started?
    ensures Dropping(End(s, d, outcome), d)
  {
    if s.tasks[d].pc.job.DeclineTheSession? {
      DeclinedThenClosed(s, d);
    }
  }

  lemma DropsOn(s: Flow, d: nat, e: Event)
    requires Refs(s) && Dropping(s, d) && Enabled(s, e) && NoPress([e])
    ensures Dropping(Step(s, e), d)
  {
    OneOfTwo(s, d, d, e);
    if e.Resume? {
      DropResumes(s, d);
    } else if e.IoBegins? {
      DropBegins(s, d);
    } else if e.IoEnds? {
      DropEnds(s, d, e.outcome);
    }
  }

  lemma {:induction false} DropRuns(s: Flow, d: nat, es: seq<Event>)
    requires Inv(s) && Dropping(s, d) && Allowed(s, es) && NoPress(es)
    ensures Dropping(Run(s, es), d)
    decreases |es|
  {
    if es != [] {
      FirstPress(es);
      StepKeeps(s, es[0]);
      DropsOn(s, d, es[0]);
      DropRuns(Step(s, es[0]), d, es[1..]);
    }
  }

  /** A dial that is cancelled, at any moment until its result is looked at, leads home;
      and if it got through all the same, the machine, which is now waiting, is told
      no and the session is closed. */
  lemma CancelledDialTellsTheMachine(s: Flow, d: nat, es: seq<Event>)
    requires Reached(s) && Dialling(s, d)
    requires Allowed(Step(s, PressCancel), es) && NoPress(es) && AllEnded(Run(Step(s, PressCancel), es))
    ensures var f := Run(Step(s, PressCancel), es);
      && f.screen.Home? && d < |f.tasks|
      && (f.tasks[d].reached ==> f.session.None? && f.tasks[d].wire == ToldNo(NEW_WIRE))
      && (f.tasks[d].reached ==> !WireOf(f, d).open && WireOf(f, d).declined && !WireOf(f, d).timedOut && !WireOf(f, d).answered)
      && (!f.tasks[d].reached ==> f.tasks[d].wire == NO_WIRE)
  {
    ReachedLines(s);
    assert TaskOk(s, d) && NotYetOk(s.tasks[d]);
    var s1 := Step(s, PressCancel);
    StepKeeps(s, PressCancel);
    assert Dropping(s1, d);
    DropRuns(s1, d, es);
    assert Run(s1, es).tasks[d].pc.Ended?;
  }

  // ---- a new dial ----

  /** Dial d is under way, over an earlier session y that it closes when it begins. */
  predicate Reaching(s: Flow, d: nat, y: Option<nat>, wy: Wire, asked: bool) {
    && OnlyTwo(s, d, d) && (y.Some? ==> y.value < d && s.tasks[y.value].kind.Dial?)
    && var t := s.tasks[d];
    && t.kind.Dial? && !t.dropped && !t.cancelled && (t.pc.Ready? || t.pc.Ended? || (InJob(t.pc) && t.pc.job.DialIt?))
    && (asked <==> t.pc.Back? && t.pc.outcome.Good?)
    && (t.pc.Back? ==> (t.reached <==> !t.pc.outcome.Threw?))
    && t.wire == (if t.reached then NEW_WIRE else NO_WIRE)
    && (t.reached ==> t.pc.Back? || t.pc.Ended?)
    && s.session == (if t.pc.Ready? || t.pc.Queued? then y else if t.pc.Ended? && t.reached then Some(d) else None)
    && (y.Some? ==> s.tasks[y.value].wire == if t.pc.Ready? || t.pc.Queued? then wy else Closed(wy))
    && (t.pc.Ended? ==> s.screen.Failed?)
  }

  /** The dial comes back with a request. */
  predicate AsksNow(s: Flow, e: Event, d: nat) {
    d < |s.tasks| && s.tasks[d].pc == Started(DialIt) && e == IoEnds(d, Good)
  }

  predicate Asks(s: Flow, es: seq<Event>, d: nat)
    requires Allowed(s, es)
    decreases |es|
  {
    es != [] && (AsksNow(s, es[0], d) || Asks(Step(s, es[0]), es[1..], d))
  }

  lemma ReachingOn(s: Flow, d: nat, y: Option<nat>, wy: Wire, asked: bool, e: Event)
    requires Reaching(s, d, y, wy, asked) && wy.open && Enabled(s, e) && NoPress([e])
    ensures (s.tasks[d].pc.Back? && asked) || Reaching(Step(s, e), d, y, wy, asked || AsksNow(s, e, d))
  {
    OneOfTwo(s, d, d, e);
    if e.IoBegins? && y.Some? {
      assert CloseSession(s).tasks == s.tasks[y.value := s.tasks[y.value].(wire := Closed(wy))];
    }
  }

  lemma RequestArrives(s: Flow, d: nat, y: Option<nat>, wy: Wire, e: Event)
    requires Refs(s) && Reaching(s, d, y, wy, true) && |s.tasks| == d + 1 && Enabled(s, e) && NoPress([e])
    ensures Lapsing(Step(s, e), d, d + 1, NEW_WIRE) && !AsksNow(s, e, d)
    ensures y.Some? ==> Step(s, e).tasks[y.value] == s.tasks[y.value]
  {
    OneOfTwo(s, d, d, e);
    var s1 := To(Landed(s, d), d, Ended).(session := Some(d), screen := Approve);
    assert Step(s, e) == Arm(s1);
    assert s.expiry.Some? ==> s.tasks[s.expiry.value].kind.Expiry?;
  }

  lemma {:induction false} LapseNeverAsks(s: Flow, d: nat, exp: nat, es: seq<Event>)
    requires Inv(s) && Lapsing(s, d, exp, NEW_WIRE) && Allowed(s, es) && NoPress(es)
    ensures !Asks(s, es, d)
    decreases |es|
  {
    if es != [] {
      FirstPress(es);
      StepKeeps(s, es[0]);
      LapsesOn(s, d, exp, NEW_WIRE, es[0]);
      LapseNeverAsks(Step(s, es[0]), d, exp, es[1..]);
    }
  }

  /** What a dial and what follows it come to; `asked` says whether a request came. */
  predicate DialEnded(f: Flow, d: nat, y: Option<nat>, wy: Wire, asked: bool) {
    && d < |f.tasks| && f.screen.Failed?
    && (if asked then f.session.None? && f.tasks[d].wire == RanOutOfTime(NEW_WIRE)
        else if f.tasks[d].reached then f.session == Some(d) && f.tasks[d].wire == NEW_WIRE
        else f.session.None? && f.tasks[d].wire == NO_WIRE)
    && (y.Some? ==> WireOf(f, y.value) == Closed(wy))
  }

  lemma LapseEnds(s: Flow, d: nat, y: Option<nat>, wy: Wire, es: seq<Event>)
    requires Inv(s) && Lapsing(s, d, d + 1, NEW_WIRE) && Allowed(s, es) && NoPress(es) && AllEnded(Run(s, es))
    requires y.Some? ==> y.value < |s.tasks| && TakenOver(s.tasks[y.value]) && s.tasks[y.value].wire == Closed(wy)
    ensures DialEnded(Run(s, es), d, y, wy, true)
  {
    LapseRuns(s, d, d + 1, NEW_WIRE, es);
    assert Run(s, es).tasks[d + 1].pc.Ended?;
    if y.Some? {
      ClosedStaysClosed(s, es, y.value);
    }
  }

  lemma {:induction false} ReachingRuns(s: Flow, d: nat, y: Option<nat>, wy: Wire, asked: bool, es: seq<Event>)
    requires Inv(s) && Reaching(s, d, y, wy, asked) && wy.open && |s.tasks| == d + 1
    requires y.Some? ==> TakenOver(s.tasks[y.value])
    requires Allowed(s, es) && NoPress(es) && AllEnded(Run(s, es))
    ensures DialEnded(Run(s, es), d, y, wy, asked || Asks(s, es, d))
    decreases |es|
  {
    if es == [] {
      assert s.tasks[d].pc.Ended?;
    } else {
      var s' := Step(s, es[0]);
      FirstPress(es);
      StepKeeps(s, es[0]);
      if asked {
        RequestArrives(s, d, y, wy, es[0]);
        LapseNeverAsks(s', d, d + 1, es[1..]);
        LapseEnds(s', d, y, wy, es[1..]);
      } else {
        ReachingOn(s, d, y, wy, asked, es[0]);
        ReachingGrows(s, d, y, wy, es[0]);
        ReachingRuns(s', d, y, wy, AsksNow(s, es[0], d), es[1..]);
      }
    }
  }

  lemma ReachingGrows(s: Flow, d: nat, y: Option<nat>, wy: Wire, e: Event)
    requires Inv(s) && Reaching(s, d, y, wy, false) && |s.tasks| == d + 1 && Enabled(s, e) && NoPress([e])
    ensures |Step(s, e).tasks| == d + 1
    ensures y.Some? && TakenOver(s.tasks[y.value]) ==> TakenOver(Step(s, e).tasks[y.value])
  {
    OneOfTwo(s, d, d, e);
    StepFollows(s, e);
  }

  /** A dial from a flow at rest that nobody touches again: it ends on Failed; the session
      there was before is closed; a machine that asked is told that its time ran out,
      one that had nothing to ask is left connected, and one that was not reached is
      no session. */
  lemma UntouchedDialEnds(s: Flow, es: seq<Event>)
    requires Reached(s) && AllEnded(s)
    requires Allowed(Step(s, PressConnect), es) && NoPress(es) && AllEnded(Run(Step(s, PressConnect), es))
    ensures var wy := if s.session.Some? then WireOf(s, s.session.value) else NEW_WIRE;
      DialEnded(Run(Step(s, PressConnect), es), |s.tasks|, s.session, wy, Asks(Step(s, PressConnect), es, |s.tasks|))
  {
    ReachedLines(s);
    var wy := if s.session.Some? then WireOf(s, s.session.value) else NEW_WIRE;
    var s1 := Step(s, PressConnect);
    StepKeeps(s, PressConnect);
    assert s.session.Some? ==> TaskOk(s, s.session.value);
    assert s.expiry.Some? ==> s.tasks[s.expiry.value].kind.Expiry?;
    assert Reaching(s1, |s.tasks|, s.session, wy, false);
    ReachingRuns(s1, |s.tasks|, s.session, wy, false, es);
  }

  // ---- single presses ----

  /** Approving does something only while a request is on the screen. */
  lemma ApproveOnlyWhenAsked(s: Flow)
    ensures Step(s, PressApprove) != s ==> s.screen.Approve? && s.session.Some?
  {
  }

  /** A new dial ends the window of the request before it; a prompt that is dismissed does
      not, and puts the request back on the screen. */
  lemma WindowOfTheLast(s: Flow, exp: nat, i: nat)
    requires Reached(s) && s.expiry == Some(exp)
    ensures var c := Step(s, PressConnect);
      exp < |s.tasks| && c.expiry.None? && c.tasks[exp].cancelled && c.screen.Connecting? && c.inFlight == Some(|s.tasks|)
    ensures Enabled(s, PromptReturns(i, Refused)) && s.session.Some? && !s.tasks[i].cancelled && !s.tasks[i].expired ==>
      var p := Step(s, PromptReturns(i, Refused));
      p.screen.Approve? && p.expiry == Some(exp) && p.tasks[exp] == s.tasks[exp] && p.session == s.session
  {
    ReachedLines(s);
  }
}
