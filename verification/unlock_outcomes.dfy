/** Runs of the unlock flow. What holds of single coroutines over whole runs: with one
    IO thread nothing overlaps, an expired approval never answers, an answer that has
    started is not overtaken; and when a session can be answered and declined. */
module UnlockOutcomes {
  import opened Basics
  import opened UnlockFlow
  import opened UnlockSafety

  /** How one coroutine may change. Unless it is let, no block of it begins, its
      session is not overlapped or declined for time and it does not come to
      answer; what has expired, or was taken over, stays so, and nothing happens to
      a session that is closed. */
  predicate Follows(t: Task, t': Task, begun: bool, out: bool, prompted: bool, timed: bool) {
    && t'.kind == t.kind
    && (t'.pc.Started? ==> t.pc.Started? || begun)
    && (DecliningForTime(t') ==> DecliningForTime(t) || begun)
    && (t'.wire.overlapped ==> t.wire.overlapped || out)
    && (t'.wire.timedOut ==> t.wire.timedOut || timed)
    && (t'.answering ==> t.answering || prompted)
    && (t.expired ==> t'.expired)
    && (TakenOver(t) ==> TakenOver(t'))
    && (TakenOver(t) && !t.wire.open ==> t'.wire == t.wire)
    && (Armed(t') ==> Armed(t))
  }

  predicate New(t: Task) {
    !t.pc.Started? && !t.answering && !t.wire.overlapped && !t.wire.timedOut
  }

  /** The same of all coroutines; -1 lets nobody. */
  ghost predicate AllFollow(s: Flow, s': Flow, begun: int, out: int, prompted: int, timed: int) {
    && |s.tasks| <= |s'.tasks|
    && (forall j :: 0 <= j < |s.tasks| ==> Follows(s.tasks[j], s'.tasks[j], j == begun, j == out, j == prompted, j == timed))
    && (forall j :: |s.tasks| <= j < |s'.tasks| ==> New(s'.tasks[j]))
  }

  lemma FollowOn(a: Flow, b: Flow, c: Flow, begun: int, timed: int)
    requires AllFollow(a, b, -1, -1, -1, timed) && AllFollow(b, c, begun, -1, -1, -1)
    requires begun < |a.tasks|
    ensures AllFollow(a, c, begun, -1, -1, timed)
  {
    forall j | 0 <= j < |a.tasks|
      ensures Follows(a.tasks[j], c.tasks[j], j == begun, false, false, j == timed)
    {
      assert Follows(a.tasks[j], b.tasks[j], false, false, false, j == timed);
      assert Follows(b.tasks[j], c.tasks[j], j == begun, false, false, false);
    }
    forall j | |a.tasks| <= j < |c.tasks|
      ensures New(c.tasks[j])
    {
      if j < |b.tasks| {
        assert New(b.tasks[j]);
        assert Follows(b.tasks[j], c.tasks[j], false, false, false, false);
      }
    }
  }

  lemma DisarmFollows(s: Flow)
    ensures AllFollow(s, Disarm(s), -1, -1, -1, -1)
  {
  }

  lemma ArmFollows(s: Flow)
    ensures AllFollow(s, Arm(s), -1, -1, -1, -1)
  {
  }

  lemma CloseFollows(s: Flow)
    ensures AllFollow(s, CloseSession(s), -1, -1, -1, -1)
  {
  }

  lemma DeclineFollows(s: Flow, forTime: bool)
    ensures AllFollow(s, DeclineSession(s, forTime), -1, -1, -1, if forTime && s.session.Some? then s.session.value else -1)
  {
  }

  lemma DeclineOneFollows(s: Flow, x: nat)
    ensures AllFollow(s, DeclineOne(s, x), -1, -1, -1, -1)
  {
  }

  lemma ToFollows(s: Flow, i: nat, pc: Pc)
    requires i < |s.tasks| && !pc.Started?
    requires TakenOver(s.tasks[i]) ==> TakenOver(s.tasks[i].(pc := pc))
    requires Armed(s.tasks[i].(pc := pc)) ==> Armed(s.tasks[i])
    ensures AllFollow(s, To(s, i, pc), -1, -1, -1, -1)
  {
  }

  lemma PressFollows(s: Flow, e: Event)
    requires e.PressConnect? || e.PressApprove? || e.PressCancel?
    ensures AllFollow(s, Step(s, e), -1, -1, -1, -1)
  {
    DisarmFollows(s);
  }

  lemma ArrivalFollows(s: Flow, i: nat)
    requires i < |s.tasks|
    ensures AllFollow(s, Arm(To(s, i, Ended).(session := Some(i), screen := Approve)), -1, -1, -1, -1)
  {
    var s1 := To(s, i, Ended).(session := Some(i), screen := Approve);
    ToFollows(s, i, Ended);
    ArmFollows(s1);
    FollowOn(s, s1, Arm(s1), -1, -1);
  }

  lemma DialFollows(s: Flow, i: nat)
    requires i < |s.tasks| && CanResume(s.tasks[i]) && PcOfKind(s.tasks[i]) && s.tasks[i].kind.Dial?
    ensures AllFollow(s, ResumeDial(s, i), -1, -1, -1, -1)
  {
    var landed := Landed(s, i);
    assert landed.tasks == s.tasks;
    if s.tasks[i].pc.Ready? {
      ToFollows(s, i, Queued(DialIt));
    }
    ToFollows(s, i, Queued(DeclineTheSession));
    ToFollows(landed, i, Ended);
    ArrivalFollows(landed, i);
  }

  lemma ApprovalFollows(s: Flow, i: nat)
    requires i < |s.tasks| && s.tasks[i].kind.Approval?
    ensures AllFollow(s, ResumeApproval(s, i), -1, -1, -1, -1)
  {
    DisarmFollows(s);
    assert !ApprovalNext(s.tasks[i]).pc.Started?;
  }

  lemma ExpireRunFollows(s: Flow)
    ensures AllFollow(s, ExpireRun(s), -1, -1, -1, -1) && |ExpireRun(s).tasks| == |s.tasks|
  {
  }

  lemma ExpiryFollows(s: Flow, i: nat)
    requires i < |s.tasks| && s.tasks[i].kind.Expiry?
    ensures AllFollow(s, ResumeExpiry(s, i), -1, -1, -1, -1)
  {
    if s.tasks[i].pc.Delay? && !s.tasks[i].cancelled && Waiting(s) {
      ExpireRunFollows(s);
      ToFollows(ExpireRun(s), i, Queued(DeclineForTime));
      FollowOn(s, ExpireRun(s), To(ExpireRun(s), i, Queued(DeclineForTime)), -1, -1);
    } else {
      ToFollows(s, i, Ended);
    }
  }

  lemma PromptFollows(s: Flow, i: nat, outcome: Outcome)
    requires i < |s.tasks| && s.tasks[i].kind.Approval?
    ensures AllFollow(s, PromptBack(s, i, outcome), -1, -1, if outcome.Good? && !s.tasks[i].expired then i else -1, -1)
  {
    DisarmFollows(s);
  }

  lemma BeginFollows(s: Flow, i: nat)
    requires i < |s.tasks| && s.tasks[i].pc.Queued?
    ensures AllFollow(s, Begin(s, i), i, -1, -1, -1)
  {
    if !s.tasks[i].cancelled && s.tasks[i].pc.job.DialIt? {
      CloseFollows(s);
      FollowOn(s, CloseSession(s), To(CloseSession(s), i, Started(DialIt)), i, -1);
    }
  }

  /** The session that a block declines for running out of time. */
  function Times(s: Flow, e: Event): int {
    if e.IoEnds? && e.i < |s.tasks| && s.tasks[e.i].pc == Started(DeclineForTime) && s.session.Some? then s.session.value else -1
  }

  lemma DeclineAndCloseFollows(s: Flow, forTime: bool)
    ensures AllFollow(s, CloseSession(DeclineSession(s, forTime)), -1, -1, -1, if forTime && s.session.Some? then s.session.value else -1)
    ensures |CloseSession(DeclineSession(s, forTime)).tasks| == |s.tasks|
    ensures forall j :: 0 <= j < |s.tasks| ==> CloseSession(DeclineSession(s, forTime)).tasks[j].pc == s.tasks[j].pc
  {
    var s1 := DeclineSession(s, forTime);
    DeclineFollows(s, forTime);
    CloseFollows(s1);
    FollowOn(s, s1, CloseSession(s1), -1, if forTime && s.session.Some? then s.session.value else -1);
  }

  lemma DeclineEnds(s: Flow, i: nat, outcome: Outcome)
    requires i < |s.tasks| && (s.tasks[i].pc == Started(DeclineForTime) || s.tasks[i].pc == Started(DeclineTheSession))
    ensures AllFollow(s, End(s, i, outcome), -1, -1, -1, Times(s, IoEnds(i, outcome)))
  {
    var job := s.tasks[i].pc.job;
    var s2 := CloseSession(DeclineSession(s, job.DeclineForTime?));
    DeclineAndCloseFollows(s, job.DeclineForTime?);
    ToFollows(s2, i, Back(job, outcome));
    FollowOn(s, s2, To(s2, i, Back(job, outcome)), -1, Times(s, IoEnds(i, outcome)));
  }

  lemma CloseThenTo(s: Flow, s': Flow, i: nat, pc: Pc)
    requires AllFollow(s, s', -1, -1, -1, -1) && i < |s.tasks|
    requires !pc.Started? && !pc.Queued? && !pc.Delay? && !TakenOver(CloseSession(s').tasks[i])
    ensures AllFollow(s, To(CloseSession(s'), i, pc), -1, -1, -1, -1)
  {
    CloseFollows(s');
    FollowOn(s, s', CloseSession(s'), -1, -1);
    ToFollows(CloseSession(s'), i, pc);
    FollowOn(s, CloseSession(s'), To(CloseSession(s'), i, pc), -1, -1);
  }

  lemma ActiveEndFollows(s: Flow, i: nat, outcome: Outcome)
    requires i < |s.tasks| && s.tasks[i].kind.Approval? && s.tasks[i].pc.Started?
    requires s.tasks[i].pc.job.DeclineActive? || s.tasks[i].pc.job.DeclineActiveAndClose?
    ensures AllFollow(s, End(s, i, outcome), -1, -1, -1, -1)
  {
    var x, s1 := s.tasks[i].kind.active, To(s, i, Back(s.tasks[i].pc.job, outcome));
    ToFollows(s, i, Back(s.tasks[i].pc.job, outcome));
    DeclineOneFollows(s1, x);
    var s2 := DeclineOne(s1, x);
    FollowOn(s, s1, s2, -1, -1);
    CloseFollows(s2);
    FollowOn(s, s2, CloseSession(s2), -1, -1);
  }

  lemma EndFollows(s: Flow, i: nat, outcome: Outcome)
    requires i < |s.tasks| && s.tasks[i].pc.Started? && !s.tasks[i].pc.job.AnswerIt?
    requires !s.tasks[i].pc.job.DeclineForTime? && !s.tasks[i].pc.job.DeclineTheSession?
    ensures AllFollow(s, End(s, i, outcome), -1, -1, -1, -1)
  {
    var job := s.tasks[i].pc.job;
    if job.CloseThen? {
      CloseThenTo(s, s, i, Back(job, outcome));
    } else if s.tasks[i].kind.Approval? && (job.DeclineActive? || job.DeclineActiveAndClose?) {
      ActiveEndFollows(s, i, outcome);
    } else {
      PlainEndFollows(s, i, outcome);
    }
  }

  lemma PlainEndFollows(s: Flow, i: nat, outcome: Outcome)
    requires i < |s.tasks| && s.tasks[i].pc.Started?
    requires var job := s.tasks[i].pc.job;
      job.PrepareKey? || job.DialIt? || (!s.tasks[i].kind.Approval? && (job.DeclineActive? || job.DeclineActiveAndClose?))
    ensures AllFollow(s, End(s, i, outcome), -1, -1, -1, -1)
  {
    ToFollows(s, i, Back(s.tasks[i].pc.job, outcome));
  }

  function Begins(e: Event): int {
    if e.IoBegins? then e.i else -1
  }

  function Prompts(s: Flow, e: Event): int {
    if e.PromptReturns? && e.outcome.Good? && e.i < |s.tasks| && !s.tasks[e.i].expired then e.i else -1
  }

  /** The session an answer goes out on while it is being declined for time. */
  function Overlaps(s: Flow, e: Event): int {
    if e.IoEnds? && e.i < |s.tasks| && s.tasks[e.i].pc == Started(AnswerIt) && s.tasks[e.i].kind.Approval? && !NoneDeclining(s)
    then s.tasks[e.i].kind.active else -1
  }

  lemma AnswerFollows(s: Flow, i: nat, outcome: Outcome)
    requires i < |s.tasks| && s.tasks[i].pc == Started(AnswerIt) && s.tasks[i].kind.Approval?
    ensures AllFollow(s, End(s, i, outcome), -1, Overlaps(s, IoEnds(i, outcome)), -1, -1)
  {
    var x, back := s.tasks[i].kind.active, Back(AnswerIt, outcome);
    ToFollows(s, i, back);
    ToFollows(s, i, Back(AnswerIt, Threw));
    if AnswerGoesOut(s, i, outcome) {
      var s1 := To(s, i, back);
      assert WireOf(s1, x) == WireOf(s, x);
      GoesOutFollows(s1, x, !NoneDeclining(s));
      FollowOut(s, s1, End(s, i, outcome), Overlaps(s, IoEnds(i, outcome)));
    } else {
      NobodyOut(s, End(s, i, outcome), Overlaps(s, IoEnds(i, outcome)));
    }
  }

  lemma GoesOutFollows(s: Flow, x: nat, overlapped: bool)
    ensures AllFollow(s, SetWire(s, x, WireOf(s, x).(answered := true, overlapped := overlapped)), -1, if overlapped then x else -1, -1, -1)
  {
  }

  lemma NobodyOut(s: Flow, s': Flow, out: int)
    requires AllFollow(s, s', -1, -1, -1, -1)
    ensures AllFollow(s, s', -1, out, -1, -1)
  {
    forall j | 0 <= j < |s.tasks|
      ensures Follows(s.tasks[j], s'.tasks[j], false, j == out, false, false)
    {
      assert Follows(s.tasks[j], s'.tasks[j], false, false, false, false);
    }
  }

  lemma FollowOut(a: Flow, b: Flow, c: Flow, out: int)
    requires AllFollow(a, b, -1, -1, -1, -1) && AllFollow(b, c, -1, out, -1, -1) && |a.tasks| == |b.tasks|
    ensures AllFollow(a, c, -1, out, -1, -1)
  {
    forall j | 0 <= j < |a.tasks|
      ensures Follows(a.tasks[j], c.tasks[j], false, j == out, false, false)
    {
      assert Follows(a.tasks[j], b.tasks[j], false, false, false, false);
      assert Follows(b.tasks[j], c.tasks[j], false, j == out, false, false);
    }
  }

  lemma IoEndFollows(s: Flow, i: nat, outcome: Outcome)
    requires Inv(s) && Enabled(s, IoEnds(i, outcome))
    ensures AllFollow(s, End(s, i, outcome), -1, Overlaps(s, IoEnds(i, outcome)), -1, Times(s, IoEnds(i, outcome)))
  {
    assert TaskOk(s, i);
    var job := s.tasks[i].pc.job;
    if job.AnswerIt? {
      AnswerFollows(s, i, outcome);
    } else if job.DeclineForTime? || job.DeclineTheSession? {
      DeclineEnds(s, i, outcome);
    } else {
      EndFollows(s, i, outcome);
    }
  }

  lemma StepFollows(s: Flow, e: Event)
    requires Inv(s) && Enabled(s, e)
    ensures AllFollow(s, Step(s, e), Begins(e), Overlaps(s, e), Prompts(s, e), Times(s, e))
  {
    if e.Resume? {
      assert TaskOk(s, e.i);
      match s.tasks[e.i].kind
      case Dial => DialFollows(s, e.i);
      case Approval(_) => ApprovalFollows(s, e.i);
      case Expiry => ExpiryFollows(s, e.i);
      case GoHome =>
        ToFollows(s, e.i, Queued(DeclineTheSession));
        ToFollows(s, e.i, Ended);
    } else if e.PromptReturns? {
      PromptFollows(s, e.i, e.outcome);
    } else if e.IoBegins? {
      BeginFollows(s, e.i);
    } else if e.IoEnds? {
      IoEndFollows(s, e.i, e.outcome);
    } else {
      PressFollows(s, e);
    }
  }

  lemma TaskFollows(s: Flow, e: Event, j: nat)
    requires Inv(s) && Enabled(s, e) && j < |s.tasks|
    ensures |s.tasks| <= |Step(s, e).tasks|
    ensures Follows(s.tasks[j], Step(s, e).tasks[j], j == Begins(e), j == Overlaps(s, e), j == Prompts(s, e), j == Times(s, e))
  {
    StepFollows(s, e);
  }

  // ---- one IO thread ----

  /** With one IO thread a block begins only when none is running. */
  predicate OneIoThread(s: Flow, es: seq<Event>)
    requires Allowed(s, es)
    decreases |es|
  {
    es != [] ==>
      && (es[0].IoBegins? ==> forall i :: 0 <= i < |s.tasks| ==> !s.tasks[i].pc.Started?)
      && OneIoThread(Step(s, es[0]), es[1..])
  }

  predicate OneAtATime(s: Flow) {
    && (forall i, j :: 0 <= i < j < |s.tasks| ==> !(s.tasks[i].pc.Started? && s.tasks[j].pc.Started?))
    && (forall x :: 0 <= x < |s.tasks| ==> !s.tasks[x].wire.overlapped)
  }

  lemma StepKeepsOneAtATime(s: Flow, e: Event)
    requires Inv(s) && OneAtATime(s) && Enabled(s, e)
    requires e.IoBegins? ==> forall i :: 0 <= i < |s.tasks| ==> !s.tasks[i].pc.Started?
    ensures OneAtATime(Step(s, e))
  {
    if e.IoEnds? && s.tasks[e.i].pc == Started(AnswerIt) {
      assert TaskOk(s, e.i);
      assert NoneDeclining(s);
    }
    StepFollows(s, e);
    var s' := Step(s, e);
    forall j | 0 <= j < |s'.tasks|
      ensures !s'.tasks[j].wire.overlapped
      ensures s'.tasks[j].pc.Started? ==> j < |s.tasks| && (s.tasks[j].pc.Started? || j == Begins(e))
    {
      if j < |s.tasks| {
        TaskFollows(s, e, j);
      } else {
        assert New(s'.tasks[j]);
      }
    }
  }

  lemma {:induction false} RunKeepsOneAtATime(s: Flow, es: seq<Event>)
    requires Inv(s) && OneAtATime(s) && Allowed(s, es) && OneIoThread(s, es)
    ensures OneAtATime(Run(s, es))
    decreases |es|
  {
    if es != [] {
      StepKeepsOneAtATime(s, es[0]);
      StepKeeps(s, es[0]);
      RunKeepsOneAtATime(Step(s, es[0]), es[1..]);
    }
  }

  /** With one IO thread no session is ever both declined for running out of time
      and answered. */
  lemma NeverBothWithOneIoThread(es: seq<Event>, x: nat)
    requires Allowed(Start(), es) && OneIoThread(Start(), es) && x < |Run(Start(), es).tasks|
    ensures !BothSent(Run(Start(), es).tasks[x].wire)
  {
    var s := Run(Start(), es);
    RunKeepsOneAtATime(Start(), es);
    assert !s.tasks[x].wire.overlapped;
    assert Reached(s);
    if BothSent(s.tasks[x].wire) {
      BothOnlyIfOverlapped(s, x);
    }
  }

  // ---- expired approvals ----

  lemma StepKeepsUnanswering(s: Flow, e: Event, i: nat)
    requires Inv(s) && Enabled(s, e) && i < |s.tasks| && s.tasks[i].expired && !s.tasks[i].answering
    ensures i < |Step(s, e).tasks| && Step(s, e).tasks[i].expired && !Step(s, e).tasks[i].answering
  {
    TaskFollows(s, e, i);
  }

  /** Once the window of an approval has expired, that approval never comes to
      answer, whatever the prompt says later. */
  lemma {:induction false} ExpiredNeverAnswers(s: Flow, es: seq<Event>, i: nat)
    requires Inv(s) && Allowed(s, es) && i < |s.tasks| && s.tasks[i].expired && !s.tasks[i].answering
    ensures i < |Run(s, es).tasks| && !Run(s, es).tasks[i].answering
    decreases |es|
  {
    if es != [] {
      StepKeepsUnanswering(s, es[0], i);
      StepKeeps(s, es[0]);
      ExpiredNeverAnswers(Step(s, es[0]), es[1..], i);
    }
  }

  // ---- an answer under way ----

  /** A session the flow has had, and that nothing now under way will decline for
      running out of time: true of a session whose answer has just been started,
      unless a block that declines had begun before. */
  predicate Safe(s: Flow, x: nat) {
    && x < |s.tasks| && TakenOver(s.tasks[x])
    && (s.session == Some(x) ==> !ArmedNow(s) && NoneDeclining(s))
  }

  lemma AnsweringIsSafe(s: Flow, i: nat)
    requires Inv(s) && i < |s.tasks| && s.tasks[i].answering && NoneDeclining(s)
    ensures s.tasks[i].kind.Approval? && Safe(s, s.tasks[i].kind.active)
  {
    assert TaskOk(s, i);
  }

  /** The flow's session and its expiry stay, or go, or a dial has just arrived. */
  predicate Steady(s: Flow, s': Flow) {
    && (s'.session == s.session || s'.session.None?)
    && (s'.expiry == s.expiry || s'.expiry.None?)
  }

  predicate Arrives(s: Flow, s': Flow) {
    s'.session.Some? && s'.session.value < |s.tasks| && !TakenOver(s.tasks[s'.session.value])
  }

  lemma PressIsSteady(s: Flow, e: Event)
    requires e.PressConnect? || e.PressApprove? || e.PressCancel?
    ensures Steady(s, Step(s, e))
  {
  }

  lemma DialIsSteady(s: Flow, i: nat)
    requires i < |s.tasks| && s.tasks[i].kind.Dial? && CanResume(s.tasks[i])
    ensures Steady(s, ResumeDial(s, i)) || Arrives(s, ResumeDial(s, i))
  {
  }

  lemma EndIsSteady(s: Flow, i: nat, outcome: Outcome)
    requires i < |s.tasks| && s.tasks[i].pc.Started?
    ensures Steady(s, End(s, i, outcome))
  {
  }

  lemma StepIsSteady(s: Flow, e: Event)
    requires Enabled(s, e)
    ensures Steady(s, Step(s, e)) || Arrives(s, Step(s, e))
  {
    if e.Resume? {
      if s.tasks[e.i].kind.Dial? {
        DialIsSteady(s, e.i);
      }
    } else if e.IoEnds? {
      EndIsSteady(s, e.i, e.outcome);
    } else if !e.PromptReturns? && !e.IoBegins? {
      PressIsSteady(s, e);
    }
  }

  /** While a session that was taken over is the flow's, nothing new is armed. */
  lemma NothingNewIsArmed(s: Flow, e: Event, x: nat)
    requires Inv(s) && Enabled(s, e) && Safe(s, x) && Step(s, e).session == Some(x)
    ensures s.session == Some(x) && !ArmedNow(Step(s, e))
  {
    StepIsSteady(s, e);
    var s' := Step(s, e);
    if s'.expiry.Some? {
      var j := s'.expiry.value;
      assert j < |s.tasks|;
      TaskFollows(s, e, j);
    }
  }

  lemma NothingBeginsToDecline(s: Flow, e: Event, x: nat)
    requires Inv(s) && Enabled(s, e) && Safe(s, x) && s.session == Some(x)
    ensures NoneDeclining(Step(s, e))
  {
    var s' := Step(s, e);
    StepFollows(s, e);
    forall j | 0 <= j < |s'.tasks|
      ensures !DecliningForTime(s'.tasks[j])
    {
      if j < |s.tasks| {
        assert TaskOk(s, j);
        TaskFollows(s, e, j);
        assert !Armed(s.tasks[j]);
      } else {
        assert New(s'.tasks[j]);
      }
    }
  }

  lemma StepKeepsSafe(s: Flow, e: Event, x: nat)
    requires Inv(s) && Enabled(s, e) && Safe(s, x)
    ensures Safe(Step(s, e), x) && (Step(s, e).tasks[x].wire.timedOut ==> s.tasks[x].wire.timedOut)
  {
    TaskFollows(s, e, x);
    if Step(s, e).session == Some(x) {
      NothingNewIsArmed(s, e, x);
      NothingBeginsToDecline(s, e, x);
    }
    if s.session == Some(x) {
      NobodyTimes(s, e);
    }
  }

  lemma NobodyTimes(s: Flow, e: Event)
    requires Inv(s) && NoneDeclining(s)
    ensures Times(s, e) == -1
  {
    assert e.IoEnds? && e.i < |s.tasks| ==> TaskOk(s, e.i) && !DecliningForTime(s.tasks[e.i]);
  }

  lemma {:induction false} SafeNeverTimedOut(s: Flow, es: seq<Event>, x: nat)
    requires Inv(s) && Allowed(s, es) && Safe(s, x) && !s.tasks[x].wire.timedOut
    ensures x < |Run(s, es).tasks| && !Run(s, es).tasks[x].wire.timedOut
    decreases |es|
  {
    if es != [] {
      StepKeepsSafe(s, es[0], x);
      StepKeeps(s, es[0]);
      SafeNeverTimedOut(Step(s, es[0]), es[1..], x);
    }
  }

  /** Once an approval has started to answer, at a moment at which no block was
      declining for time, its session is never told that its time ran out, whatever
      is pressed and dialled afterwards. */
  lemma OnceAnsweringNeverTimedOut(s: Flow, es: seq<Event>, i: nat)
    requires Reached(s) && Allowed(s, es) && i < |s.tasks| && s.tasks[i].answering && NoneDeclining(s)
    ensures s.tasks[i].kind.Approval?
    ensures var x := s.tasks[i].kind.active;
      x < |s.tasks| && x < |Run(s, es).tasks| && (Run(s, es).tasks[x].wire.timedOut ==> s.tasks[x].wire.timedOut)
  {
    ReachedInv(s);
    AnsweringIsSafe(s, i);
    var x := s.tasks[i].kind.active;
    RunGrows(s, es);
    if !s.tasks[x].wire.timedOut {
      SafeNeverTimedOut(s, es, x);
    }
  }

  lemma {:induction false} RunGrows(s: Flow, es: seq<Event>)
    requires Inv(s) && Allowed(s, es)
    ensures |s.tasks| <= |Run(s, es).tasks|
    decreases |es|
  {
    if es != [] {
      StepKeeps(s, es[0]);
      StepFollows(s, es[0]);
      RunGrows(Step(s, es[0]), es[1..]);
    }
  }

  // ---- answered and declined for time, exactly when ----

  /** Approval i is about to answer session x. */
  predicate AboutToAnswer(s: Flow, i: nat, x: nat) {
    i < |s.tasks| && s.tasks[i].kind == Approval(x) && s.tasks[i].pc == Queued(AnswerIt) && !s.tasks[i].cancelled
  }

  ghost predicate CanEndInBoth(s: Flow, x: nat) {
    exists es :: Allowed(s, es) && EndsInBoth(Run(s, es), x)
  }

  predicate EndsInBoth(s: Flow, x: nat) {
    x < |s.tasks| && BothSent(s.tasks[x].wire)
  }

  lemma {:induction false} ClosedStaysClosed(s: Flow, es: seq<Event>, x: nat)
    requires Inv(s) && Allowed(s, es) && x < |s.tasks| && TakenOver(s.tasks[x]) && !s.tasks[x].wire.open
    ensures x < |Run(s, es).tasks| && Run(s, es).tasks[x].wire == s.tasks[x].wire
    decreases |es|
  {
    if es != [] {
      TaskFollows(s, es[0], x);
      StepKeeps(s, es[0]);
      ClosedStaysClosed(Step(s, es[0]), es[1..], x);
    }
  }

  /** The declining block ends after the answer went out: two steps, and one more. */
  lemma AnswerThenDecline(s: Flow, i: nat, x: nat, j: nat)
    requires Inv(s) && AboutToAnswer(s, i, x) && s.session == Some(x) && WireOf(s, x).open && !WireOf(s, x).answered
    requires j < |s.tasks| && DecliningForTime(s.tasks[j])
    ensures CanEndInBoth(s, x)
  {
    assert TaskOk(s, i);
    var s1 := Step(s, IoBegins(i));
    assert s1.tasks[i].pc == Started(AnswerIt) && s1.tasks[i].kind == Approval(x) && WireOf(s1, x) == WireOf(s, x);
    var s2 := Step(s1, IoEnds(i, Good));
    assert s2.tasks[x].wire == WireOf(s, x).(answered := true, overlapped := !NoneDeclining(s1));
    assert s2.tasks[j].pc == Started(DeclineForTime) && s2.session == Some(x);
    var s3 := Step(s2, IoEnds(j, Good));
    assert EndsInBoth(s3, x);
    var es := [IoBegins(i), IoEnds(i, Good), IoEnds(j, Good)];
    assert es[1..] == [IoEnds(i, Good), IoEnds(j, Good)] && es[1..][1..] == [IoEnds(j, Good)] && es[1..][1..][1..] == [];
    assert Allowed(s3, []) && Allowed(s2, es[1..][1..]) && Allowed(s1, es[1..]) && Allowed(s, es);
    assert Run(s, es) == Run(s1, es[1..]) && Run(s1, es[1..]) == Run(s2, es[1..][1..]) && Run(s2, es[1..][1..]) == s3;
  }

  lemma AnsweredThenDecline(s: Flow, x: nat, j: nat)
    requires s.session == Some(x) && WireOf(s, x).open && WireOf(s, x).answered
    requires j < |s.tasks| && DecliningForTime(s.tasks[j])
    ensures CanEndInBoth(s, x)
  {
    var es := [IoEnds(j, Good)];
    assert es[1..] == [] && Allowed(Step(s, es[0]), []);
    assert Allowed(s, es) && Run(s, es) == Step(s, es[0]);
    assert EndsInBoth(Run(s, es), x);
  }

  /** Whether a session that is about to be answered can end up both answered and
      declined for time is settled at that moment: it can exactly if it is the
      flow's, still open, and the block that declines for time has begun. */
  lemma BothPossibleIff(s: Flow, i: nat, x: nat)
    requires Reached(s) && AboutToAnswer(s, i, x)
    ensures x < |s.tasks|
    ensures CanEndInBoth(s, x) <==>
      BothSent(s.tasks[x].wire) || (s.session == Some(x) && s.tasks[x].wire.open && !NoneDeclining(s))
  {
    ReachedInv(s);
    assert TaskOk(s, i) && TaskOk(s, x);
    if BothSent(s.tasks[x].wire) {
      assert Allowed(s, []) && EndsInBoth(Run(s, []), x);
    } else if s.session == Some(x) && s.tasks[x].wire.open && !NoneDeclining(s) {
      var j :| 0 <= j < |s.tasks| && DecliningForTime(s.tasks[j]);
      if s.tasks[x].wire.answered {
        AnsweredThenDecline(s, x, j);
      } else {
        AnswerThenDecline(s, i, x, j);
      }
    } else {
      NeverBoth(s, i, x);
    }
  }

  lemma NeverBoth(s: Flow, i: nat, x: nat)
    requires Inv(s) && AboutToAnswer(s, i, x) && x < |s.tasks| && !BothSent(s.tasks[x].wire)
    requires s.session != Some(x) || !s.tasks[x].wire.open || NoneDeclining(s)
    ensures !CanEndInBoth(s, x)
  {
    assert TaskOk(s, i) && TaskOk(s, x);
    forall es | Allowed(s, es)
      ensures !EndsInBoth(Run(s, es), x)
    {
      if !s.tasks[x].wire.open {
        ClosedStaysClosed(s, es, x);
      } else {
        SafeNeverTimedOut(s, es, x);
      }
    }
  }
}
