/** Where the unlock flow stays on Working. Of which approvals that is true after any
    run, and for a machine that waits on the Approve screen, exactly which orders of the
    key's preparation and the window lead there. */
module UnlockStuck {
  import opened Basics
  import opened UnlockFlow
  import opened UnlockSafety

  predicate AllEnded(s: Flow) {
    forall i :: 0 <= i < |s.tasks| ==> s.tasks[i].pc.Ended?
  }

  // ---- whoever is on the Working screen ----

  predicate NextOk(t: Task) {
    InJob(t.pc) && t.pc.job.CloseThen? ==> t.pc.job.next.None? || t.pc.job.next == Some(Failed)
  }

  /** While its screen is up, an approval that has ended was cancelled by its window
      before it came to answer; one that has started to answer was not. */
  predicate AtWork(t: Task) {
    && t.kind.Approval?
    && (t.expired <==> t.cancelled)
    && (t.answering ==> !t.cancelled)
    && (t.pc.Ended? ==> t.cancelled)
    && (InJob(t.pc) && t.pc.job.CloseThen? ==> t.pc.job.next == Some(Failed))
  }

  predicate WorkInv(s: Flow) {
    && (forall i :: 0 <= i < |s.tasks| ==> NextOk(s.tasks[i]))
    && (s.screen.Working? ==> s.approveRun.Some? && s.approveRun.value < |s.tasks| && AtWork(s.tasks[s.approveRun.value]))
  }

  lemma MoveWork(s: Flow, i: nat, t: Task)
    requires WorkInv(s) && i < |s.tasks| && NextOk(t)
    requires s.screen.Working? && s.approveRun == Some(i) ==> AtWork(t)
    ensures WorkInv(s.(tasks := s.tasks[i := t]))
  {
  }

  lemma ScreenWork(s: Flow, screen: Screen)
    requires WorkInv(s) && !screen.Working?
    ensures WorkInv(s.(screen := screen))
  {
  }

  lemma DisarmWork(s: Flow)
    requires Inv(s) && WorkInv(s)
    ensures WorkInv(Disarm(s)) && Disarm(s).screen == s.screen && Disarm(s).approveRun == s.approveRun
    ensures |Disarm(s).tasks| == |s.tasks|
    ensures forall j :: 0 <= j < |s.tasks| && s.tasks[j].kind.Approval? ==> Disarm(s).tasks[j] == s.tasks[j]
  {
  }

  lemma WireWork(s: Flow, x: nat, w: Wire)
    requires WorkInv(s)
    ensures WorkInv(SetWire(s, x, w))
  {
  }

  lemma CloseWork(s: Flow)
    requires WorkInv(s)
    ensures WorkInv(CloseSession(s)) && CloseSession(s).screen == s.screen && CloseSession(s).approveRun == s.approveRun
    ensures |CloseSession(s).tasks| == |s.tasks|
    ensures forall j :: 0 <= j < |s.tasks| ==> CloseSession(s).tasks[j] == s.tasks[j].(wire := CloseSession(s).tasks[j].wire)
  {
  }

  lemma DeclineWork(s: Flow, forTime: bool)
    requires WorkInv(s)
    ensures WorkInv(DeclineSession(s, forTime)) && DeclineSession(s, forTime).screen == s.screen
    ensures DeclineSession(s, forTime).approveRun == s.approveRun && |DeclineSession(s, forTime).tasks| == |s.tasks|
    ensures forall j :: 0 <= j < |s.tasks| ==>
      DeclineSession(s, forTime).tasks[j] == s.tasks[j].(wire := DeclineSession(s, forTime).tasks[j].wire)
  {
  }

  lemma PressKeepsWork(s: Flow, e: Event)
    requires Inv(s) && WorkInv(s) && (e.PressConnect? || e.PressApprove? || e.PressCancel?)
    ensures WorkInv(Step(s, e))
  {
  }

  lemma LandsWork(s: Flow, i: nat, session: Option<nat>, screen: Screen)
    requires WorkInv(s) && i < |s.tasks| && !screen.Working?
    ensures WorkInv(To(Landed(s, i), i, Ended).(session := session, screen := screen))
  {
    ScreenWork(s, screen);
    MoveWork(s.(screen := screen), i, s.tasks[i].(pc := Ended));
  }

  lemma DialKeepsWork(s: Flow, i: nat)
    requires Inv(s) && WorkInv(s) && i < |s.tasks| && CanResume(s.tasks[i]) && s.tasks[i].kind.Dial?
    ensures WorkInv(ResumeDial(s, i))
  {
    assert TaskOk(s, i);
    assert s.approveRun.Some? ==> s.approveRun.value != i;
    var t := s.tasks[i];
    if t.pc.Ready? {
      MoveWork(s, i, t.(pc := Queued(DialIt)));
    } else if !t.pc.job.DialIt? {
      LandsWork(s, i, s.session, Home);
    } else if !t.reached {
      LandsWork(s, i, s.session, if t.dropped then Home else Failed);
    } else if t.dropped {
      MoveWork(s, i, t.(pc := Queued(DeclineTheSession)));
    } else if t.pc.outcome.Good? {
      LandsWork(s, i, Some(i), Approve);
      ArmWork(To(Landed(s, i), i, Ended).(session := Some(i), screen := Approve));
    } else {
      LandsWork(s, i, Some(i), Failed);
    }
  }

  lemma ArmWork(s: Flow)
    requires WorkInv(s) && !s.screen.Working?
    ensures WorkInv(Arm(s))
  {
  }

  lemma GoHomeKeepsWork(s: Flow, i: nat)
    requires Inv(s) && WorkInv(s) && i < |s.tasks| && CanResume(s.tasks[i]) && s.tasks[i].kind.GoHome?
    ensures WorkInv(ResumeGoHome(s, i))
  {
    assert TaskOk(s, i);
    assert s.approveRun.Some? ==> s.approveRun.value != i;
    MoveWork(s, i, s.tasks[i].(pc := Queued(DeclineTheSession)));
    MoveWork(s, i, s.tasks[i].(pc := Ended));
    ScreenWork(To(s, i, Ended), Home);
  }

  lemma ExpiryKeepsWork(s: Flow, i: nat)
    requires Inv(s) && WorkInv(s) && i < |s.tasks| && CanResume(s.tasks[i]) && s.tasks[i].kind.Expiry?
    ensures WorkInv(ResumeExpiry(s, i))
  {
    assert TaskOk(s, i);
    assert s.approveRun.Some? ==> s.approveRun.value != i;
  }

  /** An approval's next move, on a flow that has or has not been disarmed. */
  lemma MoveOnWork(s: Flow, i: nat, m: Move)
    requires WorkInv(s) && i < |s.tasks| && s.tasks[i].kind.Approval? && PcOfKind(s.tasks[i]) && CanResume(s.tasks[i])
    requires m == ApprovalNext(s.tasks[i])
    ensures var t := s.tasks[i].(pc := m.pc, finished := s.tasks[i].finished || (m.pc.Ended? && !s.tasks[i].pc.Ready?));
      WorkInv(s.(tasks := s.tasks[i := t], screen := if m.screen.Some? then m.screen.value else s.screen))
  {
    var t := s.tasks[i].(pc := m.pc, finished := s.tasks[i].finished || (m.pc.Ended? && !s.tasks[i].pc.Ready?));
    assert NextOk(s.tasks[i]) && NextOk(t);
    if m.screen.Some? {
      assert !m.screen.value.Working?;
      ScreenWork(s, m.screen.value);
      MoveWork(s.(screen := m.screen.value), i, t);
    } else {
      assert AtWork(s.tasks[i]) ==> AtWork(t);
      MoveWork(s, i, t);
    }
  }

  lemma ApprovalKeepsWork(s: Flow, i: nat)
    requires Inv(s) && WorkInv(s) && i < |s.tasks| && CanResume(s.tasks[i]) && s.tasks[i].kind.Approval?
    ensures WorkInv(ResumeApproval(s, i))
  {
    assert TaskOk(s, i);
    var m := ApprovalNext(s.tasks[i]);
    DisarmWork(s);
    MoveOnWork(if m.disarms then Disarm(s) else s, i, m);
  }

  lemma PromptKeepsWork(s: Flow, i: nat, outcome: Outcome)
    requires Inv(s) && WorkInv(s) && Enabled(s, PromptReturns(i, outcome))
    ensures WorkInv(PromptBack(s, i, outcome))
  {
    var t, d := s.tasks[i], Disarm(s);
    DisarmWork(s);
    if t.expired || t.cancelled {
      MoveWork(s, i, t.(pc := Ended, finished := true));
    } else if outcome.Refused? {
      var screen := if s.session.Some? then Approve else Failed;
      ScreenWork(s, screen);
      MoveWork(s.(screen := screen), i, t.(pc := Ended, finished := true));
    } else if outcome.Threw? {
      MoveWork(d, i, d.tasks[i].(pc := Queued(DeclineActiveAndClose)));
    } else {
      MoveWork(d, i, d.tasks[i].(pc := Queued(AnswerIt), answering := true));
    }
  }

  lemma BeginKeepsWork(s: Flow, i: nat)
    requires Inv(s) && WorkInv(s) && Enabled(s, IoBegins(i))
    ensures WorkInv(Begin(s, i))
  {
    var t := s.tasks[i];
    assert TaskOk(s, i) && NextOk(t);
    assert AtWork(t) ==> AtWork(t.(pc := Back(t.pc.job, Threw))) && AtWork(t.(pc := Started(t.pc.job)));
    MoveWork(s, i, t.(pc := Back(t.pc.job, Threw)));
    MoveWork(s, i, t.(pc := Started(t.pc.job)));
    if !t.cancelled && t.pc.job.DialIt? {
      CloseWork(s);
      var s' := CloseSession(s);
      MoveWork(s', i, s'.tasks[i].(pc := Started(DialIt)));
    }
  }

  /** A block ends; the coroutine is at the same place, told how. */
  lemma BackWork(s: Flow, i: nat, outcome: Outcome)
    requires WorkInv(s) && i < |s.tasks| && s.tasks[i].pc.Started?
    ensures WorkInv(To(s, i, Back(s.tasks[i].pc.job, outcome)))
  {
    var t := s.tasks[i];
    assert NextOk(t);
    assert AtWork(t) ==> AtWork(t.(pc := Back(t.pc.job, outcome)));
    MoveWork(s, i, t.(pc := Back(t.pc.job, outcome)));
  }

  lemma DialEndKeepsWork(s: Flow, i: nat, outcome: Outcome)
    requires Inv(s) && WorkInv(s) && i < |s.tasks| && s.tasks[i].pc == Started(DialIt)
    ensures WorkInv(End(s, i, outcome))
  {
    assert TaskOk(s, i);
    assert s.approveRun.Some? ==> s.approveRun.value != i;
    BackWork(s, i, outcome);
    MoveWork(s, i, s.tasks[i].(pc := Back(DialIt, outcome), reached := true, wire := Wire(true, false, false, false, false)));
  }

  lemma EndKeepsWork(s: Flow, i: nat, outcome: Outcome)
    requires Inv(s) && WorkInv(s) && Enabled(s, IoEnds(i, outcome))
    ensures WorkInv(End(s, i, outcome))
  {
    var t := s.tasks[i];
    var job := t.pc.job;
    BackWork(s, i, outcome);
    var s' := To(s, i, Back(job, outcome));
    if job.DialIt? {
      DialEndKeepsWork(s, i, outcome);
    } else if job.DeclineForTime? || job.DeclineTheSession? {
      var d := DeclineSession(s, job.DeclineForTime?);
      DeclineWork(s, job.DeclineForTime?);
      CloseWork(d);
      BackWork(CloseSession(d), i, outcome);
    } else if job.CloseThen? {
      CloseWork(s);
      BackWork(CloseSession(s), i, outcome);
    } else if job.AnswerIt? {
      BackWork(s, i, if outcome.Good? then Threw else outcome);
      if t.kind.Approval? {
        WireWork(s', t.kind.active, WireOf(s, t.kind.active).(answered := true, overlapped := !NoneDeclining(s)));
      }
    } else if t.kind.Approval? && !job.PrepareKey? {
      WireWork(s', t.kind.active, WireOf(s', t.kind.active).(declined := true));
      CloseWork(DeclineOne(s', t.kind.active));
    }
  }

  lemma StepKeepsWork(s: Flow, e: Event)
    requires Inv(s) && WorkInv(s) && Enabled(s, e)
    ensures WorkInv(Step(s, e))
  {
    if e.Resume? {
      match s.tasks[e.i].kind
      case Approval(_) => ApprovalKeepsWork(s, e.i);
      case Expiry => ExpiryKeepsWork(s, e.i);
      case Dial => DialKeepsWork(s, e.i);
      case GoHome => GoHomeKeepsWork(s, e.i);
    } else if e.PromptReturns? {
      PromptKeepsWork(s, e.i, e.outcome);
    } else if e.IoBegins? {
      BeginKeepsWork(s, e.i);
    } else if e.IoEnds? {
      EndKeepsWork(s, e.i, e.outcome);
    } else {
      PressKeepsWork(s, e);
    }
  }

  lemma {:induction false} RunKeepsWork(s: Flow, es: seq<Event>)
    requires Inv(s) && WorkInv(s) && Allowed(s, es)
    ensures Inv(Run(s, es)) && WorkInv(Run(s, es))
    decreases |es|
  {
    if es != [] {
      StepKeeps(s, es[0]);
      StepKeepsWork(s, es[0]);
      RunKeepsWork(Step(s, es[0]), es[1..]);
    }
  }

  lemma ReachedWork(s: Flow)
    requires Reached(s)
    ensures Inv(s) && WorkInv(s)
  {
    var es :| Allowed(Start(), es) && Run(Start(), es) == s;
    RunKeepsWork(Start(), es);
  }

  /** After any run, with any presses and sessions: if nothing is under way any more
      and the screen still says Working, then the last approval's window ran out
      before that approval came to answer, and cancelled it. */
  lemma WorkingForeverWasExpired(s: Flow)
    requires Reached(s) && s.screen.Working? && AllEnded(s)
    ensures s.approveRun.Some? && s.approveRun.value < |s.tasks|
    ensures var t := s.tasks[s.approveRun.value];
      t.kind.Approval? && t.expired && t.cancelled && !t.answering
  {
    ReachedWork(s);
  }

  // ---- one machine waiting, its window running, and Approve pressed ----

  /** A machine x waits on the Approve screen, its window exp is running, and nothing
      else is under way. */
  predicate Calm(s: Flow, x: nat, exp: nat) {
    && s.screen.Approve? && s.session == Some(x) && s.expiry == Some(exp)
    && exp < |s.tasks| && s.tasks[exp].pc.Delay? && !s.tasks[exp].cancelled
    && forall i :: 0 <= i < |s.tasks| && i != exp ==> s.tasks[i].pc.Ended?
  }

  /** Approval a of session x, its window exp, and what the machine had been told
      when Approve was pressed. */
  datatype Case = Case(a: nat, exp: nat, x: nat, w: Wire)

  predicate NoPress(es: seq<Event>) {
    forall k :: 0 <= k < |es| ==> !es[k].PressConnect? && !es[k].PressApprove? && !es[k].PressCancel?
  }

  /** The key's preparation comes back cancelled while the window's block is still
      to begin, to end, or to be heard of. */
  predicate Overtakes(s: Flow, e: Event, c: Case) {
    && c.a < |s.tasks| && c.exp < |s.tasks| && e == Resume(c.a)
    && s.tasks[c.a].cancelled && s.tasks[c.a].pc.Back? && s.tasks[c.a].pc.job.PrepareKey?
    && InJob(s.tasks[c.exp].pc)
  }

  /** Of those, the ones in which the block has not begun. */
  predicate OvertakesUnbegun(s: Flow, e: Event, c: Case) {
    Overtakes(s, e, c) && s.tasks[c.exp].pc.Queued?
  }

  /** At some moment of the run the preparation overtakes the window. */
  predicate Happens(s: Flow, es: seq<Event>, c: Case, unbegun: bool)
    requires Allowed(s, es)
    decreases |es|
  {
    es != [] &&
    ((if unbegun then OvertakesUnbegun(s, es[0], c) else Overtakes(s, es[0], c)) || Happens(Step(s, es[0]), es[1..], c, unbegun))
  }

  /** The screen says Working, nothing is under way, and the machine still waits,
      having been told nothing. */
  predicate Stuck(s: Flow, c: Case) {
    s.screen.Working? && AllEnded(s) && s.session == Some(c.x) && WireOf(s, c.x) == c.w
  }

  // ---- where such a run can be ----

  predicate Two(s: Flow, c: Case) {
    && c.a < |s.tasks| && c.exp < |s.tasks| && c.x < |s.tasks|
    && s.tasks[c.a].kind == Approval(c.x) && s.tasks[c.exp].kind.Expiry? && s.tasks[c.x].kind.Dial?
    && s.approveRun == Some(c.a) && (s.expiry.None? || s.expiry == Some(c.exp))
    && forall i :: 0 <= i < |s.tasks| && i != c.a && i != c.exp ==> s.tasks[i].pc.Ended?
  }

  /** The approval has not got past its prompt. */
  predicate Early(t: Task) {
    !t.answering && (t.pc.Ready? || t.pc.Prompt? || t.pc.Ended? || (InJob(t.pc) && t.pc.job.PrepareKey?))
  }

  predicate Untold(s: Flow, c: Case) {
    s.session == Some(c.x) && WireOf(s, c.x) == c.w
  }

  predicate Told(s: Flow, c: Case) {
    s.session.None? && WireOf(s, c.x) == GivenUp(c.w)
  }

  predicate InBlock(pc: Pc) {
    InJob(pc) && pc.job.DeclineForTime?
  }

  /** The window is running. */
  predicate Counting(s: Flow, c: Case)
    requires Two(s, c)
  {
    var t, w := s.tasks[c.a], s.tasks[c.exp];
    && !t.expired && !t.cancelled && Early(t)
    && w.pc.Delay? && !w.cancelled && s.expiry == Some(c.exp) && Untold(s, c)
    && (if t.pc.Ended? then s.screen.Approve? else s.screen.Working? && !t.finished)
  }

  /** The approval has disarmed it, uncancelled. */
  predicate GotPast(s: Flow, c: Case)
    requires Two(s, c)
  {
    var t, w := s.tasks[c.a], s.tasks[c.exp];
    !t.expired && !t.cancelled && w.cancelled && (w.pc.Delay? || w.pc.Ended?)
  }

  /** It has run out, and its block is on its way. */
  predicate RanOut(s: Flow, c: Case)
    requires Two(s, c)
  {
    var t, w := s.tasks[c.a], s.tasks[c.exp];
    && t.expired && t.cancelled && Early(t) && (t.pc.Ended? || s.screen.Working?)
    && InBlock(w.pc) && !w.cancelled && s.expiry == Some(c.exp)
    && (if w.pc.Back? then Told(s, c) else Untold(s, c))
  }

  /** It has said so on the screen. */
  predicate Said(s: Flow, c: Case)
    requires Two(s, c)
  {
    s.tasks[c.a].cancelled && Early(s.tasks[c.a]) && s.tasks[c.exp].pc.Ended? && !s.screen.Working?
  }

  /** It was disarmed by the preparation it had cancelled, before its block began. */
  predicate Silenced(s: Flow, c: Case)
    requires Two(s, c)
  {
    var w := s.tasks[c.exp];
    && s.screen.Working? && s.tasks[c.a].pc.Ended? && w.cancelled && Untold(s, c)
    && (w.pc.Ended? || (InBlock(w.pc) && !w.pc.Started?))
  }

  /** The same after its block had begun: the machine is told, the screen is not. */
  predicate Unheard(s: Flow, c: Case)
    requires Two(s, c)
  {
    var w := s.tasks[c.exp];
    && s.screen.Working? && s.tasks[c.a].pc.Ended? && w.cancelled
    && (w.pc.Ended? || (InBlock(w.pc) && !w.pc.Queued?))
    && (if w.pc.Started? then Untold(s, c) else Told(s, c))
  }

  /** Only the two coroutines move. */
  lemma WhoMoves(s: Flow, c: Case, e: Event)
    requires Two(s, c) && Enabled(s, e) && NoPress([e])
    ensures !e.PressConnect? && !e.PressApprove? && !e.PressCancel?
    ensures e.i == c.a || e.i == c.exp
  {
    assert !([e][0]).PressConnect? && !([e][0]).PressApprove? && !([e][0]).PressCancel?;
  }

  lemma WindowRunsOut(s: Flow, c: Case)
    requires Two(s, c) && Counting(s, c)
    ensures var s' := ResumeExpiry(s, c.exp); Two(s', c) && RanOut(s', c)
  {
    assert Waiting(s);
    assert ExpireRun(s).tasks == s.tasks[c.a := s.tasks[c.a].(expired := true, cancelled := true)];
  }

  lemma CountingResumes(s: Flow, c: Case)
    requires Two(s, c) && Counting(s, c) && CanResume(s.tasks[c.a])
    ensures var s' := ResumeApproval(s, c.a); Two(s', c) && (Counting(s', c) || GotPast(s', c))
  {
    if ApprovalNext(s.tasks[c.a]).disarms {
      assert Disarm(s).tasks == s.tasks[c.exp := s.tasks[c.exp].(cancelled := true)];
    }
  }

  lemma CountingPrompts(s: Flow, c: Case, outcome: Outcome)
    requires Two(s, c) && Counting(s, c) && s.tasks[c.a].pc.Prompt?
    ensures var s' := PromptBack(s, c.a, outcome); Two(s', c) && (Counting(s', c) || GotPast(s', c))
  {
    assert Disarm(s).tasks == s.tasks[c.exp := s.tasks[c.exp].(cancelled := true)];
  }

  lemma CountingOn(s: Flow, c: Case, e: Event)
    requires Two(s, c) && Counting(s, c) && Enabled(s, e) && NoPress([e])
    ensures var s' := Step(s, e); Two(s', c) && (Counting(s', c) || GotPast(s', c) || RanOut(s', c))
    ensures !Overtakes(s, e, c)
  {
    WhoMoves(s, c, e);
    if e.i == c.exp {
      WindowRunsOut(s, c);
    } else if e.Resume? {
      CountingResumes(s, c);
    } else if e.PromptReturns? {
      CountingPrompts(s, c, e.outcome);
    }
  }

  lemma GotPastResumes(s: Flow, c: Case)
    requires Two(s, c) && GotPast(s, c) && CanResume(s.tasks[c.a])
    ensures Two(ResumeApproval(s, c.a), c) && GotPast(ResumeApproval(s, c.a), c)
  {
    assert s.expiry.Some? ==> Disarm(s).tasks == s.tasks[c.exp := s.tasks[c.exp].(cancelled := true)];
  }

  lemma GotPastPrompts(s: Flow, c: Case, outcome: Outcome)
    requires Two(s, c) && GotPast(s, c) && s.tasks[c.a].pc.Prompt?
    ensures Two(PromptBack(s, c.a, outcome), c) && GotPast(PromptBack(s, c.a, outcome), c)
  {
    assert s.expiry.Some? ==> Disarm(s).tasks == s.tasks[c.exp := s.tasks[c.exp].(cancelled := true)];
  }

  lemma GotPastWire(s: Flow, c: Case, x: nat, w: Wire)
    requires Two(s, c) && GotPast(s, c)
    ensures Two(SetWire(s, x, w), c) && GotPast(SetWire(s, x, w), c)
  {
  }

  lemma GotPastClose(s: Flow, c: Case)
    requires Two(s, c) && GotPast(s, c)
    ensures Two(CloseSession(s), c) && GotPast(CloseSession(s), c)
    ensures |CloseSession(s).tasks| == |s.tasks| && CloseSession(s).tasks[c.a].pc == s.tasks[c.a].pc
  {
  }

  lemma GotPastBack(s: Flow, c: Case, outcome: Outcome)
    requires Two(s, c) && GotPast(s, c) && s.tasks[c.a].pc.Started?
    ensures var s' := To(s, c.a, Back(s.tasks[c.a].pc.job, outcome)); Two(s', c) && GotPast(s', c)
  {
  }

  lemma GotPastAnswers(s: Flow, c: Case, outcome: Outcome)
    requires Two(s, c) && GotPast(s, c) && s.tasks[c.a].pc == Started(AnswerIt)
    ensures Two(End(s, c.a, outcome), c) && GotPast(End(s, c.a, outcome), c)
  {
    if AnswerGoesOut(s, c.a, outcome) {
      var s' := To(s, c.a, Back(AnswerIt, outcome));
      GotPastBack(s, c, outcome);
      GotPastWire(s', c, c.x, WireOf(s, c.x).(answered := true, overlapped := !NoneDeclining(s)));
    } else {
      GotPastBack(s, c, if outcome.Good? then Threw else outcome);
    }
  }

  lemma GotPastDeclines(s: Flow, c: Case, outcome: Outcome)
    requires Two(s, c) && GotPast(s, c) && s.tasks[c.a].pc.Started?
    requires s.tasks[c.a].pc.job.DeclineActive? || s.tasks[c.a].pc.job.DeclineActiveAndClose?
    ensures Two(End(s, c.a, outcome), c) && GotPast(End(s, c.a, outcome), c)
  {
    var s' := To(s, c.a, Back(s.tasks[c.a].pc.job, outcome));
    GotPastBack(s, c, outcome);
    GotPastWire(s', c, c.x, WireOf(s', c.x).(declined := true));
    GotPastClose(DeclineOne(s', c.x), c);
  }

  lemma GotPastEnds(s: Flow, c: Case, outcome: Outcome)
    requires Two(s, c) && GotPast(s, c) && PcOfKind(s.tasks[c.a]) && s.tasks[c.a].pc.Started?
    ensures Two(End(s, c.a, outcome), c) && GotPast(End(s, c.a, outcome), c)
  {
    var job := s.tasks[c.a].pc.job;
    if job.AnswerIt? {
      GotPastAnswers(s, c, outcome);
    } else if job.CloseThen? {
      GotPastClose(s, c);
      GotPastBack(CloseSession(s), c, outcome);
    } else if job.PrepareKey? {
      GotPastBack(s, c, outcome);
    } else {
      GotPastDeclines(s, c, outcome);
    }
  }

  lemma GotPastOn(s: Flow, c: Case, e: Event)
    requires Inv(s) && Two(s, c) && GotPast(s, c) && Enabled(s, e) && NoPress([e])
    ensures Two(Step(s, e), c) && GotPast(Step(s, e), c) && !Overtakes(s, e, c)
  {
    WhoMoves(s, c, e);
    assert TaskOk(s, c.a);
    if e.i == c.a {
      if e.Resume? {
        GotPastResumes(s, c);
      } else if e.PromptReturns? {
        GotPastPrompts(s, c, e.outcome);
      } else if e.IoEnds? {
        GotPastEnds(s, c, e.outcome);
      }
    }
  }

  lemma RanOutWindow(s: Flow, c: Case, e: Event)
    requires Two(s, c) && RanOut(s, c) && Enabled(s, e) && (e.Resume? || e.IoBegins? || e.IoEnds?) && e.i == c.exp
    ensures Two(Step(s, e), c) && (RanOut(Step(s, e), c) || Said(Step(s, e), c))
  {
    if e.IoEnds? {
      DeclineThenClose(s, c.x);
    }
  }

  lemma RanOutResumes(s: Flow, c: Case)
    requires Two(s, c) && RanOut(s, c) && CanResume(s.tasks[c.a])
    ensures var s' := ResumeApproval(s, c.a);
      Two(s', c) && (if !s.tasks[c.a].pc.Back? then RanOut(s', c)
                     else if s.tasks[c.exp].pc.Queued? then Silenced(s', c) else Unheard(s', c))
  {
    assert Disarm(s).tasks == s.tasks[c.exp := s.tasks[c.exp].(cancelled := true)];
  }

  lemma RanOutApproval(s: Flow, c: Case, e: Event)
    requires Two(s, c) && RanOut(s, c) && Enabled(s, e) && (e.PromptReturns? || e.IoBegins? || e.IoEnds?) && e.i == c.a
    ensures Two(Step(s, e), c) && RanOut(Step(s, e), c)
  {
  }

  lemma RanOutOn(s: Flow, c: Case, e: Event)
    requires Two(s, c) && RanOut(s, c) && Enabled(s, e) && NoPress([e])
    ensures Two(Step(s, e), c)
    ensures OvertakesUnbegun(s, e, c) ==> Silenced(Step(s, e), c)
    ensures Overtakes(s, e, c) && !OvertakesUnbegun(s, e, c) ==> Unheard(Step(s, e), c)
    ensures !Overtakes(s, e, c) ==> RanOut(Step(s, e), c) || Said(Step(s, e), c)
  {
    WhoMoves(s, c, e);
    if e.i == c.exp {
      RanOutWindow(s, c, e);
    } else if e.Resume? {
      RanOutResumes(s, c);
    } else {
      RanOutApproval(s, c, e);
    }
  }

  lemma SaidOn(s: Flow, c: Case, e: Event)
    requires Two(s, c) && Said(s, c) && Enabled(s, e) && NoPress([e])
    ensures Two(Step(s, e), c) && Said(Step(s, e), c) && !Overtakes(s, e, c)
  {
    WhoMoves(s, c, e);
    assert s.expiry.Some? ==> Disarm(s).tasks == s.tasks[c.exp := s.tasks[c.exp].(cancelled := true)];
  }

  lemma SilencedOn(s: Flow, c: Case, e: Event)
    requires Two(s, c) && Silenced(s, c) && Enabled(s, e) && NoPress([e])
    ensures Two(Step(s, e), c) && Silenced(Step(s, e), c) && !Overtakes(s, e, c)
  {
    WhoMoves(s, c, e);
  }

  lemma UnheardOn(s: Flow, c: Case, e: Event)
    requires Two(s, c) && Unheard(s, c) && Enabled(s, e) && NoPress([e])
    ensures Two(Step(s, e), c) && Unheard(Step(s, e), c) && !Overtakes(s, e, c)
  {
    WhoMoves(s, c, e);
    if e.IoEnds? {
      DeclineThenClose(s, c.x);
    }
  }

  lemma {:induction false} SettledRun(s: Flow, c: Case, es: seq<Event>)
    requires Two(s, c) && (Said(s, c) || Silenced(s, c) || Unheard(s, c)) && Allowed(s, es) && NoPress(es)
    ensures Two(Run(s, es), c) && !Happens(s, es, c, false) && !Happens(s, es, c, true)
    ensures Said(s, c) ==> Said(Run(s, es), c)
    ensures Silenced(s, c) ==> Silenced(Run(s, es), c)
    ensures Unheard(s, c) ==> Unheard(Run(s, es), c)
    decreases |es|
  {
    if es != [] {
      var s' := Step(s, es[0]);
      FirstPress(es);
      if Said(s, c) {
        SaidOn(s, c, es[0]);
      } else if Silenced(s, c) {
        SilencedOn(s, c, es[0]);
      } else {
        UnheardOn(s, c, es[0]);
      }
      SettledRun(s', c, es[1..]);
    }
  }

  lemma FirstPress(es: seq<Event>)
    requires NoPress(es) && es != []
    ensures NoPress([es[0]]) && NoPress(es[1..])
  {
  }

  /** How a run from the press can end: the screen on Working exactly if the
      preparation overtook the window, and then, if the block had not begun, with
      the machine told nothing, and if it had, told that its time ran out. */
  lemma {:induction false} RunFrom(s: Flow, c: Case, es: seq<Event>)
    requires Inv(s) && WorkInv(s) && Two(s, c) && (Counting(s, c) || GotPast(s, c) || RanOut(s, c))
    requires Allowed(s, es) && NoPress(es) && AllEnded(Run(s, es))
    ensures Run(s, es).screen.Working? <==> Happens(s, es, c, false)
    ensures Stuck(Run(s, es), c) <==> Happens(s, es, c, true)
    ensures Run(s, es).screen.Working? && !Stuck(Run(s, es), c) ==> Told(Run(s, es), c)
    decreases |es|
  {
    if es == [] {
      assert s.tasks[c.a].pc.Ended? && s.tasks[c.exp].pc.Ended?;
    } else {
      var s' := Step(s, es[0]);
      FirstPress(es);
      StepKeeps(s, es[0]);
      StepKeepsWork(s, es[0]);
      if Counting(s, c) {
        CountingOn(s, c, es[0]);
        RunFrom(s', c, es[1..]);
      } else if GotPast(s, c) {
        GotPastOn(s, c, es[0]);
        RunFrom(s', c, es[1..]);
      } else {
        RanOutOn(s, c, es[0]);
        if RanOut(s', c) && !Overtakes(s, es[0], c) {
          RunFrom(s', c, es[1..]);
        } else {
          SettledRun(s', c, es[1..]);
        }
      }
    }
  }

  lemma PressStarts(s: Flow, x: nat, exp: nat)
    requires Inv(s) && Calm(s, x, exp)
    ensures var c := Case(|s.tasks|, exp, x, WireOf(s, x));
      Two(Step(s, PressApprove), c) && Counting(Step(s, PressApprove), c)
  {
    assert TaskOk(s, exp);
  }

  /** A machine waits, its window runs and nothing else is under way; Approve is
      pressed, and then everything runs out with nothing more pressed. However the
      preparation, the prompt, the window and the IO threads interleave, the screen
      stays on Working exactly if the preparation came back after the window had
      cancelled it and before that window was done; and the machine is told nothing
      exactly if the window's block had not begun by then. A window that runs out
      while the prompt is up never does that. */
  lemma StuckIff(s: Flow, x: nat, exp: nat, es: seq<Event>)
    requires Reached(s) && Calm(s, x, exp)
    requires Allowed(Step(s, PressApprove), es) && NoPress(es) && AllEnded(Run(Step(s, PressApprove), es))
    ensures var c := Case(|s.tasks|, exp, x, WireOf(s, x));
      var s' := Run(Step(s, PressApprove), es);
      && (s'.screen.Working? <==> Happens(Step(s, PressApprove), es, c, false))
      && (Stuck(s', c) <==> Happens(Step(s, PressApprove), es, c, true))
      && (s'.screen.Working? && !Stuck(s', c) ==> Told(s', c))
  {
    ReachedWork(s);
    PressStarts(s, x, exp);
    StepKeeps(s, PressApprove);
    StepKeepsWork(s, PressApprove);
    RunFrom(Step(s, PressApprove), Case(|s.tasks|, exp, x, WireOf(s, x)), es);
  }
}
