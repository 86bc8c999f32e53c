/** What every step of the unlock flow keeps: which blocks a coroutine of each kind may
    hand to the IO threads, that at most one expiry is armed and the flow knows it, that
    nothing armed can come to decline a session whose answer has started, and that a
    session which was declined for time is closed. So no machine session is both declined
    for running out of time and answered, unless the two overlap on the IO threads. */
module UnlockSafety {
  import opened Basics
  import opened UnlockFlow

  /** An expiry that may still come to decline. */
  predicate Armed(t: Task) {
    t.kind.Expiry? && !t.cancelled && (t.pc.Delay? || t.pc == Queued(DeclineForTime))
  }

  predicate ArmedNow(s: Flow) {
    s.expiry.Some? && s.expiry.value < |s.tasks| && Armed(s.tasks[s.expiry.value])
  }

  predicate InJob(pc: Pc) {
    pc.Queued? || pc.Started? || pc.Back?
  }

  predicate PcOfKind(t: Task) {
    match t.kind
    case Dial => !t.pc.Delay? && !t.pc.Prompt? && (InJob(t.pc) ==> t.pc.job.DialIt? || t.pc.job.DeclineTheSession?)
    case Approval(_) =>
      && !t.pc.Delay?
      && (InJob(t.pc) ==> !t.pc.job.DialIt? && !t.pc.job.DeclineForTime? && !t.pc.job.DeclineTheSession?)
      && (InJob(t.pc) && t.pc.job.AnswerIt? ==> t.answering)
    case Expiry => !t.pc.Prompt? && !t.pc.Ready? && (InJob(t.pc) ==> t.pc.job.DeclineForTime?)
    case GoHome => !t.pc.Delay? && !t.pc.Prompt? && (InJob(t.pc) ==> t.pc.job.DeclineTheSession?)
  }

  /** The flow has had hold of the session this coroutine dialled. */
  predicate TakenOver(t: Task) {
    t.kind.Dial? && t.reached && (t.pc.Ended? || (InJob(t.pc) && t.pc.job.DeclineTheSession?))
  }

  /** Nothing armed can come to decline session x. */
  predicate Sealed(s: Flow, x: nat) {
    s.session == Some(x) ==> !ArmedNow(s)
  }

  predicate BothSent(w: Wire) {
    w.answered && w.timedOut
  }

  predicate WireOk(s: Flow, i: nat)
    requires i < |s.tasks|
  {
    var t := s.tasks[i];
    && (t.wire != NO_WIRE ==> t.kind.Dial? && t.reached)
    && (t.wire.answered ==> TakenOver(t) && Sealed(s, i))
    && (t.wire.timedOut ==> !t.wire.open)
    && (BothSent(t.wire) ==> t.wire.overlapped)
  }

  predicate TaskOk(s: Flow, i: nat)
    requires i < |s.tasks|
  {
    var t := s.tasks[i];
    && PcOfKind(t)
    && (t.kind.Approval? ==> t.kind.active < |s.tasks| && TakenOver(s.tasks[t.kind.active]))
    && (Armed(t) ==> s.expiry == Some(i))
    && (t.answering ==> t.kind.Approval? && Sealed(s, t.kind.active))
    && WireOk(s, i)
  }

  predicate Refs(s: Flow) {
    && (s.approveRun.Some? ==> s.approveRun.value < |s.tasks| && s.tasks[s.approveRun.value].kind.Approval?)
    && (s.expiry.Some? ==> s.expiry.value < |s.tasks| && s.tasks[s.expiry.value].kind.Expiry?)
    && (s.inFlight.Some? ==> s.inFlight.value < |s.tasks| && s.tasks[s.inFlight.value].kind.Dial?)
    && (s.session.Some? ==> s.session.value < |s.tasks| && TakenOver(s.tasks[s.session.value]))
  }

  /** While the answered session is still the flow's, nobody is about to decline it. */
  predicate Apart(s: Flow) {
    s.session.Some? && WireOf(s, s.session.value).answered && !WireOf(s, s.session.value).overlapped ==> NoneDeclining(s)
  }

  ghost predicate Inv(s: Flow) {
    Refs(s) && Apart(s) && forall i :: 0 <= i < |s.tasks| ==> TaskOk(s, i)
  }

  lemma DisarmKeeps(s: Flow)
    requires Inv(s)
    ensures Inv(Disarm(s)) && !ArmedNow(Disarm(s))
  {
    var s' := Disarm(s);
    forall i | 0 <= i < |s'.tasks|
      ensures TaskOk(s', i)
    {
      assert TaskOk(s, i);
    }
  }

  lemma CloseKeeps(s: Flow)
    requires Inv(s)
    ensures Inv(CloseSession(s))
  {
    var s' := CloseSession(s);
    forall i | 0 <= i < |s'.tasks|
      ensures TaskOk(s', i)
    {
      assert TaskOk(s, i);
    }
  }

  lemma LaunchKeeps(s: Flow, kind: Kind, pc: Pc)
    requires Inv(s)
    requires kind.Approval? ==> kind.active < |s.tasks| && TakenOver(s.tasks[kind.active])
    requires pc.Ready? && !kind.Expiry?
    ensures Inv(Launched(s, kind, pc))
  {
    var s' := Launched(s, kind, pc);
    forall i | 0 <= i < |s'.tasks|
      ensures TaskOk(s', i)
    {
      if i < |s.tasks| {
        assert TaskOk(s, i);
      }
    }
  }

  /** One coroutine moves on, without touching its session or arming anything. */
  lemma MoveKeeps(s: Flow, i: nat, t: Task)
    requires Inv(s) && i < |s.tasks|
    requires t.kind == s.tasks[i].kind && t.wire == s.tasks[i].wire && t.reached == s.tasks[i].reached
    requires t.answering == s.tasks[i].answering
    requires PcOfKind(t) && (Armed(t) ==> Armed(s.tasks[i])) && (TakenOver(s.tasks[i]) ==> TakenOver(t))
    requires DecliningForTime(t) ==> DecliningForTime(s.tasks[i]) || Armed(s.tasks[i])
    ensures Inv(s.(tasks := s.tasks[i := t]))
  {
    var s' := s.(tasks := s.tasks[i := t]);
    assert TaskOk(s, i);
    forall j | 0 <= j < |s'.tasks|
      ensures TaskOk(s', j)
    {
      assert TaskOk(s, j);
    }
    if s.session.Some? && WireOf(s, s.session.value).answered && !WireOf(s, s.session.value).overlapped {
      assert TaskOk(s, s.session.value);
      assert !Armed(s.tasks[i]);
    }
  }

  lemma ScreenKeeps(s: Flow, screen: Screen)
    requires Inv(s)
    ensures Inv(s.(screen := screen))
  {
    var s' := s.(screen := screen);
    forall j | 0 <= j < |s'.tasks|
      ensures TaskOk(s', j)
    {
      assert TaskOk(s, j);
    }
  }

  lemma PressesKeep(s: Flow, e: Event)
    requires Inv(s) && (e.PressConnect? || e.PressApprove? || e.PressCancel?)
    ensures Inv(Step(s, e))
  {
    DisarmKeeps(s);
    var s' := Disarm(s);
    if e.PressConnect? {
      LaunchKeeps(s', Dial, Ready);
      RefsKeep(Launched(s', Dial, Ready), Connecting, s.approveRun, Some(|s'.tasks|));
    } else if e.PressApprove? {
      if s.screen.Approve? && s.session.Some? {
        LaunchKeeps(s, Approval(s.session.value), Ready);
        RefsKeep(Launched(s, Approval(s.session.value), Ready), Working, Some(|s.tasks|), s.inFlight);
      }
    } else if s'.inFlight.Some? {
      var i := s'.inFlight.value;
      assert TaskOk(s', i);
      MoveKeeps(s', i, s'.tasks[i].(dropped := true));
    } else {
      LaunchKeeps(s', GoHome, Ready);
    }
  }

  lemma RefsKeep(s: Flow, screen: Screen, approveRun: Option<nat>, inFlight: Option<nat>)
    requires Inv(s)
    requires approveRun.Some? ==> approveRun.value < |s.tasks| && s.tasks[approveRun.value].kind.Approval?
    requires inFlight.Some? ==> inFlight.value < |s.tasks| && s.tasks[inFlight.value].kind.Dial?
    ensures Inv(s.(screen := screen, approveRun := approveRun, inFlight := inFlight))
  {
    var s' := s.(screen := screen, approveRun := approveRun, inFlight := inFlight);
    forall j | 0 <= j < |s'.tasks|
      ensures TaskOk(s', j)
    {
      assert TaskOk(s, j);
    }
  }

  /** A dialled session becomes the flow's. */
  lemma TakeOverKeeps(s: Flow, i: nat, pc: Pc)
    requires Inv(s) && i < |s.tasks| && s.tasks[i].kind.Dial? && s.tasks[i].reached
    requires s.tasks[i].pc.Back? && s.tasks[i].pc.job.DialIt?
    requires pc.Ended? || pc == Queued(DeclineTheSession)
    ensures Inv(To(s, i, pc).(session := Some(i)))
  {
    var s' := To(s, i, pc).(session := Some(i));
    assert TaskOk(s, i);
    forall j | 0 <= j < |s'.tasks|
      ensures TaskOk(s', j)
    {
      assert TaskOk(s, j);
    }
  }

  lemma ArmKeeps(s: Flow)
    requires Inv(s) && (s.session.Some? ==> !WireOf(s, s.session.value).answered)
    requires s.session.Some? ==> forall j :: 0 <= j < |s.tasks| ==> s.tasks[j].kind != Approval(s.session.value)
    ensures Inv(Arm(s))
  {
    DisarmKeeps(s);
    var d, s' := Disarm(s), Arm(s);
    forall j | 0 <= j < |s'.tasks|
      ensures TaskOk(s', j)
    {
      if j < |d.tasks| {
        assert TaskOk(d, j);
        assert s.tasks[j].kind == d.tasks[j].kind;
      }
    }
  }

  function Landed(s: Flow, i: nat): Flow {
    if s.inFlight == Some(i) then s.(inFlight := None) else s
  }

  lemma LandedKeeps(s: Flow, i: nat)
    requires Inv(s)
    ensures Inv(Landed(s, i)) && Landed(s, i).tasks == s.tasks && Landed(s, i).session == s.session
  {
    RefsKeep(s, s.screen, s.approveRun, Landed(s, i).inFlight);
    assert Landed(s, i) == s.(screen := s.screen, approveRun := s.approveRun, inFlight := Landed(s, i).inFlight);
  }

  lemma EndedKeeps(s: Flow, i: nat, screen: Screen)
    requires Inv(s) && i < |s.tasks| && !s.tasks[i].kind.Approval?
    ensures Inv(To(s, i, Ended).(screen := screen))
  {
    assert TaskOk(s, i);
    MoveKeeps(s, i, s.tasks[i].(pc := Ended));
    ScreenKeeps(To(s, i, Ended), screen);
  }

  /** The dial got through and nobody cancelled it: its session is the flow's,
      and the window for it is armed. */
  lemma DialArrives(s: Flow, i: nat)
    requires Inv(s) && i < |s.tasks| && s.tasks[i].kind.Dial? && s.tasks[i].reached
    requires s.tasks[i].pc.Back? && s.tasks[i].pc.job.DialIt?
    ensures Inv(To(s, i, Ended).(session := Some(i), screen := Failed))
    ensures Inv(Arm(To(s, i, Ended).(session := Some(i), screen := Approve)))
  {
    NobodysYet(s, i);
    TakeOverKeeps(s, i, Ended);
    var s1 := To(s, i, Ended).(session := Some(i));
    ScreenKeeps(s1, Failed);
    ScreenKeeps(s1, Approve);
    ArmKeeps(s1.(screen := Approve));
  }

  lemma DialKeeps(s: Flow, i: nat)
    requires Inv(s) && i < |s.tasks| && s.tasks[i].kind.Dial? && CanResume(s.tasks[i])
    ensures Inv(ResumeDial(s, i))
  {
    var t := s.tasks[i];
    assert TaskOk(s, i);
    LandedKeeps(s, i);
    if t.pc.Ready? {
      MoveKeeps(s, i, t.(pc := Queued(DialIt)));
    } else if t.pc.job.DialIt? && !t.reached {
      EndedKeeps(Landed(s, i), i, if t.dropped then Home else Failed);
    } else if t.pc.job.DialIt? && t.dropped {
      TakeOverKeeps(s, i, Queued(DeclineTheSession));
    } else if t.pc.job.DialIt? {
      DialArrives(Landed(s, i), i);
    } else {
      EndedKeeps(Landed(s, i), i, Home);
    }
  }

  /** A session is not answered, nor meant by any approval, before it is taken over. */
  lemma NobodysYet(s: Flow, i: nat)
    requires Inv(s) && i < |s.tasks| && !TakenOver(s.tasks[i])
    ensures !s.tasks[i].wire.answered
    ensures forall j :: 0 <= j < |s.tasks| ==> s.tasks[j].kind != Approval(i)
  {
    assert TaskOk(s, i);
    forall j | 0 <= j < |s.tasks|
      ensures s.tasks[j].kind != Approval(i)
    {
      assert TaskOk(s, j);
    }
  }

  lemma MoveThenScreen(s: Flow, i: nat, t: Task, screen: Screen)
    requires Inv(s) && i < |s.tasks| && s.tasks[i].kind.Approval? && PcOfKind(t)
    requires t == s.tasks[i].(pc := t.pc, finished := t.finished)
    ensures Inv(s.(tasks := s.tasks[i := t], screen := screen))
  {
    MoveKeeps(s, i, t);
    ScreenKeeps(s.(tasks := s.tasks[i := t]), screen);
  }

  lemma NextPcFits(t: Task)
    requires t.kind.Approval? && CanResume(t) && PcOfKind(t)
    ensures PcOfKind(t.(pc := ApprovalNext(t).pc))
  {
  }

  lemma ApprovalKeepsOn(s: Flow, i: nat, s': Flow)
    requires Inv(s') && |s'.tasks| == |s.tasks| && i < |s.tasks| && s'.tasks[i] == s.tasks[i]
    requires s.tasks[i].kind.Approval? && CanResume(s.tasks[i])
    requires s' == if ApprovalNext(s.tasks[i]).disarms then Disarm(s) else s
    ensures Inv(ResumeApproval(s, i))
  {
    var m := ApprovalNext(s.tasks[i]);
    assert TaskOk(s', i);
    NextPcFits(s'.tasks[i]);
    var t := s'.tasks[i].(pc := m.pc, finished := s'.tasks[i].finished || (m.pc.Ended? && !s.tasks[i].pc.Ready?));
    MoveThenScreen(s', i, t, if m.screen.Some? then m.screen.value else s'.screen);
  }

  lemma ApprovalKeeps(s: Flow, i: nat)
    requires Inv(s) && i < |s.tasks| && s.tasks[i].kind.Approval? && CanResume(s.tasks[i])
    ensures Inv(ResumeApproval(s, i))
  {
    if ApprovalNext(s.tasks[i]).disarms {
      DisarmKeeps(s);
      ApprovalKeepsOn(s, i, Disarm(s));
    } else {
      ApprovalKeepsOn(s, i, s);
    }
  }

  lemma ExpiryKeeps(s: Flow, i: nat)
    requires Inv(s) && i < |s.tasks| && s.tasks[i].kind.Expiry? && CanResume(s.tasks[i])
    ensures Inv(ResumeExpiry(s, i))
  {
    var t := s.tasks[i];
    assert TaskOk(s, i);
    if t.pc.Delay? && !t.cancelled && Waiting(s) {
      var s1 := ExpireRun(s);
      if s.approveRun.Some? {
        var a := s.approveRun.value;
        assert TaskOk(s, a);
        MoveKeeps(s, a, s.tasks[a].(expired := true, cancelled := true));
      }
      MoveKeeps(s1, i, s1.tasks[i].(pc := Queued(DeclineForTime)));
    } else {
      MoveKeeps(s, i, t.(pc := Ended));
      ScreenKeeps(To(s, i, Ended), Failed);
    }
  }

  lemma GoHomeKeeps(s: Flow, i: nat)
    requires Inv(s) && i < |s.tasks| && s.tasks[i].kind.GoHome? && CanResume(s.tasks[i])
    ensures Inv(ResumeGoHome(s, i))
  {
    var t := s.tasks[i];
    assert TaskOk(s, i);
    if t.pc.Ready? {
      MoveKeeps(s, i, t.(pc := Queued(DeclineTheSession)));
    } else {
      MoveKeeps(s, i, t.(pc := Ended));
      ScreenKeeps(To(s, i, Ended), Home);
    }
  }

  /** The answer starts: from here nothing is armed. */
  lemma AnsweringKeeps(s: Flow, i: nat)
    requires Inv(s) && !ArmedNow(s) && i < |s.tasks| && s.tasks[i].kind.Approval?
    ensures Inv(s.(tasks := s.tasks[i := s.tasks[i].(pc := Queued(AnswerIt), answering := true)]))
  {
    var s' := s.(tasks := s.tasks[i := s.tasks[i].(pc := Queued(AnswerIt), answering := true)]);
    assert TaskOk(s, i);
    forall j | 0 <= j < |s'.tasks|
      ensures TaskOk(s', j)
    {
      assert TaskOk(s, j);
    }
  }

  lemma PromptFails(s: Flow, i: nat)
    requires Inv(s) && i < |s.tasks| && s.tasks[i].kind.Approval? && s.tasks[i].pc.Prompt?
    ensures Inv(To(Disarm(s), i, Queued(DeclineActiveAndClose)))
  {
    DisarmKeeps(s);
    var d := Disarm(s);
    assert d.tasks[i].kind.Approval?;
    assert TaskOk(d, i);
    MoveKeeps(d, i, d.tasks[i].(pc := Queued(DeclineActiveAndClose)));
  }

  lemma PromptSucceeds(s: Flow, i: nat)
    requires Inv(s) && i < |s.tasks| && s.tasks[i].kind.Approval? && s.tasks[i].pc.Prompt?
    ensures var d := Disarm(s);
      Inv(d.(tasks := d.tasks[i := d.tasks[i].(pc := Queued(AnswerIt), answering := true)]))
  {
    DisarmKeeps(s);
    assert Disarm(s).tasks[i].kind.Approval?;
    AnsweringKeeps(Disarm(s), i);
  }

  lemma OverKeeps(s: Flow, i: nat, screen: Screen)
    requires Inv(s) && i < |s.tasks| && s.tasks[i].kind.Approval?
    ensures Inv(Over(s, i)) && Inv(Over(s, i).(screen := screen))
  {
    assert TaskOk(s, i);
    MoveKeeps(s, i, s.tasks[i].(pc := Ended, finished := true));
    ScreenKeeps(Over(s, i), screen);
  }

  lemma PromptKeeps(s: Flow, i: nat, outcome: Outcome)
    requires Inv(s) && Enabled(s, PromptReturns(i, outcome))
    ensures Inv(PromptBack(s, i, outcome))
  {
    if s.tasks[i].expired || s.tasks[i].cancelled || outcome.Refused? {
      OverKeeps(s, i, if s.session.Some? then Approve else Failed);
    } else if outcome.Threw? {
      PromptFails(s, i);
    } else {
      PromptSucceeds(s, i);
    }
  }

  lemma DialBegins(s: Flow, i: nat)
    requires Inv(s) && i < |s.tasks| && s.tasks[i].pc == Queued(DialIt)
    ensures Inv(To(CloseSession(s), i, Started(DialIt)))
  {
    CloseKeeps(s);
    var s1 := CloseSession(s);
    assert s1.tasks[i].pc == s.tasks[i].pc;
    assert TaskOk(s1, i);
    MoveKeeps(s1, i, s1.tasks[i].(pc := Started(DialIt)));
  }

  lemma BeginKeeps(s: Flow, i: nat)
    requires Inv(s) && Enabled(s, IoBegins(i))
    ensures Inv(Begin(s, i))
  {
    var t := s.tasks[i];
    assert TaskOk(s, i);
    if t.cancelled {
      MoveKeeps(s, i, t.(pc := Back(t.pc.job, Threw)));
    } else if t.pc.job.DialIt? {
      DialBegins(s, i);
    } else {
      MoveKeeps(s, i, t.(pc := Started(t.pc.job)));
    }
  }

  lemma CloseAndEndKeeps(s: Flow, i: nat, pc: Pc)
    requires Inv(s) && i < |s.tasks| && s.tasks[i].pc.Started? && pc.Back? && pc.job == s.tasks[i].pc.job
    ensures Inv(To(CloseSession(s), i, pc))
  {
    CloseKeeps(s);
    var s1 := CloseSession(s);
    assert s1.tasks[i].pc == s.tasks[i].pc;
    assert TaskOk(s1, i);
    MoveKeeps(s1, i, s1.tasks[i].(pc := pc));
  }

  lemma DeclineOneKeeps(s: Flow, x: nat)
    requires Inv(s)
    ensures Inv(DeclineOne(s, x))
  {
    var s' := DeclineOne(s, x);
    forall j | 0 <= j < |s'.tasks|
      ensures TaskOk(s', j)
    {
      assert TaskOk(s, j);
    }
  }

  /** The wire of a session the flow has had changes, but for being answered. */
  lemma WireKeeps(s: Flow, x: nat, w: Wire)
    requires Inv(s) && x < |s.tasks| && TakenOver(s.tasks[x])
    requires w.answered == s.tasks[x].wire.answered && w.overlapped == s.tasks[x].wire.overlapped
    requires (w.timedOut ==> !w.open) && (BothSent(w) ==> w.overlapped)
    ensures Inv(s.(tasks := s.tasks[x := s.tasks[x].(wire := w)]))
  {
    var s' := s.(tasks := s.tasks[x := s.tasks[x].(wire := w)]);
    WireIsApart(s.tasks[x], w);
    forall j | 0 <= j < |s'.tasks|
      ensures TaskOk(s', j)
    {
      assert TaskOk(s, j);
      WireChangeOk(s, x, w, j);
    }
  }

  lemma WireChangeOk(s: Flow, x: nat, w: Wire, j: nat)
    requires x < |s.tasks| && TakenOver(s.tasks[x]) && TaskOk(s, x) && j < |s.tasks| && TaskOk(s, j)
    requires w.answered == s.tasks[x].wire.answered && w.overlapped == s.tasks[x].wire.overlapped
    requires (w.timedOut ==> !w.open) && (BothSent(w) ==> w.overlapped)
    ensures TaskOk(s.(tasks := s.tasks[x := s.tasks[x].(wire := w)]), j)
  {
    var s' := s.(tasks := s.tasks[x := s.tasks[x].(wire := w)]);
    WireIsApart(s.tasks[x], w);
    assert ArmedNow(s') == ArmedNow(s);
    assert WireOk(s', j);
    if s.tasks[j].kind.Approval? {
      var active := s.tasks[j].kind.active;
      assert TakenOver(s'.tasks[active]) == TakenOver(s.tasks[active]);
      assert Sealed(s', active) == Sealed(s, active);
    }
  }

  lemma NoSessionKeeps(s: Flow)
    requires Inv(s)
    ensures Inv(s.(session := None))
  {
    var s' := s.(session := None);
    forall j | 0 <= j < |s'.tasks|
      ensures TaskOk(s', j)
    {
      assert TaskOk(s, j);
    }
  }

  function GivenUp(w: Wire): Wire {
    if w.open then w.(open := false, declined := true, timedOut := true) else w
  }

  lemma DeclineThenClose(s: Flow, x: nat)
    requires s.session == Some(x) && x < |s.tasks|
    ensures CloseSession(DeclineSession(s, true))
         == s.(tasks := s.tasks[x := s.tasks[x].(wire := GivenUp(s.tasks[x].wire))]).(session := None)
  {
    var t := s.tasks[x];
    if t.wire.open {
      assert DeclineSession(s, true).tasks == s.tasks[x := t.(wire := t.wire.(declined := true, timedOut := true))];
    } else {
      assert s.tasks[x := t.(wire := t.wire)] == s.tasks;
    }
  }

  /** The session is declined for running out of time, and closed: if it was
      answered before, the two overlapped. */
  lemma SessionGivenUp(s: Flow)
    requires Inv(s) && !NoneDeclining(s)
    ensures var s' := CloseSession(DeclineSession(s, true));
      Inv(s') && |s'.tasks| == |s.tasks| && forall j :: 0 <= j < |s.tasks| ==> s'.tasks[j].pc == s.tasks[j].pc
  {
    if s.session.Some? {
      var x := s.session.value;
      assert TaskOk(s, x);
      DeclineThenClose(s, x);
      WireKeeps(s, x, GivenUp(s.tasks[x].wire));
      NoSessionKeeps(s.(tasks := s.tasks[x := s.tasks[x].(wire := GivenUp(s.tasks[x].wire))]));
    }
  }

  lemma BackFromDeclining(s: Flow, i: nat, outcome: Outcome)
    requires Inv(s) && i < |s.tasks| && s.tasks[i].pc == Started(DeclineForTime)
    ensures Inv(To(s, i, Back(DeclineForTime, outcome)))
  {
    assert TaskOk(s, i);
    MoveKeeps(s, i, s.tasks[i].(pc := Back(DeclineForTime, outcome)));
  }

  lemma DeclineForTimeKeeps(s: Flow, i: nat, outcome: Outcome)
    requires Inv(s) && i < |s.tasks| && s.tasks[i].pc == Started(DeclineForTime)
    ensures Inv(To(CloseSession(DeclineSession(s, true)), i, Back(DeclineForTime, outcome)))
  {
    assert DecliningForTime(s.tasks[i]) by {
      assert TaskOk(s, i);
    }
    SessionGivenUp(s);
    BackFromDeclining(CloseSession(DeclineSession(s, true)), i, outcome);
  }

  lemma DeclineTheSessionKeeps(s: Flow, i: nat, outcome: Outcome)
    requires Inv(s) && i < |s.tasks| && s.tasks[i].pc == Started(DeclineTheSession)
    ensures Inv(To(CloseSession(DeclineSession(s, false)), i, Back(DeclineTheSession, outcome)))
  {
    if s.session.Some? {
      DeclineOneKeeps(s, s.session.value);
      assert DeclineSession(s, false) == DeclineOne(s, s.session.value);
    }
    CloseAndEndKeeps(DeclineSession(s, false), i, Back(DeclineTheSession, outcome));
  }

  function Answered(s: Flow, x: nat, overlapped: bool): Flow
    requires x < |s.tasks|
  {
    s.(tasks := s.tasks[x := s.tasks[x].(wire := s.tasks[x].wire.(answered := true, overlapped := overlapped))])
  }

  /** Nothing but WireOk looks at the wire of a task. */
  lemma WireIsApart(t: Task, w: Wire)
    ensures var t' := t.(wire := w);
      PcOfKind(t') == PcOfKind(t) && TakenOver(t') == TakenOver(t) && Armed(t') == Armed(t)
      && DecliningForTime(t') == DecliningForTime(t)
  {
  }

  lemma AnsweredOk(s: Flow, x: nat, overlapped: bool, j: nat)
    requires x < |s.tasks| && TakenOver(s.tasks[x]) && Sealed(s, x) && !s.tasks[x].wire.timedOut
    requires j < |s.tasks| && TaskOk(s, j)
    ensures TaskOk(Answered(s, x, overlapped), j)
  {
    var s' := Answered(s, x, overlapped);
    WireIsApart(s.tasks[x], s'.tasks[x].wire);
    assert ArmedNow(s') == ArmedNow(s);
    assert WireOk(s', j);
    if s.tasks[j].kind.Approval? {
      var active := s.tasks[j].kind.active;
      assert TakenOver(s'.tasks[active]) == TakenOver(s.tasks[active]);
      assert Sealed(s', active) == Sealed(s, active);
    }
  }

  lemma AnsweredKeeps(s: Flow, x: nat, overlapped: bool)
    requires Inv(s) && x < |s.tasks| && TakenOver(s.tasks[x]) && Sealed(s, x) && !s.tasks[x].wire.timedOut
    requires overlapped || NoneDeclining(s)
    ensures Inv(Answered(s, x, overlapped))
  {
    var s' := Answered(s, x, overlapped);
    WireIsApart(s.tasks[x], s'.tasks[x].wire);
    forall j | 0 <= j < |s'.tasks|
      ensures TaskOk(s', j)
    {
      AnsweredOk(s, x, overlapped, j);
    }
  }

  lemma AnswerKeeps(s: Flow, i: nat)
    requires Inv(s) && i < |s.tasks| && s.tasks[i].pc == Started(AnswerIt) && AnswerGoesOut(s, i, Good)
    ensures Inv(End(s, i, Good))
  {
    var x := s.tasks[i].kind.active;
    assert TaskOk(s, i) && TaskOk(s, x);
    MoveKeeps(s, i, s.tasks[i].(pc := Back(AnswerIt, Good)));
    var s' := To(s, i, Back(AnswerIt, Good));
    assert TaskOk(s', i) && WireOf(s', x) == WireOf(s, x);
    AnsweredKeeps(s', x, !NoneDeclining(s));
  }

  lemma DialEnds(s: Flow, i: nat, outcome: Outcome)
    requires Inv(s) && i < |s.tasks| && s.tasks[i].pc == Started(DialIt)
    ensures Inv(End(s, i, outcome))
  {
    assert TaskOk(s, i);
    if outcome.Threw? {
      MoveKeeps(s, i, s.tasks[i].(pc := Back(DialIt, outcome)));
    } else {
      NewSession(s, i, s.tasks[i].(pc := Back(DialIt, outcome), reached := true, wire := Wire(true, false, false, false, false)));
    }
  }

  lemma NewSessionOk(s: Flow, i: nat, t: Task, j: nat)
    requires Refs(s) && i < |s.tasks| && s.tasks[i].pc == Started(DialIt) && s.tasks[i].kind.Dial?
    requires t == s.tasks[i].(pc := t.pc, reached := true, wire := Wire(true, false, false, false, false))
    requires t.pc.Back? && t.pc.job.DialIt?
    requires TaskOk(s, i) && j < |s.tasks| && TaskOk(s, j)
    ensures TaskOk(s.(tasks := s.tasks[i := t]), j)
  {
    var s' := s.(tasks := s.tasks[i := t]);
    assert ArmedNow(s') == ArmedNow(s);
    if j != i {
      assert WireOk(s', j);
      if s.tasks[j].kind.Approval? {
        assert s.tasks[j].kind.active != i;
        assert Sealed(s', s.tasks[j].kind.active) == Sealed(s, s.tasks[j].kind.active);
      }
    }
  }

  lemma NewSession(s: Flow, i: nat, t: Task)
    requires Inv(s) && i < |s.tasks| && s.tasks[i].pc == Started(DialIt) && s.tasks[i].kind.Dial?
    requires t == s.tasks[i].(pc := t.pc, reached := true, wire := Wire(true, false, false, false, false))
    requires t.pc.Back? && t.pc.job.DialIt?
    ensures Inv(s.(tasks := s.tasks[i := t]))
  {
    var s' := s.(tasks := s.tasks[i := t]);
    assert TaskOk(s, i);
    forall j | 0 <= j < |s'.tasks|
      ensures TaskOk(s', j)
    {
      assert TaskOk(s, j);
      NewSessionOk(s, i, t, j);
    }
  }

  lemma EndKeeps(s: Flow, i: nat, outcome: Outcome)
    requires Inv(s) && Enabled(s, IoEnds(i, outcome))
    ensures Inv(End(s, i, outcome))
  {
    var t := s.tasks[i];
    var job := t.pc.job;
    assert TaskOk(s, i);
    if job.DialIt? {
      DialEnds(s, i, outcome);
    } else if job.DeclineForTime? {
      DeclineForTimeKeeps(s, i, outcome);
    } else if job.DeclineTheSession? {
      DeclineTheSessionKeeps(s, i, outcome);
    } else if job.CloseThen? {
      CloseAndEndKeeps(s, i, Back(job, outcome));
    } else if job.AnswerIt? && AnswerGoesOut(s, i, outcome) {
      AnswerKeeps(s, i);
    } else {
      ActiveEnds(s, i, outcome);
    }
  }

  lemma ActiveEnds(s: Flow, i: nat, outcome: Outcome)
    requires Inv(s) && i < |s.tasks| && s.tasks[i].pc.Started? && s.tasks[i].kind.Approval?
    requires var job := s.tasks[i].pc.job;
      job.PrepareKey? || job.DeclineActive? || job.DeclineActiveAndClose? || (job.AnswerIt? && !AnswerGoesOut(s, i, outcome))
    ensures Inv(End(s, i, outcome))
  {
    var t := s.tasks[i];
    var job := t.pc.job;
    var back := if job.AnswerIt? && outcome.Good? then Threw else outcome;
    assert TaskOk(s, i);
    MoveKeeps(s, i, t.(pc := Back(job, back)));
    var s' := To(s, i, Back(job, back));
    if job.DeclineActive? || job.DeclineActiveAndClose? {
      DeclineOneKeeps(s', t.kind.active);
      if job.DeclineActiveAndClose? {
        CloseKeeps(DeclineOne(s', t.kind.active));
      }
    }
  }

  lemma StepKeeps(s: Flow, e: Event)
    requires Inv(s) && Enabled(s, e)
    ensures Inv(Step(s, e))
  {
    if e.Resume? {
      assert TaskOk(s, e.i);
      match s.tasks[e.i].kind
      case Dial => DialKeeps(s, e.i);
      case Approval(_) => ApprovalKeeps(s, e.i);
      case Expiry => ExpiryKeeps(s, e.i);
      case GoHome => GoHomeKeeps(s, e.i);
    } else if e.PromptReturns? {
      PromptKeeps(s, e.i, e.outcome);
    } else if e.IoBegins? {
      BeginKeeps(s, e.i);
    } else if e.IoEnds? {
      EndKeeps(s, e.i, e.outcome);
    } else {
      PressesKeep(s, e);
    }
  }

  lemma {:induction false} RunKeeps(s: Flow, es: seq<Event>)
    requires Inv(s) && Allowed(s, es)
    ensures Inv(Run(s, es))
    decreases |es|
  {
    if es != [] {
      StepKeeps(s, es[0]);
      RunKeeps(Step(s, es[0]), es[1..]);
    }
  }

  // ---- main results ----

  ghost predicate Reached(s: Flow) {
    exists es :: Allowed(Start(), es) && Run(Start(), es) == s
  }

  lemma ReachedInv(s: Flow)
    requires Reached(s)
    ensures Inv(s)
  {
    var es :| Allowed(Start(), es) && Run(Start(), es) == s;
    RunKeeps(Start(), es);
  }

  /** Through any presses, prompts, dismissals and new sessions, and with any number
      of IO threads: a session that is answered is told that its time ran out only
      if its answer went out while the block that tells it had already begun. */
  lemma BothOnlyIfOverlapped(s: Flow, x: nat)
    requires Reached(s) && x < |s.tasks| && BothSent(s.tasks[x].wire)
    ensures s.tasks[x].wire.overlapped
  {
    ReachedInv(s);
    assert TaskOk(s, x);
  }
}
