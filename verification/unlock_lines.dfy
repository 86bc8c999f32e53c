/** What a reached unlock flow can rely on. The session that is the flow's is open, a
    dial in flight has not ended, and a session that was dialled and not yet taken over
    is untouched. */
module UnlockLines {
  import opened Basics
  import opened UnlockFlow
  import opened UnlockSafety
  import opened UnlockStuck

  const NEW_WIRE := Wire(true, false, false, false, false)

  predicate LinesOk(s: Flow) {
    && (s.inFlight.Some? ==> s.inFlight.value < |s.tasks| && !s.tasks[s.inFlight.value].pc.Ended?)
    && (s.session.Some? ==> s.session.value < |s.tasks| && s.tasks[s.session.value].wire.open)
    && forall i :: 0 <= i < |s.tasks| ==> NotYetOk(s.tasks[i])
  }

  /** A dialled session that the flow has not had yet is untouched, and nobody cancels
      the coroutine of a dial or of going home. */
  predicate NotYetOk(t: Task) {
    && (t.kind.Dial? && !TakenOver(t) ==> t.wire == if t.reached then NEW_WIRE else NO_WIRE)
    && (t.kind.Dial? || t.kind.GoHome? ==> !t.cancelled)
  }

  predicate ExpiryRef(s: Flow) {
    s.expiry.Some? ==> s.expiry.value < |s.tasks| && s.tasks[s.expiry.value].kind.Expiry?
  }

  lemma MoveLines(s: Flow, i: nat, t: Task)
    requires LinesOk(s) && i < |s.tasks| && NotYetOk(t) && (s.tasks[i].wire.open ==> t.wire.open)
    requires s.inFlight == Some(i) ==> !t.pc.Ended?
    ensures LinesOk(s.(tasks := s.tasks[i := t]))
  {
  }

  lemma AddLines(s: Flow, kind: Kind, pc: Pc)
    requires LinesOk(s)
    ensures LinesOk(Launched(s, kind, pc))
  {
  }

  lemma DisarmLines(s: Flow)
    requires LinesOk(s) && ExpiryRef(s)
    ensures LinesOk(Disarm(s)) && |Disarm(s).tasks| == |s.tasks|
    ensures Disarm(s).session == s.session && Disarm(s).inFlight == s.inFlight
  {
  }

  lemma CloseLines(s: Flow)
    requires LinesOk(s) && (s.session.Some? ==> s.session.value < |s.tasks| && TakenOver(s.tasks[s.session.value]))
    ensures LinesOk(CloseSession(s)) && CloseSession(s).inFlight == s.inFlight && CloseSession(s).session == None
    ensures |CloseSession(s).tasks| == |s.tasks|
    ensures forall j :: 0 <= j < |s.tasks| ==> CloseSession(s).tasks[j] == s.tasks[j].(wire := CloseSession(s).tasks[j].wire)
    ensures forall j :: 0 <= j < |s.tasks| && s.session != Some(j) ==> CloseSession(s).tasks[j] == s.tasks[j]
  {
  }

  lemma WireLines(s: Flow, x: nat, w: Wire)
    requires LinesOk(s) && x < |s.tasks| && TakenOver(s.tasks[x]) && (s.tasks[x].wire.open ==> w.open)
    ensures LinesOk(SetWire(s, x, w)) && |SetWire(s, x, w).tasks| == |s.tasks|
  {
    WireIsApart(s.tasks[x], w);
    MoveLines(s, x, s.tasks[x].(wire := w));
  }

  lemma StaysTaken(s: Flow, x: nat, w: Wire, j: nat)
    requires x < |s.tasks| && j < |s.tasks| && TakenOver(s.tasks[j])
    ensures TakenOver(SetWire(s, x, w).tasks[j]) && SetWire(s, x, w).tasks[j].pc == s.tasks[j].pc
    ensures SetWire(s, x, w).session == s.session
  {
    WireIsApart(s.tasks[x], w);
  }

  lemma PressLines(s: Flow, e: Event)
    requires Inv(s) && LinesOk(s) && (e.PressConnect? || e.PressApprove? || e.PressCancel?)
    ensures LinesOk(Step(s, e))
  {
    DisarmLines(s);
    var d := Disarm(s);
    if e.PressConnect? {
      AddLines(d, Dial, Ready);
    } else if e.PressApprove? {
      if s.screen.Approve? && s.session.Some? {
        AddLines(s, Approval(s.session.value), Ready);
      }
    } else if d.inFlight.Some? {
      MoveLines(d, d.inFlight.value, d.tasks[d.inFlight.value].(dropped := true));
    } else {
      AddLines(d, GoHome, Ready);
    }
  }

  lemma LandLines(s: Flow, i: nat, session: Option<nat>, screen: Screen)
    requires LinesOk(s) && i < |s.tasks| && s.tasks[i].kind.Dial?
    requires NotYetOk(s.tasks[i].(pc := Ended))
    requires session == s.session || (session == Some(i) && s.tasks[i].wire.open)
    ensures LinesOk(To(Landed(s, i), i, Ended).(session := session, screen := screen))
  {
  }

  lemma ArmLines(s: Flow)
    requires LinesOk(s) && ExpiryRef(s)
    ensures LinesOk(Arm(s))
  {
    DisarmLines(s);
    AddLines(Disarm(s), Expiry, Delay);
  }

  lemma DialLines(s: Flow, i: nat)
    requires Inv(s) && LinesOk(s) && i < |s.tasks| && CanResume(s.tasks[i]) && s.tasks[i].kind.Dial?
    ensures LinesOk(ResumeDial(s, i))
  {
    var t := s.tasks[i];
    assert TaskOk(s, i) && NotYetOk(t);
    if t.pc.Ready? {
      MoveLines(s, i, t.(pc := Queued(DialIt)));
    } else if !t.pc.job.DialIt? {
      LandLines(s, i, s.session, Home);
    } else if !t.reached {
      LandLines(s, i, s.session, if t.dropped then Home else Failed);
    } else if t.dropped {
      MoveLines(s, i, t.(pc := Queued(DeclineTheSession)));
    } else if t.pc.outcome.Good? {
      LandLines(s, i, Some(i), Approve);
      ArmLines(To(Landed(s, i), i, Ended).(session := Some(i), screen := Approve));
    } else {
      LandLines(s, i, Some(i), Failed);
    }
  }

  lemma ApprovalLines(s: Flow, i: nat)
    requires Inv(s) && LinesOk(s) && i < |s.tasks| && CanResume(s.tasks[i]) && s.tasks[i].kind.Approval?
    ensures LinesOk(ResumeApproval(s, i))
  {
    DisarmLines(s);
    var m := ApprovalNext(s.tasks[i]);
    var s' := if m.disarms then Disarm(s) else s;
    assert s'.inFlight.Some? ==> s.tasks[s'.inFlight.value].kind.Dial?;
    MoveOnLines(s', i, m.pc, s'.tasks[i].finished || (m.pc.Ended? && !s.tasks[i].pc.Ready?),
                if m.screen.Some? then m.screen.value else s'.screen);
  }

  lemma MoveOnLines(s: Flow, i: nat, pc: Pc, finished: bool, screen: Screen)
    requires LinesOk(s) && i < |s.tasks| && s.tasks[i].kind.Approval? && s.inFlight != Some(i)
    ensures LinesOk(s.(tasks := s.tasks[i := s.tasks[i].(pc := pc, finished := finished)], screen := screen))
  {
    MoveLines(s, i, s.tasks[i].(pc := pc, finished := finished));
  }

  lemma GoHomeLines(s: Flow, i: nat)
    requires Inv(s) && LinesOk(s) && i < |s.tasks| && CanResume(s.tasks[i]) && s.tasks[i].kind.GoHome?
    ensures LinesOk(ResumeGoHome(s, i))
  {
    assert s.inFlight.Some? ==> s.tasks[s.inFlight.value].kind.Dial?;
    MoveLines(s, i, s.tasks[i].(pc := Ended));
    MoveLines(s, i, s.tasks[i].(pc := Queued(DeclineTheSession)));
  }

  lemma ExpiryLines(s: Flow, i: nat)
    requires Inv(s) && LinesOk(s) && i < |s.tasks| && CanResume(s.tasks[i]) && s.tasks[i].kind.Expiry?
    ensures LinesOk(ResumeExpiry(s, i))
  {
    assert s.inFlight.Some? ==> s.inFlight.value != i;
    MoveLines(s, i, s.tasks[i].(pc := Ended));
    if s.approveRun.Some? {
      var a := s.approveRun.value;
      MoveLines(s, a, s.tasks[a].(expired := true, cancelled := true));
    }
    var s1 := ExpireRun(s);
    MoveLines(s1, i, s1.tasks[i].(pc := Queued(DeclineForTime)));
  }

  lemma PromptLines(s: Flow, i: nat, outcome: Outcome)
    requires Inv(s) && LinesOk(s) && Enabled(s, PromptReturns(i, outcome))
    ensures LinesOk(PromptBack(s, i, outcome))
  {
    DisarmLines(s);
    assert s.inFlight.Some? ==> s.inFlight.value != i;
    var d := Disarm(s);
    MoveLines(s, i, s.tasks[i].(pc := Ended, finished := true));
    MoveLines(d, i, d.tasks[i].(pc := Queued(DeclineActiveAndClose)));
    MoveLines(d, i, d.tasks[i].(pc := Queued(AnswerIt), answering := true));
  }

  lemma BeginLines(s: Flow, i: nat)
    requires Inv(s) && LinesOk(s) && Enabled(s, IoBegins(i))
    ensures LinesOk(Begin(s, i))
  {
    var t := s.tasks[i];
    assert TaskOk(s, i);
    MoveLines(s, i, t.(pc := Back(t.pc.job, Threw)));
    MoveLines(s, i, t.(pc := Started(t.pc.job)));
    if !t.cancelled && t.pc.job.DialIt? {
      CloseLines(s);
      MoveLines(CloseSession(s), i, CloseSession(s).tasks[i].(pc := Started(DialIt)));
    }
  }

  lemma BackLines(s: Flow, i: nat, outcome: Outcome)
    requires LinesOk(s) && i < |s.tasks| && s.tasks[i].pc.Started?
    ensures LinesOk(To(s, i, Back(s.tasks[i].pc.job, outcome)))
  {
    assert NotYetOk(s.tasks[i]);
    MoveLines(s, i, s.tasks[i].(pc := Back(s.tasks[i].pc.job, outcome)));
  }

  lemma DeclineLines(s: Flow, forTime: bool)
    requires Inv(s) && LinesOk(s)
    ensures LinesOk(CloseSession(DeclineSession(s, forTime))) && |CloseSession(DeclineSession(s, forTime)).tasks| == |s.tasks|
    ensures forall j :: 0 <= j < |s.tasks| ==> CloseSession(DeclineSession(s, forTime)).tasks[j].pc == s.tasks[j].pc
  {
    if s.session.Some? {
      var x := s.session.value;
      var w := WireOf(s, x);
      WireLines(s, x, w.(declined := true, timedOut := w.timedOut || forTime));
      StaysTaken(s, x, w.(declined := true, timedOut := w.timedOut || forTime), x);
      CloseLines(DeclineSession(s, forTime));
    }
  }

  lemma DialEndLines(s: Flow, i: nat, outcome: Outcome)
    requires Inv(s) && LinesOk(s) && i < |s.tasks| && s.tasks[i].pc == Started(DialIt)
    ensures LinesOk(End(s, i, outcome))
  {
    assert TaskOk(s, i);
    BackLines(s, i, outcome);
    MoveLines(s, i, s.tasks[i].(pc := Back(DialIt, outcome), reached := true, wire := NEW_WIRE));
  }

  lemma ActiveEndLines(s: Flow, i: nat, outcome: Outcome)
    requires Inv(s) && LinesOk(s) && i < |s.tasks| && s.tasks[i].pc.Started? && s.tasks[i].kind.Approval?
    ensures LinesOk(End(s, i, outcome))
  {
    var t := s.tasks[i];
    assert TaskOk(s, i);
    var x := t.kind.active;
    var s' := To(s, i, Back(t.pc.job, outcome));
    BackLines(s, i, outcome);
    BackLines(s, i, Threw);
    if t.pc.job.AnswerIt? {
      WireLines(s', x, WireOf(s, x).(answered := true, overlapped := !NoneDeclining(s)));
    } else if t.pc.job.CloseThen? {
      CloseLines(s);
      BackLines(CloseSession(s), i, outcome);
    } else if !t.pc.job.PrepareKey? {
      WireLines(s', x, WireOf(s', x).(declined := true));
      if s'.session.Some? {
        StaysTaken(s', x, WireOf(s', x).(declined := true), s'.session.value);
      }
      CloseLines(DeclineOne(s', x));
    }
  }

  lemma EndLines(s: Flow, i: nat, outcome: Outcome)
    requires Inv(s) && LinesOk(s) && Enabled(s, IoEnds(i, outcome))
    ensures LinesOk(End(s, i, outcome))
  {
    assert TaskOk(s, i);
    var job := s.tasks[i].pc.job;
    if job.DialIt? {
      DialEndLines(s, i, outcome);
    } else if job.DeclineForTime? || job.DeclineTheSession? {
      DeclineLines(s, job.DeclineForTime?);
      BackLines(CloseSession(DeclineSession(s, job.DeclineForTime?)), i, outcome);
    } else {
      ActiveEndLines(s, i, outcome);
    }
  }

  lemma StepLines(s: Flow, e: Event)
    requires Inv(s) && LinesOk(s) && Enabled(s, e)
    ensures LinesOk(Step(s, e))
  {
    if e.Resume? {
      match s.tasks[e.i].kind
      case Dial => DialLines(s, e.i);
      case Approval(_) => ApprovalLines(s, e.i);
      case Expiry => ExpiryLines(s, e.i);
      case GoHome => GoHomeLines(s, e.i);
    } else if e.PromptReturns? {
      PromptLines(s, e.i, e.outcome);
    } else if e.IoBegins? {
      BeginLines(s, e.i);
    } else if e.IoEnds? {
      EndLines(s, e.i, e.outcome);
    } else {
      PressLines(s, e);
    }
  }

  lemma {:induction false} RunLines(s: Flow, es: seq<Event>)
    requires Inv(s) && LinesOk(s) && Allowed(s, es)
    ensures Inv(Run(s, es)) && LinesOk(Run(s, es))
    decreases |es|
  {
    if es != [] {
      StepKeeps(s, es[0]);
      StepLines(s, es[0]);
      RunLines(Step(s, es[0]), es[1..]);
    }
  }

  lemma ReachedLines(s: Flow)
    requires Reached(s)
    ensures Inv(s) && LinesOk(s)
  {
    var es :| Allowed(Start(), es) && Run(Start(), es) == s;
    RunLines(Start(), es);
  }
}
