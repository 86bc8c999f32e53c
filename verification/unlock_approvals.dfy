/** How an approved request ends. */
module UnlockApprovals {
  import opened Basics
  import opened UnlockFlow
  import opened UnlockSafety
  import opened UnlockStuck
  import opened UnlockRequests

  // From the press of Approve on a waiting machine to the state in which nothing is under
  // way any more: what the screen says, and what exactly the machine was told.

  function Sent(w: Wire): Wire { w.(answered := true, overlapped := false) }

  function No(w: Wire): Wire { w.(declined := true) }

  /** The block that answers ends with nothing sent and no word why that could be passed
      on: it threw, or the session was gone. */
  predicate AnswerThrows(s: Flow, e: Event, c: Case) {
    && e.IoEnds? && e.i == c.a && c.a < |s.tasks| && s.tasks[c.a].pc == Started(AnswerIt)
    && !e.outcome.Refused? && !AnswerGoesOut(s, c.a, e.outcome)
  }

  predicate Throws(s: Flow, es: seq<Event>, c: Case)
    requires Allowed(s, es)
    decreases |es|
  {
    es != [] && (AnswerThrows(s, es[0], c) || Throws(Step(s, es[0]), es[1..], c))
  }

  /** The session as the approval leaves it when it is through, before it is closed. */
  predicate Settles(screen: Screen, wire: Wire, w: Wire, threw: bool) {
    (screen.Done? && wire == Sent(w) && !threw) || (screen.Failed? && wire == if threw then w else No(w))
  }

  /** Where an approval that has disarmed its window can be, and what the machine has
      been told by then. */
  predicate PastSoFar(s: Flow, c: Case, threw: bool)
    requires Two(s, c)
  {
    var t, wire := s.tasks[c.a], WireOf(s, c.x);
    c.w.open &&
    if t.pc.Ended? then
      s.session.None? && (Settles(s.screen, wire.(open := true), c.w, threw) && !wire.open)
    else InJob(t.pc) && match t.pc.job
      case DeclineActive => s.session == Some(c.x) && wire == (if t.pc.Back? then No(c.w) else c.w) && !threw
      case DeclineActiveAndClose =>
        !t.answering && !threw && (if t.pc.Back? then s.session.None? && wire == ToldNo(c.w) else s.session == Some(c.x) && wire == c.w)
      case AnswerIt =>
        && t.answering && s.session == Some(c.x) && wire == (if t.pc.Back? && t.pc.outcome.Good? then Sent(c.w) else c.w)
        && (threw <==> t.pc.Back? && t.pc.outcome.Threw?)
      case CloseThen(next) =>
        && (if t.pc.Back? then s.session.None? && !wire.open else s.session == Some(c.x) && wire.open)
        && (if next.Some? then next == Some(Failed) && !t.answering && wire.(open := true) == No(c.w) && !threw
            else t.answering && Settles(s.screen, wire.(open := true), c.w, threw))
      case _ => false
  }

  predicate Past(s: Flow, c: Case, threw: bool) {
    Two(s, c) && GotPast(s, c) && PastSoFar(s, c, threw)
  }

  lemma WindowGoes(s: Flow, c: Case, threw: bool)
    requires Past(s, c, threw) && CanResume(s.tasks[c.exp])
    ensures Past(ResumeExpiry(s, c.exp), c, threw)
  {
  }

  lemma PastResumes(s: Flow, c: Case, threw: bool)
    requires Past(s, c, threw) && CanResume(s.tasks[c.a])
    ensures Past(ResumeApproval(s, c.a), c, threw)
  {
    assert !ApprovalNext(s.tasks[c.a]).disarms;
  }

  lemma PastBegins(s: Flow, c: Case, threw: bool)
    requires Past(s, c, threw) && s.tasks[c.a].pc.Queued?
    ensures Past(Begin(s, c.a), c, threw)
  {
  }

  lemma PastAnswers(s: Flow, c: Case, threw: bool, outcome: Outcome)
    requires Past(s, c, threw) && s.tasks[c.a].pc == Started(AnswerIt)
    ensures Past(End(s, c.a, outcome), c, threw || AnswerThrows(s, IoEnds(c.a, outcome), c))
  {
    assert NoneDeclining(s);
    GotPastAnswers(s, c, outcome);
    var s' := To(s, c.a, Back(AnswerIt, outcome));
    assert WireOf(s', c.x) == WireOf(s, c.x);
    if AnswerGoesOut(s, c.a, outcome) {
      assert End(s, c.a, outcome).tasks[c.x].wire == Sent(c.w);
      assert End(s, c.a, outcome).tasks[c.a] == s'.tasks[c.a];
    }
  }

  lemma PastDeclines(s: Flow, c: Case, threw: bool, outcome: Outcome)
    requires Past(s, c, threw) && s.tasks[c.a].pc.Started?
    requires s.tasks[c.a].pc.job.DeclineActive? || s.tasks[c.a].pc.job.DeclineActiveAndClose?
    ensures Past(End(s, c.a, outcome), c, threw)
  {
    GotPastDeclines(s, c, outcome);
    var job := s.tasks[c.a].pc.job;
    var s' := To(s, c.a, Back(job, outcome));
    var d := DeclineOne(s', c.x);
    assert WireOf(s', c.x) == c.w;
    assert d.tasks[c.x].wire == No(c.w) && d.tasks[c.a] == s'.tasks[c.a] && d.session == Some(c.x);
    if job.DeclineActiveAndClose? {
      var e := CloseSession(d);
      assert e.tasks[c.x].wire == ToldNo(c.w) && e.tasks[c.a] == d.tasks[c.a] && e.session.None?;
    }
  }

  lemma PastCloses(s: Flow, c: Case, threw: bool, outcome: Outcome)
    requires Past(s, c, threw) && s.tasks[c.a].pc.Started? && s.tasks[c.a].pc.job.CloseThen?
    ensures Past(End(s, c.a, outcome), c, threw)
  {
    var e := CloseSession(s);
    GotPastClose(s, c);
    GotPastBack(e, c, outcome);
    assert e.tasks[c.x].wire == WireOf(s, c.x).(open := false) && e.tasks[c.a] == s.tasks[c.a] && e.session.None?;
    assert e.screen == s.screen;
  }

  lemma PastOn(s: Flow, c: Case, threw: bool, e: Event)
    requires Past(s, c, threw) && Enabled(s, e) && NoPress([e])
    ensures Past(Step(s, e), c, threw || AnswerThrows(s, e, c))
  {
    WhoMoves(s, c, e);
    if e.i == c.exp {
      WindowGoes(s, c, threw);
    } else if e.Resume? {
      PastResumes(s, c, threw);
    } else if e.IoBegins? {
      PastBegins(s, c, threw);
    } else if e.IoEnds? {
      var job := s.tasks[c.a].pc.job;
      if job.AnswerIt? {
        PastAnswers(s, c, threw, e.outcome);
      } else if job.CloseThen? {
        PastCloses(s, c, threw, e.outcome);
      } else {
        PastDeclines(s, c, threw, e.outcome);
      }
    }
  }

  // ---- before it has, and when the window wins ----

  lemma CountingIsPast(s: Flow, c: Case, e: Event)
    requires Two(s, c) && Counting(s, c) && c.w.open && Enabled(s, e) && NoPress([e])
    ensures !AnswerThrows(s, e, c)
    ensures Two(Step(s, e), c) && GotPast(Step(s, e), c) ==> Past(Step(s, e), c, false)
  {
    WhoMoves(s, c, e);
    if e.i == c.exp {
      WindowRunsOut(s, c);
    } else if e.Resume? {
      CountingResumesPast(s, c);
    } else if e.PromptReturns? {
      CountingPromptsPast(s, c, e.outcome);
    }
  }

  lemma CountingResumesPast(s: Flow, c: Case)
    requires Two(s, c) && Counting(s, c) && c.w.open && CanResume(s.tasks[c.a])
    ensures var s' := ResumeApproval(s, c.a); Two(s', c) && (GotPast(s', c) ==> Past(s', c, false))
  {
    CountingResumes(s, c);
    if ApprovalNext(s.tasks[c.a]).disarms {
      assert Disarm(s).tasks == s.tasks[c.exp := s.tasks[c.exp].(cancelled := true)];
    }
  }

  lemma CountingPromptsPast(s: Flow, c: Case, outcome: Outcome)
    requires Two(s, c) && Counting(s, c) && c.w.open && s.tasks[c.a].pc.Prompt?
    ensures var s' := PromptBack(s, c.a, outcome); Two(s', c) && (GotPast(s', c) ==> Past(s', c, false))
  {
    CountingPrompts(s, c, outcome);
    assert Disarm(s).tasks == s.tasks[c.exp := s.tasks[c.exp].(cancelled := true)];
  }

  /** The window has said so on the screen, and the machine has been told. */
  predicate SaidSo(s: Flow, c: Case) {
    Two(s, c) && Said(s, c) && s.screen.Failed? && Told(s, c)
  }

  lemma RanOutSays(s: Flow, c: Case, e: Event)
    requires Two(s, c) && RanOut(s, c) && Enabled(s, e) && NoPress([e])
    ensures !AnswerThrows(s, e, c)
    ensures Two(Step(s, e), c) && Said(Step(s, e), c) ==> SaidSo(Step(s, e), c)
  {
    WhoMoves(s, c, e);
    if e.i == c.exp {
      RanOutWindow(s, c, e);
    } else if e.Resume? {
      RanOutResumes(s, c);
    } else {
      RanOutApproval(s, c, e);
    }
  }

  lemma SaidSoOn(s: Flow, c: Case, e: Event)
    requires SaidSo(s, c) && Enabled(s, e) && NoPress([e])
    ensures SaidSo(Step(s, e), c) && !AnswerThrows(s, e, c)
  {
    SaidOn(s, c, e);
    WhoMoves(s, c, e);
    assert s.expiry.Some? ==> Disarm(s).tasks == s.tasks[c.exp := s.tasks[c.exp].(cancelled := true)];
  }

  lemma {:induction false} SaidSoRun(s: Flow, c: Case, es: seq<Event>)
    requires SaidSo(s, c) && Allowed(s, es) && NoPress(es)
    ensures SaidSo(Run(s, es), c) && !Throws(s, es, c)
    decreases |es|
  {
    if es != [] {
      FirstPress(es);
      SaidSoOn(s, c, es[0]);
      SaidSoRun(Step(s, es[0]), c, es[1..]);
    }
  }

  lemma {:induction false} PastRun(s: Flow, c: Case, threw: bool, es: seq<Event>)
    requires Past(s, c, threw) && Allowed(s, es) && NoPress(es)
    ensures Past(Run(s, es), c, threw || Throws(s, es, c))
    decreases |es|
  {
    if es != [] {
      FirstPress(es);
      PastOn(s, c, threw, es[0]);
      PastRun(Step(s, es[0]), c, threw || AnswerThrows(s, es[0], c), es[1..]);
    }
  }

  lemma {:induction false} WorkingRun(s: Flow, c: Case, es: seq<Event>)
    requires Two(s, c) && (Silenced(s, c) || Unheard(s, c)) && Allowed(s, es) && NoPress(es)
    ensures Run(s, es).screen.Working? && !Throws(s, es, c)
    decreases |es|
  {
    if es != [] {
      FirstPress(es);
      if Silenced(s, c) {
        SilencedOn(s, c, es[0]);
      } else {
        UnheardOn(s, c, es[0]);
      }
      WorkingRun(Step(s, es[0]), c, es[1..]);
    }
  }

  // ---- the end of it ----

  /** What the machine was told where the screen says Failed: that its time ran out, or
      no, or, if the answer threw, nothing. */
  predicate FailedWire(wire: Wire, w: Wire, threw: bool) {
    wire == RanOutOfTime(w) || wire == if threw then Closed(w) else ToldNo(w)
  }

  predicate EndedAs(f: Flow, c: Case, threw: bool) {
    && (f.screen.Done? || f.screen.Failed? || f.screen.Working?)
    && (f.screen.Done? ==> f.session.None? && WireOf(f, c.x) == Closed(Sent(c.w)))
    && (f.screen.Failed? ==> f.session.None? && FailedWire(WireOf(f, c.x), c.w, threw))
    && (threw ==> f.screen.Failed? && WireOf(f, c.x) == Closed(c.w))
  }

  lemma {:induction false} RunEnds(s: Flow, c: Case, es: seq<Event>)
    requires Two(s, c) && c.w.open && (Counting(s, c) || RanOut(s, c))
    requires Allowed(s, es) && NoPress(es) && AllEnded(Run(s, es))
    ensures EndedAs(Run(s, es), c, Throws(s, es, c))
    decreases |es|
  {
    if es != [] {
      var s' := Step(s, es[0]);
      FirstPress(es);
      if Counting(s, c) {
        CountingOn(s, c, es[0]);
        CountingIsPast(s, c, es[0]);
        if GotPast(s', c) {
          PastRun(s', c, false, es[1..]);
          PastIsEnd(Run(s', es[1..]), c, Throws(s', es[1..], c));
        } else {
          RunEnds(s', c, es[1..]);
        }
      } else {
        RanOutOn(s, c, es[0]);
        RanOutSays(s, c, es[0]);
        if Overtakes(s, es[0], c) {
          WorkingRun(s', c, es[1..]);
        } else if RanOut(s', c) {
          RunEnds(s', c, es[1..]);
        } else {
          SaidSoRun(s', c, es[1..]);
        }
      }
    }
  }

  lemma PastIsEnd(f: Flow, c: Case, threw: bool)
    requires Past(f, c, threw) && AllEnded(f)
    ensures EndedAs(f, c, threw)
  {
    assert f.tasks[c.a].pc.Ended?;
  }

  /** However the preparation, the prompt, the window and the blocks interleave: a
      request that was approved ends on Done, with the answer sent and the session
      closed; or on Failed, with the session closed and the machine told that its time
      ran out or told no, unless the answer threw; or on Working, as StuckIff says. */
  lemma ApprovedRequestEnds(s: Flow, x: nat, exp: nat, es: seq<Event>)
    requires Reached(s) && Calm(s, x, exp)
    requires Allowed(Step(s, PressApprove), es) && NoPress(es) && AllEnded(Run(Step(s, PressApprove), es))
    ensures var c := Case(|s.tasks|, exp, x, WireOf(s, x));
      EndedAs(Run(Step(s, PressApprove), es), c, Throws(Step(s, PressApprove), es, c))
  {
    ReachedWork(s);
    CalmIs(s, x, exp);
    PressStarts(s, x, exp);
    RunEnds(Step(s, PressApprove), Case(|s.tasks|, exp, x, WireOf(s, x)), es);
  }
}
