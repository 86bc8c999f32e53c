/** Runs of the unlock flow that show what its safety rests on, each built step by step
    from the start: a request whose answer overlaps with the block that declines it for
    time, on two IO threads; and a window that runs out while the key is being prepared,
    with the block of the window begun before the preparation comes back, or after. In
    all of them Approve is pressed once, on one session, and nothing else is. */
module UnlockWitnesses {
  import opened Basics
  import opened UnlockFlow
  import opened UnlockSafety
  import opened UnlockStuck

  lemma {:induction false} Extend(s: Flow, es: seq<Event>, e: Event)
    requires Allowed(s, es) && Enabled(Run(s, es), e)
    ensures Allowed(s, es + [e]) && Run(s, es + [e]) == Step(Run(s, es), e)
    decreases |es|
  {
    if es == [] {
      assert [e][1..] == [];
    } else {
      Extend(Step(s, es[0]), es[1..], e);
      assert (es + [e])[1..] == es[1..] + [e];
    }
  }

  lemma Then(s: Flow, e: Event) returns (s': Flow)
    requires Reached(s) && Enabled(s, e)
    ensures Reached(s') && s' == Step(s, e)
  {
    var es :| Allowed(Start(), es) && Run(Start(), es) == s;
    Extend(Start(), es, e);
    s' := Step(s, e);
  }

  const FRESH := Wire(true, false, false, false, false)

  function ADial(pc: Pc): Task { Task(Dial, pc, false, false, false, NO_WIRE, false, false, false) }

  function ADialled(wire: Wire): Task { Task(Dial, Ended, false, false, true, wire, false, false, false) }

  function AnExpiry(pc: Pc, cancelled: bool): Task { Task(Expiry, pc, cancelled, false, false, NO_WIRE, false, false, false) }

  function AnApproval(pc: Pc, cancelled: bool, answering: bool): Task {
    Task(Approval(0), pc, cancelled, false, false, NO_WIRE, cancelled, answering, false)
  }

  /** A machine is waiting on the Approve screen, with its window running. */
  function Asked(): Flow {
    Flow(Approve, Some(0), [ADialled(FRESH), AnExpiry(Delay, false)], None, Some(1), None)
  }

  lemma AskedIsReached()
    ensures Reached(Asked())
  {
    assert Allowed(Start(), []) && Run(Start(), []) == Start();
    var s := Then(Start(), PressConnect);
    assert s == Flow(Connecting, None, [ADial(Ready)], None, None, Some(0));
    s := Then(s, Resume(0));
    assert s.tasks == [ADial(Queued(DialIt))];
    s := Then(s, IoBegins(0));
    assert s.tasks == [ADial(Started(DialIt))];
    s := Then(s, IoEnds(0, Good));
    assert s.tasks == [Task(Dial, Back(DialIt, Good), false, false, true, FRESH, false, false, false)];
    s := Then(s, Resume(0));
    assert s.tasks == [ADialled(FRESH), AnExpiry(Delay, false)];
  }

  /** The expiry has found the Approve screen and its block has begun; the screen
      is still there, and Approve is pressed and the key prepared. */
  lemma PromptWhileDeclining()
    ensures Reached(Flow(Working, Some(0), [ADialled(FRESH), AnExpiry(Started(DeclineForTime), false), AnApproval(Prompt, false, false)],
                         Some(2), Some(1), None))
  {
    AskedIsReached();
    var s := Then(Asked(), Resume(1));
    assert s.tasks == [ADialled(FRESH), AnExpiry(Queued(DeclineForTime), false)];
    s := Then(s, IoBegins(1));
    assert s.tasks == [ADialled(FRESH), AnExpiry(Started(DeclineForTime), false)];
    s := Then(s, PressApprove);
    assert s.tasks[2] == AnApproval(Ready, false, false);
    s := Then(s, Resume(2));
    s := Then(s, IoBegins(2));
    s := Then(s, IoEnds(2, Good));
    assert s.tasks[2] == AnApproval(Back(PrepareKey, Good), false, false);
    s := Then(s, Resume(2));
    assert s.tasks == [ADialled(FRESH), AnExpiry(Started(DeclineForTime), false), AnApproval(Prompt, false, false)];
  }

  /** With two IO threads a session can be both answered and declined for running
      out of time. */
  lemma BothCanHappen() returns (s: Flow)
    ensures Reached(s) && |s.tasks| == 3 && BothSent(s.tasks[0].wire)
  {
    PromptWhileDeclining();
    s := Flow(Working, Some(0), [ADialled(FRESH), AnExpiry(Started(DeclineForTime), false), AnApproval(Prompt, false, false)],
              Some(2), Some(1), None);
    s := Then(s, PromptReturns(2, Good));
    assert s.tasks == [ADialled(FRESH), AnExpiry(Started(DeclineForTime), true), AnApproval(Queued(AnswerIt), false, true)];
    s := Then(s, IoBegins(2));
    assert s.tasks[2] == AnApproval(Started(AnswerIt), false, true);
    assert DecliningForTime(s.tasks[1]);
    s := Then(s, IoEnds(2, Good));
    assert s.tasks[0] == ADialled(FRESH.(answered := true, overlapped := true));
    assert s.tasks[1] == AnExpiry(Started(DeclineForTime), true);
    s := Then(s, IoEnds(1, Good));
  }

  // ---- a window that runs out while the key is being prepared ----

  /** An approval that was cancelled while its key was prepared disarms whatever
      expiry is armed, the one that cancelled it included, and leaves the screen. */
  lemma CancelledPreparationDisarms(s: Flow, a: nat)
    requires Inv(s) && a < |s.tasks| && s.tasks[a].kind.Approval? && s.tasks[a].cancelled
    requires s.tasks[a].pc.Back? && s.tasks[a].pc.job.PrepareKey?
    ensures var s' := Step(s, Resume(a));
      && (forall i :: 0 <= i < |s'.tasks| ==> !Armed(s'.tasks[i]))
      && s'.screen == s.screen && s'.tasks[a].pc.Ended?
  {
    StepKeeps(s, Resume(a));
    var s' := Step(s, Resume(a));
    forall i | 0 <= i < |s'.tasks|
      ensures !Armed(s'.tasks[i])
    {
      assert TaskOk(s', i);
    }
  }

  /** The case of the one approval of Asked. */
  const CASE := Case(2, 1, 0, FRESH)

  /** Approve was pressed, and the window has run out with the preparation queued. */
  lemma RanOutWhilePreparing() returns (s: Flow)
    ensures Calm(Asked(), CASE.x, CASE.exp) && WireOf(Asked(), CASE.x) == CASE.w
    ensures Reached(s)
    ensures s == Flow(Working, Some(0), [ADialled(FRESH), AnExpiry(Queued(DeclineForTime), false), AnApproval(Queued(PrepareKey), true, false)],
                      Some(2), Some(1), None)
  {
    AskedIsReached();
    s := Then(Asked(), PressApprove);
    s := Then(s, Resume(2));
    assert s.tasks == [ADialled(FRESH), AnExpiry(Delay, false), AnApproval(Queued(PrepareKey), false, false)];
    s := Then(s, Resume(1));
    assert s.tasks == [ADialled(FRESH), AnExpiry(Queued(DeclineForTime), false), AnApproval(Queued(PrepareKey), true, false)];
  }

  /** The window runs out while the key is being prepared, and its block begins only
      after the preparation has come back. */
  lemma TheFlowCanGetStuck() returns (s: Flow)
    ensures Reached(s) && Stuck(s, CASE)
  {
    s := RanOutWhilePreparing();
    s := Then(s, IoBegins(2));
    assert s.tasks[2] == AnApproval(Back(PrepareKey, Threw), true, false);
    assert OvertakesUnbegun(s, Resume(2), CASE);
    s := Then(s, Resume(2));
    assert s.tasks[1] == AnExpiry(Queued(DeclineForTime), true) && s.tasks[2].pc.Ended?;
    s := Then(s, IoBegins(1));
    assert s.tasks[1] == AnExpiry(Back(DeclineForTime, Threw), true);
    s := Then(s, Resume(1));
  }

  /** The same with the block begun before: the machine is told that its time ran
      out, and the screen still says Working. */
  lemma TheScreenCanStayBehind() returns (s: Flow)
    ensures Reached(s) && s.screen.Working? && AllEnded(s) && Told(s, CASE)
  {
    s := RanOutWhilePreparing();
    s := Then(s, IoBegins(1));
    s := Then(s, IoBegins(2));
    assert s.tasks == [ADialled(FRESH), AnExpiry(Started(DeclineForTime), false), AnApproval(Back(PrepareKey, Threw), true, false)];
    s := Then(s, Resume(2));
    assert s.tasks[1] == AnExpiry(Started(DeclineForTime), true) && s.tasks[2].pc.Ended?;
    s := Then(s, IoEnds(1, Good));
    assert s.tasks[1] == AnExpiry(Back(DeclineForTime, Good), true) && s.tasks[0] == ADialled(GivenUp(FRESH));
    s := Then(s, Resume(1));
  }
}
