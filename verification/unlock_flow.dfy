/** android/.../UnlockFlow.kt: one request from the dial to the answer. Everything
    that touches the flow's own state runs on one thread, as coroutines that give it
    up at their suspension points; the blocks they hand to the IO dispatcher run on
    other threads. A run is any sequence of presses, main-thread steps, prompt
    results, and beginnings and ends of IO blocks. */
module UnlockFlow {
  import opened Basics

  datatype Screen = Home | Connecting | Approve | Working | Done | Failed

  /** A machine session, as the machine sees it: declined is any refusal, timedOut
      the one that says the approval ran out of time. overlapped: the answer went
      out while a block that declines for time had begun and not ended. */
  datatype Wire = Wire(open: bool, answered: bool, declined: bool, timedOut: bool, overlapped: bool)

  /** The blocks handed to withContext(io). */
  datatype Job =
    | DialIt
    | PrepareKey
    | AnswerIt
    | DeclineForTime
    | DeclineTheSession
    | DeclineActive
    | DeclineActiveAndClose
    | CloseThen(next: Option<Screen>)

  /** How a block, or the prompt, came out. For DialIt: the machine asked, it had
      nothing to ask, it was not reached. */
  datatype Outcome = Good | Refused | Threw

  datatype Pc =
    | Ready
    | Delay
    | Prompt
    | Queued(job: Job)
    | Started(job: Job)
    | Back(job: Job, outcome: Outcome)
    | Ended

  datatype Kind = Dial | Approval(active: nat) | Expiry | GoHome

  /** A coroutine. cancelled is its Job's; dropped is InFlight.cancelled of a dial,
      reached that it got through, and wire the session it made; expired, answering
      and finished are the fields of ApproveRun. */
  datatype Task = Task(kind: Kind, pc: Pc, cancelled: bool, dropped: bool, reached: bool, wire: Wire,
                       expired: bool, answering: bool, finished: bool)

  const NO_WIRE := Wire(false, false, false, false, false)

  /** A session goes by the number of the coroutine that dialled it. */
  datatype Flow = Flow(screen: Screen, session: Option<nat>, tasks: seq<Task>,
                       approveRun: Option<nat>, expiry: Option<nat>, inFlight: Option<nat>)

  datatype Event =
    | PressConnect
    | PressApprove
    | PressCancel
    | Resume(i: nat)
    | PromptReturns(i: nat, outcome: Outcome)
    | IoBegins(i: nat)
    | IoEnds(i: nat, outcome: Outcome)

  function Launched(s: Flow, kind: Kind, pc: Pc): Flow {
    s.(tasks := s.tasks + [Task(kind, pc, false, false, false, NO_WIRE, false, false, false)])
  }

  function To(s: Flow, i: nat, pc: Pc): Flow
    requires i < |s.tasks|
  {
    s.(tasks := s.tasks[i := s.tasks[i].(pc := pc)])
  }

  /** The approval's coroutine is over; its finally sets finished. */
  function Over(s: Flow, i: nat): Flow
    requires i < |s.tasks|
  {
    s.(tasks := s.tasks[i := s.tasks[i].(pc := Ended, finished := true)])
  }

  function CancelJob(s: Flow, i: nat): Flow
    requires i < |s.tasks|
  {
    s.(tasks := s.tasks[i := s.tasks[i].(cancelled := true)])
  }

  function Disarm(s: Flow): Flow {
    (if s.expiry.Some? && s.expiry.value < |s.tasks| then CancelJob(s, s.expiry.value) else s).(expiry := None)
  }

  function Arm(s: Flow): Flow {
    var s' := Disarm(s);
    Launched(s', Expiry, Delay).(expiry := Some(|s'.tasks|))
  }

  function WireOf(s: Flow, x: nat): Wire {
    if x < |s.tasks| then s.tasks[x].wire else NO_WIRE
  }

  /** Something happens to a session: nothing does once it is closed. */
  function SetWire(s: Flow, x: nat, w: Wire): Flow {
    if WireOf(s, x).open then s.(tasks := s.tasks[x := s.tasks[x].(wire := w)]) else s
  }

  function DeclineOne(s: Flow, x: nat): Flow {
    SetWire(s, x, WireOf(s, x).(declined := true))
  }

  function CloseSession(s: Flow): Flow {
    match s.session
    case None => s
    case Some(x) => SetWire(s, x, WireOf(s, x).(open := false)).(session := None)
  }

  function DeclineSession(s: Flow, forTime: bool): Flow {
    match s.session
    case None => s
    case Some(x) =>
      var w := WireOf(s, x);
      SetWire(s, x, w.(declined := true, timedOut := w.timedOut || forTime))
  }

  // ---- the presses ----

  function Connect(s: Flow): Flow {
    var s' := Disarm(s);
    Launched(s'.(inFlight := Some(|s'.tasks|), screen := Connecting), Dial, Ready)
  }

  function ApprovePressed(s: Flow): Flow {
    if s.screen.Approve? && s.session.Some? then
      Launched(s.(approveRun := Some(|s.tasks|), screen := Working), Approval(s.session.value), Ready)
    else s
  }

  function Cancel(s: Flow): Flow {
    var s' := Disarm(s);
    if s'.inFlight.Some? && s'.inFlight.value < |s'.tasks| then
      var i := s'.inFlight.value;
      s'.(tasks := s'.tasks[i := s'.tasks[i].(dropped := true)])
    else Launched(s', GoHome, Ready)
  }

  // ---- the main thread, one coroutine up to its next suspension ----

  function ResumeDial(s: Flow, i: nat): Flow
    requires i < |s.tasks|
  {
    var t := s.tasks[i];
    var landed := if s.inFlight == Some(i) then s.(inFlight := None) else s;
    match t.pc
    case Ready => To(s, i, Queued(DialIt))
    case Back(DialIt, outcome) =>
      if !t.reached then To(landed, i, Ended).(screen := if t.dropped then Home else Failed)
      else if t.dropped then To(s, i, Queued(DeclineTheSession)).(session := Some(i))
      else if outcome.Good? then Arm(To(landed, i, Ended).(session := Some(i), screen := Approve))
      else To(landed, i, Ended).(session := Some(i), screen := Failed)
    case Back(_, _) => To(landed, i, Ended).(screen := Home)
    case _ => s
  }

  /** What an approval does next: where it goes, what it puts on the screen, and
      whether it disarms the window. */
  datatype Move = Move(pc: Pc, screen: Option<Screen>, disarms: bool)

  function ApprovalNext(t: Task): Move {
    match t.pc
    case Ready => Move(if t.cancelled then Ended else Queued(PrepareKey), None, false)
    case Back(PrepareKey, outcome) =>
      if outcome.Good? && !t.cancelled then Move(Prompt, None, false)
      // Cancellation is an Exception too: the expiry that cancelled this is disarmed,
      // and declining, another withContext, throws at once.
      else Move(if t.cancelled then Ended else Queued(DeclineActive), None, true)
    case Back(AnswerIt, outcome) =>
      if t.cancelled then Move(Ended, if outcome.Refused? then None else Some(Failed), false)
      else if outcome.Good? then Move(Queued(CloseThen(None)), Some(Done), false)
      else if outcome.Refused? then Move(Queued(DeclineActive), None, false)
      else Move(Queued(CloseThen(None)), Some(Failed), false)
    case Back(DeclineActive, _) =>
      if t.cancelled then Move(Ended, None, false)
      else if t.answering then Move(Queued(CloseThen(None)), Some(Failed), false)
      else Move(Queued(CloseThen(Some(Failed))), None, false)
    case Back(CloseThen(next), _) => Move(Ended, if t.cancelled then None else next, false)
    case Back(_, _) => Move(Ended, if t.cancelled then None else Some(Failed), false)
    case _ => Move(Ended, None, false)
  }

  /** An approval that ends sets finished, unless it never began. */
  function ResumeApproval(s: Flow, i: nat): Flow
    requires i < |s.tasks|
  {
    var m := ApprovalNext(s.tasks[i]);
    var s' := if m.disarms then Disarm(s) else s;
    var t := s'.tasks[i].(pc := m.pc, finished := s'.tasks[i].finished || (m.pc.Ended? && !s.tasks[i].pc.Ready?));
    s'.(tasks := s'.tasks[i := t], screen := if m.screen.Some? then m.screen.value else s'.screen)
  }

  /** The request is still waiting for an answer. */
  predicate Waiting(s: Flow) {
    s.screen.Approve?
    || (s.screen.Working? && s.approveRun.Some? && s.approveRun.value < |s.tasks|
        && !s.tasks[s.approveRun.value].answering && !s.tasks[s.approveRun.value].finished)
  }

  /** The window's own run, if there is one, is marked and cancelled. */
  function ExpireRun(s: Flow): Flow {
    if s.approveRun.Some? && s.approveRun.value < |s.tasks| then
      var a := s.approveRun.value;
      s.(tasks := s.tasks[a := s.tasks[a].(expired := true, cancelled := true)])
    else s
  }

  function ResumeExpiry(s: Flow, i: nat): Flow
    requires i < |s.tasks|
  {
    var t := s.tasks[i];
    match t.pc
    case Delay =>
      if t.cancelled || !Waiting(s) then To(s, i, Ended)
      else To(ExpireRun(s), i, Queued(DeclineForTime))
    case Back(_, _) => if t.cancelled then To(s, i, Ended) else To(s, i, Ended).(screen := Failed)
    case _ => s
  }

  function ResumeGoHome(s: Flow, i: nat): Flow
    requires i < |s.tasks|
  {
    match s.tasks[i].pc
    case Ready => To(s, i, Queued(DeclineTheSession))
    case Back(_, _) => To(s, i, Ended).(screen := Home)
    case _ => s
  }

  function Resumed(s: Flow, i: nat): Flow
    requires i < |s.tasks|
  {
    match s.tasks[i].kind
    case Dial => ResumeDial(s, i)
    case Approval(_) => ResumeApproval(s, i)
    case Expiry => ResumeExpiry(s, i)
    case GoHome => ResumeGoHome(s, i)
  }

  function PromptBack(s: Flow, i: nat, outcome: Outcome): Flow
    requires i < |s.tasks|
  {
    var t := s.tasks[i];
    if t.expired || t.cancelled then Over(s, i)
    // Dismissed: back to where the request was, the window still running.
    else if outcome.Refused? then Over(s, i).(screen := if s.session.Some? then Approve else Failed)
    else if outcome.Threw? then To(Disarm(s), i, Queued(DeclineActiveAndClose))
    else
      var s' := Disarm(s);
      s'.(tasks := s'.tasks[i := s'.tasks[i].(pc := Queued(AnswerIt), answering := true)])
  }

  // ---- the IO threads ----

  predicate DecliningForTime(t: Task) {
    t.kind.Expiry? && t.pc == Started(DeclineForTime)
  }

  predicate NoneDeclining(s: Flow) {
    forall i :: 0 <= i < |s.tasks| ==> !DecliningForTime(s.tasks[i])
  }

  /** A block whose coroutine was cancelled before it began does not run. */
  function Begin(s: Flow, i: nat): Flow
    requires i < |s.tasks| && s.tasks[i].pc.Queued?
  {
    var t := s.tasks[i];
    if t.cancelled then To(s, i, Back(t.pc.job, Threw))
    // A dial closes the session before it first.
    else if t.pc.job.DialIt? then To(CloseSession(s), i, Started(DialIt))
    else To(s, i, Started(t.pc.job))
  }

  predicate AnswerGoesOut(s: Flow, i: nat, outcome: Outcome)
    requires i < |s.tasks|
  {
    var t := s.tasks[i];
    t.kind.Approval? && outcome.Good? && WireOf(s, t.kind.active).open && !WireOf(s, t.kind.active).answered
  }

  function End(s: Flow, i: nat, outcome: Outcome): Flow
    requires i < |s.tasks| && s.tasks[i].pc.Started?
  {
    var t := s.tasks[i];
    var s' := To(s, i, Back(t.pc.job, outcome));
    match t.pc.job
    case DialIt =>
      if outcome.Threw? then s'
      else s.(tasks := s.tasks[i := t.(pc := Back(DialIt, outcome), reached := true, wire := Wire(true, false, false, false, false))])
    case PrepareKey => s'
    case AnswerIt =>
      if AnswerGoesOut(s, i, outcome) then
        SetWire(s', t.kind.active, WireOf(s, t.kind.active).(answered := true, overlapped := !NoneDeclining(s)))
      else To(s, i, Back(AnswerIt, if outcome.Good? then Threw else outcome))
    case DeclineForTime => To(CloseSession(DeclineSession(s, true)), i, Back(DeclineForTime, outcome))
    case DeclineTheSession => To(CloseSession(DeclineSession(s, false)), i, Back(DeclineTheSession, outcome))
    case DeclineActive => if t.kind.Approval? then DeclineOne(s', t.kind.active) else s'
    case DeclineActiveAndClose => if t.kind.Approval? then CloseSession(DeclineOne(s', t.kind.active)) else s'
    case CloseThen(_) => To(CloseSession(s), i, Back(t.pc.job, outcome))
  }

  predicate CanResume(t: Task) {
    t.pc.Ready? || t.pc.Delay? || t.pc.Back? || (t.pc.Prompt? && t.cancelled)
  }

  predicate Enabled(s: Flow, e: Event) {
    match e
    case PressConnect => true
    case PressApprove => true
    case PressCancel => true
    case Resume(i) => i < |s.tasks| && CanResume(s.tasks[i])
    case PromptReturns(i, _) => i < |s.tasks| && s.tasks[i].kind.Approval? && s.tasks[i].pc.Prompt?
    case IoBegins(i) => i < |s.tasks| && s.tasks[i].pc.Queued?
    case IoEnds(i, _) => i < |s.tasks| && s.tasks[i].pc.Started?
  }

  function Step(s: Flow, e: Event): Flow
    requires Enabled(s, e)
  {
    match e
    case PressConnect => Connect(s)
    case PressApprove => ApprovePressed(s)
    case PressCancel => Cancel(s)
    case Resume(i) => Resumed(s, i)
    case PromptReturns(i, outcome) => PromptBack(s, i, outcome)
    case IoBegins(i) => Begin(s, i)
    case IoEnds(i, outcome) => End(s, i, outcome)
  }

  function Start(): Flow {
    Flow(Home, None, [], None, None, None)
  }

  predicate Allowed(s: Flow, es: seq<Event>)
    decreases |es|
  {
    es == [] || (Enabled(s, es[0]) && Allowed(Step(s, es[0]), es[1..]))
  }

  function Run(s: Flow, es: seq<Event>): Flow
    requires Allowed(s, es)
    decreases |es|
  {
    if es == [] then s else Run(Step(s, es[0]), es[1..])
  }
}
