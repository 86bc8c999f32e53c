/** android/.../KeyUse.kt: a block that runs on one thread, another that waits for it
    for a limited time, one lock, and what each may count on. */
module KeyUse {
  // ---- runWithin ----

  /** The thread that runs the block: still in it, in possession of its value,
      through with the lock, or done, its value then being there to get. */
  datatype Worker = InBlock | HasValue | LeftLock | Completed | Failed

  /** The thread that waits: it may have stopped waiting and not have taken the
      lock yet; it ends with the value, or with an exception. */
  datatype Caller = Getting | Stopping | GotValue | GotException | GaveUp

  datatype Use = Use(worker: Worker, caller: Caller, gaveUp: bool, arrived: bool, discarded: nat)

  datatype Step = BlockReturns | BlockThrows | WorkerLocks | TaskCompletes | GetReturns | WaitEnds | CallerLocks

  const BEGUN := Use(InBlock, Getting, false, false, 0)

  predicate Enabled(u: Use, s: Step) {
    match s
    case BlockReturns => u.worker.InBlock?
    case BlockThrows => u.worker.InBlock?
    case WorkerLocks => u.worker.HasValue?
    case TaskCompletes => u.worker.LeftLock?
    case GetReturns => u.caller.Getting? && (u.worker.Completed? || u.worker.Failed?)
    case WaitEnds => u.caller.Getting?
    case CallerLocks => u.caller.Stopping?
  }

  /** The timeout and the interrupt do the same. */
  function Next(u: Use, s: Step): Use
    requires Enabled(u, s)
  {
    match s
    case BlockReturns => u.(worker := HasValue)
    case BlockThrows => u.(worker := Failed)
    case WorkerLocks =>
      if u.gaveUp then u.(worker := LeftLock, discarded := u.discarded + 1) else u.(worker := LeftLock, arrived := true)
    case TaskCompletes => u.(worker := Completed)
    case GetReturns => u.(caller := if u.worker.Completed? then GotValue else GotException)
    case WaitEnds => u.(caller := Stopping)
    case CallerLocks =>
      u.(caller := GaveUp, gaveUp := true, discarded := if u.arrived then u.discarded + 1 else u.discarded)
  }

  predicate Allowed(u: Use, ss: seq<Step>)
    decreases |ss|
  {
    ss == [] || (Enabled(u, ss[0]) && Allowed(Next(u, ss[0]), ss[1..]))
  }

  function Run(u: Use, ss: seq<Step>): Use
    requires Allowed(u, ss)
    decreases |ss|
  {
    if ss == [] then u else Run(Next(u, ss[0]), ss[1..])
  }

  /** The block produced a value. */
  predicate Produced(u: Use) {
    !u.worker.InBlock? && !u.worker.Failed?
  }

  /** Both threads are through. */
  predicate Over(u: Use) {
    (u.worker.Completed? || u.worker.Failed?) && (u.caller.GotValue? || u.caller.GotException? || u.caller.GaveUp?)
  }

  predicate Inv(u: Use) {
    && (u.gaveUp <==> u.caller.GaveUp?)
    && (u.caller.GotValue? ==> u.worker.Completed?)
    && (u.caller.GotException? ==> u.worker.Failed?)
    && (u.arrived ==> u.worker.LeftLock? || u.worker.Completed?)
    && (u.worker.LeftLock? || u.worker.Completed? ==> u.arrived || u.gaveUp)
    && (u.caller.GotValue? ==> u.arrived)
    && u.discarded == (if u.caller.GaveUp? && (u.worker.LeftLock? || u.worker.Completed?) then 1 else 0)
  }

  lemma {:induction false} RunKeeps(u: Use, ss: seq<Step>)
    requires Inv(u) && Allowed(u, ss)
    ensures Inv(Run(u, ss))
    decreases |ss|
  {
    if ss != [] {
      assert Inv(Next(u, ss[0]));
      RunKeeps(Next(u, ss[0]), ss[1..]);
    }
  }

  /** In every interleaving of worker, timeout and interrupt, a value the block
      produces is returned or discarded, one of the two and once; and if there is
      none, nothing is discarded and nothing returned. */
  lemma ReturnedOrDiscardedOnce(ss: seq<Step>)
    requires Allowed(BEGUN, ss)
    ensures var u := Run(BEGUN, ss);
      && u.discarded + (if u.caller.GotValue? then 1 else 0) <= (if Produced(u) then 1 else 0)
      && (Over(u) ==> u.discarded + (if u.caller.GotValue? then 1 else 0) == (if Produced(u) then 1 else 0))
  {
    RunKeeps(BEGUN, ss);
  }
}
