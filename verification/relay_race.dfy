/** Racing the relay addresses of a machine. raceRelayAddresses
    (mrcore/transport/syncthing_relay.go): every announced address is tried at once, the
    first session to arrive is returned, later ones are closed. The launching loop, the
    attempts, the receiving loop and, after a win, the drain run at the same time; a run
    is any sequence of their steps. */
module RelayRace {
  import opened Basics

  /** What has become of one address. Blocked: its result found the channel full. */
  datatype Attempt = Ahead | Running | Sent | Blocked | Received

  datatype Report = Report(addr: nat, ok: bool)

  /** Where raceRelayAddresses is. Jammed: its own send found the channel full. */
  datatype Phase = Launching | Jammed | Receiving | Won(addr: nat) | AllFailed

  /** attempts are those launched so far, chan the results channel, sent all that
      ever went into it, received what the loop has taken out, drain what the
      goroutine left behind has still to take and closed what it has closed; open
      the sessions nobody has closed, joined all there ever were. */
  datatype Race = Race(
    addrs: seq<Attempt>, attempts: nat, chan: seq<Report>, sent: seq<Report>, phase: Phase, received: nat, drain: nat,
    closed: seq<nat>, open: set<nat>, joined: set<nat>, returned: seq<nat>, cancelled: bool)

  datatype Event =
    | Launch(parsable: bool)
    | AllLaunched
    | Ends(addr: nat, ok: bool)
    | Receive
    | AllReceived
    | Drain
    | CloseReturned

  predicate Enabled(s: Race, e: Event) {
    match e
    case Launch(_) => s.phase.Launching? && s.attempts < |s.addrs|
    case AllLaunched => s.phase.Launching? && s.attempts == |s.addrs|
    case Ends(i, _) => i < |s.addrs| && s.addrs[i].Running?
    case Receive => s.phase.Receiving? && s.received < s.attempts && s.chan != [] && s.chan[0].addr < |s.addrs|
    case AllReceived => s.phase.Receiving? && s.received == s.attempts
    case Drain => s.drain > 0 && s.chan != [] && s.chan[0].addr < |s.addrs|
    case CloseReturned => s.phase.Won? && s.phase.addr in s.open
  }

  /** Room for one more result. */
  predicate Room(s: Race) {
    |s.chan| < |s.addrs|
  }

  function Put(s: Race, i: nat, ok: bool): Race
    requires i < |s.addrs|
  {
    s.(addrs := s.addrs[i := Sent], chan := s.chan + [Report(i, ok)], sent := s.sent + [Report(i, ok)])
  }

  function Take(s: Race): Race
    requires s.chan != [] && s.chan[0].addr < |s.addrs|
  {
    s.(addrs := s.addrs[s.chan[0].addr := Received], chan := s.chan[1..])
  }

  function Step(s: Race, e: Event): Race
    requires Enabled(s, e)
  {
    match e
    case Launch(parsable) =>
      var i := s.attempts;
      if parsable then s.(addrs := s.addrs[i := Running], attempts := i + 1)
      // The loop itself sends the error of an address that does not parse.
      else if Room(s) then Put(s, i, false).(attempts := i + 1)
      else s.(addrs := s.addrs[i := Blocked], phase := Jammed)
    case AllLaunched => s.(phase := Receiving)
    case Ends(i, ok) =>
      var conns := if ok then {i} else {};
      (if Room(s) then Put(s, i, ok) else s.(addrs := s.addrs[i := Blocked])).(open := s.open + conns, joined := s.joined + conns)
    case Receive =>
      var r := s.chan[0];
      if r.ok then
        Take(s).(received := s.received + 1, phase := Won(r.addr), returned := s.returned + [r.addr], cancelled := true,
                 drain := s.attempts - s.received - 1)
      else Take(s).(received := s.received + 1)
    case AllReceived => s.(phase := AllFailed, cancelled := true)
    case Drain =>
      var r := s.chan[0];
      if r.ok then Take(s).(drain := s.drain - 1, open := s.open - {r.addr}, closed := s.closed + [r.addr])
      else Take(s).(drain := s.drain - 1)
    case CloseReturned => s.(open := s.open - {s.phase.addr})
  }

  function Start(n: nat): Race {
    Race(seq(n, _ => Ahead), 0, [], [], Launching, 0, 0, [], {}, {}, [], false)
  }

  predicate Allowed(s: Race, es: seq<Event>)
    decreases |es|
  {
    es == [] || (Enabled(s, es[0]) && Allowed(Step(s, es[0]), es[1..]))
  }

  function Run(s: Race, es: seq<Event>): Race
    requires Allowed(s, es)
    decreases |es|
  {
    if es == [] then s else Run(Step(s, es[0]), es[1..])
  }

  // ---- what every step keeps ----

  function RunningCount(addrs: seq<Attempt>): nat { Count(addrs, (a: Attempt) => a.Running?) }

  function SentCount(addrs: seq<Attempt>): nat { Count(addrs, (a: Attempt) => a.Sent?) }

  lemma AddrChanges(addrs: seq<Attempt>, i: nat, a: Attempt)
    requires i < |addrs|
    ensures RunningCount(addrs[i := a]) == RunningCount(addrs) - (if addrs[i].Running? then 1 else 0) + (if a.Running? then 1 else 0)
    ensures SentCount(addrs[i := a]) == SentCount(addrs) - (if addrs[i].Sent? then 1 else 0) + (if a.Sent? then 1 else 0)
  {
    CountUpdate(addrs, (a: Attempt) => a.Running?, i, a);
    CountUpdate(addrs, (a: Attempt) => a.Sent?, i, a);
  }

  /** Nobody is blocked, and exactly the addresses the loop has passed were tried. */
  predicate Addresses(s: Race) {
    && !s.phase.Jammed? && s.attempts <= |s.addrs|
    && (forall i :: 0 <= i < |s.addrs| ==> !s.addrs[i].Blocked? && (s.addrs[i].Ahead? <==> s.attempts <= i))
    && (!s.phase.Launching? ==> s.attempts == |s.addrs|)
  }

  /** The channel holds one result of each address that has sent and was not heard. */
  predicate Channel(s: Race) {
    && (forall k :: 0 <= k < |s.chan| ==> s.chan[k].addr < |s.addrs| && s.addrs[s.chan[k].addr].Sent?)
    && (forall j, k :: 0 <= j < k < |s.chan| ==> s.chan[j].addr != s.chan[k].addr)
    && |s.chan| == SentCount(s.addrs)
  }

  /** Every attempt is running, buffered or taken, once. */
  predicate Counts(s: Race) {
    && s.attempts == RunningCount(s.addrs) + |s.sent|
    && |s.chan| <= |s.sent| && s.chan == s.sent[|s.sent| - |s.chan|..]
    && (!s.phase.Won? ==> s.drain == 0 && s.received == |s.sent| - |s.chan|)
    && (s.phase.Won? ==> s.drain == RunningCount(s.addrs) + |s.chan|)
    && (s.phase.Launching? ==> s.received == 0)
    && (s.phase.AllFailed? ==> s.received == s.attempts)
    && s.received <= |s.sent| - |s.chan|
  }

  /** The first success among these results is that of addr, at k. */
  predicate FirstSuccess(sent: seq<Report>, k: int, addr: nat) {
    0 <= k < |sent| && sent[k] == Report(addr, true) && forall j :: 0 <= j < k ==> !sent[j].ok
  }

  /** The loop has taken failures up to the winner, and nothing else. */
  predicate FirstWins(s: Race) {
    && (!s.phase.Won? ==> s.returned == [] && forall k :: 0 <= k < s.received && k < |s.sent| ==> !s.sent[k].ok)
    && (s.phase.Won? ==> s.returned == [s.phase.addr] && FirstSuccess(s.sent, s.received - 1, s.phase.addr))
    && (s.cancelled <==> s.phase.Won? || s.phase.AllFailed?)
  }

  predicate Buffered(chan: seq<Report>, a: nat) {
    exists k :: 0 <= k < |chan| && chan[k] == Report(a, true)
  }

  /** A session that was joined is buffered, or was closed by the drain, or is the
      one returned; what is open is what is buffered, and the one returned until its
      owner closes it. */
  ghost predicate Sessions(s: Race) {
    && (forall a :: a in s.joined <==> Buffered(s.chan, a) || a in s.closed || s.phase == Won(a))
    && (forall a :: a in s.open ==> Buffered(s.chan, a) || s.phase == Won(a))
    && (forall a :: Buffered(s.chan, a) ==> a in s.open)
  }

  /** What was closed was taken, once, and is not what was returned. */
  predicate Closed(s: Race) {
    && (forall k :: 0 <= k < |s.closed| ==> s.closed[k] < |s.addrs| && s.addrs[s.closed[k]].Received? && s.phase != Won(s.closed[k]))
    && (forall j, k :: 0 <= j < k < |s.closed| ==> s.closed[j] != s.closed[k])
    && (s.phase.Won? ==> s.phase.addr < |s.addrs| && s.addrs[s.phase.addr].Received?)
  }

  ghost predicate Inv(s: Race) {
    Addresses(s) && Channel(s) && Counts(s) && FirstWins(s) && Sessions(s) && Closed(s)
  }

  lemma StartInv(n: nat)
    ensures Inv(Start(n))
  {
    CountBound(Start(n).addrs, (a: Attempt) => a.Running?);
    CountBound(Start(n).addrs, (a: Attempt) => a.Sent?);
  }

  /** Whoever is to send finds room: the channel is as long as the list. */
  lemma RoomToSend(s: Race, i: nat)
    requires Channel(s) && i < |s.addrs| && !s.addrs[i].Sent?
    ensures Room(s)
  {
    AddrChanges(s.addrs, i, Sent);
    CountBound(s.addrs[i := Sent], (a: Attempt) => a.Sent?);
  }

  lemma BufferedPut(chan: seq<Report>, r: Report, a: nat)
    ensures Buffered(chan + [r], a) <==> Buffered(chan, a) || r == Report(a, true)
  {
    if Buffered(chan, a) {
      var k :| 0 <= k < |chan| && chan[k] == Report(a, true);
      assert (chan + [r])[k] == chan[k];
    }
    assert (chan + [r])[|chan|] == r;
  }

  lemma BufferedTake(s: Race, a: nat)
    requires Channel(s) && s.chan != []
    ensures Buffered(s.chan, a) <==> Buffered(s.chan[1..], a) || s.chan[0] == Report(a, true)
    ensures Buffered(s.chan[1..], a) ==> a != s.chan[0].addr
  {
    var rest := s.chan[1..];
    if Buffered(s.chan, a) {
      var k :| 0 <= k < |s.chan| && s.chan[k] == Report(a, true);
      assert k > 0 ==> rest[k - 1] == s.chan[k];
    }
    if Buffered(rest, a) {
      var k :| 0 <= k < |rest| && rest[k] == Report(a, true);
      assert rest[k] == s.chan[k + 1];
    }
  }

  /** What becomes of a race when attempt i sends, with the session it has joined. */
  function Puts(s: Race, i: nat, ok: bool): Race
    requires i < |s.addrs|
  {
    var conns := if ok then {i} else {};
    Put(s, i, ok).(attempts := if s.addrs[i].Ahead? then i + 1 else s.attempts, open := s.open + conns, joined := s.joined + conns)
  }

  /** It was running, or is the one the loop is at. */
  predicate MaySend(s: Race, i: nat, ok: bool) {
    i < |s.addrs| && (s.addrs[i].Running? || (s.addrs[i].Ahead? && i == s.attempts && !ok && s.phase.Launching?))
  }

  lemma PutKeepsSessions(s: Race, i: nat, ok: bool)
    requires Addresses(s) && Channel(s) && Sessions(s) && Closed(s) && MaySend(s, i, ok)
    ensures Sessions(Puts(s, i, ok)) && Closed(Puts(s, i, ok))
  {
    forall a
      ensures Buffered(s.chan + [Report(i, ok)], a) <==> Buffered(s.chan, a) || (ok && a == i)
    {
      BufferedPut(s.chan, Report(i, ok), a);
    }
  }

  lemma PutKeepsCounts(s: Race, i: nat, ok: bool)
    requires Addresses(s) && Counts(s) && FirstWins(s) && MaySend(s, i, ok)
    ensures Addresses(Puts(s, i, ok)) && Counts(Puts(s, i, ok)) && FirstWins(Puts(s, i, ok))
  {
    AddrChanges(s.addrs, i, Sent);
    var s' := Puts(s, i, ok);
    assert s'.chan == s'.sent[|s'.sent| - |s'.chan|..];
    assert forall k :: 0 <= k < |s.sent| ==> s'.sent[k] == s.sent[k];
  }

  lemma PutKeepsChannel(s: Race, i: nat, ok: bool)
    requires Channel(s) && MaySend(s, i, ok)
    ensures Channel(Puts(s, i, ok))
  {
    AddrChanges(s.addrs, i, Sent);
  }

  lemma PutKeeps(s: Race, i: nat, ok: bool)
    requires Inv(s) && MaySend(s, i, ok)
    ensures Inv(Puts(s, i, ok))
  {
    PutKeepsSessions(s, i, ok);
    PutKeepsCounts(s, i, ok);
    PutKeepsChannel(s, i, ok);
  }

  lemma LaunchKeeps(s: Race, parsable: bool)
    requires Inv(s) && Enabled(s, Launch(parsable))
    ensures Inv(Step(s, Launch(parsable)))
  {
    if parsable {
      AddrChanges(s.addrs, s.attempts, Running);
    } else {
      RoomToSend(s, s.attempts);
      PutKeeps(s, s.attempts, false);
      assert s.open + {} == s.open && s.joined + {} == s.joined;
    }
  }

  lemma TakeLeaves(s: Race)
    requires Inv(s) && s.chan != [] && s.chan[0].addr < |s.addrs|
    ensures Addresses(Take(s)) && Channel(Take(s))
    ensures RunningCount(Take(s).addrs) == RunningCount(s.addrs)
    ensures Take(s).chan == s.sent[|s.sent| - |s.chan| + 1..] && s.sent[|s.sent| - |s.chan|] == s.chan[0]
  {
    var i := s.chan[0].addr;
    AddrChanges(s.addrs, i, Received);
    forall k | 0 <= k < |s.chan| - 1
      ensures s.chan[1..][k].addr != i
    {
      assert s.chan[1..][k] == s.chan[k + 1];
    }
  }

  lemma TakeLeavesSessions(s: Race)
    requires Inv(s) && s.chan != [] && s.chan[0].addr < |s.addrs|
    ensures forall a :: Buffered(s.chan, a) <==> Buffered(s.chan[1..], a) || s.chan[0] == Report(a, true)
    ensures forall a :: Buffered(s.chan[1..], a) ==> a != s.chan[0].addr
    ensures s.chan[0].addr !in s.closed && s.phase != Won(s.chan[0].addr)
  {
    forall a
      ensures Buffered(s.chan, a) <==> Buffered(s.chan[1..], a) || s.chan[0] == Report(a, true)
      ensures Buffered(s.chan[1..], a) ==> a != s.chan[0].addr
    {
      BufferedTake(s, a);
    }
  }

  lemma ReceiveKeepsSessions(s: Race)
    requires Inv(s) && Enabled(s, Receive)
    ensures Sessions(Step(s, Receive)) && Closed(Step(s, Receive))
  {
    TakeLeavesSessions(s);
  }

  lemma ReceiveKeepsCounts(s: Race)
    requires Inv(s) && Enabled(s, Receive)
    ensures Counts(Step(s, Receive)) && FirstWins(Step(s, Receive))
  {
    TakeLeaves(s);
  }

  lemma ReceiveKeeps(s: Race)
    requires Inv(s) && Enabled(s, Receive)
    ensures Inv(Step(s, Receive))
  {
    TakeLeaves(s);
    ReceiveKeepsCounts(s);
    ReceiveKeepsSessions(s);
    assert Step(s, Receive).addrs == Take(s).addrs;
  }

  lemma DrainKeepsSessions(s: Race)
    requires Inv(s) && Enabled(s, Drain)
    ensures Sessions(Step(s, Drain)) && Closed(Step(s, Drain))
  {
    TakeLeavesSessions(s);
  }

  lemma DrainKeeps(s: Race)
    requires Inv(s) && Enabled(s, Drain)
    ensures Inv(Step(s, Drain))
  {
    TakeLeaves(s);
    DrainKeepsSessions(s);
    assert Step(s, Drain).addrs == Take(s).addrs;
  }

  lemma CloseKeeps(s: Race)
    requires Inv(s) && Enabled(s, CloseReturned)
    ensures Inv(Step(s, CloseReturned))
  {
    assert !Buffered(s.chan, s.phase.addr);
  }

  lemma EndsKeeps(s: Race, i: nat, ok: bool)
    requires Inv(s) && Enabled(s, Ends(i, ok))
    ensures Inv(Step(s, Ends(i, ok)))
  {
    RoomToSend(s, i);
    PutKeeps(s, i, ok);
  }

  lemma LoopKeeps(s: Race, e: Event)
    requires Inv(s) && Enabled(s, e) && (e.AllLaunched? || e.AllReceived?)
    ensures Inv(Step(s, e))
  {
  }

  lemma StepKeeps(s: Race, e: Event)
    requires Inv(s) && Enabled(s, e)
    ensures Inv(Step(s, e)) && |Step(s, e).addrs| == |s.addrs|
  {
    match e
    case Launch(parsable) => LaunchKeeps(s, parsable);
    case Ends(i, ok) => EndsKeeps(s, i, ok);
    case Receive => ReceiveKeeps(s);
    case Drain => DrainKeeps(s);
    case CloseReturned => CloseKeeps(s);
    case _ => LoopKeeps(s, e);
  }

  lemma {:induction false} RunKeeps(s: Race, es: seq<Event>)
    requires Inv(s) && Allowed(s, es)
    ensures Inv(Run(s, es)) && |Run(s, es).addrs| == |s.addrs|
    decreases |es|
  {
    if es != [] {
      StepKeeps(s, es[0]);
      RunKeeps(Step(s, es[0]), es[1..]);
    }
  }

  // ---- main results ----

  /** The state of a race over n addresses after some run of it. */
  ghost predicate Reached(s: Race, n: nat) {
    exists es :: Allowed(Start(n), es) && Run(Start(n), es) == s
  }

  lemma ReachedInv(s: Race, n: nat)
    requires Reached(s, n)
    ensures Inv(s) && |s.addrs| == n
  {
    var es :| Allowed(Start(n), es) && Run(Start(n), es) == s;
    StartInv(n);
    RunKeeps(Start(n), es);
  }

  /** At every moment of every interleaving nobody is blocked, neither an attempt nor
      the loop that launches them; the attempts whose results were not yet taken
      are those running and those buffered; and after a win the drain waits for
      exactly these. While there is something to wait for, it will come. */
  lemma NobodyBlocks(s: Race, n: nat)
    requires Reached(s, n)
    ensures !s.phase.Jammed? && |s.chan| <= n && forall i :: 0 <= i < |s.addrs| ==> !s.addrs[i].Blocked?
    ensures !s.phase.Won? ==> s.attempts - s.received == RunningCount(s.addrs) + |s.chan|
    ensures s.phase.Won? ==> s.drain == RunningCount(s.addrs) + |s.chan|
    ensures (s.phase.Receiving? && s.received < s.attempts) || s.drain > 0 ==> s.chan != [] || exists i :: 0 <= i < |s.addrs| && s.addrs[i].Running?
  {
    ReachedInv(s, n);
    CountBound(s.addrs, (a: Attempt) => a.Sent?);
    CountBound(s.addrs, (a: Attempt) => a.Running?);
  }

  /** Of everything that came into the channel, in the order in which it came, the
      first success is what is returned, once; and a race fails only when every
      address has failed, with nothing left open. */
  lemma TheFirstSuccessWins(s: Race, n: nat)
    requires Reached(s, n)
    ensures s.returned == (if s.phase.Won? then [s.phase.addr] else [])
    ensures s.phase.Won? ==> FirstSuccess(s.sent, s.received - 1, s.phase.addr)
    ensures s.phase.AllFailed? ==> |s.sent| == n && s.open == {} && s.chan == [] && forall k :: 0 <= k < n ==> !s.sent[k].ok
  {
    ReachedInv(s, n);
  }

  /** Nothing is left to happen by itself. */
  predicate Quiet(s: Race) {
    RunningCount(s.addrs) == 0 && !Enabled(s, Drain)
  }

  /** After a win, every session that was joined, then or later, is the one returned,
      or is closed, once, by the drain, or is still to be drained; once the race has
      come to rest none is. So nothing stays open but what was returned. */
  lemma EverySessionIsReturnedOrClosed(s: Race, n: nat)
    requires Reached(s, n) && s.phase.Won?
    ensures s.cancelled && s.phase.addr in s.joined && s.phase.addr !in s.closed
    ensures forall a :: a in s.joined <==> a == s.phase.addr || a in s.closed || Buffered(s.chan, a)
    ensures forall j, k :: 0 <= j < k < |s.closed| ==> s.closed[j] != s.closed[k]
    ensures Quiet(s) ==> s.chan == [] && s.drain == 0 && s.open <= {s.phase.addr}
    ensures Quiet(s) ==> forall a :: a in s.joined <==> a == s.phase.addr || a in s.closed
  {
    ReachedInv(s, n);
    if Quiet(s) {
      assert s.chan == [];
    }
  }
}
