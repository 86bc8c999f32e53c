/** One pairing attempt. */
module Pairing {
  import opened Basics
  import opened PrimeGroup
  import opened Mr1
  import opened PairingProof
  import opened Tokens
  import opened Luks
  import opened Enrolment
  import opened EnrolmentSafety
  import opened Exchange

  // cmd/synctang-unlocker/pair.go, on the machine. Any peer may connect; a keyslot is
  // written only for one that proves it saw the code on the machine's screen, over
  // this connection's nonce, both identities and the very key it offers, and only
  // after the operator's yes. What an attempt writes, in which order things happen in
  // it, and what OK then means for the next attempt by the same peer.

  datatype PairMessage = Challenge(nonce: bytes, name: string) | PairResult(ok: bool, error: string)

  datatype PairRequest = PairRequest(pubKey: bytes, proof: Mac)

  /** What the operator says to enrolling, and to replacing; None where nobody is
      asked: then enrolling goes ahead and replacing does not. */
  datatype Operator = Operator(confirm: Option<bool>, confirmReplace: Option<bool>)
  {
    predicate Enrols() { confirm != Some(false) }

    predicate Replaces() { confirmReplace == Some(true) }
  }

  /** The machine's side of one attempt: the code on its screen, its own verified
      identity and the peer's, the nonce of this connection, what Enrol draws. */
  datatype Attempt<!P> = Attempt(g: Group<P>, secret: bytes, machine: Machine, machineID: bytes, peer: DeviceID, peerID: bytes,
                                 nonce: bytes, draw: Draw, operator: Operator, passphrase: bytes)

  function MadeBy<P(==)>(g: Group<P>, pubKey: bytes, draw: Draw): (r: Result<Enrolled>)
    ensures MadeFor(r, pubKey)
  {
    match Enrol(g, pubKey, draw)
    case Failure(reason) => Failure(reason)
    case Success((secret, entry)) => Success(Enrolled(secret, entry))
  }

  /** The request proves the code over this connection's nonce, both identities
      and the very key it offers, and the key is a point. */
  predicate Proved<P(==)>(a: Attempt<P>, req: PairRequest) {
    req.proof == Proof(a.secret, Claim(a.machineID, a.peerID, req.pubKey, a.nonce)) && PointToX(a.g, req.pubKey).Success?
  }

  function SlotOption(name: string): Option<string> {
    if name == "" then None else Some(name)
  }

  /** What a proved request does to the header: the three accepting branches. */
  function Written<P(==)>(a: Attempt<P>, h: Header, pubKey: bytes, budget: nat): Execution {
    match PlanEnrolment(h, pubKey, a.peer)
    case Failure(_) => Refused(h, budget)
    case Success(PlanAlready(_)) => Execution(h, true, budget)
    case Success(PlanReplace(keyslot, _)) =>
      if a.operator.Replaces() then
        RunReplace(h, a.passphrase, MadeBy(a.g, pubKey, a.draw), a.peer, a.peer, SlotOption(keyslot), budget)
      else Refused(h, budget)
    case Success(PlanAdd) =>
      if a.operator.Enrols() then
        RunEnrol(h, a.passphrase, MadeBy(a.g, pubKey, a.draw), a.machine, Some(a.peer), budget)
      else Refused(h, budget)
  }

  /** What comes of a request that was read. */
  function Answered<P(==)>(a: Attempt<P>, h: Header, budget: nat, req: PairRequest): Execution {
    if Proved(a, req) then Written(a, h, req.pubKey, budget) else Refused(h, budget)
  }

  /** What one attempt comes to: the header, and whether OK is sent. */
  function Paired<P(==)>(a: Attempt<P>, h: Header, budget: nat, writes: nat, incoming: seq<PairRequest>): Execution {
    if writes > 0 && incoming != [] then Answered(a, h, budget, incoming[0]) else Refused(h, budget)
  }

  /** What happens in an attempt, in order. Asked: the operator's answer, or what
      goes without one. */
  datatype PairEvent =
    | ChallengeSent
    | RequestRead(req: PairRequest)
    | Compared(matches: bool)
    | Decoded(valid: bool)
    | Asked(replacing: bool, yes: bool)
    | Ran(command: Command)
    | ResultSent(ok: bool)

  /** The header commands among the events. */
  function CommandsOf(events: seq<PairEvent>): seq<Command> {
    if events == [] then [] else CommandIn(events[0]) + CommandsOf(events[1..])
  }

  function RanAll(cs: seq<Command>): (events: seq<PairEvent>)
    ensures |events| == |cs| && forall i :: 0 <= i < |cs| ==> events[i] == Ran(cs[i])
  {
    if cs == [] then [] else [Ran(cs[0])] + RanAll(cs[1..])
  }

  function CommandIn(e: PairEvent): seq<Command> {
    if e.Ran? then [e.command] else []
  }

  lemma {:induction false} CommandsOfBoth(a: seq<PairEvent>, b: seq<PairEvent>)
    ensures CommandsOf(a + b) == CommandsOf(a) + CommandsOf(b)
  {
    if a == [] {
      assert a + b == b;
    } else {
      CommandsOfBoth(a[1..], b);
      assert (a + b)[0] == a[0] && (a + b)[1..] == a[1..] + b;
      Associated(CommandIn(a[0]), CommandsOf(a[1..]), CommandsOf(b));
    }
  }

  lemma Associated<T>(a: seq<T>, b: seq<T>, c: seq<T>)
    ensures a + (b + c) == (a + b) + c
  {
  }

  lemma {:induction false} CommandsOfRanAll(cs: seq<Command>)
    ensures CommandsOf(RanAll(cs)) == cs
  {
    if cs != [] {
      assert RanAll(cs)[1..] == RanAll(cs[1..]);
      CommandsOfRanAll(cs[1..]);
      assert [cs[0]] + cs[1..] == cs;
    }
  }

  lemma {:induction false} NoCommands(events: seq<PairEvent>)
    requires forall i :: 0 <= i < |events| ==> !events[i].Ran?
    ensures CommandsOf(events) == []
  {
    if events != [] {
      NoCommands(events[1..]);
    }
  }

  /** From the request on: every header command comes after a comparison that
      matched, over this connection's nonce, the verified peer and the key offered,
      after that key was decoded, and after the yes to what the plan says. */
  ghost predicate WritesAreAuthorised<P>(a: Attempt<P>, h: Header, req: PairRequest, events: seq<PairEvent>) {
    && (forall i :: 0 <= i < |events| && events[i].Ran? ==>
          i >= 3 && events[0] == Compared(true) && events[1] == Decoded(true) && events[2].Asked? && events[2].yes)
    && |events| >= 2
    && events[0] == Compared(req.proof == Proof(a.secret, Claim(a.machineID, a.peerID, req.pubKey, a.nonce)))
    && (events[1].Decoded? ==> events[1] == Decoded(PointToX(a.g, req.pubKey).Success?))
    && (|events| >= 3 && events[2].Asked? ==>
          && PlanEnrolment(h, req.pubKey, a.peer).Success?
          && events[2] == AskedFor(a.operator, PlanEnrolment(h, req.pubKey, a.peer).value))
  }

  /** A whole attempt: the challenge goes out, the request is read, and then that. */
  ghost predicate Course<P>(a: Attempt<P>, h: Header, incoming: seq<PairRequest>, events: seq<PairEvent>) {
    if |events| < 2 then events == [] || events == [ChallengeSent]
    else incoming != [] && events[..2] == [ChallengeSent, RequestRead(incoming[0])] && WritesAreAuthorised(a, h, incoming[0], events[2..])
  }

  function AskedFor(operator: Operator, plan: Plan): PairEvent {
    if plan.PlanReplace? then Asked(true, operator.Replaces()) else Asked(false, operator.Enrols())
  }

  method RefusePairing(conn: Conn<PairMessage, PairRequest>, reason: string)
    modifies conn
    ensures conn.attempted == old(conn.attempted) + [PairResult(false, reason)]
  {
    var _ := conn.Write(PairResult(false, reason));
  }

  const DECLINED := "the operator declined the pairing"
  const ENROL_FAILED := "the machine could not enrol this key holder"

  /** The three branches once the request is proved, and the events in them. */
  method WriteEnrolment<P(==)>(a: Attempt<P>, device: Device, pubKey: bytes) returns (ok: bool, reason: string, events: seq<PairEvent>)
    modifies device
    ensures Execution(device.header, ok, device.budget) == Written(a, old(device.header), pubKey, old(device.budget))
    ensures device.header == After(old(device.header), CommandsOf(events))
    ensures forall i :: 0 <= i < |events| && events[i].Ran? ==> i >= 1 && events[0].Asked? && events[0].yes
    ensures |events| >= 1 ==> PlanEnrolment(old(device.header), pubKey, a.peer).Success?
    ensures |events| >= 1 ==> events[0] == AskedFor(a.operator, PlanEnrolment(old(device.header), pubKey, a.peer).value)
  {
    reason, events := ENROL_FAILED, [];
    var plan := PlanEnrolment(device.header, pubKey, a.peer);
    if plan.Failure? {
      return false, reason, events;
    }
    if plan.value.PlanAlready? {
      return true, reason, events;
    }
    var asked := AskedFor(a.operator, plan.value);
    NoCommands([asked]);
    if !asked.yes {
      return false, DECLINED, [asked];
    }
    var made := MadeBy(a.g, pubKey, a.draw);
    var past := |device.history|;
    if plan.value.PlanReplace? {
      ok := device.ReplaceRecipient(a.passphrase, made, a.peer, a.peer, SlotOption(plan.value.keyslot));
    } else {
      ok := device.EnrolRecipient(a.passphrase, made, a.machine, Some(a.peer));
    }
    events := [asked] + RanAll(device.history[past..]);
    CommandsOfBoth([asked], RanAll(device.history[past..]));
    CommandsOfRanAll(device.history[past..]);
    assert [] + device.history[past..] == device.history[past..];
  }

  /** What is made of a request that was read. */
  method AnswerRequest<P(==)>(a: Attempt<P>, device: Device, conn: Conn<PairMessage, PairRequest>, req: PairRequest)
    returns (ok: bool, events: seq<PairEvent>)
    modifies device, conn
    ensures Execution(device.header, ok, device.budget) == Answered(a, old(device.header), old(device.budget), req)
    ensures WritesAreAuthorised(a, old(device.header), req, events)
    ensures device.header == After(old(device.header), CommandsOf(events))
    ensures |conn.attempted| == |old(conn.attempted)| + 1 && conn.attempted[..|old(conn.attempted)|] == old(conn.attempted)
    ensures conn.attempted[|old(conn.attempted)|].PairResult?
    ensures conn.attempted[|old(conn.attempted)|] == PairResult(true, "") <==> ok
  {
    var expected := PairProof(a.secret, a.machineID, a.peerID, req.pubKey, a.nonce);
    if expected != req.proof {
      RefusePairing(conn, "the pairing code did not match");
      events := [Compared(false), ResultSent(false)];
      NoCommands(events);
      return false, events;
    }
    if PointToX(a.g, req.pubKey).Failure? {
      RefusePairing(conn, "the public key offered is not a valid P-256 point");
      events := [Compared(true), Decoded(false), ResultSent(false)];
      NoCommands(events);
      return false, events;
    }
    var reason, writing;
    ok, reason, writing := WriteEnrolment(a, device, req.pubKey);
    if ok {
      var _ := conn.Write(PairResult(true, ""));
    } else {
      RefusePairing(conn, reason);
    }
    events := Behind(writing, ok);
    WritingIsAuthorised(a, old(device.header), req, writing, ok);
  }

  /** The events of the branches, behind a comparison that matched and a point that
      was decoded. */
  function Behind(writing: seq<PairEvent>, ok: bool): seq<PairEvent> {
    [Compared(true), Decoded(true)] + writing + [ResultSent(ok)]
  }

  lemma BehindIs(writing: seq<PairEvent>, ok: bool)
    requires forall i :: 0 <= i < |writing| && writing[i].Ran? ==> i >= 1 && writing[0].Asked? && writing[0].yes
    ensures var events := Behind(writing, ok);
      && |events| >= 3 && events[0] == Compared(true) && events[1] == Decoded(true)
      && events[2] == (if writing == [] then ResultSent(ok) else writing[0])
      && forall i :: 0 <= i < |events| && events[i].Ran? ==> i >= 3 && events[2].Asked? && events[2].yes
    ensures CommandsOf(Behind(writing, ok)) == CommandsOf(writing)
  {
    CommandsBetween([Compared(true), Decoded(true)], writing, [ResultSent(ok)]);
    var events := Behind(writing, ok);
    assert forall i :: 2 <= i < |events| - 1 ==> events[i] == writing[i - 2];
  }

  lemma WritingIsAuthorised<P>(a: Attempt<P>, h: Header, req: PairRequest, writing: seq<PairEvent>, ok: bool)
    requires Proved(a, req)
    requires forall i :: 0 <= i < |writing| && writing[i].Ran? ==> i >= 1 && writing[0].Asked? && writing[0].yes
    requires |writing| >= 1 ==> PlanEnrolment(h, req.pubKey, a.peer).Success?
    requires |writing| >= 1 ==> writing[0] == AskedFor(a.operator, PlanEnrolment(h, req.pubKey, a.peer).value)
    ensures WritesAreAuthorised(a, h, req, Behind(writing, ok)) && CommandsOf(Behind(writing, ok)) == CommandsOf(writing)
  {
    BehindIs(writing, ok);
  }

  lemma CommandsBetween(before: seq<PairEvent>, events: seq<PairEvent>, after: seq<PairEvent>)
    requires forall i :: 0 <= i < |before| ==> !before[i].Ran?
    requires forall i :: 0 <= i < |after| ==> !after[i].Ran?
    ensures CommandsOf(before + events + after) == CommandsOf(events)
  {
    NoCommands(before);
    NoCommands(after);
    CommandsOfBoth(before, events);
    CommandsOfBoth(before + events, after);
  }

  lemma OpensCourse<P>(a: Attempt<P>, h: Header, incoming: seq<PairRequest>, rest: seq<PairEvent>)
    requires incoming != [] && WritesAreAuthorised(a, h, incoming[0], rest)
    ensures var events := [ChallengeSent, RequestRead(incoming[0])] + rest;
      Course(a, h, incoming, events) && CommandsOf(events) == CommandsOf(rest)
  {
    var events := [ChallengeSent, RequestRead(incoming[0])] + rest;
    CommandsBetween([ChallengeSent, RequestRead(incoming[0])], rest, []);
    assert events + [] == events && events[2..] == rest;
  }

  /** runPairOnce, from the connection on. Whether OK was attempted is the returned
      value; the write itself may still fail. */
  method RunPairOnce<P(==)>(a: Attempt<P>, device: Device, conn: Conn<PairMessage, PairRequest>, name: string)
    returns (ok: bool, events: seq<PairEvent>)
    requires conn.attempted == []
    modifies device, conn
    ensures Execution(device.header, ok, device.budget)
         == Paired(a, old(device.header), old(device.budget), old(conn.writes), old(conn.incoming))
    ensures Course(a, old(device.header), old(conn.incoming), events)
    ensures device.header == After(old(device.header), CommandsOf(events))
    ensures PairResult(true, "") in conn.attempted <==> ok
    ensures 1 <= |conn.attempted| <= 2 && conn.attempted[0] == Challenge(a.nonce, name)
  {
    var sent := conn.Write(Challenge(a.nonce, name));
    if !sent {
      return false, [];
    }
    var req := conn.Read();
    if req.None? {
      NoCommands([ChallengeSent]);
      return false, [ChallengeSent];
    }
    var rest;
    ok, rest := AnswerRequest(a, device, conn, req.value);
    events := [ChallengeSent, RequestRead(req.value)] + rest;
    OpensCourse(a, old(device.header), old(conn.incoming), rest);
    assert conn.attempted == [Challenge(a.nonce, name), conn.attempted[1]];
  }

  /** So a header that changed was changed by commands, each of which was authorised;
      nothing else in an attempt touches it. */
  lemma HeaderWritesAreAuthorised<P>(a: Attempt<P>, h: Header, incoming: seq<PairRequest>, events: seq<PairEvent>)
    requires Course(a, h, incoming, events) && After(h, CommandsOf(events)) != h
    ensures incoming != [] && Proved(a, incoming[0]) && Consented(a, PlanEnrolment(h, incoming[0].pubKey, a.peer))
  {
    if |events| >= 2 {
      var rest := events[2..];
      assert events == events[..2] + rest + [];
      CommandsBetween(events[..2], rest, []);
      if forall i :: 0 <= i < |rest| ==> !rest[i].Ran? {
        NoCommands(rest);
      }
    } else {
      NoCommands(events);
    }
  }

  /** There is something to write, and the operator says yes to just that. */
  predicate Consented<P>(a: Attempt<P>, plan: Result<Plan>) {
    plan.Success? && AskedFor(a.operator, plan.value).yes
  }

  /** A request made for another machine, peer, connection, key or code is refused
      without a question and without a write. */
  lemma BorrowedProofIsRefused<P>(a: Attempt<P>, h: Header, budget: nat, writes: nat, req: PairRequest, secret: bytes, claim: Claim)
    requires claim.Representable() && Claim(a.machineID, a.peerID, req.pubKey, a.nonce).Representable()
    requires req.proof == Proof(secret, claim)
    requires secret != a.secret || claim != Claim(a.machineID, a.peerID, req.pubKey, a.nonce)
    ensures Paired(a, h, budget, writes, [req]) == Refused(h, budget)
  {
    ProofBindsItsClaim(a.secret, Claim(a.machineID, a.peerID, req.pubKey, a.nonce), secret, claim);
  }

  // ---- OK means enrolled ----

  /** A token written back to where the first mr-1 token was, or to the only
      place there is one, is the one that is loaded. */
  lemma WrittenIsLoaded(h: Header, h': Header, at: nat, tok: Token)
    requires Current(tok) && at < MAX_TOKENS && h'.tokens == h.tokens[at := Marshalled(tok)]
    requires Mr1Token(h) == Some(at) || (Mr1Token(h).None? && at !in h.tokens)
    ensures LoadToken(h', NOBODY) == Success(Loaded(tok, Some(at)))
  {
    TokenRoundTrip(tok);
    assert h'.tokens[at] == Marshalled(tok) && TypeOf(h'.tokens[at]) == TOKEN_TYPE;
    Mr1TokenFromIs(h, 0);
    Mr1TokenFromIs(h', 0);
    assert forall j :: 0 <= j < at && j in h'.tokens ==> j in h.tokens && h'.tokens[j] == h.tokens[j];
  }

  lemma PlanOfSole(h: Header, pubKey: bytes, id: DeviceID, at: nat, tok: Token, k: nat)
    requires LoadToken(h, NOBODY) == Success(Loaded(tok, Some(at)))
    requires Sole(tok.recipients, id.CanonicalOrRaw(), k) && tok.recipients[k].kid == Sha256(pubKey)
    ensures PlanEnrolment(h, pubKey, id) == Success(PlanAlready(KeyslotOf(tok, k)))
  {
    SoleMatch(tok.recipients, id.CanonicalOrRaw(), k);
  }

  lemma TwoRan(h: Header, passphrase: bytes, a: Command, b: Command, budget: nat)
    requires Exec(h, passphrase, [a, b], budget).complete
    ensures Possible(h, passphrase, a) && Possible(Effect(h, a), passphrase, b)
    ensures Exec(h, passphrase, [a, b], budget).header == Effect(Effect(h, a), b)
  {
    assert [a, b] == [a] + [b] && [b] == [b] + [];
    ExecStep(h, passphrase, a, [b], budget);
    ExecStep(Effect(h, a), passphrase, b, [], budget - 1);
  }

  lemma ThreeRan(h: Header, passphrase: bytes, a: Command, b: Command, c: Command, budget: nat)
    requires Exec(h, passphrase, [a, b, c], budget).complete
    ensures Possible(h, passphrase, a) && Possible(Effect(h, a), passphrase, b)
    ensures Exec(h, passphrase, [a, b, c], budget).header == Effect(Effect(Effect(h, a), b), c)
  {
    assert [a, b, c] == [a] + [b, c];
    ExecStep(h, passphrase, a, [b, c], budget);
    TwoRan(Effect(h, a), passphrase, b, c, budget - 1);
  }

  /** A completed enrolment left the token with the entry at its end. */
  lemma EnrolledIsLoaded(h: Header, passphrase: bytes, made: Result<Enrolled>, machine: Machine, id: DeviceID, budget: nat)
    returns (at: nat, slot: nat)
    requires RunEnrol(h, passphrase, made, machine, Some(id), budget).complete
    ensures made.Success? && LoadToken(h, machine).Success? && id.Canonical().Some?
    ensures LoadToken(h, machine).value.id.Some? ==> at == LoadToken(h, machine).value.id.value
    ensures LoadToken(RunEnrol(h, passphrase, made, machine, Some(id), budget).header, NOBODY)
         == Success(Loaded(Grown(LoadToken(h, machine).value.token, slot, made.value.entry, id), Some(at)))
  {
    var loaded := LoadToken(h, machine).value;
    slot := LowestFree(h).value;
    var tok := Grown(loaded.token, slot, made.value.entry, id);
    var add, write := AddKey(slot, KeyMaterial(made.value.secret)), ImportToken(loaded.id, Marshalled(tok));
    var cs := EnrolScript(h, made, machine, Some(id)).value;
    var h' := Exec(h, passphrase, cs, budget).header;
    Mr1TokenFromIs(h, 0);
    if loaded.id.Some? {
      at := loaded.id.value;
      assert cs == [add, RemoveToken(at), write];
      ThreeRan(h, passphrase, add, RemoveToken(at), write, budget);
      assert h'.tokens == h.tokens[at := Marshalled(tok)];
    } else {
      assert cs == [add, write];
      TwoRan(h, passphrase, add, write, budget);
      FreeTokenIDIs(Effect(h, add), 0);
      at := FreeTokenIDFrom(Effect(h, add), 0).value;
      assert h'.tokens == h.tokens[at := Marshalled(tok)];
    }
    WrittenIsLoaded(h, h', at, tok);
  }

  lemma GrownIsSole(tok: Token, slot: nat, entry: Recipient, id: DeviceID)
    requires Matches(tok, id) == [] && id.Canonical().Some?
    ensures Sole(Grown(tok, slot, entry, id).recipients, id.CanonicalOrRaw(), |tok.recipients|)
  {
    MatchesFromAre(tok.recipients, id.CanonicalOrRaw(), 0);
    var recs := Grown(tok, slot, entry, id).recipients;
    forall j | 0 <= j < |recs| && Carries(recs[j], id.CanonicalOrRaw())
      ensures j == |tok.recipients|
    {
      assert j < |tok.recipients| ==> j in Matches(tok, id);
    }
  }

  /** A key that was added is found to be there already, on every header. */
  lemma AddedIsAlready(h: Header, passphrase: bytes, pubKey: bytes, made: Result<Enrolled>, machine: Machine, id: DeviceID, budget: nat)
    requires PlanEnrolment(h, pubKey, id) == Success(PlanAdd) && MadeFor(made, pubKey)
    requires RunEnrol(h, passphrase, made, machine, Some(id), budget).complete
    ensures PlanEnrolment(RunEnrol(h, passphrase, made, machine, Some(id), budget).header, pubKey, id).Success?
    ensures PlanEnrolment(RunEnrol(h, passphrase, made, machine, Some(id), budget).header, pubKey, id).value.PlanAlready?
  {
    var at, slot := EnrolledIsLoaded(h, passphrase, made, machine, id, budget);
    var tok := LoadToken(h, machine).value.token;
    MatchesFromAre(tok.recipients, id.CanonicalOrRaw(), 0);
    assert Matches(tok, id) == [];
    GrownIsSole(tok, slot, made.value.entry, id);
    PlanOfSole(RunEnrol(h, passphrase, made, machine, Some(id), budget).header, pubKey, id, at,
               Grown(tok, slot, made.value.entry, id), |tok.recipients|);
  }

  /** A completed second half of a rotation: the first entry under that keyslot
      name is gone. */
  lemma RevokedIsLoaded(h: Header, passphrase: bytes, name: string, budget: nat, tok: Token, at: nat)
    requires LoadToken(h, NOBODY) == Success(Loaded(tok, Some(at)))
    requires RunRevokeOld(h, passphrase, name, budget).complete
    ensures |tok.keyslots| == |tok.recipients| && IndexOf(tok.keyslots, name).Some?
    ensures LoadToken(RunRevokeOld(h, passphrase, name, budget).header, NOBODY)
         == Success(Loaded(TokenWithout(tok, IndexOf(tok.keyslots, name).value), Some(at)))
  {
    var j := IndexOf(tok.keyslots, name).value;
    var kill, write := KillSlot(tok.keyslots[j]), ImportToken(Some(at), Marshalled(TokenWithout(tok, j)));
    Mr1TokenFromIs(h, 0);
    ThreeRan(h, passphrase, kill, RemoveToken(at), write, budget);
    var h' := Effect(Effect(Effect(h, kill), RemoveToken(at)), write);
    assert h'.tokens == h.tokens[at := Marshalled(TokenWithout(tok, j))];
    WrittenIsLoaded(h, h', at, TokenWithout(tok, j));
  }

  /** The entry that was alone with its id, and the one appended for the same id:
      without the old one the new one is alone, without another both are left. */
  lemma WithoutOneOfTwo(tok: Token, slot: nat, entry: Recipient, id: DeviceID, i: nat, j: nat)
    requires |tok.keyslots| == |tok.recipients| && j <= i && Sole(tok.recipients, id.CanonicalOrRaw(), i) && id.Canonical().Some?
    ensures var recs := TokenWithout(Grown(tok, slot, entry, id), j).recipients;
      && |recs| == |tok.recipients| && recs[|recs| - 1] == entry.(transport := id.Canonical())
      && (j == i ==> Sole(recs, id.CanonicalOrRaw(), |recs| - 1))
      && (j < i ==> |MatchesFrom(recs, id.CanonicalOrRaw(), 0)| > 1)
  {
    var both := Grown(tok, slot, entry, id);
    var recs := TokenWithout(both, j).recipients;
    var last := |recs| - 1;
    forall k | 0 <= k < |recs|
      ensures recs[k] == both.recipients[Before(j, k)]
    {
      ShrunkEntry(both, j, k);
    }
    if j < i {
      assert Carries(recs[i - 1], id.CanonicalOrRaw()) && Carries(recs[last], id.CanonicalOrRaw());
      TwoMatch(recs, id.CanonicalOrRaw(), i - 1, last);
    }
  }

  /** The entry a replacement is planned for is the one the rotation chooses. */
  lemma PlannedIsChosen(h: Header, pubKey: bytes, id: DeviceID, keyslot: string, kid: Digest) returns (i: nat)
    requires PlanEnrolment(h, pubKey, id) == Success(PlanReplace(keyslot, kid)) && EnrolledToken(h).Success?
    ensures var tok := EnrolledToken(h).value.0;
      && |tok.keyslots| == |tok.recipients|
      && Sole(tok.recipients, id.CanonicalOrRaw(), i) && keyslot == tok.keyslots[i]
      && Selected(tok, id, SlotOption(keyslot)) == Success(i)
  {
    var tok := EnrolledToken(h).value.0;
    MatchesFromAre(tok.recipients, id.CanonicalOrRaw(), 0);
    i := Matches(tok, id)[0];
    assert Matches(tok, id) == [i];
  }

  lemma ReplaceIsTwoHalves(h: Header, passphrase: bytes, made: Result<Enrolled>, id: DeviceID, keyslot: Option<string>, i: nat, budget: nat)
    requires RunReplace(h, passphrase, made, id, id, keyslot, budget).complete
    requires EnrolledToken(h).Success? && Selected(EnrolledToken(h).value.0, id, keyslot) == Success(i) && i < |EnrolledToken(h).value.0.keyslots|
    ensures var first := RunEnrol(h, passphrase, made, NOBODY, Some(id), budget);
      && first.complete
      && RunReplace(h, passphrase, made, id, id, keyslot, budget)
         == RunRevokeOld(first.header, passphrase, EnrolledToken(h).value.0.keyslots[i], first.budget)
  {
  }

  lemma PlanOfTwo(h: Header, pubKey: bytes, id: DeviceID, at: nat, tok: Token)
    requires LoadToken(h, NOBODY) == Success(Loaded(tok, Some(at))) && |Matches(tok, id)| > 1
    ensures PlanEnrolment(h, pubKey, id).Failure?
  {
  }

  lemma LoadedBoth(h: Header, passphrase: bytes, made: Result<Enrolled>, id: DeviceID, name: string, budget: nat) returns (at: nat, slot: nat)
    requires EnrolledToken(h).Success? && name in EnrolledToken(h).value.0.keyslots
    requires RunEnrol(h, passphrase, made, NOBODY, Some(id), budget).complete
    requires var first := RunEnrol(h, passphrase, made, NOBODY, Some(id), budget);
      RunRevokeOld(first.header, passphrase, name, first.budget).complete
    ensures made.Success? && id.Canonical().Some? && IndexOf(EnrolledToken(h).value.0.keyslots, name).Some?
    ensures var first := RunEnrol(h, passphrase, made, NOBODY, Some(id), budget);
      var tok := EnrolledToken(h).value.0;
      LoadToken(RunRevokeOld(first.header, passphrase, name, first.budget).header, NOBODY)
        == Success(Loaded(TokenWithout(Grown(tok, slot, made.value.entry, id), IndexOf(tok.keyslots, name).value), Some(at)))
  {
    var tok := EnrolledToken(h).value.0;
    var first := RunEnrol(h, passphrase, made, NOBODY, Some(id), budget);
    at, slot := EnrolledIsLoaded(h, passphrase, made, NOBODY, id, budget);
    RevokedIsLoaded(first.header, passphrase, name, first.budget, Grown(tok, slot, made.value.entry, id), at);
    FirstNameStays(tok.keyslots, [Itoa(slot)], name);
  }

  /** What a rotation that a pairing asked for leaves: the same key again is found
      already there exactly when the first entry under the keyslot's name is this
      holder's, as it is on every tidy token. Otherwise another holder's entry was
      taken out, and both of this holder's are left. */
  lemma ReplacedIsAlreadyIff(h: Header, passphrase: bytes, pubKey: bytes, made: Result<Enrolled>, id: DeviceID,
                             keyslot: string, kid: Digest, budget: nat)
    ensures PlanEnrolment(h, pubKey, id) == Success(PlanReplace(keyslot, kid)) && MadeFor(made, pubKey)
      && RunReplace(h, passphrase, made, id, id, SlotOption(keyslot), budget).complete
      ==> EnrolledToken(h).Success?
          && var again := PlanEnrolment(RunReplace(h, passphrase, made, id, id, SlotOption(keyslot), budget).header, pubKey, id);
          (again.Success? <==> FirstUnderNameCarries(EnrolledToken(h).value.0, keyslot, id)) && (again.Success? ==> again.value.PlanAlready?)
  {
    if PlanEnrolment(h, pubKey, id) == Success(PlanReplace(keyslot, kid)) && MadeFor(made, pubKey)
      && RunReplace(h, passphrase, made, id, id, SlotOption(keyslot), budget).complete {
      ReplacedIsAlready(h, passphrase, pubKey, made, id, keyslot, kid, budget);
    }
  }

  predicate FirstUnderNameCarries(tok: Token, keyslot: string, id: DeviceID) {
    var j := IndexOf(tok.keyslots, keyslot);
    j.Some? && j.value < |tok.recipients| && Carries(tok.recipients[j.value], id.CanonicalOrRaw())
  }

  lemma ReplacedIsAlready(h: Header, passphrase: bytes, pubKey: bytes, made: Result<Enrolled>, id: DeviceID,
                          keyslot: string, kid: Digest, budget: nat)
    requires PlanEnrolment(h, pubKey, id) == Success(PlanReplace(keyslot, kid)) && MadeFor(made, pubKey)
    requires RunReplace(h, passphrase, made, id, id, SlotOption(keyslot), budget).complete
    ensures EnrolledToken(h).Success?
    ensures var again := PlanEnrolment(RunReplace(h, passphrase, made, id, id, SlotOption(keyslot), budget).header, pubKey, id);
      (again.Success? <==> FirstUnderNameCarries(EnrolledToken(h).value.0, keyslot, id)) && (again.Success? ==> again.value.PlanAlready?)
  {
    var tok := EnrolledToken(h).value.0;
    var i := PlannedIsChosen(h, pubKey, id, keyslot, kid);
    ReplaceIsTwoHalves(h, passphrase, made, id, SlotOption(keyslot), i, budget);
    var at, slot := LoadedBoth(h, passphrase, made, id, keyslot, budget);
    var h' := RunReplace(h, passphrase, made, id, id, SlotOption(keyslot), budget).header;
    LeftIsPlanned(h', pubKey, id, keyslot, at, tok, slot, made.value.entry, i);
  }

  /** What is planned on a token that a rotation has left. */
  lemma LeftIsPlanned(h: Header, pubKey: bytes, id: DeviceID, keyslot: string, at: nat, tok: Token, slot: nat, entry: Recipient, i: nat)
    requires |tok.keyslots| == |tok.recipients| && Sole(tok.recipients, id.CanonicalOrRaw(), i) && id.Canonical().Some?
    requires keyslot == tok.keyslots[i] && entry.kid == Sha256(pubKey) && IndexOf(tok.keyslots, keyslot).Some?
    requires LoadToken(h, NOBODY) == Success(Loaded(TokenWithout(Grown(tok, slot, entry, id), IndexOf(tok.keyslots, keyslot).value), Some(at)))
    ensures PlanEnrolment(h, pubKey, id).Success? <==> FirstUnderNameCarries(tok, keyslot, id)
    ensures PlanEnrolment(h, pubKey, id).Success? ==> PlanEnrolment(h, pubKey, id).value.PlanAlready?
  {
    var j := IndexOf(tok.keyslots, keyslot).value;
    var left := TokenWithout(Grown(tok, slot, entry, id), j);
    WithoutOneOfTwo(tok, slot, entry, id, i, j);
    if j == i {
      PlanOfSole(h, pubKey, id, at, left, |tok.recipients| - 1);
    } else {
      PlanOfTwo(h, pubKey, id, at, left);
    }
  }

  /** Whenever the machine sends OK, planning the same key for the same peer again
      finds it already enrolled: always after the first two branches, and after the
      third exactly if the first entry under the old keyslot's name was this
      holder's. */
  lemma OkMeansEnrolledIff<P>(a: Attempt<P>, h: Header, budget: nat, writes: nat, incoming: seq<PairRequest>)
    requires Paired(a, h, budget, writes, incoming).complete
    ensures incoming != [] && PlanEnrolment(h, incoming[0].pubKey, a.peer).Success?
    ensures var plan := PlanEnrolment(h, incoming[0].pubKey, a.peer).value;
      var again := PlanEnrolment(Paired(a, h, budget, writes, incoming).header, incoming[0].pubKey, a.peer);
      && (again.Success? <==> plan.PlanReplace? ==> FindsItself(h, plan.keyslot, a.peer))
      && (again.Success? ==> again.value.PlanAlready?)
      && (again.Success? <==> HoldsKey(Paired(a, h, budget, writes, incoming).header, incoming[0].pubKey, a.peer))
  {
    AlreadyIff(Paired(a, h, budget, writes, incoming).header, incoming[0].pubKey, a.peer);
    var pubKey := incoming[0].pubKey;
    var plan := PlanEnrolment(h, pubKey, a.peer).value;
    var made := MadeBy(a.g, pubKey, a.draw);
    if plan.PlanAdd? {
      AddedIsAlready(h, a.passphrase, pubKey, made, a.machine, a.peer, budget);
    } else if plan.PlanReplace? {
      ReplacedIsAlreadyIff(h, a.passphrase, pubKey, made, a.peer, plan.keyslot, plan.kid, budget);
    }
  }

  predicate FindsItself(h: Header, keyslot: string, id: DeviceID) {
    EnrolledToken(h).Success? && FirstUnderNameCarries(EnrolledToken(h).value.0, keyslot, id)
  }

  /** On a tidy token it always is. */
  lemma TidyFindsItself(h: Header, pubKey: bytes, id: DeviceID)
    requires EnrolledToken(h).Success? && Tidy(EnrolledToken(h).value.0)
    requires PlanEnrolment(h, pubKey, id).Success? && PlanEnrolment(h, pubKey, id).value.PlanReplace?
    ensures FindsItself(h, PlanEnrolment(h, pubKey, id).value.keyslot, id)
  {
    var plan := PlanEnrolment(h, pubKey, id).value;
    var tok := EnrolledToken(h).value.0;
    var i := PlannedIsChosen(h, pubKey, id, plan.keyslot, plan.kid);
    assert tok.keyslots[i] in tok.keyslots;
  }

  /** enrolOnce: when it has completed, one entry and only one carries the id, with
      this very key; a key that was there already is not touched. */
  lemma EnrolOnceLeavesOne(h: Header, passphrase: bytes, publicKey: bytes, made: Result<Enrolled>, machine: Machine, id: DeviceID, budget: nat)
    requires MadeFor(made, publicKey) && RunEnrolOnce(h, passphrase, publicKey, made, machine, Some(id), budget).complete
    ensures var x := RunEnrolOnce(h, passphrase, publicKey, made, machine, Some(id), budget);
      var again := PlanEnrolment(x.header, publicKey, id);
      && again.Success? && again.value.PlanAlready? && HoldsKey(x.header, publicKey, id)
      && (HoldsKey(h, publicKey, id) ==> x.header == h)
  {
    AlreadyIff(h, publicKey, id);
    AlreadyIff(RunEnrolOnce(h, passphrase, publicKey, made, machine, Some(id), budget).header, publicKey, id);
    if PlanEnrolment(h, publicKey, id).value.PlanAdd? {
      AddedIsAlready(h, passphrase, publicKey, made, machine, id, budget);
    }
  }

  /** And an id that has another key's entry is refused, with nothing written. */
  lemma AnotherKeyIsRefused(h: Header, passphrase: bytes, publicKey: bytes, made: Result<Enrolled>, machine: Machine, id: DeviceID,
                            tok: Token, at: nat, i: nat, budget: nat)
    requires Holds(h, id, tok, at, i) && tok.recipients[i].kid != Sha256(publicKey)
    ensures RunEnrolOnce(h, passphrase, publicKey, made, machine, Some(id), budget) == Execution(h, false, budget)
  {
    PlanForOne(h, publicKey, id, tok, at, i);
  }

  /** A no to enrolling leaves a header that holds nothing for the peer as it was. */
  lemma ANoIsANo<P>(a: Attempt<P>, h: Header, budget: nat, writes: nat, incoming: seq<PairRequest>)
    requires a.operator.confirm == Some(false) && incoming != [] && HoldsNothing(h, a.peer)
    ensures Paired(a, h, budget, writes, incoming) == Execution(h, false, budget)
  {
    PlanAddIff(h, incoming[0].pubKey, a.peer);
  }

  /** There is room for one more: a keyslot, a place for the token, a passphrase that
      opens the volume, and an end that lets three commands through. */
  predicate Room(h: Header, passphrase: bytes, budget: nat) {
    LowestFree(h).Some? && FreeTokenIDFrom(h, 0).Some? && Opens(h, passphrase) && budget >= 3
  }

  lemma RoomIsEnough(h: Header, passphrase: bytes, made: Result<Enrolled>, machine: Machine, id: DeviceID, budget: nat)
    requires Room(h, passphrase, budget) && made.Success? && id.Canonical().Some? && LoadToken(h, machine).Success?
    ensures RunEnrol(h, passphrase, made, machine, Some(id), budget).complete
  {
    var loaded, slot := LoadToken(h, machine).value, LowestFree(h).value;
    var add := AddKey(slot, KeyMaterial(made.value.secret));
    var write := ImportToken(loaded.id, Marshalled(Grown(loaded.token, slot, made.value.entry, id)));
    var cs := EnrolScript(h, made, machine, Some(id)).value;
    LowestFreeIs(h);
    Mr1TokenFromIs(h, 0);
    if loaded.id.Some? {
      var clear := RemoveToken(loaded.id.value);
      assert cs == [add] + ([clear] + ([write] + []));
      ExecStep(h, passphrase, add, [clear] + ([write] + []), budget);
      ExecStep(Effect(h, add), passphrase, clear, [write] + [], budget - 1);
      ExecStep(Effect(Effect(h, add), clear), passphrase, write, [], budget - 2);
    } else {
      assert cs == [add] + ([write] + []);
      ExecStep(h, passphrase, add, [write] + [], budget);
      SamePlace(h, Effect(h, add), 0);
      ExecStep(Effect(h, add), passphrase, write, [], budget - 1);
    }
  }

  lemma {:induction false} SamePlace(h: Header, h': Header, i: nat)
    requires h.tokens == h'.tokens
    ensures FreeTokenIDFrom(h, i) == FreeTokenIDFrom(h', i)
    decreases MAX_TOKENS - i
  {
    if i < MAX_TOKENS {
      SamePlace(h, h', i + 1);
    }
  }

  /** Anybody else who proves the code and offers a finite point is enrolled and told so,
      if the operator says yes or there is nobody to ask, and there is room. */
  lemma AYesIsAYes<P(!new)>(a: Attempt<P>, h: Header, budget: nat, writes: nat, req: PairRequest)
    requires Laws(a.g) && ProperDraw(a.g, a.draw) && writes > 0 && a.peer.Spelled?
    requires req.proof == Proof(a.secret, Claim(a.machineID, a.peerID, req.pubKey, a.nonce))
    requires a.g.decode(req.pubKey).Some? && a.g.decode(req.pubKey) != Some(a.g.zero)
    requires a.operator.confirm != Some(false) && HoldsNothing(h, a.peer) && Room(h, a.passphrase, budget)
    ensures var x := Paired(a, h, budget, writes, [req]);
      x.complete && HoldsKey(x.header, req.pubKey, a.peer)
  {
    PlanAddIff(h, req.pubKey, a.peer);
    OnlyFinitePointsAreTaken(a.g, req.pubKey, a.draw);
    assert Mr1Token(h).Some? ==> LoadToken(h, a.machine) == LoadToken(h, NOBODY);
    RoomIsEnough(h, a.passphrase, MadeBy(a.g, req.pubKey, a.draw), a.machine, a.peer, budget);
    OkMeansEnrolledIff(a, h, budget, writes, [req]);
  }

  /** A key is replaced only on an explicit yes to that: a yes to enrolling is none, and
      neither is having nobody to ask. */
  lemma ReplacingNeedsAYes<P>(a: Attempt<P>, h: Header, budget: nat, writes: nat, incoming: seq<PairRequest>, tok: Token, at: nat, i: nat)
    requires a.operator.confirmReplace != Some(true) && incoming != []
    requires Holds(h, a.peer, tok, at, i) && tok.recipients[i].kid != Sha256(incoming[0].pubKey)
    ensures Paired(a, h, budget, writes, incoming) == Execution(h, false, budget)
  {
    PlanForOne(h, incoming[0].pubKey, a.peer, tok, at, i);
  }

  /** A key that is no finite point is refused, however good its proof. */
  lemma NoPointIsRefused<P>(a: Attempt<P>, h: Header, budget: nat, writes: nat, req: PairRequest)
    requires a.g.decode(req.pubKey) in {None, Some(a.g.zero)}
    ensures Paired(a, h, budget, writes, [req]) == Execution(h, false, budget)
  {
  }

  /** The machine's name goes into the token that an enrolment makes, and stays as it is
      in one that is there. */
  lemma TheMachineIsNamedOnce(h: Header, passphrase: bytes, made: Result<Enrolled>, machine: Machine, id: DeviceID, budget: nat)
    requires RunEnrol(h, passphrase, made, machine, Some(id), budget).complete
    ensures var now := LoadToken(RunEnrol(h, passphrase, made, machine, Some(id), budget).header, NOBODY);
      && now.Success? && now.value.id.Some?
      && (Mr1Token(h).None? ==> now.value.token.machine == machine)
      && (Mr1Token(h).Some? ==> LoadToken(h, NOBODY).Success? && now.value.token.machine == LoadToken(h, NOBODY).value.token.machine)
  {
    var at, slot := EnrolledIsLoaded(h, passphrase, made, machine, id, budget);
  }

  /** An id that is none enrols nobody, and nothing is written for it. */
  lemma NoIDIsRefused(h: Header, passphrase: bytes, made: Result<Enrolled>, machine: Machine, text: string, budget: nat)
    ensures RunEnrol(h, passphrase, made, machine, Some(Text(text)), budget) == Execution(h, false, budget)
  {
  }
}
