/** Whoever is paired can unlock. */
module PairedHolder {
  import opened Basics
  import opened PrimeGroup
  import opened Mr1
  import opened Tokens
  import opened Luks
  import opened Enrolment
  import opened EnrolmentSafety
  import opened Rotation
  import opened HeaderRuns
  import opened Exchange
  import opened Pairing

  // What a completed pairing leaves on the header is an entry its holder recovers the
  // new volume secret from: the pairing attempt, the header it writes and the exchange
  // that follows, put together.

  /** The pairing wrote: it added an entry, or replaced the holder's own. */
  predicate Wrote<P>(a: Attempt<P>, h: Header, pubKey: bytes) {
    var plan := PlanEnrolment(h, pubKey, a.peer);
    plan.Success? && !plan.value.PlanAlready? && (plan.value.PlanReplace? ==> FindsItself(h, plan.value.keyslot, a.peer))
  }

  /** The one entry that the header has for an id is this one, under that id. */
  lemma SoleIsAnswered(h: Header, tok: Token, at: nat, id: DeviceID, i: nat)
    requires LoadToken(h, NOBODY) == Success(Loaded(tok, Some(at))) && Sole(tok.recipients, id.CanonicalOrRaw(), i)
    ensures AgentFor(h, id) == Success(tok.recipients[i])
  {
    OneAnswers(tok, id, i);
  }

  lemma AddedIsAnswered(h: Header, passphrase: bytes, pubKey: bytes, made: Result<Enrolled>, machine: Machine, id: DeviceID, budget: nat)
    requires PlanEnrolment(h, pubKey, id) == Success(PlanAdd)
    requires RunEnrol(h, passphrase, made, machine, Some(id), budget).complete
    ensures made.Success? && id.Canonical().Some?
    ensures AgentFor(RunEnrol(h, passphrase, made, machine, Some(id), budget).header, id)
         == Success(made.value.entry.(transport := id.Canonical()))
  {
    var at, slot := EnrolledIsLoaded(h, passphrase, made, machine, id, budget);
    var tok := LoadToken(h, machine).value.token;
    MatchesFromAre(tok.recipients, id.CanonicalOrRaw(), 0);
    assert Matches(tok, id) == [];
    GrownIsSole(tok, slot, made.value.entry, id);
    SoleIsAnswered(RunEnrol(h, passphrase, made, machine, Some(id), budget).header,
                   Grown(tok, slot, made.value.entry, id), at, id, |tok.recipients|);
  }

  lemma ReplacedIsAnswered(h: Header, passphrase: bytes, pubKey: bytes, made: Result<Enrolled>, id: DeviceID,
                           keyslot: string, kid: Digest, budget: nat)
    requires PlanEnrolment(h, pubKey, id) == Success(PlanReplace(keyslot, kid)) && FindsItself(h, keyslot, id)
    requires RunReplace(h, passphrase, made, id, id, SlotOption(keyslot), budget).complete
    ensures made.Success? && id.Canonical().Some?
    ensures AgentFor(RunReplace(h, passphrase, made, id, id, SlotOption(keyslot), budget).header, id)
         == Success(made.value.entry.(transport := id.Canonical()))
  {
    var tok := EnrolledToken(h).value.0;
    var i := PlannedIsChosen(h, pubKey, id, keyslot, kid);
    ReplaceIsTwoHalves(h, passphrase, made, id, SlotOption(keyslot), i, budget);
    var at, slot := LoadedBoth(h, passphrase, made, id, keyslot, budget);
    var j := IndexOf(tok.keyslots, keyslot).value;
    WithoutOneOfTwo(tok, slot, made.value.entry, id, i, j);
    SoleIsAnswered(RunReplace(h, passphrase, made, id, id, SlotOption(keyslot), budget).header,
                   TokenWithout(Grown(tok, slot, made.value.entry, id), j), at, id, |tok.recipients| - 1);
  }

  /** On any header: when a pairing of the holder of scalar s has completed and
      written, the agent answers that peer with an entry from which this holder
      recovers the secret that was drawn, whatever the machine's scalar will be. */
  lemma PairedEntryRecovers<P(!new)>(a: Pairing.Attempt<P>, h: Header, budget: nat, writes: nat, incoming: seq<PairRequest>, s: nat, e: nat)
    requires Laws(a.g) && ProperDraw(a.g, a.draw) && 0 < s < a.g.order && 0 < e < a.g.order
    requires Paired(a, h, budget, writes, incoming).complete
    requires incoming[0].pubKey == ScalarBaseMult(a.g, s) && Wrote(a, h, incoming[0].pubKey)
    ensures a.peer.Canonical().Some?
    ensures var answered := AgentFor(Paired(a, h, budget, writes, incoming).header, a.peer);
      && answered.Success? && answered.value.transport == a.peer.Canonical()
      && Mr1.Attempt(a.g, s, a.draw, e, answered.value.(transport := None))
  {
    var pubKey := incoming[0].pubKey;
    var made := MadeBy(a.g, pubKey, a.draw);
    match PlanEnrolment(h, pubKey, a.peer).value
    case PlanAdd => AddedIsAnswered(h, a.passphrase, pubKey, made, a.machine, a.peer, budget);
    case PlanReplace(keyslot, kid) => ReplacedIsAnswered(h, a.passphrase, pubKey, made, a.peer, keyslot, kid, budget);
    MadeEntryRecovers(a.g, pubKey, a.draw, s, e);
  }

  lemma MadeEntryRecovers<P>(g: Group<P>, pubKey: bytes, d: Draw, s: nat, e: nat)
    requires ProperDraw(g, d) && 0 < s < g.order && 0 < e < g.order
    requires pubKey == ScalarBaseMult(g, s) && MadeBy(g, pubKey, d).Success?
    ensures MadeBy(g, pubKey, d).value.entry.transport.None? && Mr1.Attempt(g, s, d, e, MadeBy(g, pubKey, d).value.entry)
  {
  }

  // ---- on a header in order ----

  /** A run that completed completes whenever there is room for its commands, and
      leaves the same header. */
  lemma {:induction false} CompletedAnyway(h: Header, passphrase: bytes, cs: seq<Command>, budget: nat, other: nat)
    requires Exec(h, passphrase, cs, budget).complete && |cs| <= other
    ensures |cs| <= budget && Exec(h, passphrase, cs, budget).budget == budget - |cs|
    ensures Exec(h, passphrase, cs, other) == Execution(Exec(h, passphrase, cs, budget).header, true, other - |cs|)
    decreases |cs|
  {
    if cs != [] {
      CompletedAnyway(Effect(h, cs[0]), passphrase, cs[1..], budget - 1, other - 1);
    }
  }

  lemma EnrolledAnyway(h: Header, passphrase: bytes, made: Result<Enrolled>, machine: Machine, id: Option<DeviceID>, budget: nat, other: nat)
    requires RunEnrol(h, passphrase, made, machine, id, budget).complete && other >= 3
    ensures var x := RunEnrol(h, passphrase, made, machine, id, other);
      x.complete && x.header == RunEnrol(h, passphrase, made, machine, id, budget).header && x.budget >= other - 3
  {
    CompletedAnyway(h, passphrase, EnrolScript(h, made, machine, id).value, budget, other);
  }

  lemma ReplacedAnyway(h: Header, passphrase: bytes, made: Result<Enrolled>, oldID: DeviceID, newID: DeviceID, keyslot: Option<string>, budget: nat)
    requires RunReplace(h, passphrase, made, oldID, newID, keyslot, budget).complete
    ensures var x := RunReplace(h, passphrase, made, oldID, newID, keyslot, UNCUT);
      x.complete && x.header == RunReplace(h, passphrase, made, oldID, newID, keyslot, budget).header
  {
    var first := RunEnrol(h, passphrase, made, NOBODY, Some(newID), budget);
    EnrolledAnyway(h, passphrase, made, NOBODY, Some(newID), budget, UNCUT);
    var again := RunEnrol(h, passphrase, made, NOBODY, Some(newID), UNCUT);
    var (tok, at) := EnrolledToken(first.header).value;
    var oldTok := EnrolledToken(h).value.0;
    SelectedIs(oldTok, oldID, keyslot);
    var name := oldTok.keyslots[Selected(oldTok, oldID, keyslot).value];
    CompletedAnyway(first.header, passphrase, RemoveScript(tok, at, IndexOf(tok.keyslots, name).value), first.budget, again.budget);
  }

  /** A completed pairing keeps a header in order. */
  lemma PairingKeepsSound<P>(a: Pairing.Attempt<P>, h: Header, budget: nat, writes: nat, incoming: seq<PairRequest>)
    requires Paired(a, h, budget, writes, incoming).complete && Sound(h)
    ensures Sound(Paired(a, h, budget, writes, incoming).header)
    ensures ForeignOf(Paired(a, h, budget, writes, incoming).header) == ForeignOf(h)
  {
    var pubKey := incoming[0].pubKey;
    var made := MadeBy(a.g, pubKey, a.draw);
    match PlanEnrolment(h, pubKey, a.peer).value
    case PlanAlready(_) =>
    case PlanAdd =>
      EnrolledAnyway(h, a.passphrase, made, a.machine, Some(a.peer), budget, UNCUT);
      SettledStaysSound(h, EnrolKey(pubKey, made, a.machine, a.peer, a.passphrase));
    case PlanReplace(keyslot, _) =>
      ReplacedAnyway(h, a.passphrase, made, a.peer, a.peer, SlotOption(keyslot), budget);
      SettledStaysSound(h, RotateKey(pubKey, made, a.peer, a.peer, SlotOption(keyslot), a.passphrase));
  }

  lemma SettledStaysSound(h: Header, op: Op)
    requires Sound(h) && ProperOp(op) && Settled(h, op) && (op.RotateKey? ==> op.id == op.newID)
    ensures Sound(RunOp(h, op).header) && ForeignOf(RunOp(h, op).header) == ForeignOf(h)
  {
    OpSettlesIff(h, op);
  }

  /** The token of a header in order that answers a peer, and where the entry is. */
  lemma AnsweredFrom(h: Header, id: DeviceID) returns (at: nat, tok: Token, i: nat)
    requires Sound(h) && AgentFor(h, id).Success?
    ensures SoundAt(h, at, tok) && i < |tok.recipients|
    ensures AgentFor(h, id) == Success(tok.recipients[i]) && Carries(tok.recipients[i], id.CanonicalOrRaw())
  {
    if NoMr1(h) {
      LoadsNothing(h, NOBODY);
    }
    at, tok :| SoundAt(h, at, tok);
    LoadsTheToken(h, at, tok, NOBODY);
    MatchesFromAre(tok.recipients, id.CanonicalOrRaw(), 0);
    i := Matches(tok, id)[0];
  }

  /** What an exchange of the machine with header x and the holder of scalar s comes to
      when its messages get through: secret p is delivered and the holder told so. */
  predicate Unlocks<P(==)>(g: Group<P>, x: Header, peer: DeviceID, name: string, s: nat, e: nat, xOnly: bool, reply: Answer, p: bytes)
    requires g.order > 0
  {
    EnrolledToken(x).Success? &&
    var t := Exchanged(g, x, EnrolledToken(x).value.0, peer, name, e, 3, [reply], true);
    t.ok && t.delivered == [KeyMaterial(p)] && Held(g, s, xOnly, true, 1, Taken(t, 3)) == Holding([reply], true)
  }

  /** For entry rec and the holder of scalar s: the challenge can always be made, the
      holder replies to it unless the scalars cancel, and then unlocks. */
  predicate HolderUnlocks<P(==)>(g: Group<P>, x: Header, peer: DeviceID, name: string, s: nat, d: Draw, e: nat, rec: Recipient, xOnly: bool)
    requires g.order > 0
  {
    ChallengeStart(g, rec.c, e).Success? &&
    var reply := Reply(g, s, xOnly, ChallengeStart(g, rec.c, e).value);
    && (reply.Success? <==> (d.c + e) % g.order != 0)
    && (reply.Success? ==> Unlocks(g, x, peer, name, s, e, xOnly, reply.value, d.secret))
  }

  /** A holder whom the agent answers with an entry of its own. */
  lemma AnsweredHolderUnlocks<P(!new)>(g: Group<P>, x: Header, id: DeviceID, s: nat, d: Draw, e: nat, rec: Recipient, name: string, xOnly: bool)
    requires Laws(g) && Sound(x) && AgentFor(x, id) == Success(rec) && Mr1.Attempt(g, s, d, e, rec.(transport := None))
    ensures HolderUnlocks(g, x, id, name, s, d, e, rec, xOnly)
  {
    var at, tok, i := AnsweredFrom(x, id);
    LoadsTheToken(x, at, tok, NOBODY);
    EnrolledHolderUnlocks(g, x, at, tok, i, id, name, s, d, e, rec.(transport := None), xOnly);
  }

  /** Header x is what a completed pairing of the holder of scalar s leaves of h. */
  ghost predicate LeftByPairing<P>(a: Pairing.Attempt<P>, h: Header, budget: nat, writes: nat, incoming: seq<PairRequest>, s: nat, x: Header) {
    && Paired(a, h, budget, writes, incoming).complete && x == Paired(a, h, budget, writes, incoming).header
    && incoming[0].pubKey == ScalarBaseMult(a.g, s) && Wrote(a, h, incoming[0].pubKey)
  }

  lemma LeftInOrder<P(!new)>(a: Pairing.Attempt<P>, h: Header, budget: nat, writes: nat, incoming: seq<PairRequest>, s: nat, e: nat, x: Header)
    requires Laws(a.g) && ProperDraw(a.g, a.draw) && 0 < s < a.g.order && 0 < e < a.g.order
    requires Sound(h) && LeftByPairing(a, h, budget, writes, incoming, s, x)
    ensures Sound(x) && AgentFor(x, a.peer).Success?
    ensures Mr1.Attempt(a.g, s, a.draw, e, AgentFor(x, a.peer).value.(transport := None))
  {
    PairedEntryRecovers(a, h, budget, writes, incoming, s, e);
    PairingKeepsSound(a, h, budget, writes, incoming);
  }

  /** From pairing to unlocking, on a header in order: the holder that was paired, when
      the machine next asks it and the messages get through, unlocks the volume with
      the secret of its own pairing and is told so, unless the scalars cancel. */
  lemma PairedHolderUnlocks<P(!new)>(a: Pairing.Attempt<P>, h: Header, budget: nat, writes: nat, incoming: seq<PairRequest>,
                                     s: nat, e: nat, x: Header, name: string, xOnly: bool) returns (rec: Recipient)
    requires Laws(a.g) && ProperDraw(a.g, a.draw) && 0 < s < a.g.order && 0 < e < a.g.order
    requires Sound(h) && LeftByPairing(a, h, budget, writes, incoming, s, x)
    ensures AgentFor(x, a.peer) == Success(rec) && HolderUnlocks(a.g, x, a.peer, name, s, a.draw, e, rec, xOnly)
  {
    LeftInOrder(a, h, budget, writes, incoming, s, e, x);
    rec := AgentFor(x, a.peer).value;
    AnsweredHolderUnlocks(a.g, x, a.peer, s, a.draw, e, rec, name, xOnly);
  }
}
