/** A keyslot handed out again, and the entry that still names it. */
module StaleEntries {
  import opened Basics
  import opened Mr1
  import opened Tokens
  import opened Luks
  import opened Enrolment
  import opened EnrolmentSafety
  import opened Rotation
  import opened Revocation
  import opened HeaderRuns
  import opened Pairing

  // A revocation was cut off after its first write, so the token still has an entry
  // that names a free keyslot, and another holder has enrolled and was given that
  // keyslot. From then on two entries name it: revoking the first holder destroys the
  // key of the second, and pairing the second again takes out the entry of the first.
  // A header in order and one revocation that is cut off are all it takes.

  /** Header r.h has such an entry, r.idx, of holder r.id; its keyslot is the next
      to be handed out, and another holder enrols with what Enrol made. */
  datatype Reuse = Reuse(r: Removal, other: DeviceID, made: Enrolled, machine: Machine, passphrase: bytes)
  {
    ghost predicate Ready() {
      && r.Ready() && r.Slot() !in r.h.slots && LowestFree(r.h) == Some(r.Slot())
      && other.Canonical().Some? && Matches(r.tok, other) == []
      && made.entry.ciphertext.Sealed? && made.entry.ciphertext.plaintext == made.secret
      && Opens(r.h, passphrase)
    }

    /** The token with both entries, which name one keyslot. */
    function Both(): Token { Grown(r.tok, r.Slot(), made.entry, other) }

    function Entry(): Recipient { made.entry.(transport := other.Canonical()) }

    function Material(): bytes { KeyMaterial(made.secret) }

    function Enrolled(): Header {
      Header(r.h.slots[r.Slot() := Material()], r.h.tokens[r.at := Marshalled(Both())])
    }
  }

  lemma SlotIsNamed(u: Reuse)
    requires u.Ready()
    ensures Itoa(u.r.Slot()) == u.r.tok.keyslots[u.r.idx]
  {
    assert SlotName(u.r.tok.keyslots[u.r.idx]);
  }

  /** The enrolment is an ordinary one and runs to its end. */
  lemma OtherEnrols(u: Reuse)
    requires u.Ready()
    ensures RunEnrol(u.r.h, u.passphrase, Success(u.made), u.machine, Some(u.other), UNCUT)
         == Execution(u.Enrolled(), true, UNCUT - 3)
    ensures TokenAt(u.Enrolled(), u.r.at, u.Both())
  {
    var r := u.r;
    NextScript(r.h, r.at, r.tok, u.made, u.machine, u.other, r.Slot());
    NextRun(r.h, u.passphrase, r.Slot(), u.Material(), r.at, Marshalled(u.Both()));
    LoadsTheToken(r.h, r.at, r.tok, NOBODY);
    WrittenTokenIsRead(u.Enrolled(), r.at, u.Both());
  }

  /** Each of the two ids is carried by one entry. */
  lemma Carriers(u: Reuse)
    requires u.Ready()
    ensures Sole(u.Both().recipients, u.r.id.CanonicalOrRaw(), u.r.idx)
    ensures Sole(u.Both().recipients, u.other.CanonicalOrRaw(), |u.r.tok.recipients|)
  {
    var r := u.r;
    MatchesOfTidy(r.tok, u.other);
    MatchesOfTidy(r.tok, r.id);
    forall j | 0 <= j < |r.tok.recipients| && j != r.idx
      ensures !Carries(r.tok.recipients[j], r.id.CanonicalOrRaw())
    {
      NoOtherCarrier(r.tok, r.id.CanonicalOrRaw(), r.idx, j);
    }
  }

  /** The entry that is left when the stale one is taken out. */
  lemma WithoutStale(u: Reuse)
    requires u.Ready()
    ensures var tok := TokenWithout(u.Both(), u.r.idx);
      && |tok.recipients| == |tok.keyslots| == |u.r.tok.recipients|
      && Sole(tok.recipients, u.other.CanonicalOrRaw(), |u.r.tok.recipients| - 1)
      && tok.recipients[|u.r.tok.recipients| - 1] == u.Entry()
      && SlotAt(tok, |u.r.tok.recipients| - 1) == u.r.Slot()
  {
    var r := u.r;
    var tok, last := TokenWithout(u.Both(), r.idx), |r.tok.recipients| - 1;
    SlotAtGrown(r.tok, r.Slot(), u.made.entry, u.other);
    Carriers(u);
    forall k | 0 <= k <= last
      ensures tok.recipients[k] == u.Both().recipients[Before(r.idx, k)] && SlotAt(tok, k) == SlotAt(u.Both(), Before(r.idx, k))
    {
      ShrunkEntry(u.Both(), r.idx, k);
    }
  }

  /** Header u.Enrolled() after the stale entry is revoked by its holder's id. */
  function Revoked(u: Reuse): Header
    requires u.r.idx < |u.r.tok.keyslots| && u.r.idx < |u.r.tok.recipients|
  {
    Header(u.Enrolled().slots - {u.r.Slot()}, u.r.h.tokens[u.r.at := Marshalled(TokenWithout(u.Both(), u.r.idx))])
  }

  function ShorterDoc(u: Reuse): Document
    requires u.r.idx < |u.r.tok.keyslots| && u.r.idx < |u.r.tok.recipients|
  {
    Marshalled(TokenWithout(u.Both(), u.r.idx))
  }

  lemma StaleScript(u: Reuse, budget: nat)
    requires u.Ready()
    ensures RunRemove(u.Enrolled(), u.passphrase, u.r.id, None, budget)
         == Exec(u.Enrolled(), u.passphrase,
                 [KillSlot(u.r.tok.keyslots[u.r.idx]), RemoveToken(u.r.at), ImportToken(Some(u.r.at), ShorterDoc(u))], budget)
  {
    OtherEnrols(u);
    LoadsTheToken(u.Enrolled(), u.r.at, u.Both(), NOBODY);
    Carriers(u);
    SoleMatch(u.Both().recipients, u.r.id.CanonicalOrRaw(), u.r.idx);
    assert u.Both().keyslots[u.r.idx] == u.r.tok.keyslots[u.r.idx];
  }

  lemma OpensStill(u: Reuse)
    requires u.Ready()
    ensures OpensBesides(u.Enrolled(), u.passphrase, u.r.Slot())
  {
    var n :| n in u.r.h.slots && u.r.h.slots[n] == u.passphrase;
    assert n in u.Enrolled().slots && n != u.r.Slot() && u.Enrolled().slots[n] == u.passphrase;
  }

  lemma RemovalRuns(h: Header, passphrase: bytes, name: string, slot: nat, at: nat, doc: Document)
    requires Atoi(name) == Some(slot) && slot in h.slots && OpensBesides(h, passphrase, slot)
    requires at in h.tokens && at < MAX_TOKENS && "keyslots" in doc
    ensures Exec(h, passphrase, [KillSlot(name), RemoveToken(at), ImportToken(Some(at), doc)], UNCUT)
         == Execution(Header(h.slots - {slot}, h.tokens[at := doc]), true, UNCUT - 3)
  {
    Rewrite(h.tokens, at, doc, doc);
    var slots := h.slots - {slot};
    var hs := [h, Header(slots, h.tokens), Header(slots, h.tokens - {at}), Header(slots, h.tokens[at := doc])];
    ExecStages(hs, [KillSlot(name), RemoveToken(at), ImportToken(Some(at), doc)], passphrase, 3, UNCUT);
  }

  lemma RevokedIs(u: Reuse, doc: Document)
    requires u.Ready() && doc == ShorterDoc(u)
    ensures Header(u.Enrolled().slots - {u.r.Slot()}, u.Enrolled().tokens[u.r.at := doc]) == Revoked(u)
    ensures Revoked(u).slots == u.r.h.slots && "keyslots" in doc
  {
  }

  lemma StaleRunsToItsEnd(u: Reuse)
    requires u.Ready()
    ensures RunRemove(u.Enrolled(), u.passphrase, u.r.id, None, UNCUT) == Execution(Revoked(u), true, UNCUT - 3)
  {
    var name, doc := u.r.tok.keyslots[u.r.idx], ShorterDoc(u);
    StaleScript(u, UNCUT);
    OpensStill(u);
    RevokedIs(u, doc);
    assert SlotName(name) && u.r.at < MAX_TOKENS;
    RemovalRuns(u.Enrolled(), u.passphrase, name, u.r.Slot(), u.r.at, doc);
  }

  /** Once the keyslot is somebody else's the stale entry can be revoked after all:
      the run reports success, destroys the other holder's keyslot, and leaves the
      other holder's entry, which the agent goes on answering, with no key behind
      it. */
  lemma RevokingTheStaleEntryHitsTheOther(u: Reuse)
    requires u.Ready()
    ensures RunEnrol(u.r.h, u.passphrase, Success(u.made), u.machine, Some(u.other), UNCUT) == Execution(u.Enrolled(), true, UNCUT - 3)
    ensures RunRemove(u.Enrolled(), u.passphrase, u.r.id, None, UNCUT) == Execution(Revoked(u), true, UNCUT - 3)
    ensures Revoked(u).slots == u.r.h.slots && u.r.Slot() !in Revoked(u).slots
    ensures AgentFor(Revoked(u), u.other) == Success(u.Entry())
  {
    OtherEnrols(u);
    StaleRunsToItsEnd(u);
    TheOtherIsAnswered(u);
    RevokedIs(u, ShorterDoc(u));
  }

  lemma TheOtherIsAnswered(u: Reuse)
    requires u.Ready()
    ensures AgentFor(Revoked(u), u.other) == Success(u.Entry())
  {
    var tok := TokenWithout(u.Both(), u.r.idx);
    LoadsTheToken(u.r.h, u.r.at, u.r.tok, NOBODY);
    WrittenTokenIsRead(Revoked(u), u.r.at, tok);
    LoadsTheToken(Revoked(u), u.r.at, tok, NOBODY);
    WithoutStale(u);
    OneAnswers(tok, u.other, |u.r.tok.recipients| - 1);
  }

  // ---- the other holder pairs again ----

  /** The other holder asks to be paired with another key: the rotation that is. */
  function Again(u: Reuse, made: Enrolled, slot: nat): Turn {
    Turn(u.Enrolled(), u.r.at, u.Both(), |u.r.tok.recipients|, u.other, u.other, SlotOption(Itoa(u.r.Slot())), slot, made)
  }

  lemma AgainIsFormed(u: Reuse, made: Enrolled, slot: nat)
    requires u.Ready() && LowestFree(u.Enrolled()) == Some(slot)
    requires made.entry.ciphertext.Sealed? && made.entry.ciphertext.plaintext == made.secret
    ensures Again(u, made, slot).Formed() && Opens(u.Enrolled(), u.passphrase) && Again(u, made, slot).CanKill(u.passphrase)
  {
    var t := Again(u, made, slot);
    OtherEnrols(u);
    Carriers(u);
    SoleMatch(u.Both().recipients, u.other.CanonicalOrRaw(), |u.r.tok.recipients|);
    assert FirstInKeyslot(u.Both(), [|u.r.tok.recipients|], Itoa(u.r.Slot())) == Some(|u.r.tok.recipients|);
    AtoiItoa(u.r.Slot());
    OpensStill(u);
    LowestFreeIs(u.Enrolled());
    CanKillIff(t, u.passphrase);
  }

  /** Planning finds the other holder enrolled with another key, in that keyslot. */
  lemma AgainIsPlanned(u: Reuse, pubKey: bytes)
    requires u.Ready() && u.made.entry.kid != Sha256(pubKey)
    ensures PlanEnrolment(u.Enrolled(), pubKey, u.other) == Success(PlanReplace(Itoa(u.r.Slot()), u.made.entry.kid))
  {
    OtherEnrols(u);
    LoadsTheToken(u.Enrolled(), u.r.at, u.Both(), NOBODY);
    Carriers(u);
    SoleMatch(u.Both().recipients, u.other.CanonicalOrRaw(), |u.r.tok.recipients|);
  }

  /** The first entry under the keyslot's name is the stale one. */
  lemma StaleIsFirst(u: Reuse)
    requires u.Ready()
    ensures !FirstUnderNameCarries(u.Both(), Itoa(u.r.Slot()), u.other)
  {
    SlotIsNamed(u);
    Carriers(u);
    var name := Itoa(u.r.Slot());
    assert name in u.r.tok.keyslots;
    FirstNameStays(u.r.tok.keyslots, [name], name);
  }

  /** A pairing by the other holder, with a new key, on that header: the machine
      completes the rotation and sends OK, and planning the same key for the same
      peer again does not find it but fails, since the stale entry was taken out
      and both of the other holder's are left. */
  lemma PairingAfterReuseIsNotFound<P>(u: Reuse, a: Pairing.Attempt<P>, req: PairRequest, made: Enrolled, writes: nat)
    requires u.Ready() && LowestFree(u.Enrolled()).Some?
    requires a.peer == u.other && a.passphrase == u.passphrase && a.operator.Replaces()
    requires Proved(a, req) && u.made.entry.kid != Sha256(req.pubKey)
    requires MadeBy(a.g, req.pubKey, a.draw) == Success(made) && writes > 0
    ensures var x := Paired(a, u.Enrolled(), UNCUT, writes, [req]);
      x.complete && PlanEnrolment(x.header, req.pubKey, a.peer).Failure?
  {
    var slot := LowestFree(u.Enrolled()).value;
    var name := Itoa(u.r.Slot());
    AgainIsFormed(u, made, slot);
    AgainIsPlanned(u, req.pubKey);
    PairedReplaces(a, u.Enrolled(), UNCUT, writes, req, name, u.made.entry.kid);
    RotationCutAnywhere(Again(u, made, slot), u.passphrase, UNCUT);
    OtherEnrols(u);
    LoadsTheToken(u.Enrolled(), u.r.at, u.Both(), NOBODY);
    StaleIsFirst(u);
    ReplacedIsAlreadyIff(u.Enrolled(), u.passphrase, req.pubKey, Success(made), u.other, name, u.made.entry.kid, UNCUT);
  }

  lemma PairedReplaces<P>(a: Pairing.Attempt<P>, h: Header, budget: nat, writes: nat, req: PairRequest, name: string, kid: Digest)
    requires writes > 0 && Proved(a, req) && a.operator.Replaces()
    requires PlanEnrolment(h, req.pubKey, a.peer) == Success(PlanReplace(name, kid))
    ensures Paired(a, h, budget, writes, [req])
         == RunReplace(h, a.passphrase, MadeBy(a.g, req.pubKey, a.draw), a.peer, a.peer, SlotOption(name), budget)
  {
  }

  /** It starts from a header in order: a revocation cut off after its first write,
      of a holder whose lower keyslots are all taken. */
  lemma ACutRevocationMakesOne(r: Removal, passphrase: bytes, other: DeviceID, made: Enrolled, machine: Machine) returns (u: Reuse)
    requires r.Ready() && SoundAt(r.h, r.at, r.tok) && r.Slot() < MAX_KEYSLOTS && CanRemove(r, passphrase)
    requires forall n :: 0 <= n < r.Slot() ==> n in r.h.slots
    requires other.Canonical().Some? && Matches(r.tok, other) == []
    requires made.entry.ciphertext.Sealed? && made.entry.ciphertext.plaintext == made.secret
    ensures u.Ready() && u.other == other && u.made == made && u.passphrase == passphrase
    ensures u.r.h == RunRemove(r.h, passphrase, r.id, None, 1).header && u.r.id == r.id
  {
    RevocationCutAnywhere(r, passphrase, None, 1);
    CutRevocationLeavesStaleEntry(r);
    StillOpens(r, passphrase);
    u := Reuse(Removal(r.Stage(1), r.at, r.tok, r.idx, r.id), other, made, machine, passphrase);
  }
}
