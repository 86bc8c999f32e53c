/** Any sequence of operations. */
module HeaderRuns {
  import opened Basics
  import opened Mr1
  import opened Tokens
  import opened Luks
  import opened Enrolment
  import opened EnrolmentSafety
  import opened Rotation
  import opened Revocation

  // Enrolments, revocations and rotations on a volume that started without an mr-1
  // token.

  /** One invocation by an operator. `made` is what mrcore.Enrol returns in it. */
  datatype Op =
    | EnrolKey(publicKey: bytes, made: Result<Enrolled>, machine: Machine, id: DeviceID, passphrase: bytes)
    | RevokeKey(id: DeviceID, keyslot: Option<string>, passphrase: bytes)
    | RotateKey(publicKey: bytes, made: Result<Enrolled>, id: DeviceID, newID: DeviceID, keyslot: Option<string>, passphrase: bytes)

  /** More writes than any operation makes: nothing cuts it off. */
  const UNCUT := 6

  function RunOp(h: Header, op: Op): Execution {
    match op
    case EnrolKey(publicKey, made, machine, id, passphrase) =>
      RunEnrolOnce(h, passphrase, publicKey, made, machine, Some(id), UNCUT)
    case RevokeKey(id, keyslot, passphrase) => RunRemove(h, passphrase, id, keyslot, UNCUT)
    case RotateKey(_, made, id, newID, keyslot, passphrase) =>
      RunReplace(h, passphrase, made, id, newID, keyslot, UNCUT)
  }

  /** mrcore.Enrol keeps its promise. */
  predicate ProperOp(op: Op) {
    match op
    case EnrolKey(publicKey, made, _, _, _) => MadeFor(made, publicKey)
    case RevokeKey(_, _, _) => true
    case RotateKey(publicKey, made, _, _, _, _) => MadeFor(made, publicKey)
  }

  /** A rotation keeps the transport id, or goes onto one that nobody else has. */
  predicate Unclaimed(h: Header, op: Op) {
    op.RotateKey? ==>
      match LoadToken(h, NOBODY)
      case Success(Loaded(tok, _)) =>
        forall i :: 0 <= i < |tok.recipients| && Carries(tok.recipients[i], op.newID.CanonicalOrRaw())
          ==> Carries(tok.recipients[i], op.id.CanonicalOrRaw())
      case Failure(_) => true
  }

  /** The operation completed, or refused without touching the header. */
  predicate Settled(h: Header, op: Op) {
    RunOp(h, op).complete || RunOp(h, op).header == h
  }

  lemma WrongPassphraseStops(h: Header, passphrase: bytes, cs: seq<Command>, budget: nat)
    requires cs != [] && (cs[0].AddKey? || cs[0].KillSlot?) && !Opens(h, passphrase)
    ensures Exec(h, passphrase, cs, budget) == Execution(h, false, budget)
  {
  }

  // ---- enrolling ----

  lemma EnrolNext(h: Header, at: nat, tok: Token, passphrase: bytes, made: Enrolled, machine: Machine, id: DeviceID, slot: nat)
    requires SoundAt(h, at, tok) && Matches(tok, id) == [] && id.Canonical().Some?
    requires LowestFree(h) == Some(slot) && Opens(h, passphrase)
    requires made.entry.ciphertext.Sealed? && made.entry.ciphertext.plaintext == made.secret
    ensures var x := RunEnrol(h, passphrase, Success(made), machine, Some(id), UNCUT);
      && x.complete && x.header == Header(h.slots[slot := KeyMaterial(made.secret)], h.tokens[at := Marshalled(Grown(tok, slot, made.entry, id))])
      && SoundAt(x.header, at, Grown(tok, slot, made.entry, id))
      && ForeignOf(x.header) == ForeignOf(h)
  {
    LowestFreeIs(h);
    NextScript(h, at, tok, made, machine, id, slot);
    NextRun(h, passphrase, slot, KeyMaterial(made.secret), at, Marshalled(Grown(tok, slot, made.entry, id)));
    NextIsSound(h, at, tok, made, id, slot);
  }

  lemma NextScript(h: Header, at: nat, tok: Token, made: Enrolled, machine: Machine, id: DeviceID, slot: nat)
    requires TokenAt(h, at, tok) && id.Canonical().Some? && LowestFree(h) == Some(slot)
    ensures EnrolScript(h, Success(made), machine, Some(id)) == Success([
      AddKey(slot, KeyMaterial(made.secret)), RemoveToken(at), ImportToken(Some(at), Marshalled(Grown(tok, slot, made.entry, id)))])
  {
    LoadsTheToken(h, at, tok, machine);
    var add, doc := AddKey(slot, KeyMaterial(made.secret)), Marshalled(Grown(tok, slot, made.entry, id));
    assert [add] + ([RemoveToken(at)] + [ImportToken(Some(at), doc)]) == [add, RemoveToken(at), ImportToken(Some(at), doc)];
  }

  lemma NextRun(h: Header, passphrase: bytes, slot: nat, material: bytes, at: nat, doc: Document)
    requires LowestFree(h) == Some(slot) && Opens(h, passphrase) && OnlyMr1At(h, at) && "keyslots" in doc
    ensures Exec(h, passphrase, [AddKey(slot, material), RemoveToken(at), ImportToken(Some(at), doc)], UNCUT)
         == Execution(Header(h.slots[slot := material], h.tokens[at := doc]), true, UNCUT - 3)
  {
    LowestFreeIs(h);
    var h1 := Header(h.slots[slot := material], h.tokens);
    var h2 := Header(h1.slots, h.tokens - {at});
    var h3 := Header(h1.slots, h.tokens[at := doc]);
    Rewrite(h.tokens, at, doc, doc);
    ExecStages([h, h1, h2, h3], [AddKey(slot, material), RemoveToken(at), ImportToken(Some(at), doc)], passphrase, 3, UNCUT);
  }

  lemma NextIsSound(h: Header, at: nat, tok: Token, made: Enrolled, id: DeviceID, slot: nat)
    requires SoundAt(h, at, tok) && Matches(tok, id) == [] && id.Canonical().Some? && slot !in h.slots
    requires made.entry.ciphertext.Sealed? && made.entry.ciphertext.plaintext == made.secret
    ensures var tok' := Grown(tok, slot, made.entry, id);
      var h' := Header(h.slots[slot := KeyMaterial(made.secret)], h.tokens[at := Marshalled(tok')]);
      SoundAt(h', at, tok') && ForeignOf(h') == ForeignOf(h)
  {
    var tok' := Grown(tok, slot, made.entry, id);
    var h' := Header(h.slots[slot := KeyMaterial(made.secret)], h.tokens[at := Marshalled(tok')]);
    LoadsTheToken(h, at, tok, NOBODY);
    WrittenTokenIsRead(h', at, tok');
    NewSlotOf(h, at, tok, slot);
    GrownIsTidy(tok, slot, made.entry, id);
    GrownIsLive(h.slots, tok, slot, made, id);
    OwnSlotsGrown(tok, slot, made.entry, id);
    LoadsTheToken(h', at, tok', NOBODY);
    assert h'.slots - OwnSlots(tok') == h.slots - OwnSlots(tok);
    assert h'.tokens - {at} == h.tokens - {at};
  }

  lemma NewSlotOf(h: Header, at: nat, tok: Token, slot: nat)
    requires SoundAt(h, at, tok) && slot !in h.slots
    ensures NewSlot(tok, slot)
  {
    forall i | 0 <= i < |tok.keyslots|
      ensures SlotAt(tok, i) != slot
    {
      assert LiveEntry(h.slots, tok, i);
    }
  }

  /** The token that a first enrolment makes up. */
  function Blank(machine: Machine): Token {
    Token(CURRENT_VERSION, [], [], machine, map[])
  }

  lemma FirstScript(h: Header, made: Enrolled, machine: Machine, id: DeviceID, slot: nat)
    requires NoMr1(h) && id.Canonical().Some? && LowestFree(h) == Some(slot)
    ensures EnrolScript(h, Success(made), machine, Some(id)) == Success([
      AddKey(slot, KeyMaterial(made.secret)), ImportToken(None, Marshalled(Grown(Blank(machine), slot, made.entry, id)))])
  {
    LoadsNothing(h, machine);
    var write := [ImportToken(None, Marshalled(Grown(Blank(machine), slot, made.entry, id)))];
    assert [AddKey(slot, KeyMaterial(made.secret))] + ([] + write)
        == [AddKey(slot, KeyMaterial(made.secret)), ImportToken(None, Marshalled(Grown(Blank(machine), slot, made.entry, id)))];
  }

  lemma FirstRun(h: Header, passphrase: bytes, slot: nat, material: bytes, doc: Document, at: nat)
    requires LowestFree(h) == Some(slot) && Opens(h, passphrase) && FreeTokenIDFrom(h, 0) == Some(at) && "keyslots" in doc
    ensures Exec(h, passphrase, [AddKey(slot, material), ImportToken(None, doc)], UNCUT)
         == Execution(Header(h.slots[slot := material], h.tokens[at := doc]), true, UNCUT - 2)
  {
    LowestFreeIs(h);
    var h1 := Header(h.slots[slot := material], h.tokens);
    var h2 := Header(h1.slots, h.tokens[at := doc]);
    SameFreeTokenID(h, h1, 0);
    ExecStages([h, h1, h2], [AddKey(slot, material), ImportToken(None, doc)], passphrase, 2, UNCUT);
  }

  lemma FirstIsSound(h: Header, made: Enrolled, machine: Machine, id: DeviceID, slot: nat, at: nat)
    requires NoMr1(h) && id.Canonical().Some? && slot !in h.slots && at < MAX_TOKENS && at !in h.tokens
    requires made.entry.ciphertext.Sealed? && made.entry.ciphertext.plaintext == made.secret
    ensures var tok := Grown(Blank(machine), slot, made.entry, id);
      var h' := Header(h.slots[slot := KeyMaterial(made.secret)], h.tokens[at := Marshalled(tok)]);
      SoundAt(h', at, tok) && ForeignOf(h') == ForeignOf(h)
  {
    var empty := Blank(machine);
    var tok := Grown(empty, slot, made.entry, id);
    var h' := Header(h.slots[slot := KeyMaterial(made.secret)], h.tokens[at := Marshalled(tok)]);
    LoadsNothing(h, NOBODY);
    WrittenTokenIsRead(h', at, tok);
    GrownIsTidy(empty, slot, made.entry, id);
    GrownIsLive(h.slots, empty, slot, made, id);
    OwnSlotsGrown(empty, slot, made.entry, id);
    LoadsTheToken(h', at, tok, NOBODY);
    assert h'.slots - {slot} == h.slots;
    assert h'.tokens - {at} == h.tokens;
  }

  lemma EnrolFirst(h: Header, passphrase: bytes, made: Enrolled, machine: Machine, id: DeviceID, slot: nat, at: nat)
    requires NoMr1(h) && id.Canonical().Some?
    requires LowestFree(h) == Some(slot) && Opens(h, passphrase) && FreeTokenIDFrom(h, 0) == Some(at)
    requires made.entry.ciphertext.Sealed? && made.entry.ciphertext.plaintext == made.secret
    ensures var x := RunEnrol(h, passphrase, Success(made), machine, Some(id), UNCUT);
      x.complete && SoundAt(x.header, at, Grown(Blank(machine), slot, made.entry, id)) && ForeignOf(x.header) == ForeignOf(h)
  {
    LowestFreeIs(h);
    FreeTokenIDIs(h, 0);
    var tok := Grown(Blank(machine), slot, made.entry, id);
    FirstScript(h, made, machine, id, slot);
    FirstRun(h, passphrase, slot, KeyMaterial(made.secret), Marshalled(tok), at);
    FirstIsSound(h, made, machine, id, slot, at);
  }

  lemma {:induction false} SameFreeTokenID(h: Header, h': Header, i: nat)
    requires h.tokens == h'.tokens
    ensures FreeTokenIDFrom(h, i) == FreeTokenIDFrom(h', i)
    decreases MAX_TOKENS - i
  {
    if i < MAX_TOKENS && i in h.tokens {
      SameFreeTokenID(h, h', i + 1);
    }
  }

  /** A header with no token for the next entry to go to: the keyslot is added
      and the import then fails. */
  predicate TokenAreaFull(h: Header) {
    FreeTokenIDFrom(h, 0).None?
  }

  /** A first enrolment that would run, on such a header. */
  predicate Strands(h: Header, op: Op) {
    && NoMr1(h) && op.EnrolKey? && op.made.Success? && op.id.Canonical().Some?
    && Opens(h, op.passphrase) && LowestFree(h).Some? && TokenAreaFull(h)
  }

  lemma EnrolOnNone(h: Header, op: Op)
    requires NoMr1(h) && op.EnrolKey? && ProperOp(op)
    ensures Settled(h, op) <==> !Strands(h, op)
    ensures Settled(h, op) ==> Sound(RunOp(h, op).header) && ForeignOf(RunOp(h, op).header) == ForeignOf(h)
  {
    LoadsNothing(h, NOBODY);
    LoadsNothing(h, op.machine);
    var slot := LowestFree(h);
    if op.made.Success? && slot.Some? && op.id.Canonical().Some? {
      if !Opens(h, op.passphrase) {
        WrongPassphraseStops(h, op.passphrase, EnrolScript(h, op.made, op.machine, Some(op.id)).value, UNCUT);
      } else if FreeTokenIDFrom(h, 0).Some? {
        EnrolFirst(h, op.passphrase, op.made.value, op.machine, op.id, slot.value, FreeTokenIDFrom(h, 0).value);
      } else {
        StrandedKeyslot(h, op);
      }
    }
  }

  lemma StrandedKeyslot(h: Header, op: Op)
    requires Strands(h, op)
    ensures !Settled(h, op)
    ensures RunOp(h, op).header == Header(h.slots[LowestFree(h).value := KeyMaterial(op.made.value.secret)], h.tokens)
  {
    LoadsNothing(h, NOBODY);
    LowestFreeIs(h);
    var slot, made := LowestFree(h).value, op.made.value;
    var material := KeyMaterial(made.secret);
    FirstScript(h, made, op.machine, op.id, slot);
    var h1 := Header(h.slots[slot := material], h.tokens);
    SameFreeTokenID(h, h1, 0);
    ExecStages([h, h1, h1], EnrolScript(h, op.made, op.machine, Some(op.id)).value, op.passphrase, 1, UNCUT);
    assert slot in h1.slots;
  }

  lemma EnrolOnSound(h: Header, at: nat, tok: Token, op: Op)
    requires SoundAt(h, at, tok) && op.EnrolKey? && ProperOp(op)
    ensures Settled(h, op) && Sound(RunOp(h, op).header) && ForeignOf(RunOp(h, op).header) == ForeignOf(h)
  {
    LoadsTheToken(h, at, tok, NOBODY);
    LoadsTheToken(h, at, tok, op.machine);
    MatchesOfTidy(tok, op.id);
    var slot := LowestFree(h);
    if Matches(tok, op.id) == [] && op.made.Success? && slot.Some? && op.id.Canonical().Some? {
      if !Opens(h, op.passphrase) {
        WrongPassphraseStops(h, op.passphrase, EnrolScript(h, op.made, op.machine, Some(op.id)).value, UNCUT);
      } else {
        EnrolNext(h, at, tok, op.passphrase, op.made.value, op.machine, op.id, slot.value);
      }
    }
  }

  // ---- revoking and rotating ----

  lemma SelectedEntry(tok: Token, id: DeviceID, keyslot: Option<string>)
    requires Tidy(tok) && Selected(tok, id, keyslot).Success?
    ensures var idx := Selected(tok, id, keyslot).value;
      && idx < |tok.keyslots| && Carries(tok.recipients[idx], id.CanonicalOrRaw())
      && (keyslot.None? || keyslot == Some(tok.keyslots[idx]))
  {
    SelectedIs(tok, id, keyslot);
    if keyslot.Some? {
      FirstInKeyslotIs(tok, Matches(tok, id), keyslot.value);
    }
  }

  lemma RevokeOnSound(h: Header, at: nat, tok: Token, op: Op)
    requires SoundAt(h, at, tok) && op.RevokeKey?
    ensures Settled(h, op) && Sound(RunOp(h, op).header) && ForeignOf(RunOp(h, op).header) == ForeignOf(h)
  {
    LoadsTheToken(h, at, tok, NOBODY);
    var chosen := Selected(tok, op.id, op.keyslot);
    if chosen.Success? {
      SelectedEntry(tok, op.id, op.keyslot);
      var r := Removal(h, at, tok, chosen.value, op.id);
      RevocationCutAnywhere(r, op.passphrase, op.keyslot, UNCUT);
      RevocationKeepsSound(r);
    }
  }

  /** The rotation that an operation is on a header with token tok, if it gets as
      far as issuing commands. */
  function TurnOf(h: Header, at: nat, tok: Token, op: Op): Turn
    requires op.RotateKey? && Selected(tok, op.id, op.keyslot).Success? && LowestFree(h).Some? && op.made.Success?
  {
    Turn(h, at, tok, Selected(tok, op.id, op.keyslot).value, op.id, op.newID, op.keyslot, LowestFree(h).value, op.made.value)
  }

  predicate Issues(h: Header, tok: Token, op: Op) {
    && op.RotateKey? && Selected(tok, op.id, op.keyslot).Success? && LowestFree(h).Some? && op.made.Success?
    && op.newID.Canonical().Some? && Opens(h, op.passphrase)
  }

  /** A rotation whose passphrase opens no keyslot but the one to be destroyed: it
      gets as far as the revocation and stops there. */
  predicate HalfRotates(h: Header, op: Op) {
    match EnrolledToken(h)
    case Failure(_) => false
    case Success((tok, at)) =>
      Issues(h, tok, op) &&
      var oldSlot := SlotAt(tok, Selected(tok, op.id, op.keyslot).value);
      !OpensBesides(h, op.passphrase, oldSlot) && op.passphrase != KeyMaterial(op.made.value.secret)
  }

  lemma TurnIsReady(h: Header, at: nat, tok: Token, op: Op)
    requires SoundAt(h, at, tok) && ProperOp(op) && Issues(h, tok, op)
    ensures TurnOf(h, at, tok, op).Ready()
    ensures TurnOf(h, at, tok, op).CanKill(op.passphrase) <==> !HalfRotates(h, op)
  {
    var r := TurnOf(h, at, tok, op);
    SelectedEntry(tok, op.id, op.keyslot);
    LoadsTheToken(h, at, tok, NOBODY);
    assert SlotName(tok.keyslots[r.idx]);
    assert LiveEntry(h.slots, tok, r.idx);
    FormedSlot(r);
    CanKillIff(r, op.passphrase);
  }

  lemma UnclaimedIsNoClash(h: Header, at: nat, tok: Token, op: Op)
    requires SoundAt(h, at, tok) && ProperOp(op) && Issues(h, tok, op) && Unclaimed(h, op)
    ensures !Clash(TurnOf(h, at, tok, op))
  {
    var r := TurnOf(h, at, tok, op);
    LoadsTheToken(h, at, tok, NOBODY);
    SelectedEntry(tok, op.id, op.keyslot);
    forall j | 0 <= j < |tok.recipients| && j != r.idx
      ensures !Carries(tok.recipients[j], op.newID.CanonicalOrRaw())
    {
      NoOtherCarrier(tok, op.id.CanonicalOrRaw(), r.idx, j);
    }
  }

  lemma RotateOnSound(h: Header, at: nat, tok: Token, op: Op)
    requires SoundAt(h, at, tok) && op.RotateKey? && ProperOp(op) && Unclaimed(h, op)
    ensures Settled(h, op) <==> !HalfRotates(h, op)
    ensures Settled(h, op) ==> Sound(RunOp(h, op).header) && ForeignOf(RunOp(h, op).header) == ForeignOf(h)
  {
    LoadsTheToken(h, at, tok, NOBODY);
    var ready := Selected(tok, op.id, op.keyslot).Success? && op.made.Success? && LowestFree(h).Some? && op.newID.Canonical().Some?;
    if ready && Opens(h, op.passphrase) {
      RotateThatIssues(h, at, tok, op);
    } else if ready {
      RotateWithoutKey(h, at, tok, op);
    }
  }

  lemma RotateThatIssues(h: Header, at: nat, tok: Token, op: Op)
    requires SoundAt(h, at, tok) && ProperOp(op) && Issues(h, tok, op) && Unclaimed(h, op)
    ensures Settled(h, op) <==> !HalfRotates(h, op)
    ensures Settled(h, op) ==> Sound(RunOp(h, op).header) && ForeignOf(RunOp(h, op).header) == ForeignOf(h)
  {
    var r := TurnOf(h, at, tok, op);
    TurnIsReady(h, at, tok, op);
    UnclaimedIsNoClash(h, at, tok, op);
    RotationCutAnywhere(r, op.passphrase, UNCUT);
    FormedSlot(r);
    assert r.slot in r.Stage(3).slots;
    RotationKeepsSound(r);
  }

  lemma RotateWithoutKey(h: Header, at: nat, tok: Token, op: Op)
    requires TokenAt(h, at, tok) && |tok.keyslots| == |tok.recipients| && op.RotateKey?
    requires Selected(tok, op.id, op.keyslot).Success? && op.made.Success? && LowestFree(h).Some? && op.newID.Canonical().Some?
    requires !Opens(h, op.passphrase)
    ensures RunOp(h, op) == Execution(h, false, UNCUT)
  {
    LoadsTheToken(h, at, tok, NOBODY);
    WrongPassphraseStops(h, op.passphrase, EnrolScript(h, op.made, NOBODY, Some(op.newID)).value, UNCUT);
  }

  // ---- in the gap ----

  /** A rotation cut off in its first gap, and then an enrolment that runs to its
      end: the new token has that one entry, and those of all other holders are
      gone for good. */
  lemma EnrolInTheGapLosesTheRest(r: Turn, op: Op)
    requires r.Formed() && op.EnrolKey? && ProperOp(op) && op.made.Success? && op.id.Canonical().Some?
    requires Opens(r.Stage(2), op.passphrase) && LowestFree(r.Stage(2)).Some?
    ensures RunOp(r.Stage(2), op).complete && EnrolledToken(RunOp(r.Stage(2), op).header).Success?
    ensures EnrolledToken(RunOp(r.Stage(2), op).header).value.0.recipients == [op.made.value.entry.(transport := op.id.Canonical())]
  {
    var h := r.Stage(2);
    assert NoMr1(h) && r.at !in h.tokens;
    LoadsNothing(h, NOBODY);
    FreeTokenIDIs(h, 0);
    var slot, at := LowestFree(h).value, FreeTokenIDFrom(h, 0).value;
    EnrolFirst(h, op.passphrase, op.made.value, op.machine, op.id, slot, at);
    LoadsTheToken(RunOp(h, op).header, at, Grown(Blank(op.machine), slot, op.made.value.entry, op.id), NOBODY);
  }

  // ---- any sequence ----

  /** An operation on a header in order completes, or refuses and touches nothing;
      it is left half done by itself in exactly two cases. */
  lemma OpSettlesIff(h: Header, op: Op)
    requires Sound(h) && ProperOp(op) && Unclaimed(h, op)
    ensures Settled(h, op) <==> !Strands(h, op) && !HalfRotates(h, op)
    ensures Settled(h, op) ==> Sound(RunOp(h, op).header) && ForeignOf(RunOp(h, op).header) == ForeignOf(h)
  {
    if NoMr1(h) {
      LoadsNothing(h, NOBODY);
      if op.EnrolKey? {
        EnrolOnNone(h, op);
      }
    } else {
      var at, tok :| SoundAt(h, at, tok);
      match op
      case EnrolKey(_, _, _, _, _) => EnrolOnSound(h, at, tok, op);
      case RevokeKey(_, _, _) => RevokeOnSound(h, at, tok, op);
      case RotateKey(_, _, _, _, _, _) => RotateOnSound(h, at, tok, op);
    }
  }

  function HeaderAfter(h: Header, op: Op): Header {
    RunOp(h, op).header
  }

  function RunAll(h: Header, ops: seq<Op>): Header
    decreases |ops|
  {
    if ops == [] then h else RunAll(HeaderAfter(h, ops[0]), ops[1..])
  }

  predicate AllSettled(h: Header, ops: seq<Op>)
    decreases |ops|
  {
    ops == [] || (Settled(h, ops[0]) && Unclaimed(h, ops[0]) && AllSettled(HeaderAfter(h, ops[0]), ops[1..]))
  }

  /** From a volume with no mr-1 token, any sequence of operations that complete or
      refuse, and rotate onto no id that is another holder's, leaves it in order:
      equal lists, distinct keyslots and transport ids, keyslot i holding exactly
      entry i's secret, and every foreign keyslot, foreign token and unknown field
      as it was. */
  lemma {:induction false} AnySequenceKeepsTheHeaderSound(h: Header, ops: seq<Op>)
    requires Sound(h) && AllSettled(h, ops)
    requires forall i :: 0 <= i < |ops| ==> ProperOp(ops[i])
    ensures Sound(RunAll(h, ops))
    ensures ForeignOf(RunAll(h, ops)) == ForeignOf(h)
    decreases |ops|
  {
    if ops != [] {
      OpSettlesIff(h, ops[0]);
      AnySequenceKeepsTheHeaderSound(HeaderAfter(h, ops[0]), ops[1..]);
    }
  }
}
