/** Revoking a key holder (removeRecipient), cut off anywhere. */
module Revocation {
  import opened Basics
  import opened Mr1
  import opened Tokens
  import opened Luks
  import opened Enrolment
  import opened EnrolmentSafety
  import opened Rotation

  /** A revocation of entry idx, which the transport id names. */
  datatype Removal = Removal(h: Header, at: nat, tok: Token, idx: nat, id: DeviceID)
  {
    function Slot(): nat { SlotAt(tok, idx) }

    function Final(): Token
      requires idx < |tok.keyslots| && idx < |tok.recipients|
    {
      TokenWithout(tok, idx)
    }

    function Stage(k: nat): Header
      requires idx < |tok.keyslots| && idx < |tok.recipients|
    {
      if k == 0 then h
      else if k == 1 then Header(h.slots - {Slot()}, h.tokens)
      else if k == 2 then Header(h.slots - {Slot()}, h.tokens - {at})
      else Header(h.slots - {Slot()}, h.tokens[at := Marshalled(Final())])
    }

    ghost predicate Ready() {
      && TidyAt(h, at, tok) && idx < |tok.keyslots|
      && Carries(tok.recipients[idx], id.CanonicalOrRaw())
    }
  }

  lemma RemoveIsItsScript(r: Removal, passphrase: bytes, keyslot: Option<string>, budget: nat)
    requires r.Ready() && (keyslot.None? || keyslot == Some(r.tok.keyslots[r.idx]))
    ensures RunRemove(r.h, passphrase, r.id, keyslot, budget)
         == Exec(r.h, passphrase, RemoveScript(r.tok, r.at, r.idx), budget)
  {
    LoadsTheToken(r.h, r.at, r.tok, NOBODY);
    MatchesOfTidy(r.tok, r.id);
  }

  /** The keyslot is there to be destroyed, and the passphrase opens another. */
  predicate CanRemove(r: Removal, passphrase: bytes) {
    r.Slot() in r.h.slots && OpensBesides(r.h, passphrase, r.Slot())
  }

  /** A revocation cut off after `budget` writes has done exactly that many of
      its three: keyslot destroyed, token removed, token imported. It runs exactly
      if the keyslot can be destroyed; otherwise nothing is touched. */
  lemma RevocationCutAnywhere(r: Removal, passphrase: bytes, keyslot: Option<string>, budget: nat)
    requires r.Ready() && (keyslot.None? || keyslot == Some(r.tok.keyslots[r.idx]))
    ensures var x := RunRemove(r.h, passphrase, r.id, keyslot, budget);
      && x.header == (if CanRemove(r, passphrase) then r.Stage(Min(budget, 3)) else r.h)
      && (x.complete <==> budget >= 3 && CanRemove(r, passphrase))
  {
    RemoveIsItsScript(r, passphrase, keyslot, budget);
    assert SlotName(r.tok.keyslots[r.idx]);
    var doc := Marshalled(r.Final());
    Rewrite(r.h.tokens, r.at, doc, doc);
    var hs := [r.Stage(0), r.Stage(1), r.Stage(2), r.Stage(3)];
    ExecStages(hs, RemoveScript(r.tok, r.at, r.idx), passphrase, if CanRemove(r, passphrase) then 3 else 0, budget);
  }

  lemma RevocationKeepsSound(r: Removal)
    requires r.Ready() && SoundAt(r.h, r.at, r.tok)
    ensures SoundAt(r.Stage(3), r.at, r.Final())
    ensures ForeignOf(r.Stage(3)) == ForeignOf(r.h)
    ensures r.Slot() !in r.Stage(3).slots
    ensures forall i :: 0 <= i < |r.Final().recipients| ==> !Carries(r.Final().recipients[i], r.id.CanonicalOrRaw())
  {
    LoadsTheToken(r.h, r.at, r.tok, NOBODY);
    WrittenTokenIsRead(r.Stage(3), r.at, r.Final());
    ShrunkIsTidy(r.tok, r.idx);
    ShrunkIsLive(r.h.slots, r.tok, r.idx);
    OwnSlotsShrunk(r.tok, r.idx);
    LoadsTheToken(r.Stage(3), r.at, r.Final(), NOBODY);
    assert r.Slot() in OwnSlots(r.tok);
    assert r.Stage(3).slots - OwnSlots(r.Final()) == r.h.slots - OwnSlots(r.tok);
    assert r.Stage(3).tokens - {r.at} == r.h.tokens - {r.at};
    ShrunkHasNoCarrier(r.tok, r.idx, r.id.CanonicalOrRaw());
  }

  /** Cut off after luksKillSlot, the token still has the entry, and it names a
      keyslot that is free and may be the next one handed out: it is, exactly when
      every keyslot below it is occupied. */
  lemma CutRevocationLeavesStaleEntry(r: Removal)
    requires r.Ready() && r.Slot() < MAX_KEYSLOTS
    ensures TidyAt(r.Stage(1), r.at, r.tok) && !LiveEntry(r.Stage(1).slots, r.tok, r.idx)
    ensures LowestFree(r.Stage(1)) == Some(r.Slot())
      <==> forall n :: 0 <= n < r.Slot() ==> n in r.h.slots
  {
    LowestFreeIs(r.Stage(1));
    assert r.Slot() !in r.Stage(1).slots;
    assert forall n :: 0 <= n < r.Slot() ==> (n in r.Stage(1).slots <==> n in r.h.slots);
  }

  /** While its keyslot is free such an entry cannot be revoked: there is nothing to
      be destroyed, so the run stops before the token is touched, every time. With
      a passphrase for another keyslot it can exactly when the keyslot is occupied
      again, whoever by. */
  lemma StaleEntryIsRemovableIff(r: Removal, passphrase: bytes, keyslot: Option<string>, budget: nat)
    requires r.Ready() && OpensBesides(r.h, passphrase, r.Slot()) && budget >= 3
    requires keyslot.None? || keyslot == Some(r.tok.keyslots[r.idx])
    ensures var x := RunRemove(r.h, passphrase, r.id, keyslot, budget);
      && (x.complete <==> r.Slot() in r.h.slots)
      && (!x.complete ==> x.header == r.h)
  {
    RevocationCutAnywhere(r, passphrase, keyslot, budget);
  }

  /** Two of the gaps put together, on every header with a holder whose lower
      keyslots are all taken: a revocation cut off after its first write, then a
      rotation of the same holder, which runs to its end and reports success,
      leaves the token with one entry for the holder and no keyslot behind it. */
  lemma CutRevocationThenRotation(r: Removal, passphrase: bytes, made: Enrolled)
    requires r.Ready() && SoundAt(r.h, r.at, r.tok) && r.Slot() < MAX_KEYSLOTS
    requires forall n :: 0 <= n < r.Slot() ==> n in r.h.slots
    requires CanRemove(r, passphrase)
    requires made.entry.ciphertext.Sealed? && made.entry.ciphertext.plaintext == made.secret
    ensures var cut := RunRemove(r.h, passphrase, r.id, None, 1);
      var rotated := RunReplace(cut.header, passphrase, Success(made), r.id, r.id, None, 6);
      && cut.header == r.Stage(1)
      && rotated.complete
      && r.Slot() !in rotated.header.slots
      && AgentFor(rotated.header, r.id) == Success(made.entry.(transport := r.id.Canonical()))
  {
    RevocationCutAnywhere(r, passphrase, None, 1);
    var turn := Turn(r.Stage(1), r.at, r.tok, r.idx, r.id, r.id, None, r.Slot(), made);
    StaleTurnIsReady(r, passphrase, made);
    TurnKillsItsOwnKey(turn, passphrase);
  }

  /** A rotation, under the same id, whose new key went into the old entry's keyslot. */
  lemma TurnKillsItsOwnKey(turn: Turn, passphrase: bytes)
    requires turn.Ready() && Opens(turn.h, passphrase) && Same(turn) && Atoi(turn.Name()) == Some(turn.slot)
    ensures turn.RunFor(passphrase, 6).complete && turn.slot !in turn.RunFor(passphrase, 6).header.slots
    ensures AgentFor(turn.RunFor(passphrase, 6).header, turn.id) == Success(turn.NewEntry())
  {
    CanKillIff(turn, passphrase);
    TurnRunsOut(turn, passphrase);
    AgentAnswersTheOldIdIff(turn, 6);
  }

  lemma TurnRunsOut(turn: Turn, passphrase: bytes)
    requires turn.Formed() && Opens(turn.h, passphrase) && turn.CanKill(passphrase)
    ensures turn.RunFor(passphrase, 6).complete && turn.RunFor(passphrase, 6).header == turn.Stage(6)
  {
    RotationCutAnywhere(turn, passphrase, 6);
  }

  /** The rotation that follows the cut: the keyslot it adds is the stale entry's. */
  lemma StaleTurnIsReady(r: Removal, passphrase: bytes, made: Enrolled)
    requires r.Ready() && SoundAt(r.h, r.at, r.tok) && r.Slot() < MAX_KEYSLOTS
    requires forall n :: 0 <= n < r.Slot() ==> n in r.h.slots
    requires CanRemove(r, passphrase)
    requires made.entry.ciphertext.Sealed? && made.entry.ciphertext.plaintext == made.secret
    ensures var turn := Turn(r.Stage(1), r.at, r.tok, r.idx, r.id, r.id, None, r.Slot(), made);
      turn.Ready() && Opens(turn.h, passphrase)
  {
    CutRevocationLeavesStaleEntry(r);
    StillOpens(r, passphrase);
    MatchesOfTidy(r.tok, r.id);
    assert SlotName(r.tok.keyslots[r.idx]);
  }

  lemma StillOpens(r: Removal, passphrase: bytes)
    requires r.Ready() && CanRemove(r, passphrase)
    ensures Opens(r.Stage(1), passphrase)
  {
    var n :| n in r.h.slots && n != r.Slot() && r.h.slots[n] == passphrase;
    assert n in r.Stage(1).slots && r.Stage(1).slots[n] == passphrase;
  }
}
