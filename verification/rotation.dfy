/** Rotating a key holder's key, cut off anywhere. */
module Rotation {
  import opened Basics
  import opened Mr1
  import opened Tokens
  import opened Luks
  import opened Enrolment
  import opened EnrolmentSafety

  // replaceRecipient, onto any transport id: which keys still open the volume, what the
  // token says, and whom the agent answers.

  /** A rotation on header h, whose token tok sits at `at`: entry idx, chosen by id
      and perhaps by keyslot, gives way to what mrcore.Enrol made, in keyslot slot
      and under newID. */
  datatype Turn = Turn(h: Header, at: nat, tok: Token, idx: nat, id: DeviceID, newID: DeviceID, keyslot: Option<string>,
                       slot: nat, made: Enrolled)
  {
    predicate Indexed() {
      idx < |tok.keyslots| && |tok.keyslots| == |tok.recipients|
    }

    function Name(): string
      requires Indexed()
    {
      tok.keyslots[idx]
    }

    /** The entry that is revoked: the first under that keyslot name. */
    function Cut(): (j: nat)
      requires Indexed()
      ensures j <= idx && tok.keyslots[j] == Name()
    {
      assert tok.keyslots[idx] in tok.keyslots;
      IndexOf(tok.keyslots, Name()).value
    }

    function Old(): nat { SlotAt(tok, idx) }

    function Material(): bytes { KeyMaterial(made.secret) }

    function NewEntry(): Recipient { made.entry.(transport := newID.Canonical()) }

    function Both(): Token { Grown(tok, slot, made.entry, newID) }

    function Final(): Token
      requires Indexed()
    {
      TokenWithout(Both(), Cut())
    }

    /** All six commands, in the order they are issued. */
    function Nth(k: nat): Command
      requires Indexed()
    {
      if k == 0 then AddKey(slot, Material())
      else if k == 1 then RemoveToken(at)
      else if k == 2 then ImportToken(Some(at), Marshalled(Both()))
      else if k == 3 then KillSlot(Name())
      else if k == 4 then RemoveToken(at)
      else ImportToken(Some(at), Marshalled(Final()))
    }

    function Script(): (cs: seq<Command>)
      requires Indexed()
      ensures |cs| == 6 && forall k :: 0 <= k < 6 ==> cs[k] == Nth(k)
    {
      [Nth(0), Nth(1), Nth(2), Nth(3), Nth(4), Nth(5)]
    }

    /** The header after k of them. */
    function Stage(k: nat): Header
      requires Indexed()
    {
      var grown := h.slots[slot := Material()];
      if k == 0 then h
      else if k == 1 then Header(grown, h.tokens)
      else if k == 2 then Header(grown, h.tokens - {at})
      else if k == 3 then Header(grown, h.tokens[at := Marshalled(Both())])
      else if k == 4 then Header(grown - {Old()}, h.tokens[at := Marshalled(Both())])
      else if k == 5 then Header(grown - {Old()}, h.tokens - {at})
      else Header(grown - {Old()}, h.tokens[at := Marshalled(Final())])
    }

    /** The selection names entry idx, newID is a transport id, and slot is the
        keyslot that is handed out. Nothing more is asked of the token than that
        its lists are of one length. */
    ghost predicate Formed() {
      && TokenAt(h, at, tok) && Indexed()
      && Selected(tok, id, keyslot) == Success(idx)
      && newID.Canonical().Some?
      && LowestFree(h) == Some(slot)
      && made.entry.ciphertext.Sealed? && made.entry.ciphertext.plaintext == made.secret
    }

    /** And the token is tidy. Whether the old keyslot is occupied is left open. */
    ghost predicate Ready() {
      Formed() && Tidy(tok)
    }

    /** The revocation can be carried out: the old keyslot is there, and the
        passphrase opens another. */
    predicate CanKill(passphrase: bytes)
      requires Indexed()
    {
      Possible(Stage(3), passphrase, Nth(3))
    }

    /** How many of the six commands run if nothing cuts them off. */
    function Reach(passphrase: bytes): nat
      requires Indexed()
    {
      if CanKill(passphrase) then 6 else 3
    }

    function RunFor(passphrase: bytes, budget: nat): Execution {
      RunReplace(h, passphrase, Success(made), id, newID, keyslot, budget)
    }
  }

  lemma FormedSlot(r: Turn)
    requires r.Formed()
    ensures r.slot < MAX_KEYSLOTS && r.slot !in r.h.slots
    ensures forall n :: 0 <= n < r.slot ==> n in r.h.slots
  {
    LowestFreeIs(r.h);
  }

  lemma FormedID(r: Turn)
    requires r.Formed()
    ensures Carries(r.tok.recipients[r.idx], r.id.CanonicalOrRaw())
  {
    SelectedIs(r.tok, r.id, r.keyslot);
  }

  /** On a tidy token the entry revoked is the entry chosen. */
  lemma CutIsChosen(r: Turn)
    requires r.Ready()
    ensures r.Cut() == r.idx
  {
  }

  lemma BothTokenIsRead(r: Turn, slots: map<nat, bytes>)
    requires r.Formed()
    ensures TokenAt(Header(slots, r.h.tokens[r.at := Marshalled(r.Both())]), r.at, r.Both())
  {
    LoadsTheToken(r.h, r.at, r.tok, NOBODY);
    WrittenTokenIsRead(Header(slots, r.h.tokens[r.at := Marshalled(r.Both())]), r.at, r.Both());
  }

  lemma FinalTokenIsRead(r: Turn, slots: map<nat, bytes>)
    requires r.Formed()
    ensures TokenAt(Header(slots, r.h.tokens[r.at := Marshalled(r.Final())]), r.at, r.Final())
  {
    LoadsTheToken(r.h, r.at, r.tok, NOBODY);
    WrittenTokenIsRead(Header(slots, r.h.tokens[r.at := Marshalled(r.Final())]), r.at, r.Final());
  }

  lemma Rewrite<T>(m: map<nat, T>, at: nat, a: T, b: T)
    ensures (m - {at})[at := a] == m[at := a]
    ensures m[at := a] - {at} == m - {at}
    ensures (m[at := a] - {at})[at := b] == m[at := b]
  {
  }

  predicate Runs(r: Turn, k: nat)
    requires r.Indexed()
  {
    Effect(r.Stage(k), r.Nth(k)) == r.Stage(k + 1)
  }

  lemma EveryCommandRuns(r: Turn, k: nat)
    requires r.Formed() && k < 6 && (k == 3 ==> Atoi(r.Name()).Some?)
    ensures Runs(r, k)
  {
    var both, final := Marshalled(r.Both()), Marshalled(r.Final());
    Rewrite(r.h.tokens, r.at, both, final);
    if k == 5 {
      Rewrite(r.h.tokens, r.at, final, final);
    }
  }

  /** With a passphrase that opens the volume, only the revocation can fail on its
      own. */
  lemma EveryCommandIsPossible(r: Turn, passphrase: bytes, k: nat)
    requires r.Formed() && Opens(r.h, passphrase) && k < 6 && k != 3
    ensures Possible(r.Stage(k), passphrase, r.Nth(k))
  {
    FormedSlot(r);
  }

  /** The seven headers of a rotation, and its commands, as one run. */
  function Stages(r: Turn): (hs: seq<Header>)
    requires r.Indexed()
    ensures |hs| == 7 && forall k :: 0 <= k <= 6 ==> hs[k] == r.Stage(k)
  {
    [r.Stage(0), r.Stage(1), r.Stage(2), r.Stage(3), r.Stage(4), r.Stage(5), r.Stage(6)]
  }

  lemma ScriptRuns(r: Turn, passphrase: bytes, budget: nat)
    requires r.Formed() && Opens(r.h, passphrase)
    ensures Exec(r.h, passphrase, r.Script(), budget)
         == Execution(r.Stage(Min(budget, r.Reach(passphrase))), budget >= 6 && r.CanKill(passphrase),
                      budget - Min(budget, r.Reach(passphrase)))
  {
    var hs, cs, stop := Stages(r), r.Script(), r.Reach(passphrase);
    forall k | 0 <= k < stop
      ensures Possible(hs[k], passphrase, cs[k]) && Effect(hs[k], cs[k]) == hs[k + 1]
    {
      EveryCommandRuns(r, k);
      if k != 3 {
        EveryCommandIsPossible(r, passphrase, k);
      }
    }
    ExecStages(hs, cs, passphrase, stop, budget);
  }

  function FirstScript(r: Turn): seq<Command>
    requires r.Indexed()
  {
    [r.Nth(0), r.Nth(1), r.Nth(2)]
  }

  lemma EnrolsFirst(r: Turn)
    requires r.Formed()
    ensures EnrolScript(r.h, Success(r.made), NOBODY, Some(r.newID)) == Success(FirstScript(r))
  {
    LoadsTheToken(r.h, r.at, r.tok, NOBODY);
    assert FirstScript(r) == [r.Nth(0)] + ([r.Nth(1)] + [r.Nth(2)]);
  }

  lemma SecondScript(r: Turn)
    requires r.Indexed()
    ensures RemoveScript(r.Both(), r.at, r.Cut()) == [r.Nth(3), r.Nth(4), r.Nth(5)]
  {
    assert r.Both().keyslots[r.Cut()] == r.tok.keyslots[r.Cut()];
  }

  lemma RevokesSecond(r: Turn, passphrase: bytes, budget: nat)
    requires r.Formed()
    ensures RunRevokeOld(r.Stage(3), passphrase, r.Name(), budget)
         == Exec(r.Stage(3), passphrase, [r.Nth(3), r.Nth(4), r.Nth(5)], budget)
  {
    BothTokenIsRead(r, r.Stage(3).slots);
    LoadsTheToken(r.Stage(3), r.at, r.Both(), NOBODY);
    assert r.tok.keyslots[r.idx] in r.tok.keyslots;
    FirstNameStays(r.tok.keyslots, [Itoa(r.slot)], r.Name());
    SecondScript(r);
  }

  /** replaceRecipient is its six commands one after the other, whenever it is
      cut off and whatever id the new key goes under: the second half sees what
      the first half wrote. */
  lemma ReplaceIsOneScript(r: Turn, passphrase: bytes, budget: nat)
    requires r.Formed()
    ensures r.RunFor(passphrase, budget) == Exec(r.h, passphrase, r.Script(), budget)
  {
    LoadsTheToken(r.h, r.at, r.tok, NOBODY);
    EnrolsFirst(r);
    var first := FirstScript(r);
    assert r.Script() == first + [r.Nth(3), r.Nth(4), r.Nth(5)];
    ExecConcat(r.h, passphrase, first, [r.Nth(3), r.Nth(4), r.Nth(5)], budget);
    var enrolled := Exec(r.h, passphrase, first, budget);
    if enrolled.complete {
      FirstHalf(r, passphrase, budget);
      RevokesSecond(r, passphrase, enrolled.budget);
    }
  }

  lemma FirstHalf(r: Turn, passphrase: bytes, budget: nat)
    requires r.Formed() && Exec(r.h, passphrase, FirstScript(r), budget).complete
    ensures Exec(r.h, passphrase, FirstScript(r), budget).header == r.Stage(3)
  {
    var k := ExecIsPrefix(r.h, passphrase, FirstScript(r), budget);
    var cs := FirstScript(r);
    assert cs[..3] == cs;
    EveryCommandRuns(r, 0);
    EveryCommandRuns(r, 1);
    EveryCommandRuns(r, 2);
    AfterThree(r.h, r.Nth(0), r.Nth(1), r.Nth(2));
  }

  lemma AfterThree(h: Header, a: Command, b: Command, c: Command)
    ensures After(h, [a, b, c]) == Effect(Effect(Effect(h, a), b), c)
  {
    assert [a, b, c][1..] == [b, c] && [b, c][1..] == [c] && [c][1..] == [];
    assert After(Effect(h, a), [b, c]) == After(Effect(Effect(h, a), b), [c]);
    assert After(Effect(Effect(h, a), b), [c]) == After(Effect(Effect(Effect(h, a), b), c), []);
  }

  /** A rotation, onto any id and on any token, cut off after `budget` writes has
      done exactly that many of its six; it stops by itself before the fourth if
      the old keyslot cannot be destroyed, and nowhere else. */
  lemma RotationCutAnywhere(r: Turn, passphrase: bytes, budget: nat)
    requires r.Formed() && Opens(r.h, passphrase)
    ensures r.RunFor(passphrase, budget).header == r.Stage(Min(budget, r.Reach(passphrase)))
    ensures r.RunFor(passphrase, budget).complete <==> budget >= 6 && r.CanKill(passphrase)
  {
    ReplaceIsOneScript(r, passphrase, budget);
    ScriptRuns(r, passphrase, budget);
  }

  /** The revocation can be carried out exactly if the old keyslot is occupied and
      the passphrase opens another, or the new key itself went into it. */
  lemma CanKillIff(r: Turn, passphrase: bytes)
    requires r.Formed() && Opens(r.h, passphrase) && Atoi(r.Name()).Some?
    ensures r.CanKill(passphrase)
      <==> r.Old() == r.slot || (r.Old() in r.h.slots && (OpensBesides(r.h, passphrase, r.Old()) || passphrase == r.Material()))
  {
    FormedSlot(r);
    var grown := r.Stage(3);
    if r.Old() == r.slot {
      var n :| n in r.h.slots && r.h.slots[n] == passphrase;
      assert n in grown.slots && n != r.Old() && grown.slots[n] == passphrase;
    } else if OpensBesides(r.h, passphrase, r.Old()) {
      var n :| n in r.h.slots && n != r.Old() && r.h.slots[n] == passphrase;
      assert n in grown.slots && grown.slots[n] == passphrase;
    } else if passphrase == r.Material() {
      assert r.slot in grown.slots && grown.slots[r.slot] == passphrase;
    }
  }

  // ---- what holds at every cut ----

  predicate OldKeyOpens(r: Turn, h: Header)
    requires r.idx < |r.tok.recipients|
  {
    r.Old() in h.slots && r.tok.recipients[r.idx].ciphertext.Sealed?
    && h.slots[r.Old()] == KeyMaterial(r.tok.recipients[r.idx].ciphertext.plaintext)
  }

  predicate NewKeyOpens(r: Turn, h: Header) {
    r.slot in h.slots && h.slots[r.slot] == r.Material()
  }

  /** There is never a moment at which neither key opens the volume; the old one
      goes only after the token naming the new one is on the header. */
  lemma AKeyAlwaysOpens(r: Turn, k: nat)
    requires r.Formed() && LiveEntry(r.h.slots, r.tok, r.idx) && k <= 6
    ensures OldKeyOpens(r, r.Stage(k)) || NewKeyOpens(r, r.Stage(k))
    ensures OldKeyOpens(r, r.Stage(k)) <==> k <= 3
    ensures NewKeyOpens(r, r.Stage(k)) <==> k >= 1
    ensures TokenAt(r.Stage(3), r.at, r.Both()) && LiveEntry(r.Stage(3).slots, r.Both(), |r.tok.recipients|)
  {
    FormedSlot(r);
    BothTokenIsRead(r, r.Stage(3).slots);
    SlotAtGrown(r.tok, r.slot, r.made.entry, r.newID);
  }

  /** The token is off the header in exactly two places: between the removal of
      the old version and the import of the new one, once in each half. */
  lemma TokenGap(r: Turn, k: nat)
    requires r.Formed() && k <= 6
    ensures Mr1Token(r.Stage(k)).None? <==> k == 2 || k == 5
  {
    Mr1TokenFromIs(r.Stage(k), 0);
    if k != 2 && k != 5 {
      BothTokenIsRead(r, r.Stage(k).slots);
      FinalTokenIsRead(r, r.Stage(k).slots);
      assert r.at in r.Stage(k).tokens && TypeOf(r.Stage(k).tokens[r.at]) == TOKEN_TYPE;
    }
  }

  /** What the token at stage k says. */
  function TokenAtStage(r: Turn, k: nat): Token
    requires r.Indexed()
  {
    if k <= 1 then r.tok else if k <= 4 then r.Both() else r.Final()
  }

  lemma TokenAtStageIsRead(r: Turn, k: nat)
    requires r.Formed() && k <= 6 && k != 2 && k != 5
    ensures TokenAt(r.Stage(k), r.at, TokenAtStage(r, k))
  {
    BothTokenIsRead(r, r.Stage(k).slots);
    FinalTokenIsRead(r, r.Stage(k).slots);
  }

  /** Where the new entry stands once it is in the token. */
  function NewIndex(r: Turn, k: nat): nat
    requires r.Indexed()
  {
    if k <= 4 then |r.tok.recipients| else |r.tok.recipients| - 1
  }

  lemma FinalEntries(r: Turn)
    requires r.Formed()
    ensures |r.Final().recipients| == |r.tok.recipients| == |r.Final().keyslots|
    ensures r.Final().recipients[|r.tok.recipients| - 1] == r.NewEntry()
    ensures SlotAt(r.Final(), |r.tok.recipients| - 1) == r.slot
    ensures forall i :: 0 <= i < |r.tok.recipients| - 1 ==> r.Final().recipients[i] == r.tok.recipients[Before(r.Cut(), i)]
  {
    SlotAtGrown(r.tok, r.slot, r.made.entry, r.newID);
    forall i | 0 <= i < |r.tok.recipients|
      ensures r.Final().recipients[i] == r.Both().recipients[Before(r.Cut(), i)]
      ensures SlotAt(r.Final(), i) == SlotAt(r.Both(), Before(r.Cut(), i))
    {
      ShrunkEntry(r.Both(), r.Cut(), i);
    }
  }

  /** Entry i of the token carries the id and opens its keyslot. */
  predicate NamesLive(h: Header, tok: Token, i: nat, id: DeviceID) {
    i < |tok.recipients| && Carries(tok.recipients[i], id.CanonicalOrRaw()) && LiveEntry(h.slots, tok, i)
  }

  /** Outside the gap the token names a live entry: the old one, under the old id,
      as long as its keyslot lasts, and the new one, under the new id, from the
      first import on. */
  lemma TokenNamesALiveEntry(r: Turn, k: nat)
    requires r.Formed() && LiveEntry(r.h.slots, r.tok, r.idx) && k <= 6 && k != 2 && k != 5
    ensures TokenAt(r.Stage(k), r.at, TokenAtStage(r, k))
    ensures k <= 3 ==> NamesLive(r.Stage(k), TokenAtStage(r, k), r.idx, r.id)
    ensures k >= 3 ==> NamesLive(r.Stage(k), TokenAtStage(r, k), NewIndex(r, k), r.newID)
  {
    TokenAtStageIsRead(r, k);
    if k <= 3 {
      TheOldEntryLives(r, k);
    }
    if k >= 3 {
      TheNewEntryLives(r, k);
    }
  }

  lemma TheOldEntryLives(r: Turn, k: nat)
    requires r.Formed() && LiveEntry(r.h.slots, r.tok, r.idx) && k <= 3 && k != 2
    ensures NamesLive(r.Stage(k), TokenAtStage(r, k), r.idx, r.id)
  {
    FormedID(r);
    FormedSlot(r);
    SlotAtGrown(r.tok, r.slot, r.made.entry, r.newID);
  }

  lemma TheNewEntryLives(r: Turn, k: nat)
    requires r.Formed() && LiveEntry(r.h.slots, r.tok, r.idx) && 3 <= k <= 6 && k != 5
    ensures NamesLive(r.Stage(k), TokenAtStage(r, k), NewIndex(r, k), r.newID)
  {
    FormedID(r);
    FormedSlot(r);
    SlotAtGrown(r.tok, r.slot, r.made.entry, r.newID);
    if k == 6 {
      FinalEntries(r);
    }
  }

  // ---- what the agent will answer (cmd/synctang-unlocker/agent.go) ----

  /** matchRecipient: the one enrolled recipient for the connected peer; two
      entries with its transport id are refused. */
  function MatchRecipient(tok: Token, peerID: DeviceID): Result<Recipient> {
    var idxs := Matches(tok, peerID);
    MatchesFromAre(tok.recipients, peerID.CanonicalOrRaw(), 0);
    if idxs == [] then Failure("connected peer does not match any enrolled recipient")
    else if |idxs| > 1 then Failure("enrolled recipients share the transport id")
    else Success(tok.recipients[idxs[0]])
  }

  /** What the agent does for a peer given only the header. */
  function AgentFor(h: Header, peerID: DeviceID): Result<Recipient> {
    match LoadToken(h, NOBODY)
    case Success(Loaded(tok, Some(_))) => MatchRecipient(tok, peerID)
    case _ => Failure("no enrolled mr-1 recipients")
  }

  lemma OneAnswers(tok: Token, who: DeviceID, i: nat)
    requires Sole(tok.recipients, who.CanonicalOrRaw(), i)
    ensures MatchRecipient(tok, who) == Success(tok.recipients[i])
  {
    SoleMatch(tok.recipients, who.CanonicalOrRaw(), i);
  }

  lemma TwoAreRefused(tok: Token, who: DeviceID, i: nat, j: nat)
    requires i < j < |tok.recipients|
    requires Carries(tok.recipients[i], who.CanonicalOrRaw()) && Carries(tok.recipients[j], who.CanonicalOrRaw())
    ensures MatchRecipient(tok, who).Failure?
  {
    TwoMatch(tok.recipients, who.CanonicalOrRaw(), i, j);
  }

  lemma NobodyAnswers(tok: Token, who: DeviceID)
    requires forall i :: 0 <= i < |tok.recipients| ==> !Carries(tok.recipients[i], who.CanonicalOrRaw())
    ensures MatchRecipient(tok, who).Failure?
  {
    MatchesFromAre(tok.recipients, who.CanonicalOrRaw(), 0);
  }

  lemma AgentReadsTheToken(r: Turn, k: nat, who: DeviceID)
    requires r.Formed() && k <= 6
    ensures AgentFor(r.Stage(k), who)
         == if k == 2 || k == 5 then Failure("no enrolled mr-1 recipients") else MatchRecipient(TokenAtStage(r, k), who)
  {
    TokenGap(r, k);
    if k != 2 && k != 5 {
      TokenAtStageIsRead(r, k);
      LoadsTheToken(r.Stage(k), r.at, TokenAtStage(r, k), NOBODY);
    }
  }

  /** The holder keeps its transport id, as it normally does. */
  predicate Same(r: Turn) {
    r.newID.CanonicalOrRaw() == r.id.CanonicalOrRaw()
  }

  /** Another holder's entry has the id the new key goes under. Nothing in
      replaceRecipient looks for one. */
  predicate Clash(r: Turn) {
    exists j :: 0 <= j < |r.tok.recipients| && j != r.idx && Carries(r.tok.recipients[j], r.newID.CanonicalOrRaw())
  }

  lemma SameIsNoClash(r: Turn)
    requires r.Ready() && Same(r)
    ensures !Clash(r)
  {
    FormedID(r);
    forall j | 0 <= j < |r.tok.recipients| && j != r.idx
      ensures !Carries(r.tok.recipients[j], r.newID.CanonicalOrRaw())
    {
      NoOtherCarrier(r.tok, r.id.CanonicalOrRaw(), r.idx, j);
    }
  }

  lemma NewEntryCarries(r: Turn, want: DeviceID)
    requires r.newID.Canonical().Some?
    ensures Carries(r.NewEntry(), want) <==> r.newID.CanonicalOrRaw() == want
  {
  }

  /** The old id is one entry's in the old token; in the middle also the new one's
      if the id stays; at the end the new one's or nobody's. */
  lemma OldIdCarriers(r: Turn)
    requires r.Ready()
    ensures Sole(r.tok.recipients, r.id.CanonicalOrRaw(), r.idx)
    ensures !Same(r) ==> Sole(r.Both().recipients, r.id.CanonicalOrRaw(), r.idx)
    ensures forall i :: 0 <= i < |r.Final().recipients| ==>
      (Carries(r.Final().recipients[i], r.id.CanonicalOrRaw()) <==> Same(r) && i == |r.tok.recipients| - 1)
  {
    FormedID(r);
    CutIsChosen(r);
    FinalEntries(r);
    NewEntryCarries(r, r.id.CanonicalOrRaw());
    forall j | 0 <= j < |r.tok.recipients| && j != r.idx
      ensures !Carries(r.tok.recipients[j], r.id.CanonicalOrRaw())
    {
      NoOtherCarrier(r.tok, r.id.CanonicalOrRaw(), r.idx, j);
    }
  }

  /** Keys and entries survive every cut, but the agent answers the old id only
      before the token is touched and, if the new key goes under the same id, after
      the last write; under another id it goes on answering, with the old entry,
      until the last half begins to rewrite the token, the keyslot gone or not. */
  lemma AgentAnswersTheOldIdIff(r: Turn, k: nat)
    requires r.Ready() && k <= 6
    ensures AgentFor(r.Stage(k), r.id).Success? <==> k <= 1 || (if Same(r) then k == 6 else k == 3 || k == 4)
    ensures AgentFor(r.Stage(k), r.id).Success? ==>
      AgentFor(r.Stage(k), r.id).value == if k == 6 then r.NewEntry() else r.tok.recipients[r.idx]
  {
    AgentReadsTheToken(r, k, r.id);
    OldIdCarriers(r);
    NewEntryCarries(r, r.id.CanonicalOrRaw());
    FinalEntries(r);
    if k <= 1 {
      OneAnswers(r.tok, r.id, r.idx);
    } else if k == 3 || k == 4 {
      if Same(r) {
        TwoAreRefused(r.Both(), r.id, r.idx, |r.tok.recipients|);
      } else {
        OneAnswers(r.Both(), r.id, r.idx);
      }
    } else if k == 6 {
      if Same(r) {
        OneAnswers(r.Final(), r.id, |r.tok.recipients| - 1);
      } else {
        NobodyAnswers(r.Final(), r.id);
      }
    }
  }

  lemma CarrierStays(r: Turn, j: nat) returns (i: nat)
    requires r.Ready() && j < |r.tok.recipients| && j != r.idx
    ensures i < |r.tok.recipients| - 1 && r.Final().recipients[i] == r.tok.recipients[j]
  {
    CutIsChosen(r);
    FinalEntries(r);
    i := if j < r.idx then j else j - 1;
    assert Before(r.idx, i) == j;
  }

  /** A new id of its own is answered from the first import on, but for the second
      gap. If another holder has it, that holder was answered before, and neither
      is answered from then on. */
  lemma AgentAnswersTheNewIdIff(r: Turn, k: nat)
    requires r.Ready() && !Same(r) && k <= 6
    ensures AgentFor(r.Stage(k), r.newID).Success? <==> if Clash(r) then k <= 1 else k == 3 || k == 4 || k == 6
    ensures !Clash(r) && AgentFor(r.Stage(k), r.newID).Success? ==> AgentFor(r.Stage(k), r.newID).value == r.NewEntry()
  {
    AgentReadsTheToken(r, k, r.newID);
    if k != 2 && k != 5 {
      if Clash(r) {
        ClashIsRefused(r, k);
      } else {
        NewIdAnswers(r, k);
      }
    }
  }

  /** An id that nobody has is answered for the new entry as soon as that is there. */
  lemma NewIdAnswers(r: Turn, k: nat)
    requires r.Ready() && !Same(r) && !Clash(r) && k <= 6 && k != 2 && k != 5
    ensures MatchRecipient(TokenAtStage(r, k), r.newID).Success? <==> k >= 3
    ensures k >= 3 ==> MatchRecipient(TokenAtStage(r, k), r.newID).value == r.NewEntry()
  {
    FormedID(r);
    FinalEntries(r);
    NewEntryCarries(r, r.newID.CanonicalOrRaw());
    assert !Carries(r.tok.recipients[r.idx], r.newID.CanonicalOrRaw());
    if k <= 1 {
      NobodyAnswers(r.tok, r.newID);
    } else if k <= 4 {
      OneAnswers(r.Both(), r.newID, |r.tok.recipients|);
    } else {
      OneAnswers(r.Final(), r.newID, |r.tok.recipients| - 1);
    }
  }

  lemma ClashIsRefused(r: Turn, k: nat)
    requires r.Ready() && Clash(r) && k <= 6 && k != 2 && k != 5
    ensures MatchRecipient(TokenAtStage(r, k), r.newID).Success? <==> k <= 1
  {
    var j :| 0 <= j < |r.tok.recipients| && j != r.idx && Carries(r.tok.recipients[j], r.newID.CanonicalOrRaw());
    NewEntryCarries(r, r.newID.CanonicalOrRaw());
    if k <= 1 {
      forall i | 0 <= i < |r.tok.recipients| && Carries(r.tok.recipients[i], r.newID.CanonicalOrRaw())
        ensures i == j
      {
        OneCarrier(r.tok, r.newID.CanonicalOrRaw(), i, j);
      }
      OneAnswers(r.tok, r.newID, j);
    } else if k <= 4 {
      TwoAreRefused(r.Both(), r.newID, j, |r.tok.recipients|);
    } else {
      var i := CarrierStays(r, j);
      FinalEntries(r);
      TwoAreRefused(r.Final(), r.newID, i, |r.tok.recipients| - 1);
    }
  }

  // ---- a completed rotation ----

  /** No other entry names the keyslot the new key is put into. */
  predicate OthersElsewhere(r: Turn) {
    forall i :: 0 <= i < |r.tok.keyslots| && i != r.idx ==> SlotAt(r.tok, i) != r.slot
  }

  lemma SoundIsElsewhere(r: Turn)
    requires r.Formed() && AllLive(r.h.slots, r.tok)
    ensures OthersElsewhere(r)
  {
    FormedSlot(r);
    forall i | 0 <= i < |r.tok.keyslots|
      ensures SlotAt(r.tok, i) != r.slot
    {
      assert LiveEntry(r.h.slots, r.tok, i);
    }
  }

  /** Revoking first and enrolling after would give the same token, in order. */
  lemma FinalIsGrownShrunk(r: Turn)
    requires r.Ready()
    ensures r.Final() == Grown(TokenWithout(r.tok, r.idx), r.slot, r.made.entry, r.newID)
  {
    CutIsChosen(r);
  }

  /** A completed rotation leaves the token tidy exactly if no other holder had the
      id the new key went under. */
  lemma FinalIsTidyIff(r: Turn)
    requires r.Ready() && OthersElsewhere(r)
    ensures Tidy(r.Final()) <==> !Clash(r)
  {
    if Clash(r) {
      var j :| 0 <= j < |r.tok.recipients| && j != r.idx && Carries(r.tok.recipients[j], r.newID.CanonicalOrRaw());
      var i := CarrierStays(r, j);
      FinalEntries(r);
      assert CanonicalID(r.tok.recipients[j]);
      assert r.Final().recipients[i].transport == r.Final().recipients[|r.tok.recipients| - 1].transport;
    } else {
      FinalIsTidy(r);
    }
  }

  lemma FinalIsTidy(r: Turn)
    requires r.Ready() && OthersElsewhere(r) && !Clash(r)
    ensures Tidy(r.Final())
  {
    var shrunk := TokenWithout(r.tok, r.idx);
    ShrunkIsTidy(r.tok, r.idx);
    FinalIsGrownShrunk(r);
    MatchesOfTidy(shrunk, r.newID);
    forall i | 0 <= i < |shrunk.recipients|
      ensures !Carries(shrunk.recipients[i], r.newID.CanonicalOrRaw()) && SlotAt(shrunk, i) != r.slot
    {
      ShrunkEntry(r.tok, r.idx, i);
      assert SlotAt(r.tok, Before(r.idx, i)) != r.slot;
    }
    GrownIsTidy(shrunk, r.slot, r.made.entry, r.newID);
  }

  /** Clash or not, it leaves every entry live and nothing foreign touched. */
  lemma RotationLeavesEntriesLive(r: Turn)
    requires r.Ready() && SoundAt(r.h, r.at, r.tok)
    ensures TokenAt(r.Stage(6), r.at, r.Final()) && AllLive(r.Stage(6).slots, r.Final())
    ensures ForeignOf(r.Stage(6)) == ForeignOf(r.h)
  {
    FinalTokenIsRead(r, r.Stage(6).slots);
    FinalIsLive(r);
    ForeignStays(r);
  }

  lemma RotationKeepsSound(r: Turn)
    requires r.Ready() && SoundAt(r.h, r.at, r.tok) && !Clash(r)
    ensures SoundAt(r.Stage(6), r.at, r.Final()) && ForeignOf(r.Stage(6)) == ForeignOf(r.h)
  {
    SoundIsElsewhere(r);
    FinalIsTidy(r);
    FinalTokenIsRead(r, r.Stage(6).slots);
    FinalIsLive(r);
    ForeignStays(r);
  }

  lemma RotationKeepsTidyIff(r: Turn)
    requires r.Ready() && SoundAt(r.h, r.at, r.tok)
    ensures Tidy(r.Final()) <==> !Clash(r)
  {
    SoundIsElsewhere(r);
    FinalIsTidyIff(r);
  }

  lemma ForeignStays(r: Turn)
    requires r.Ready()
    ensures ForeignOf(r.Stage(6)) == ForeignOf(r.h)
  {
    FormedSlot(r);
    FinalTokenIsRead(r, r.Stage(6).slots);
    FinalOwnSlots(r);
    LoadsTheToken(r.h, r.at, r.tok, NOBODY);
    LoadsTheToken(r.Stage(6), r.at, r.Final(), NOBODY);
    Rewrite(r.h.tokens, r.at, Marshalled(r.Final()), Marshalled(r.Final()));
  }

  lemma FinalIsLive(r: Turn)
    requires r.Ready() && SoundAt(r.h, r.at, r.tok)
    ensures AllLive(r.Stage(6).slots, r.Final()) && r.Old() != r.slot
  {
    FormedSlot(r);
    FinalIsGrownShrunk(r);
    ShrunkIsTidy(r.tok, r.idx);
    ShrunkIsLive(r.h.slots, r.tok, r.idx);
    GrownIsLive(r.h.slots - {r.Old()}, TokenWithout(r.tok, r.idx), r.slot, r.made, r.newID);
    assert LiveEntry(r.h.slots, r.tok, r.idx);
    assert (r.h.slots - {r.Old()})[r.slot := r.Material()] == r.h.slots[r.slot := r.Material()] - {r.Old()};
  }

  lemma FinalOwnSlots(r: Turn)
    requires r.Ready() && r.slot !in r.h.slots
    ensures r.Stage(6).slots - OwnSlots(r.Final()) == r.h.slots - OwnSlots(r.tok)
  {
    FinalIsGrownShrunk(r);
    ShrunkIsTidy(r.tok, r.idx);
    OwnSlotsShrunk(r.tok, r.idx);
    OwnSlotsGrown(TokenWithout(r.tok, r.idx), r.slot, r.made.entry, r.newID);
    assert r.Old() in OwnSlots(r.tok);
  }

  /** A rotation onto the id of another holder runs to its end and reports success;
      from then on the agent answers neither of the two, nor the id that was left. */
  lemma RotationOntoAnotherHolder(r: Turn, passphrase: bytes)
    requires r.Ready() && Opens(r.h, passphrase) && r.CanKill(passphrase) && Clash(r)
    ensures var x := r.RunFor(passphrase, 6);
      x.complete && AgentFor(x.header, r.newID).Failure? && AgentFor(x.header, r.id).Failure?
  {
    RotationCutAnywhere(r, passphrase, 6);
    if Same(r) {
      SameIsNoClash(r);
    } else {
      AgentAnswersTheNewIdIff(r, 6);
      AgentAnswersTheOldIdIff(r, 6);
    }
  }

  /** And any header in order with two holders and a keyslot to spare can have one:
      rotating the first onto the id of the second. */
  lemma AnyTwoHoldersCanClash(h: Header, at: nat, tok: Token, slot: nat, made: Enrolled, passphrase: bytes) returns (r: Turn)
    requires SoundAt(h, at, tok) && |tok.recipients| >= 2 && LowestFree(h) == Some(slot)
    requires made.entry.ciphertext.Sealed? && made.entry.ciphertext.plaintext == made.secret
    requires OpensBesides(h, passphrase, SlotAt(tok, 0))
    ensures r.h == h && r.Ready() && Clash(r) && Opens(h, passphrase) && r.CanKill(passphrase)
  {
    assert CanonicalID(tok.recipients[0]) && CanonicalID(tok.recipients[1]) && SlotName(tok.keyslots[0]);
    var first, second := tok.recipients[0].transport.value, tok.recipients[1].transport.value;
    r := Turn(h, at, tok, 0, first, second, None, slot, made);
    MatchesOfTidy(tok, first);
    assert Carries(tok.recipients[0], first.CanonicalOrRaw());
    assert LiveEntry(h.slots, tok, 0);
    assert Carries(tok.recipients[1], second.CanonicalOrRaw());
    var n :| n in h.slots && n != SlotAt(tok, 0) && h.slots[n] == passphrase;
    CanKillIff(r, passphrase);
  }

  // ---- a rotation that starts from a half-finished revocation ----

  /** The new key is put into the very keyslot the old entry names exactly when
      that one is free and everything below it is taken. */
  lemma SlotReusedIff(r: Turn)
    requires r.Formed() && r.Old() < MAX_KEYSLOTS
    ensures r.slot == r.Old() <==> r.Old() !in r.h.slots && forall n :: 0 <= n < r.Old() ==> n in r.h.slots
  {
    FormedSlot(r);
  }

  lemma NewKeyAtStage(r: Turn, k: nat)
    requires r.Formed() && 3 <= k <= 6
    ensures NewKeyOpens(r, r.Stage(k)) <==> k == 3 || r.slot != r.Old()
  {
  }

  /** Rotating a holder whose old keyslot may already be free (a revocation was
      cut off after luksKillSlot): the run destroys the new key it has just
      enrolled, and reports success, exactly when the freed keyslot is handed out
      again; every other rotation keeps the new key. */
  lemma RotationKeepsTheNewKeyIff(r: Turn, passphrase: bytes, budget: nat)
    requires r.Formed() && Opens(r.h, passphrase) && Atoi(r.Name()).Some? && budget >= 4
    ensures NewKeyOpens(r, r.RunFor(passphrase, budget).header) <==> r.slot != r.Old()
    ensures r.slot == r.Old() && budget >= 6 ==> r.RunFor(passphrase, budget).complete
  {
    RotationCutAnywhere(r, passphrase, budget);
    CanKillIff(r, passphrase);
    NewKeyAtStage(r, Min(budget, r.Reach(passphrase)));
  }
}
