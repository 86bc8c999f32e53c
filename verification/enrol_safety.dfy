/** What enrolling keeps. */
module EnrolmentSafety {
  import opened Basics
  import opened Mr1
  import opened Tokens
  import opened Luks
  import opened Enrolment

  // Enrolling, revoking and rotating: the entries of the token and the keyslots they
  // name belong together, and nothing else on the header moves. And what a choice of
  // an entry, and a plan, come to.

  // ---- a header in order ----

  predicate CanonicalID(entry: Recipient) {
    entry.transport.Some? && entry.transport.value.Spelled? && entry.transport.value.spelling == 0
  }

  predicate SlotName(name: string) {
    Atoi(name).Some? && Itoa(Atoi(name).value) == name
  }

  /** The two lists belong together entry by entry, and no keyslot and no
      transport id occurs twice. */
  ghost predicate Tidy(tok: Token) {
    && |tok.keyslots| == |tok.recipients|
    && (forall i :: 0 <= i < |tok.keyslots| ==> SlotName(tok.keyslots[i]))
    && (forall i :: 0 <= i < |tok.recipients| ==> CanonicalID(tok.recipients[i]))
    && (forall i, j :: 0 <= i < j < |tok.keyslots| ==> tok.keyslots[i] != tok.keyslots[j])
    && (forall i, j :: 0 <= i < j < |tok.recipients| ==> tok.recipients[i].transport != tok.recipients[j].transport)
  }

  function SlotAt(tok: Token, i: nat): nat {
    if i < |tok.keyslots| && Atoi(tok.keyslots[i]).Some? then Atoi(tok.keyslots[i]).value else 0
  }

  /** The keyslot entry i names is occupied, and opens with exactly the secret
      that the entry seals. */
  predicate LiveEntry(slots: map<nat, bytes>, tok: Token, i: nat) {
    && i < |tok.recipients| && SlotAt(tok, i) in slots
    && tok.recipients[i].ciphertext.Sealed?
    && slots[SlotAt(tok, i)] == KeyMaterial(tok.recipients[i].ciphertext.plaintext)
  }

  ghost predicate AllLive(slots: map<nat, bytes>, tok: Token) {
    forall i :: 0 <= i < |tok.recipients| ==> LiveEntry(slots, tok, i)
  }

  ghost predicate TokenAt(h: Header, at: nat, tok: Token) {
    OnlyMr1At(h, at) && Unmarshalled(h.tokens[at]) == Success(tok)
  }

  ghost predicate TidyAt(h: Header, at: nat, tok: Token) {
    TokenAt(h, at, tok) && Tidy(tok)
  }

  ghost predicate SoundAt(h: Header, at: nat, tok: Token) {
    TidyAt(h, at, tok) && AllLive(h.slots, tok)
  }

  predicate NoMr1(h: Header) {
    forall id :: id in h.tokens ==> TypeOf(h.tokens[id]) != TOKEN_TYPE
  }

  ghost predicate Sound(h: Header) {
    NoMr1(h) || exists at, tok :: SoundAt(h, at, tok)
  }

  /** What mrcore.Enrol promises about its result for a public key (Mr1.Enrol). */
  predicate MadeFor(made: Result<Enrolled>, publicKey: bytes) {
    made.Success? ==>
      && made.value.entry.kid == Sha256(publicKey)
      && made.value.entry.ciphertext.Sealed?
      && made.value.entry.ciphertext.plaintext == made.value.secret
  }

  // ---- what is not this program's ----

  function OwnSlots(tok: Token): set<nat> {
    set i | 0 <= i < |tok.keyslots| :: SlotAt(tok, i)
  }

  /** Foreign keyslots, foreign tokens and unknown token fields of a header with
      token tok at `at`. */
  datatype Foreign = Foreign(slots: map<nat, bytes>, tokens: map<nat, Document>, extra: Document)

  function ForeignAt(h: Header, at: nat, tok: Token): Foreign {
    Foreign(h.slots - OwnSlots(tok), h.tokens - {at}, tok.extra)
  }

  /** The same of any header. */
  function ForeignOf(h: Header): Foreign {
    match LoadToken(h, NOBODY)
    case Success(Loaded(tok, Some(at))) => ForeignAt(h, at, tok)
    case _ => Foreign(h.slots, h.tokens, map[])
  }

  lemma LoadsTheToken(h: Header, at: nat, tok: Token, machine: Machine)
    requires TokenAt(h, at, tok)
    ensures LoadToken(h, machine) == Success(Loaded(tok, Some(at)))
    ensures |tok.keyslots| == |tok.recipients| ==> EnrolledToken(h) == Success((tok, at))
    ensures ForeignOf(h) == ForeignAt(h, at, tok)
    ensures Current(tok)
  {
    OnlyMr1IsFound(h, at);
  }

  lemma LoadsNothing(h: Header, machine: Machine)
    requires NoMr1(h)
    ensures LoadToken(h, machine) == Success(Loaded(Token(CURRENT_VERSION, [], [], machine, map[]), None))
    ensures EnrolledToken(h).Failure?
    ensures ForeignOf(h) == Foreign(h.slots, h.tokens, map[])
  {
    Mr1TokenFromIs(h, 0);
  }

  /** A token written at `at`, with every other token foreign, is the one found. */
  lemma WrittenTokenIsRead(h: Header, at: nat, tok: Token)
    requires Current(tok) && at < MAX_TOKENS
    requires at in h.tokens && h.tokens[at] == Marshalled(tok)
    requires forall id :: id in h.tokens && id != at ==> TypeOf(h.tokens[id]) != TOKEN_TYPE
    ensures TokenAt(h, at, tok)
  {
    TokenRoundTrip(tok);
  }

  // ---- entries by transport id ----

  lemma OneCarrier(tok: Token, want: DeviceID, i: nat, j: nat)
    requires Tidy(tok) && i < |tok.recipients| && j < |tok.recipients|
    requires Carries(tok.recipients[i], want) && Carries(tok.recipients[j], want)
    ensures i == j
  {
    assert tok.recipients[i].transport == tok.recipients[j].transport;
  }

  lemma NoOtherCarrier(tok: Token, want: DeviceID, idx: nat, j: nat)
    requires Tidy(tok) && idx < |tok.recipients| && j < |tok.recipients| && j != idx
    requires Carries(tok.recipients[idx], want)
    ensures !Carries(tok.recipients[j], want)
  {
    assert tok.recipients[j].transport != tok.recipients[idx].transport;
  }

  lemma FirstTwo(ms: seq<nat>, recs: seq<Recipient>, want: DeviceID)
    requires MatchList(ms, recs, want, 0) && |ms| >= 2
    ensures ms[0] < ms[1] < |recs| && Carries(recs[ms[0]], want) && Carries(recs[ms[1]], want)
  {
  }

  lemma AtMostOne(ms: seq<nat>, recs: seq<Recipient>, want: DeviceID)
    requires MatchList(ms, recs, want, 0)
    requires forall i, j :: 0 <= i < |recs| && 0 <= j < |recs| && Carries(recs[i], want) && Carries(recs[j], want) ==> i == j
    ensures |ms| <= 1
  {
    if |ms| >= 2 {
      FirstTwo(ms, recs, want);
    }
  }

  /** One entry carries the id. */
  predicate Sole(recs: seq<Recipient>, want: DeviceID, k: nat) {
    k < |recs| && Carries(recs[k], want) && forall j :: 0 <= j < |recs| && Carries(recs[j], want) ==> j == k
  }

  lemma SoleMatch(recs: seq<Recipient>, want: DeviceID, k: nat)
    requires Sole(recs, want, k)
    ensures MatchesFrom(recs, want, 0) == [k]
  {
    var ms := MatchesFrom(recs, want, 0);
    MatchesFromAre(recs, want, 0);
    AtMostOne(ms, recs, want);
    assert k in ms;
  }

  lemma TwoMatch(recs: seq<Recipient>, want: DeviceID, i: nat, j: nat)
    requires i < j < |recs| && Carries(recs[i], want) && Carries(recs[j], want)
    ensures |MatchesFrom(recs, want, 0)| > 1
  {
    var ms := MatchesFrom(recs, want, 0);
    MatchesFromAre(recs, want, 0);
    assert i in ms && j in ms;
  }

  // ---- what a choice comes to ----

  /** Entry i carries the id and is in the keyslot of that name. */
  predicate CarrierIn(tok: Token, want: DeviceID, name: string, i: nat) {
    i < |tok.recipients| && Carries(tok.recipients[i], want) && KeyslotOf(tok, i) == name
  }

  /** With no keyslot named an entry is chosen exactly if it is the only one that
      carries the id: several are refused, never the first of them taken. */
  lemma UnnamedChoiceIff(tok: Token, id: DeviceID, i: nat)
    ensures Selected(tok, id, None) == Success(i) <==> Sole(tok.recipients, id.CanonicalOrRaw(), i)
  {
    var want := id.CanonicalOrRaw();
    MatchesFromAre(tok.recipients, want, 0);
    if Sole(tok.recipients, want, i) {
      SoleMatch(tok.recipients, want, i);
    }
    if Selected(tok, id, None) == Success(i) {
      assert Matches(tok, id) == [i];
      forall j | 0 <= j < |tok.recipients| && Carries(tok.recipients[j], want)
        ensures j == i
      {
        assert j in Matches(tok, id);
      }
    }
  }

  /** With one named, the first carrier in that keyslot is, and nothing if there
      is none. */
  lemma NamedChoiceIff(tok: Token, id: DeviceID, name: string, i: nat)
    ensures Selected(tok, id, Some(name)) == Success(i)
      <==> CarrierIn(tok, id.CanonicalOrRaw(), name, i) && forall j :: 0 <= j < i ==> !CarrierIn(tok, id.CanonicalOrRaw(), name, j)
  {
    var want, idxs := id.CanonicalOrRaw(), Matches(tok, id);
    MatchesFromAre(tok.recipients, want, 0);
    FirstChosen(tok, idxs, want, name, i);
    forall j: nat
      ensures CarrierIn(tok, want, name, j) <==> j in idxs && KeyslotOf(tok, j) == name
    {
    }
    assert Selected(tok, id, Some(name)) == Success(i) <==> FirstInKeyslot(tok, idxs, name) == Some(i);
  }

  /** The first of an ascending list that is in the keyslot. */
  lemma {:induction false} FirstChosen(tok: Token, idxs: seq<nat>, want: DeviceID, name: string, i: nat)
    requires forall m, n :: 0 <= m < n < |idxs| ==> idxs[m] < idxs[n]
    ensures FirstInKeyslot(tok, idxs, name) == Some(i)
      <==> i in idxs && KeyslotOf(tok, i) == name && forall j :: j in idxs && j < i ==> KeyslotOf(tok, j) != name
  {
    if idxs != [] {
      FirstChosen(tok, idxs[1..], want, name, i);
      assert forall j :: j in idxs <==> j == idxs[0] || j in idxs[1..];
      assert forall n :: 0 <= n < |idxs[1..]| ==> idxs[0] < idxs[1..][n];
    }
  }

  /** Something is chosen exactly if such an entry exists. */
  lemma ChoiceExistsIff(tok: Token, id: DeviceID, keyslot: Option<string>)
    ensures Selected(tok, id, keyslot).Success? <==>
      if keyslot.Some? then exists i :: CarrierIn(tok, id.CanonicalOrRaw(), keyslot.value, i)
      else exists i :: Sole(tok.recipients, id.CanonicalOrRaw(), i)
  {
    var want := id.CanonicalOrRaw();
    if Selected(tok, id, keyslot).Success? {
      var i := Selected(tok, id, keyslot).value;
      if keyslot.Some? {
        NamedChoiceIff(tok, id, keyslot.value, i);
      } else {
        UnnamedChoiceIff(tok, id, i);
      }
    } else if keyslot.Some? {
      MatchesFromAre(tok.recipients, want, 0);
      FirstInKeyslotIs(tok, Matches(tok, id), keyslot.value);
    } else {
      forall i ensures !Sole(tok.recipients, want, i) {
        if Sole(tok.recipients, want, i) {
          UnnamedChoiceIff(tok, id, i);
        }
      }
    }
  }

  /** So where two entries carry the id, revoking or rotating it without a keyslot
      touches nothing, however long it is given. */
  lemma SeveralAreLeftAlone(h: Header, tok: Token, at: nat, id: DeviceID, i: nat, j: nat, passphrase: bytes,
                            made: Result<Enrolled>, newID: DeviceID, budget: nat)
    requires EnrolledToken(h) == Success((tok, at)) && i < j < |tok.recipients|
    requires Carries(tok.recipients[i], id.CanonicalOrRaw()) && Carries(tok.recipients[j], id.CanonicalOrRaw())
    ensures RunRemove(h, passphrase, id, None, budget) == Execution(h, false, budget)
    ensures RunReplace(h, passphrase, made, id, newID, None, budget) == Execution(h, false, budget)
  {
    TwoMatch(tok.recipients, id.CanonicalOrRaw(), i, j);
    assert Selected(tok, id, None).Failure?;
  }

  // ---- what a plan says ----

  /** What a header holds for an id: the entry, if there is exactly one. */
  ghost predicate Holds(h: Header, id: DeviceID, tok: Token, at: nat, i: nat) {
    LoadToken(h, NOBODY) == Success(Loaded(tok, Some(at))) && Sole(tok.recipients, id.CanonicalOrRaw(), i)
  }

  /** Planning finds a key already there exactly if the one entry with the id is of
      this key, and finds something to replace exactly if it is of another. */
  lemma PlanForOne(h: Header, publicKey: bytes, id: DeviceID, tok: Token, at: nat, i: nat)
    requires Holds(h, id, tok, at, i)
    ensures PlanEnrolment(h, publicKey, id)
         == Success(if tok.recipients[i].kid == Sha256(publicKey) then PlanAlready(KeyslotOf(tok, i))
                    else PlanReplace(KeyslotOf(tok, i), tok.recipients[i].kid))
  {
    SoleMatch(tok.recipients, id.CanonicalOrRaw(), i);
  }

  /** The position such a plan is about. */
  lemma PlannedEntry(h: Header, publicKey: bytes, id: DeviceID) returns (tok: Token, at: nat, i: nat)
    requires PlanEnrolment(h, publicKey, id).Success? && !PlanEnrolment(h, publicKey, id).value.PlanAdd?
    ensures Holds(h, id, tok, at, i)
  {
    tok, at := LoadToken(h, NOBODY).value.token, LoadToken(h, NOBODY).value.id.value;
    MatchesFromAre(tok.recipients, id.CanonicalOrRaw(), 0);
    i := Matches(tok, id)[0];
    assert Matches(tok, id) == [i];
    assert Selected(tok, id, None) == Success(i);
    UnnamedChoiceIff(tok, id, i);
  }

  /** Nothing to be found: no token, or no entry with the id. */
  predicate HoldsNothing(h: Header, id: DeviceID) {
    match LoadToken(h, NOBODY)
    case Failure(_) => false
    case Success(Loaded(_, None)) => true
    case Success(Loaded(tok, Some(_))) => forall i :: 0 <= i < |tok.recipients| ==> !Carries(tok.recipients[i], id.CanonicalOrRaw())
  }

  /** A key is to be added exactly if the header holds nothing for the id. */
  lemma PlanAddIff(h: Header, publicKey: bytes, id: DeviceID)
    ensures PlanEnrolment(h, publicKey, id) == Success(PlanAdd) <==> HoldsNothing(h, id)
  {
    if LoadToken(h, NOBODY).Success? && LoadToken(h, NOBODY).value.id.Some? {
      var tok := LoadToken(h, NOBODY).value.token;
      MatchesFromAre(tok.recipients, id.CanonicalOrRaw(), 0);
      if Matches(tok, id) != [] {
        assert Carries(tok.recipients[Matches(tok, id)[0]], id.CanonicalOrRaw());
      }
    }
  }

  /** The one entry with the id is of this very key. */
  ghost predicate HoldsKey(h: Header, publicKey: bytes, id: DeviceID) {
    exists tok, at: nat, i: nat :: Holds(h, id, tok, at, i) && tok.recipients[i].kid == Sha256(publicKey)
  }

  lemma AlreadyIff(h: Header, publicKey: bytes, id: DeviceID)
    ensures AlreadyEnrolled(h, publicKey, id) <==> HoldsKey(h, publicKey, id)
  {
    if AlreadyEnrolled(h, publicKey, id) {
      var tok, at, i := PlannedEntry(h, publicKey, id);
      PlanForOne(h, publicKey, id, tok, at, i);
    }
    if HoldsKey(h, publicKey, id) {
      var tok, at: nat, i: nat :| Holds(h, id, tok, at, i) && tok.recipients[i].kid == Sha256(publicKey);
      PlanForOne(h, publicKey, id, tok, at, i);
    }
  }

  lemma MatchesOfTidy(tok: Token, id: DeviceID)
    requires Tidy(tok)
    ensures |Matches(tok, id)| <= 1
    ensures Matches(tok, id) == [] <==> forall i :: 0 <= i < |tok.recipients| ==> !Carries(tok.recipients[i], id.CanonicalOrRaw())
    ensures forall i :: 0 <= i < |tok.recipients| && Carries(tok.recipients[i], id.CanonicalOrRaw()) ==> Matches(tok, id) == [i]
  {
    var ms := Matches(tok, id);
    MatchesFromAre(tok.recipients, id.CanonicalOrRaw(), 0);
    forall i, j | 0 <= i < |tok.recipients| && 0 <= j < |tok.recipients|
      && Carries(tok.recipients[i], id.CanonicalOrRaw()) && Carries(tok.recipients[j], id.CanonicalOrRaw())
      ensures i == j
    {
      OneCarrier(tok, id.CanonicalOrRaw(), i, j);
    }
    AtMostOne(ms, tok.recipients, id.CanonicalOrRaw());
    forall i | 0 <= i < |tok.recipients| && Carries(tok.recipients[i], id.CanonicalOrRaw())
      ensures ms == [i]
    {
      assert i in ms;
    }
    if ms != [] {
      assert Carries(tok.recipients[ms[0]], id.CanonicalOrRaw());
    }
  }

  // ---- growing and shrinking a token ----

  function Grown(tok: Token, slot: nat, entry: Recipient, id: DeviceID): Token {
    tok.(keyslots := tok.keyslots + [Itoa(slot)], recipients := tok.recipients + [entry.(transport := id.Canonical())])
  }

  lemma SlotAtGrown(tok: Token, slot: nat, entry: Recipient, id: DeviceID)
    requires |tok.keyslots| == |tok.recipients|
    ensures SlotAt(Grown(tok, slot, entry, id), |tok.keyslots|) == slot
    ensures forall i :: 0 <= i < |tok.keyslots| ==> SlotAt(Grown(tok, slot, entry, id), i) == SlotAt(tok, i)
  {
    AtoiItoa(slot);
  }

  /** The keyslots already named are not the one about to be named. */
  predicate NewSlot(tok: Token, slot: nat) {
    forall i :: 0 <= i < |tok.keyslots| ==> SlotAt(tok, i) != slot
  }

  lemma GrownIsTidy(tok: Token, slot: nat, entry: Recipient, id: DeviceID)
    requires Tidy(tok) && NewSlot(tok, slot) && id.Canonical().Some? && Matches(tok, id) == []
    ensures Tidy(Grown(tok, slot, entry, id))
  {
    AtoiItoa(slot);
    MatchesOfTidy(tok, id);
    var tok' := Grown(tok, slot, entry, id);
    forall i | 0 <= i < |tok.keyslots|
      ensures tok'.keyslots[i] != tok'.keyslots[|tok.keyslots|]
    {
      assert SlotAt(tok, i) != slot;
    }
    forall i | 0 <= i < |tok.recipients|
      ensures tok'.recipients[i].transport != tok'.recipients[|tok.recipients|].transport
    {
      assert !Carries(tok.recipients[i], id.CanonicalOrRaw());
    }
  }

  lemma GrownIsLive(slots: map<nat, bytes>, tok: Token, slot: nat, made: Enrolled, id: DeviceID)
    requires |tok.keyslots| == |tok.recipients| && slot !in slots
    requires AllLive(slots, tok)
    requires made.entry.ciphertext.Sealed? && made.entry.ciphertext.plaintext == made.secret
    ensures AllLive(slots[slot := KeyMaterial(made.secret)], Grown(tok, slot, made.entry, id))
  {
    SlotAtGrown(tok, slot, made.entry, id);
    var slots', tok' := slots[slot := KeyMaterial(made.secret)], Grown(tok, slot, made.entry, id);
    forall i | 0 <= i < |tok'.recipients|
      ensures LiveEntry(slots', tok', i)
    {
      if i < |tok.recipients| {
        assert LiveEntry(slots, tok, i);
      }
    }
  }

  lemma OwnSlotsGrown(tok: Token, slot: nat, entry: Recipient, id: DeviceID)
    requires |tok.keyslots| == |tok.recipients|
    ensures OwnSlots(Grown(tok, slot, entry, id)) == OwnSlots(tok) + {slot}
  {
    SlotAtGrown(tok, slot, entry, id);
    var tok' := Grown(tok, slot, entry, id);
    forall n | n in OwnSlots(tok) + {slot}
      ensures n in OwnSlots(tok')
    {
      if n == slot {
        assert SlotAt(tok', |tok.keyslots|) == n;
      } else {
        var i :| 0 <= i < |tok.keyslots| && SlotAt(tok, i) == n;
        assert SlotAt(tok', i) == n;
      }
    }
    forall n | n in OwnSlots(tok')
      ensures n in OwnSlots(tok) + {slot}
    {
      var i :| 0 <= i < |tok'.keyslots| && SlotAt(tok', i) == n;
      if i < |tok.keyslots| {
        assert SlotAt(tok, i) == n;
      }
    }
  }

  /** Where an entry of the shorter token was before. */
  function Before(idx: nat, i: nat): nat {
    if i < idx then i else i + 1
  }

  lemma WithoutAt<T>(s: seq<T>, idx: nat, i: nat)
    requires idx < |s| && i < |s| - 1
    ensures Without(s, idx)[i] == s[Before(idx, i)]
  {
  }

  lemma ShrunkEntry(tok: Token, idx: nat, i: nat)
    requires |tok.keyslots| == |tok.recipients| && idx < |tok.keyslots| && i < |tok.keyslots| - 1
    ensures var tok' := TokenWithout(tok, idx);
      && tok'.keyslots[i] == tok.keyslots[Before(idx, i)]
      && tok'.recipients[i] == tok.recipients[Before(idx, i)]
      && SlotAt(tok', i) == SlotAt(tok, Before(idx, i))
  {
    WithoutAt(tok.keyslots, idx, i);
    WithoutAt(tok.recipients, idx, i);
  }

  lemma ShrunkIsTidy(tok: Token, idx: nat)
    requires Tidy(tok) && idx < |tok.keyslots|
    ensures Tidy(TokenWithout(tok, idx))
  {
    var tok' := TokenWithout(tok, idx);
    forall i | 0 <= i < |tok'.keyslots|
      ensures tok'.keyslots[i] == tok.keyslots[Before(idx, i)] && tok'.recipients[i] == tok.recipients[Before(idx, i)]
    {
      ShrunkEntry(tok, idx, i);
    }
  }

  lemma ShrunkHasNoCarrier(tok: Token, idx: nat, want: DeviceID)
    requires Tidy(tok) && idx < |tok.keyslots| && Carries(tok.recipients[idx], want)
    ensures forall i :: 0 <= i < |tok.recipients| - 1 ==> !Carries(TokenWithout(tok, idx).recipients[i], want)
  {
    forall i | 0 <= i < |tok.recipients| - 1
      ensures !Carries(TokenWithout(tok, idx).recipients[i], want)
    {
      ShrunkEntry(tok, idx, i);
      NoOtherCarrier(tok, want, idx, Before(idx, i));
    }
  }

  lemma SlotsApart(tok: Token, i: nat, j: nat)
    requires Tidy(tok) && i < |tok.keyslots| && j < |tok.keyslots| && i != j
    ensures SlotAt(tok, i) != SlotAt(tok, j)
  {
    assert SlotName(tok.keyslots[i]) && SlotName(tok.keyslots[j]);
  }

  lemma ShrunkIsLive(slots: map<nat, bytes>, tok: Token, idx: nat)
    requires Tidy(tok) && idx < |tok.keyslots|
    requires forall i :: 0 <= i < |tok.recipients| && i != idx ==> LiveEntry(slots, tok, i)
    ensures AllLive(slots - {SlotAt(tok, idx)}, TokenWithout(tok, idx))
  {
    var tok' := TokenWithout(tok, idx);
    forall i | 0 <= i < |tok'.recipients|
      ensures LiveEntry(slots - {SlotAt(tok, idx)}, tok', i)
    {
      ShrunkEntry(tok, idx, i);
      SlotsApart(tok, Before(idx, i), idx);
      assert LiveEntry(slots, tok, Before(idx, i));
    }
  }

  lemma OwnSlotsShrunk(tok: Token, idx: nat)
    requires Tidy(tok) && idx < |tok.keyslots|
    ensures OwnSlots(TokenWithout(tok, idx)) == OwnSlots(tok) - {SlotAt(tok, idx)}
  {
    var tok' := TokenWithout(tok, idx);
    forall n | n in OwnSlots(tok) - {SlotAt(tok, idx)}
      ensures n in OwnSlots(tok')
    {
      var j :| 0 <= j < |tok.keyslots| && SlotAt(tok, j) == n;
      var i := if j < idx then j else j - 1;
      ShrunkEntry(tok, idx, i);
      assert SlotAt(tok', i) == n;
    }
    forall n | n in OwnSlots(tok')
      ensures n in OwnSlots(tok) - {SlotAt(tok, idx)}
    {
      var i :| 0 <= i < |tok'.keyslots| && SlotAt(tok', i) == n;
      ShrunkEntry(tok, idx, i);
      SlotsApart(tok, Before(idx, i), idx);
      assert SlotAt(tok, Before(idx, i)) == n;
    }
  }
}
