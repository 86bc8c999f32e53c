/** Changing who is enrolled. */
module Enrolment {
  import opened Basics
  import opened Mr1
  import opened Tokens
  import opened Luks

  // cmd/synctang-unlocker/enrol.go: adding, revoking and rotating key holders. Each operation is a run of cryptsetup
  // commands on one header, and a run may be cut off after any of them.

  /** What mrcore.Enrol made: the volume secret and the entry that seals it. */
  datatype Enrolled = Enrolled(secret: bytes, entry: Recipient)

  /** The token on the header, and where; one made up on the spot has no id. */
  datatype Loaded = Loaded(token: Token, id: Option<nat>)

  function LoadToken(h: Header, machine: Machine): (r: Result<Loaded>)
    ensures r.Success? ==> Current(r.value.token)
  {
    match Mr1Token(h)
    case None => Success(Loaded(Token(CURRENT_VERSION, [], [], machine, map[]), None))
    case Some(id) =>
      Mr1TokenFromIs(h, 0);
      match Unmarshalled(h.tokens[id])
      case Failure(reason) => Failure(reason)
      case Success(token) => Success(Loaded(token, Some(id)))
  }

  /** loadEnrolledToken: a token that is really there, with lists that agree. */
  function EnrolledToken(h: Header): (r: Result<(Token, nat)>)
    ensures r.Success? ==> |r.value.0.keyslots| == |r.value.0.recipients| && Current(r.value.0)
  {
    match LoadToken(h, NOBODY)
    case Failure(reason) => Failure(reason)
    case Success(Loaded(_, None)) => Failure("no enrolled mr-1 recipients")
    case Success(Loaded(token, Some(id))) =>
      if |token.keyslots| != |token.recipients| then Failure("token integrity check failed")
      else Success((token, id))
  }

  // ---- choosing an entry ----

  function KeyslotOf(tok: Token, idx: nat): string {
    if idx < |tok.keyslots| then tok.keyslots[idx] else "?"
  }

  predicate Carries(entry: Recipient, want: DeviceID) {
    entry.transport.Some? && entry.transport.value.CanonicalOrRaw() == want
  }

  function MatchesFrom(recs: seq<Recipient>, want: DeviceID, i: nat): seq<nat>
    decreases |recs| - i
  {
    if i >= |recs| then []
    else if Carries(recs[i], want) then [i] + MatchesFrom(recs, want, i + 1)
    else MatchesFrom(recs, want, i + 1)
  }

  function Matches(tok: Token, id: DeviceID): seq<nat> {
    MatchesFrom(tok.recipients, id.CanonicalOrRaw(), 0)
  }

  /** The positions from i on that carry the id, all of them, ascending. */
  ghost predicate MatchList(ms: seq<nat>, recs: seq<Recipient>, want: DeviceID, i: nat) {
    && (forall n :: 0 <= n < |ms| ==> i <= ms[n] < |recs| && Carries(recs[ms[n]], want))
    && (forall m, n :: 0 <= m < n < |ms| ==> ms[m] < ms[n])
    && (forall j :: i <= j < |recs| && Carries(recs[j], want) ==> j in ms)
  }

  lemma {:induction false} MatchesFromAre(recs: seq<Recipient>, want: DeviceID, i: nat)
    ensures MatchList(MatchesFrom(recs, want, i), recs, want, i)
    decreases |recs| - i
  {
    if i < |recs| {
      MatchesFromAre(recs, want, i + 1);
      if Carries(recs[i], want) {
        OneMatchMore(MatchesFrom(recs, want, i + 1), recs, want, i);
      }
    }
  }

  lemma OneMatchMore(later: seq<nat>, recs: seq<Recipient>, want: DeviceID, i: nat)
    requires i < |recs| && Carries(recs[i], want) && MatchList(later, recs, want, i + 1)
    ensures MatchList([i] + later, recs, want, i)
  {
    var ms := [i] + later;
    assert forall n :: 1 <= n < |ms| ==> ms[n] == later[n - 1];
    assert forall j :: j in later ==> j in ms;
    assert i == ms[0];
  }

  /** recipientsByTransportID. */
  method RecipientsByTransportID(tok: Token, id: DeviceID) returns (idxs: seq<nat>)
    ensures idxs == Matches(tok, id)
  {
    var want := id.CanonicalOrRaw();
    idxs := [];
    for i := 0 to |tok.recipients|
      invariant idxs + MatchesFrom(tok.recipients, want, i) == Matches(tok, id)
    {
      if Carries(tok.recipients[i], want) {
        assert idxs + ([i] + MatchesFrom(tok.recipients, want, i + 1)) == (idxs + [i]) + MatchesFrom(tok.recipients, want, i + 1);
        idxs := idxs + [i];
      }
    }
  }

  function FirstInKeyslot(tok: Token, idxs: seq<nat>, keyslot: string): Option<nat> {
    if idxs == [] then None
    else if KeyslotOf(tok, idxs[0]) == keyslot then Some(idxs[0])
    else FirstInKeyslot(tok, idxs[1..], keyslot)
  }

  /** The one entry a transport id, and a keyslot if several share it, names. */
  function Selected(tok: Token, id: DeviceID, keyslot: Option<string>): Result<nat> {
    var idxs := Matches(tok, id);
    if idxs == [] then Failure("no enrolled recipient with this transport id")
    else match keyslot
      case Some(name) =>
        (match FirstInKeyslot(tok, idxs, name)
         case Some(i) => Success(i)
         case None => Failure("the keyslot holds no entry for this transport id"))
      case None =>
        if |idxs| > 1 then Failure("the transport id is enrolled more than once") else Success(idxs[0])
  }

  method SelectRecipient(tok: Token, id: DeviceID, keyslot: Option<string>) returns (r: Result<nat>)
    ensures r == Selected(tok, id, keyslot)
  {
    var idxs := RecipientsByTransportID(tok, id);
    if |idxs| == 0 {
      return Failure("no enrolled recipient with this transport id");
    }
    if keyslot.Some? {
      for n := 0 to |idxs|
        invariant FirstInKeyslot(tok, idxs, keyslot.value) == FirstInKeyslot(tok, idxs[n..], keyslot.value)
      {
        if KeyslotOf(tok, idxs[n]) == keyslot.value {
          return Success(idxs[n]);
        }
        assert idxs[n..][1..] == idxs[n + 1..];
      }
      return Failure("the keyslot holds no entry for this transport id");
    }
    if |idxs| > 1 {
      return Failure("the transport id is enrolled more than once");
    }
    return Success(idxs[0]);
  }

  lemma {:induction false} FirstInKeyslotIs(tok: Token, idxs: seq<nat>, keyslot: string)
    ensures match FirstInKeyslot(tok, idxs, keyslot)
      case Some(i) => i in idxs && KeyslotOf(tok, i) == keyslot
      case None => forall i :: i in idxs ==> KeyslotOf(tok, i) != keyslot
  {
    if idxs != [] {
      FirstInKeyslotIs(tok, idxs[1..], keyslot);
    }
  }

  lemma SelectedIs(tok: Token, id: DeviceID, keyslot: Option<string>)
    ensures Selected(tok, id, keyslot).Success? ==>
      var i := Selected(tok, id, keyslot).value;
      i < |tok.recipients| && Carries(tok.recipients[i], id.CanonicalOrRaw())
  {
    MatchesFromAre(tok.recipients, id.CanonicalOrRaw(), 0);
    if keyslot.Some? {
      FirstInKeyslotIs(tok, Matches(tok, id), keyslot.value);
    }
  }

  /** slices.Index. */
  function IndexOf(names: seq<string>, name: string): (r: Option<nat>)
    ensures r.Some? ==> r.value < |names| && names[r.value] == name
    ensures r.Some? ==> forall i :: 0 <= i < r.value ==> names[i] != name
    ensures r.None? ==> name !in names
  {
    if names == [] then None
    else if names[0] == name then Some(0)
    else match IndexOf(names[1..], name)
      case None => None
      case Some(i) => Some(i + 1)
  }

  lemma FirstNameStays(names: seq<string>, more: seq<string>, name: string)
    requires name in names
    ensures IndexOf(names + more, name) == IndexOf(names, name)
  {
    var all := names + more;
    var i, j := IndexOf(names, name).value, IndexOf(all, name).value;
    assert all[i] == name;
    assert j <= i;
    assert names[j] == name;
  }

  // ---- what each operation runs ----

  /** The old version of the token, if there is one, gives way to a new one. */
  function Rewriting(at: Option<nat>, doc: Document): seq<Command> {
    (if at.Some? then [RemoveToken(at.value)] else []) + [ImportToken(at, doc)]
  }

  /** luksAddKey, and the token rewritten with the new entry at its end. */
  function EnrolScript(h: Header, made: Result<Enrolled>, machine: Machine, recipientID: Option<DeviceID>): Result<seq<Command>> {
    match (LoadToken(h, machine), LowestFree(h), made)
    case (Success(Loaded(tok, at)), Some(slot), Success(Enrolled(secret, entry))) =>
      if recipientID.Some? && recipientID.value.Canonical().None? then Failure("--recipient-transport-id")
      else
        var entry' := if recipientID.Some? then entry.(transport := recipientID.value.Canonical()) else entry;
        var tok' := tok.(keyslots := tok.keyslots + [Itoa(slot)], recipients := tok.recipients + [entry']);
        Success([AddKey(slot, KeyMaterial(secret))] + Rewriting(at, Marshalled(tok')))
    case _ => Failure("enrolling")
  }

  function Without<T>(s: seq<T>, idx: nat): seq<T>
    requires idx < |s|
  {
    s[..idx] + s[idx + 1..]
  }

  function TokenWithout(tok: Token, idx: nat): Token
    requires idx < |tok.keyslots| && idx < |tok.recipients|
  {
    tok.(keyslots := Without(tok.keyslots, idx), recipients := Without(tok.recipients, idx))
  }

  /** luksKillSlot, and the token rewritten without the entry. */
  function RemoveScript(tok: Token, id: nat, idx: nat): seq<Command>
    requires idx < |tok.keyslots| && idx < |tok.recipients|
  {
    [KillSlot(tok.keyslots[idx]), RemoveToken(id), ImportToken(Some(id), Marshalled(TokenWithout(tok, idx)))]
  }

  function Refused(h: Header, budget: nat): Execution {
    Execution(h, false, budget)
  }

  function RunEnrol(h: Header, passphrase: bytes, made: Result<Enrolled>, machine: Machine, recipientID: Option<DeviceID>, budget: nat): Execution {
    match EnrolScript(h, made, machine, recipientID)
    case Failure(_) => Refused(h, budget)
    case Success(cs) => Exec(h, passphrase, cs, budget)
  }

  function RunRemove(h: Header, passphrase: bytes, id: DeviceID, keyslot: Option<string>, budget: nat): Execution {
    match EnrolledToken(h)
    case Failure(_) => Refused(h, budget)
    case Success((tok, at)) =>
      match Selected(tok, id, keyslot)
      case Failure(_) => Refused(h, budget)
      case Success(idx) =>
        SelectedIs(tok, id, keyslot);
        Exec(h, passphrase, RemoveScript(tok, at, idx), budget)
  }

  /** The second half of a rotation: the old entry, found again by its keyslot. */
  function RunRevokeOld(h: Header, passphrase: bytes, oldKeyslot: string, budget: nat): Execution {
    match EnrolledToken(h)
    case Failure(_) => Refused(h, budget)
    case Success((tok, at)) =>
      match IndexOf(tok.keyslots, oldKeyslot)
      case None => Refused(h, budget)
      case Some(idx) => Exec(h, passphrase, RemoveScript(tok, at, idx), budget)
  }

  function RunReplace(h: Header, passphrase: bytes, made: Result<Enrolled>, oldID: DeviceID, newID: DeviceID, keyslot: Option<string>, budget: nat): Execution {
    match EnrolledToken(h)
    case Failure(_) => Refused(h, budget)
    case Success((tok, _)) =>
      match Selected(tok, oldID, keyslot)
      case Failure(_) => Refused(h, budget)
      case Success(idx) =>
        SelectedIs(tok, oldID, keyslot);
        var enrolled := RunEnrol(h, passphrase, made, NOBODY, Some(newID), budget);
        if !enrolled.complete then enrolled
        else RunRevokeOld(enrolled.header, passphrase, tok.keyslots[idx], enrolled.budget)
  }

  datatype Plan = PlanAdd | PlanAlready(keyslot: string) | PlanReplace(keyslot: string, kid: Digest)

  /** planEnrolment: what enrolling publicKey for this transport id would be. */
  function PlanEnrolment(h: Header, publicKey: bytes, id: DeviceID): Result<Plan> {
    match LoadToken(h, NOBODY)
    case Failure(reason) => Failure(reason)
    case Success(Loaded(_, None)) => Success(PlanAdd)
    case Success(Loaded(tok, Some(_))) =>
      var idxs := Matches(tok, id);
      MatchesFromAre(tok.recipients, id.CanonicalOrRaw(), 0);
      if idxs == [] then Success(PlanAdd)
      else if |idxs| > 1 then Failure("the transport id is enrolled more than once")
      else
        var kid := tok.recipients[idxs[0]].kid;
        if kid == Sha256(publicKey) then Success(PlanAlready(KeyslotOf(tok, idxs[0])))
        else Success(PlanReplace(KeyslotOf(tok, idxs[0]), kid))
  }

  predicate AlreadyEnrolled(h: Header, publicKey: bytes, id: DeviceID) {
    var plan := PlanEnrolment(h, publicKey, id);
    plan.Success? && plan.value.PlanAlready?
  }

  /** enrolOnce: one enrolled recipient per transport id. */
  function RunEnrolOnce(h: Header, passphrase: bytes, publicKey: bytes, made: Result<Enrolled>, machine: Machine, recipientID: Option<DeviceID>, budget: nat): Execution {
    match recipientID
    case None => RunEnrol(h, passphrase, made, machine, None, budget)
    case Some(id) =>
      match PlanEnrolment(h, publicKey, id)
      case Failure(_) => Refused(h, budget)
      case Success(PlanAlready(_)) => Execution(h, true, budget)
      case Success(PlanReplace(_, _)) => Refused(h, budget)
      case Success(PlanAdd) => RunEnrol(h, passphrase, made, machine, recipientID, budget)
  }

  /** The header is what the commands recorded since `past` made of the header
      then. */
  predicate Accounted(start: Header, past: seq<Command>, now: Header, history: seq<Command>) {
    |past| <= |history| && history[..|past|] == past && now == After(start, history[|past|..])
  }

  lemma AccountedOneMore(start: Header, past: seq<Command>, now: Header, history: seq<Command>, c: Command)
    requires Accounted(start, past, now, history)
    ensures Accounted(start, past, Effect(now, c), history + [c])
  {
    AfterOneMore(start, history[|past|..], c);
    assert (history + [c])[|past|..] == history[|past|..] + [c];
  }

  lemma AccountedThen(start: Header, past: seq<Command>, mid: Header, midway: seq<Command>, now: Header, history: seq<Command>)
    requires Accounted(start, past, mid, midway) && Accounted(mid, midway, now, history)
    ensures Accounted(start, past, now, history)
  {
    AfterBoth(start, midway[|past|..], history[|midway|..]);
    assert history[|past|..] == midway[|past|..] + history[|midway|..];
  }

  /** A LUKS2 device. `budget` is how many more header writes will be carried
      out before the process is cut off; a cut inside a read shows as no write. */
  class Device {
    var header: Header
    var budget: nat
    /** The commands carried out, in order. */
    var history: seq<Command>

    constructor (h: Header, budget: nat)
      ensures header == h && this.budget == budget && history == []
    {
      header := h;
      this.budget := budget;
      history := [];
    }

    method Cryptsetup(passphrase: bytes, c: Command) returns (ok: bool)
      modifies this
      ensures ok <==> old(budget) > 0 && Possible(old(header), passphrase, c)
      ensures ok ==> header == Effect(old(header), c) && budget == old(budget) - 1
      ensures !ok ==> header == old(header) && budget == old(budget)
      ensures history == if ok then old(history) + [c] else old(history)
    {
      ok := budget > 0 && CanRun(passphrase, c);
      if ok {
        header := Effect(header, c);
        budget := budget - 1;
        history := history + [c];
      }
    }

    predicate CanRun(passphrase: bytes, c: Command)
      reads this
    {
      Possible(header, passphrase, c)
    }

    method EnrolRecipient(passphrase: bytes, made: Result<Enrolled>, machine: Machine, recipientID: Option<DeviceID>) returns (ok: bool)
      modifies this
      ensures Execution(header, ok, budget) == RunEnrol(old(header), passphrase, made, machine, recipientID, old(budget))
      ensures Accounted(old(header), old(history), header, history)
    {
      var loaded := LoadToken(header, machine);
      if loaded.Failure? {
        return false;
      }
      var Loaded(tok, existingTokenID) := loaded.value;
      var slot := LowestFree(header);
      if slot.None? || made.Failure? {
        return false;
      }
      var Enrolled(secret, entry) := made.value;
      if recipientID.Some? {
        if recipientID.value.Canonical().None? {
          return false;
        }
        entry := entry.(transport := recipientID.value.Canonical());
      }
      var keyMaterial := KeyMaterial(secret);
      ghost var rewriting := Rewriting(existingTokenID, Marshalled(tok.(
        keyslots := tok.keyslots + [Itoa(slot.value)], recipients := tok.recipients + [entry])));
      assert EnrolScript(header, made, machine, recipientID) == Success([AddKey(slot.value, keyMaterial)] + rewriting);
      ExecStep(header, passphrase, AddKey(slot.value, keyMaterial), rewriting, budget);
      AccountedOneMore(old(header), old(history), header, history, AddKey(slot.value, keyMaterial));
      ok := Cryptsetup(passphrase, AddKey(slot.value, keyMaterial));
      if !ok {
        return;
      }
      tok := tok.(keyslots := tok.keyslots + [Itoa(slot.value)], recipients := tok.recipients + [entry]);
      var doc := MarshalJSON(tok);
      ghost var mid, midway := header, history;
      ok := RewriteToken(passphrase, existingTokenID, doc);
      AccountedThen(old(header), old(history), mid, midway, header, history);
    }

    method RewriteToken(passphrase: bytes, at: Option<nat>, doc: Document) returns (ok: bool)
      modifies this
      ensures Execution(header, ok, budget) == Exec(old(header), passphrase, Rewriting(at, doc), old(budget))
      ensures Accounted(old(header), old(history), header, history)
    {
      ghost var write := [ImportToken(at, doc)];
      assert write == [ImportToken(at, doc)] + [];
      if at.Some? {
        ExecStep(header, passphrase, RemoveToken(at.value), write, budget);
        AccountedOneMore(old(header), old(history), header, history, RemoveToken(at.value));
        ok := Cryptsetup(passphrase, RemoveToken(at.value));
        if !ok {
          return;
        }
      } else {
        assert Rewriting(at, doc) == write;
      }
      ExecStep(header, passphrase, ImportToken(at, doc), [], budget);
      AccountedOneMore(old(header), old(history), header, history, ImportToken(at, doc));
      ok := Cryptsetup(passphrase, ImportToken(at, doc));
    }

    method RemoveRecipientAt(passphrase: bytes, tok: Token, tokenID: nat, idx: nat) returns (ok: bool)
      requires idx < |tok.keyslots| && idx < |tok.recipients|
      modifies this
      ensures Execution(header, ok, budget) == Exec(old(header), passphrase, RemoveScript(tok, tokenID, idx), old(budget))
      ensures Accounted(old(header), old(history), header, history)
    {
      ghost var write := [ImportToken(Some(tokenID), Marshalled(TokenWithout(tok, idx)))];
      assert RemoveScript(tok, tokenID, idx) == [KillSlot(tok.keyslots[idx])] + ([RemoveToken(tokenID)] + write);
      ExecStep(header, passphrase, KillSlot(tok.keyslots[idx]), [RemoveToken(tokenID)] + write, budget);
      AccountedOneMore(old(header), old(history), header, history, KillSlot(tok.keyslots[idx]));
      ok := Cryptsetup(passphrase, KillSlot(tok.keyslots[idx]));
      if !ok {
        return;
      }
      var shorter := tok.(
        keyslots := tok.keyslots[..idx] + tok.keyslots[idx + 1..],
        recipients := tok.recipients[..idx] + tok.recipients[idx + 1..]);
      var doc := MarshalJSON(shorter);
      ExecStep(header, passphrase, RemoveToken(tokenID), write, budget);
      AccountedOneMore(old(header), old(history), header, history, RemoveToken(tokenID));
      ok := Cryptsetup(passphrase, RemoveToken(tokenID));
      if !ok {
        return;
      }
      assert write == [ImportToken(Some(tokenID), doc)] + [];
      ExecStep(header, passphrase, ImportToken(Some(tokenID), doc), [], budget);
      AccountedOneMore(old(header), old(history), header, history, ImportToken(Some(tokenID), doc));
      ok := Cryptsetup(passphrase, ImportToken(Some(tokenID), doc));
    }

    method RemoveRecipient(passphrase: bytes, recipientID: DeviceID, keyslot: Option<string>) returns (ok: bool)
      modifies this
      ensures Execution(header, ok, budget) == RunRemove(old(header), passphrase, recipientID, keyslot, old(budget))
      ensures Accounted(old(header), old(history), header, history)
    {
      var enrolled := EnrolledToken(header);
      if enrolled.Failure? {
        return false;
      }
      var (tok, id) := enrolled.value;
      var idx := SelectRecipient(tok, recipientID, keyslot);
      if idx.Failure? {
        return false;
      }
      SelectedIs(tok, recipientID, keyslot);
      ok := RemoveRecipientAt(passphrase, tok, id, idx.value);
    }

    /** replaceRecipient: enrol the new key first, then revoke the old entry. */
    method ReplaceRecipient(passphrase: bytes, made: Result<Enrolled>, oldID: DeviceID, newID: DeviceID, keyslot: Option<string>) returns (ok: bool)
      modifies this
      ensures Execution(header, ok, budget) == RunReplace(old(header), passphrase, made, oldID, newID, keyslot, old(budget))
      ensures Accounted(old(header), old(history), header, history)
    {
      var enrolled := EnrolledToken(header);
      if enrolled.Failure? {
        return false;
      }
      var idx := SelectRecipient(enrolled.value.0, oldID, keyslot);
      if idx.Failure? {
        return false;
      }
      SelectedIs(enrolled.value.0, oldID, keyslot);
      var oldKeyslot := enrolled.value.0.keyslots[idx.value];
      ok := EnrolRecipient(passphrase, made, NOBODY, Some(newID));
      if !ok {
        return;
      }
      ghost var mid, midway := header, history;
      enrolled := EnrolledToken(header);
      if enrolled.Failure? {
        return false;
      }
      var again := IndexOf(enrolled.value.0.keyslots, oldKeyslot);
      if again.None? {
        return false;
      }
      ok := RemoveRecipientAt(passphrase, enrolled.value.0, enrolled.value.1, again.value);
      AccountedThen(old(header), old(history), mid, midway, header, history);
    }

    method EnrolOnce(passphrase: bytes, publicKey: bytes, made: Result<Enrolled>, machine: Machine, recipientID: Option<DeviceID>) returns (ok: bool, already: bool)
      modifies this
      ensures Execution(header, ok, budget) == RunEnrolOnce(old(header), passphrase, publicKey, made, machine, recipientID, old(budget))
      ensures Accounted(old(header), old(history), header, history)
      ensures already <==> recipientID.Some? && AlreadyEnrolled(old(header), publicKey, recipientID.value)
      ensures already ==> ok && header == old(header) && history == old(history)
    {
      if recipientID.Some? {
        var plan := PlanEnrolment(header, publicKey, recipientID.value);
        if plan.Failure? {
          return false, false;
        }
        if plan.value.PlanAlready? {
          return true, true;
        }
        if plan.value.PlanReplace? {
          return false, false;
        }
      }
      ok := EnrolRecipient(passphrase, made, machine, recipientID);
      already := false;
    }
  }
}
