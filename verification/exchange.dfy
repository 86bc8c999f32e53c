/** One recovery exchange, both ends of it. */
module Exchange {
  import opened Basics
  import opened PrimeGroup
  import opened Mr1
  import opened Tokens
  import opened Luks
  import opened Enrolment
  import opened EnrolmentSafety
  import opened Rotation

  // The machine's runExchange (cmd/synctang-unlocker/agent.go) and a key holder, either
  // the file-backed one (cmd/synctang-keyholder/unlock.go) or the phone
  // (mobile/mobile.go). A connection delivers in order, from the peer it says, until
  // it dies.

  /** What the machine sends. */
  datatype Message =
    | Hello(name: string)
    | Request(kid: Digest, x: bytes)
    | Verdict(ok: bool, error: string)

  /** What a key holder sends; fields it leaves out are empty. */
  datatype Answer = Answer(y: bytes, xOnly: bytes, error: string)

  /** One end of a connection. It takes `writes` more messages before a write
      fails, and `incoming` is what will still arrive before it is gone. A body
      that does not parse is where a reader stops, so it ends incoming. */
  class Conn<Out, In> {
    var writes: nat
    var incoming: seq<In>
    var attempted: seq<Out>
    var taken: seq<Out>

    constructor (writes: nat, incoming: seq<In>)
      ensures this.writes == writes && this.incoming == incoming && attempted == [] && taken == []
    {
      this.writes, this.incoming, attempted, taken := writes, incoming, [], [];
    }

    method Write(m: Out) returns (ok: bool)
      modifies this
      ensures ok <==> old(writes) > 0
      ensures attempted == old(attempted) + [m]
      ensures taken == (if ok then old(taken) + [m] else old(taken))
      ensures writes == (if ok then old(writes) - 1 else old(writes))
      ensures incoming == old(incoming)
    {
      attempted := attempted + [m];
      ok := writes > 0;
      if ok {
        taken := taken + [m];
        writes := writes - 1;
      }
    }

    method Read() returns (m: Option<In>)
      modifies this
      ensures m == if old(incoming) == [] then None else Some(old(incoming)[0])
      ensures incoming == if old(incoming) == [] then [] else old(incoming)[1..]
      ensures attempted == old(attempted) && taken == old(taken) && writes == old(writes)
    {
      if incoming == [] {
        return None;
      }
      m := Some(incoming[0]);
      incoming := incoming[1..];
    }
  }

  // ---- the machine ----

  /** The key material an answer yields: recovered, of the right length, and found
      to open the volume. */
  function Judged<P(==)>(g: Group<P>, h: Header, rec: Recipient, e: nat, resp: Answer): Result<bytes>
    requires g.order > 0
  {
    var p := if resp.y != [] then FinishFullPoint(g, e, rec, resp.y)
             else if resp.xOnly != [] then FinishXOnly(g, e, rec, resp.xOnly)
             else Failure("recover response carries neither Y nor XOnly");
    match p
    case Failure(reason) => Failure(reason)
    case Success(secret) =>
      if |secret| != SECRET_LEN then Failure("recovered secret has the wrong length")
      else if !Opens(h, KeyMaterial(secret)) then Failure("recovered secret does not open the volume")
      else Success(KeyMaterial(secret))
  }

  /** What came of an exchange: what the machine tried to send, what it handed to
      systemd, and whether it was content. */
  datatype Turnout = Turnout(attempted: seq<Message>, delivered: seq<bytes>, ok: bool)

  /** The end of an exchange that got an answer which is no refusal. */
  function Reported(asked: seq<Message>, judged: Result<bytes>, deliverable: bool): Turnout {
    if judged.Failure? then Turnout(asked + [Verdict(false, judged.reason)], [], false)
    else if !deliverable then Turnout(asked + [Verdict(false, "delivering")], [], false)
    else Turnout(asked + [Verdict(true, "")], [judged.value], true)
  }

  function Exchanged<P(==)>(g: Group<P>, h: Header, tok: Token, peer: DeviceID, name: string, e: nat,
                            writes: nat, incoming: seq<Answer>, deliverable: bool): Turnout
    requires g.order > 0
  {
    match MatchRecipient(tok, peer)
    case Failure(_) => Turnout([], [], false)
    case Success(rec) => ExchangedWith(g, h, rec, name, e, writes, incoming, deliverable)
  }

  /** The same, with the one recipient that matches. */
  function ExchangedWith<P(==)>(g: Group<P>, h: Header, rec: Recipient, name: string, e: nat,
                                writes: nat, incoming: seq<Answer>, deliverable: bool): Turnout
    requires g.order > 0
  {
    var asked := AskedOf(g, rec, name, e);
    if writes == 0 then Turnout([Hello(name)], [], false)
    else if writes == 1 || |asked| == 1 || incoming == [] || incoming[0].error != "" then Turnout(asked, [], false)
    else Reported(asked, Judged(g, h, rec, e, incoming[0]), deliverable)
  }

  /** Hello, and the challenge if one can be made. */
  function AskedOf<P>(g: Group<P>, rec: Recipient, name: string, e: nat): seq<Message> {
    match ChallengeStart(g, rec.c, e)
    case Failure(_) => [Hello(name)]
    case Success(x) => [Hello(name), Request(rec.kid, x)]
  }

  /** systemd's ask-password socket: whether it takes what it is handed. */
  class Systemd {
    const takes: bool
    var delivered: seq<bytes>

    constructor (takes: bool)
      ensures this.takes == takes && delivered == []
    {
      this.takes, delivered := takes, [];
    }

    method Deliver(material: bytes) returns (ok: bool)
      modifies this
      ensures ok == takes && delivered == if ok then old(delivered) + [material] else old(delivered)
    {
      ok := takes;
      if ok {
        delivered := delivered + [material];
      }
    }
  }

  /** Best effort: a write that fails does not change the outcome. */
  method Report(conn: Conn<Message, Answer>, outcome: Result<()>)
    modifies conn
    ensures conn.attempted == old(conn.attempted) + [VerdictOf(outcome)]
    ensures conn.taken == if old(conn.writes) > 0 then old(conn.taken) + [VerdictOf(outcome)] else old(conn.taken)
  {
    var _ := conn.Write(VerdictOf(outcome));
  }

  function VerdictOf(outcome: Result<()>): Message {
    if outcome.Success? then Verdict(true, "") else Verdict(false, outcome.reason)
  }

  /** What comes out of an answer, with no connection in sight: the first half of
      everything after the response was read. */
  method Judge<P(==)>(g: Group<P>, h: Header, rec: Recipient, e: nat, resp: Answer) returns (r: Result<bytes>)
    requires g.order > 0
    ensures r == Judged(g, h, rec, e, resp)
  {
    var p;
    if resp.y != [] {
      p := FinishFullPoint(g, e, rec, resp.y);
    } else if resp.xOnly != [] {
      p := FinishXOnly(g, e, rec, resp.xOnly);
    } else {
      return Failure("recover response carries neither Y nor XOnly");
    }
    if p.Failure? {
      return p;
    }
    if |p.value| != SECRET_LEN {
      return Failure("recovered secret has the wrong length");
    }
    var keyMaterial := KeyMaterial(p.value);
    if !Opens(h, keyMaterial) {
      return Failure("recovered secret does not open the volume");
    }
    return Success(keyMaterial);
  }

  /** What is asked, and whom, if one recipient matches. */
  function Asked<P>(g: Group<P>, tok: Token, peer: DeviceID, name: string, e: nat): Result<(Recipient, seq<Message>)> {
    match MatchRecipient(tok, peer)
    case Failure(reason) => Failure(reason)
    case Success(rec) => Success((rec, AskedOf(g, rec, name, e)))
  }

  method RunExchange<P(==)>(g: Group<P>, conn: Conn<Message, Answer>, systemd: Systemd, h: Header, tok: Token, peer: DeviceID, name: string, e: nat)
    returns (r: Result<()>)
    requires g.order > 0 && conn.attempted == [] && conn.taken == [] && systemd.delivered == []
    modifies conn, systemd
    ensures Turnout(conn.attempted, systemd.delivered, r.Success?)
         == Exchanged(g, h, tok, peer, name, e, old(conn.writes), old(conn.incoming), systemd.takes)
    ensures conn.taken == conn.attempted[..Min(old(conn.writes), |conn.attempted|)]
  {
    var matched := MatchRecipient(tok, peer);
    if matched.Failure? {
      return Failure(matched.reason);
    }
    r := Converse(g, conn, systemd, h, matched.value, name, e);
  }

  method Converse<P(==)>(g: Group<P>, conn: Conn<Message, Answer>, systemd: Systemd, h: Header, rec: Recipient, name: string, e: nat)
    returns (r: Result<()>)
    requires g.order > 0 && conn.attempted == [] && conn.taken == [] && systemd.delivered == []
    modifies conn, systemd
    ensures Turnout(conn.attempted, systemd.delivered, r.Success?)
         == ExchangedWith(g, h, rec, name, e, old(conn.writes), old(conn.incoming), systemd.takes)
    ensures conn.taken == conn.attempted[..Min(old(conn.writes), |conn.attempted|)]
  {
    var ok := conn.Write(Hello(name));
    if !ok {
      return Failure("sending hello");
    }
    var x := ChallengeStart(g, rec.c, e);
    if x.Failure? {
      return Failure("starting challenge");
    }
    ok := conn.Write(Request(rec.kid, x.value));
    if !ok {
      return Failure("sending recover request");
    }
    var resp := conn.Read();
    if resp.None? {
      return Failure("reading recover response");
    }
    if resp.value.error != "" {
      return Failure("key holder declined");
    }
    var keyMaterial := Judge(g, h, rec, e, resp.value);
    r := DeliverAndReport(conn, systemd, keyMaterial);
  }

  /** The last step of every way out that reports. */
  method DeliverAndReport(conn: Conn<Message, Answer>, systemd: Systemd, keyMaterial: Result<bytes>) returns (r: Result<()>)
    requires systemd.delivered == []
    modifies conn, systemd
    ensures Turnout(conn.attempted, systemd.delivered, r.Success?) == Reported(old(conn.attempted), keyMaterial, systemd.takes)
    ensures conn.taken == if old(conn.writes) > 0 then old(conn.taken) + [VerdictOf(r)] else old(conn.taken)
    ensures conn.attempted == old(conn.attempted) + [VerdictOf(r)]
  {
    if keyMaterial.Failure? {
      r := Failure(keyMaterial.reason);
    } else {
      var ok := systemd.Deliver(keyMaterial.value);
      r := if ok then Success(()) else Failure("delivering");
    }
    Report(conn, r);
  }

  // ---- the key holder ----

  /** The third message of an exchange says that the volume was unlocked. */
  predicate ToldUnlocked(arrived: seq<Message>) {
    |arrived| >= 3 && arrived[2].Verdict? && arrived[2].ok
  }

  /** The challenge in a message read as a request: a field that is not there reads
      as empty. */
  function ChallengeIn(m: Message): bytes {
    if m.Request? then m.x else []
  }

  /** What a holder of scalar s answers a challenge with: the point itself, or only
      its x-coordinate. */
  function Reply<P(==)>(g: Group<P>, s: nat, xOnly: bool, x: bytes): Result<Answer> {
    match ValidateChallengePoint(g, x)
    case Failure(reason) => Failure(reason)
    case Success(_) =>
      match ScalarMult(g, x, s)
      case Failure(reason) => Failure(reason)
      case Success(y) =>
        if !xOnly then Success(Answer(y, [], ""))
        else match PointToX(g, y)
          case Failure(reason) => Failure(reason)
          case Success(c) => Success(Answer([], c, ""))
  }

  /** What a key holder's end comes to: what it got onto the line, and whether it
      says that the volume was unlocked. */
  datatype Holding = Holding(sent: seq<Answer>, unlocked: bool)

  /** The end of a holder of scalar s whose owner is willing: the second message is
      the challenge, the third the machine's word on the answer. A coordinate goes
      out only at its full length. */
  function Held<P(==)>(g: Group<P>, s: nat, xOnly: bool, willing: bool, writes: nat, incoming: seq<Message>): Holding {
    if !willing || |incoming| < 2 || writes == 0 then Holding([], false)
    else match Reply(g, s, xOnly, ChallengeIn(incoming[1]))
      case Failure(_) => Holding([], false)
      case Success(answer) =>
        if xOnly && |answer.xOnly| != COORD_LEN then Holding([], false) else Holding([answer], ToldUnlocked(incoming))
  }

  /** runUnlockOnce: "unlocked" is printed only on the machine's own word. */
  method RunUnlockOnce<P(==)>(g: Group<P>, conn: Conn<Answer, Message>, s: nat, approved: bool) returns (r: Result<()>)
    requires conn.attempted == [] && conn.taken == []
    modifies conn
    ensures Holding(conn.taken, r.Success?) == Held(g, s, false, approved, old(conn.writes), old(conn.incoming))
    ensures r.Success? ==> ToldUnlocked(old(conn.incoming)) && approved
    ensures |conn.attempted| <= 1 && conn.taken == conn.attempted[..Min(old(conn.writes), |conn.attempted|)]
  {
    var hello := conn.Read();
    if hello.None? {
      return Failure("reading hello");
    }
    if !approved {
      return Failure("reading approval");
    }
    var req := conn.Read();
    if req.None? {
      return Failure("reading recover request");
    }
    var x := ChallengeIn(req.value);
    if ValidateChallengePoint(g, x).Failure? {
      return Failure("refusing the machine's challenge");
    }
    var y := ScalarMult(g, x, s);
    if y.Failure? {
      return Failure("computing response");
    }
    var ok := conn.Write(Answer(y.value, [], ""));
    if !ok {
      return Failure("sending recover response");
    }
    var result := conn.Read();
    if result.None? {
      return Failure("the machine did not report the outcome");
    }
    if !(result.value.Verdict? && result.value.ok) {
      return Failure("the machine could not use the answer");
    }
    return Success(());
  }

  // ---- what it comes to ----

  predicate Prefix<T(==)>(a: seq<T>, b: seq<T>) {
    |a| <= |b| && a == b[..|a|]
  }

  /** What a machine's writes come to on the wire. */
  function Taken(t: Turnout, writes: nat): seq<Message> {
    t.attempted[..Min(writes, |t.attempted|)]
  }

  function Verdicts(ms: seq<Message>): nat {
    if ms == [] then 0 else (if ms[0].Verdict? then 1 else 0) + Verdicts(ms[1..])
  }

  /** The connection reached an answer that is not a refusal. */
  predicate GotAnAnswer<P(==)>(g: Group<P>, tok: Token, peer: DeviceID, name: string, e: nat, writes: nat, incoming: seq<Answer>) {
    && Asked(g, tok, peer, name, e).Success? && |Asked(g, tok, peer, name, e).value.1| == 2
    && writes >= 2 && incoming != [] && incoming[0].error == ""
  }

  /** Every way out after an answer that is no refusal tries to report, once, and
      no other way out does; the report says yes exactly when the key material was
      delivered, which then is recovered, 32 bytes long and opens the volume. */
  lemma ReportsExactlyOnce<P>(g: Group<P>, h: Header, tok: Token, peer: DeviceID, name: string, e: nat,
                              writes: nat, incoming: seq<Answer>, deliverable: bool)
    requires g.order > 0
    ensures var t := Exchanged(g, h, tok, peer, name, e, writes, incoming, deliverable);
      && Verdicts(t.attempted) == (if GotAnAnswer(g, tok, peer, name, e, writes, incoming) then 1 else 0)
      && (t.ok <==> t.delivered != [])
      && (t.ok ==> ToldUnlocked(t.attempted) && Delivered(h, t.delivered))
      && (!t.ok ==> !ToldUnlocked(t.attempted))
  {
    var t := Exchanged(g, h, tok, peer, name, e, writes, incoming, deliverable);
    var asked := Asked(g, tok, peer, name, e);
    if GotAnAnswer(g, tok, peer, name, e, writes, incoming) {
      var verdict := t.attempted[2];
      assert t.attempted == [asked.value.1[0], asked.value.1[1], verdict];
      CountThree(asked.value.1[0], asked.value.1[1], verdict);
      JudgedOpens(g, h, asked.value.0, e, incoming[0]);
    } else if asked.Success? {
      CountFew(asked.value.1);
      CountFew([Hello(name)]);
    }
  }

  lemma CountThree(a: Message, b: Message, c: Message)
    requires !a.Verdict? && !b.Verdict? && c.Verdict?
    ensures Verdicts([a, b, c]) == 1
  {
    assert [a, b, c][1..] == [b, c] && [b, c][1..] == [c] && [c][1..] == [];
    assert Verdicts([a, b, c]) == Verdicts([b, c]) && Verdicts([b, c]) == Verdicts([c]);
  }

  lemma {:induction false} CountFew(ms: seq<Message>)
    requires forall i :: 0 <= i < |ms| ==> !ms[i].Verdict?
    ensures Verdicts(ms) == 0
  {
    if ms != [] {
      CountFew(ms[1..]);
    }
  }

  /** Exactly one thing was handed to systemd: the hex of a 32-byte secret, and it
      opens the volume. */
  ghost predicate Delivered(h: Header, delivered: seq<bytes>) {
    |delivered| == 1 && Opens(h, delivered[0]) && exists secret :: |secret| == SECRET_LEN && KeyMaterial(secret) == delivered[0]
  }

  lemma JudgedOpens<P>(g: Group<P>, h: Header, rec: Recipient, e: nat, resp: Answer)
    requires g.order > 0
    ensures Judged(g, h, rec, e, resp).Success? ==> Delivered(h, [Judged(g, h, rec, e, resp).value])
  {
  }

  /** The two ends of one exchange: the machine's, over `answers`, and that of the
      holder of scalar s, over `messages`. */
  datatype Ends = Ends(name: string, e: nat, writes: nat, answers: seq<Answer>, deliverable: bool,
                       s: nat, xOnly: bool, willing: bool, holderWrites: nat, messages: seq<Message>)

  function MachineEnd<P(==)>(g: Group<P>, h: Header, tok: Token, peer: DeviceID, ends: Ends): Turnout
    requires g.order > 0
  {
    Exchanged(g, h, tok, peer, ends.name, ends.e, ends.writes, ends.answers, ends.deliverable)
  }

  function HolderEnd<P(==)>(g: Group<P>, ends: Ends): Holding {
    Held(g, ends.s, ends.xOnly, ends.willing, ends.holderWrites, ends.messages)
  }

  /** They are two ends of one connection: what came out of it at either end is a
      first part of what went in at the other. */
  predicate OneConnection<P(==)>(g: Group<P>, h: Header, tok: Token, peer: DeviceID, ends: Ends)
    requires g.order > 0
  {
    && Prefix(ends.messages, Taken(MachineEnd(g, h, tok, peer, ends), ends.writes))
    && Prefix(ends.answers, HolderEnd(g, ends).sent)
  }

  /** Over one connection, however it dies, the answer the machine gets is the
      holder's own reply to this exchange's challenge. */
  lemma TheAnswerIsTheHolders<P>(g: Group<P>, h: Header, tok: Token, peer: DeviceID, ends: Ends)
    requires g.order > 0 && OneConnection(g, h, tok, peer, ends) && ends.answers != []
    ensures var asked := Asked(g, tok, peer, ends.name, ends.e);
      && asked.Success? && asked.value.1 == [Hello(ends.name), Request(asked.value.0.kid, ChallengeIn(ends.messages[1]))]
      && ChallengeStart(g, asked.value.0.c, ends.e) == Success(ChallengeIn(ends.messages[1]))
      && ends.answers == [Reply(g, ends.s, ends.xOnly, ChallengeIn(ends.messages[1])).value]
  {
    var t := MachineEnd(g, h, tok, peer, ends);
    assert ends.messages[1] == t.attempted[1];
    assert |ends.answers| == 1;
  }

  /** Over one connection, however it dies, a key holder says "unlocked" exactly
      when the machine was content and its word of that arrived. */
  lemma UnlockedIff<P>(g: Group<P>, h: Header, tok: Token, peer: DeviceID, ends: Ends)
    requires g.order > 0 && OneConnection(g, h, tok, peer, ends)
    ensures HolderEnd(g, ends).unlocked <==> MachineEnd(g, h, tok, peer, ends).ok && |ends.messages| == 3
  {
    var t := MachineEnd(g, h, tok, peer, ends);
    ReportsExactlyOnce(g, h, tok, peer, ends.name, ends.e, ends.writes, ends.answers, ends.deliverable);
    assert |t.attempted| <= 3;
    if |ends.messages| == 3 {
      assert ends.messages[2] == t.attempted[2];
    }
  }

  /** Whenever a key holder says "unlocked", the machine has in that same exchange
      recovered a 32-byte secret from this holder's reply to this exchange's
      challenge, found that its hex opens the volume, and delivered it once. */
  lemma UnlockedMeansUnlocked<P>(g: Group<P>, h: Header, tok: Token, peer: DeviceID, ends: Ends)
    requires g.order > 0 && OneConnection(g, h, tok, peer, ends) && HolderEnd(g, ends).unlocked
    ensures var t := MachineEnd(g, h, tok, peer, ends);
      var asked := Asked(g, tok, peer, ends.name, ends.e);
      && Delivered(h, t.delivered) && asked.Success?
      && ChallengeStart(g, asked.value.0.c, ends.e) == Success(ChallengeIn(ends.messages[1]))
      && Reply(g, ends.s, ends.xOnly, ChallengeIn(ends.messages[1])).Success?
      && Judged(g, h, asked.value.0, ends.e, Reply(g, ends.s, ends.xOnly, ChallengeIn(ends.messages[1])).value)
         == Success(t.delivered[0])
  {
    UnlockedIff(g, h, tok, peer, ends);
    ReportsExactlyOnce(g, h, tok, peer, ends.name, ends.e, ends.writes, ends.answers, ends.deliverable);
    assert ends.answers != [];
    TheAnswerIsTheHolders(g, h, tok, peer, ends);
  }

  /** The name under which an entry is enrolled plays no part in recovering. */
  lemma TransportPlaysNoPart<P>(g: Group<P>, e: nat, rec: Recipient, id: Option<DeviceID>, y: bytes)
    requires g.order > 0
    ensures FinishFullPoint(g, e, rec.(transport := id), y) == FinishFullPoint(g, e, rec, y)
    ensures FinishXOnly(g, e, rec.(transport := id), y) == FinishXOnly(g, e, rec, y)
  {
  }

  predicate Recovers<P(==)>(g: Group<P>, e: nat, rec: Recipient, resp: Answer, secret: bytes)
    requires g.order > 0
  {
    resp.error == "" && (if resp.y != [] then FinishFullPoint(g, e, rec, resp.y) == Success(secret)
                         else resp.xOnly != [] && FinishXOnly(g, e, rec, resp.xOnly) == Success(secret))
  }

  /** The challenge as a point. */
  ghost function ChallengePoint<P>(g: Group<P>, d: Draw, e: nat): P {
    g.add(Mult(g, d.c, g.base), Mult(g, e, g.base))
  }

  function HonestAnswer<P>(g: Group<P>, xOnly: bool, y: P): Answer {
    if xOnly then Answer([], g.x(y), "") else Answer(g.encode(y), [], "")
  }

  lemma ReplyTo<P(!new)>(g: Group<P>, s: nat, xOnly: bool, x: P)
    requires Laws(g) && 0 < s < g.order
    ensures x == g.zero ==> Reply(g, s, xOnly, g.encode(x)).Failure?
    ensures x != g.zero ==> Reply(g, s, xOnly, g.encode(x)) == Success(HonestAnswer(g, xOnly, Mult(g, s, x)))
  {
    assert Codec(g, x) && Codec(g, Mult(g, s, x));
    if x != g.zero {
      MultNonzero(g, s, x);
    }
  }

  lemma ReplyRecovers<P(!new)>(g: Group<P>, s: nat, d: Draw, e: nat, rec: Recipient)
    requires Laws(g) && Attempt(g, s, d, e, rec) && (d.c + e) % g.order != 0
    ensures var y := Mult(g, s, ChallengePoint(g, d, e));
      FinishFullPoint(g, e, rec, g.encode(y)) == Success(d.secret) && FinishXOnly(g, e, rec, g.x(y)) == Success(d.secret)
      && g.encode(y) != [] && g.x(y) != []
  {
    var x := ChallengePoint(g, d, e);
    assert Codec(g, x) && Codec(g, Mult(g, s, x));
    ChallengeRefusedIff(g, s, d, e, rec);
    MultNonzero(g, s, x);
    RecoverFullPoint(g, s, d, e, rec);
    RecoverXOnly(g, s, d, e, rec);
  }

  /** An honest holder replies to every challenge but the point at infinity, and
      what it replies is good. */
  lemma HonestReply<P(!new)>(g: Group<P>, s: nat, d: Draw, e: nat, rec: Recipient, xOnly: bool)
    requires Laws(g) && Attempt(g, s, d, e, rec)
    ensures ChallengeStart(g, rec.c, e) == Success(g.encode(ChallengePoint(g, d, e)))
    ensures Reply(g, s, xOnly, g.encode(ChallengePoint(g, d, e))).Success? <==> (d.c + e) % g.order != 0
    ensures (d.c + e) % g.order != 0 ==>
      Recovers(g, e, rec, Reply(g, s, xOnly, g.encode(ChallengePoint(g, d, e))).value, d.secret)
    ensures (d.c + e) % g.order != 0 && xOnly ==>
      |Reply(g, s, xOnly, g.encode(ChallengePoint(g, d, e))).value.xOnly| == COORD_LEN
  {
    ChallengeRefusedIff(g, s, d, e, rec);
    ReplyTo(g, s, xOnly, ChallengePoint(g, d, e));
    if (d.c + e) % g.order != 0 {
      ReplyRecovers(g, s, d, e, rec);
      assert Codec(g, Mult(g, s, ChallengePoint(g, d, e)));
    }
  }

  lemma RecoveredIsJudged<P>(g: Group<P>, h: Header, rec: Recipient, id: Option<DeviceID>, e: nat, resp: Answer, secret: bytes)
    requires g.order > 0 && Recovers(g, e, rec, resp, secret) && |secret| == SECRET_LEN && Opens(h, KeyMaterial(secret))
    ensures Judged(g, h, rec.(transport := id), e, resp) == Success(KeyMaterial(secret))
  {
    TransportPlaysNoPart(g, e, rec, id, if resp.y != [] then resp.y else resp.xOnly);
  }

  lemma EntryIsAsked<P(!new)>(g: Group<P>, h: Header, at: nat, tok: Token, i: nat, peer: DeviceID, name: string, d: Draw, e: nat)
    requires Laws(g) && SoundAt(h, at, tok) && i < |tok.recipients| && Carries(tok.recipients[i], peer.CanonicalOrRaw())
    requires ChallengeStart(g, tok.recipients[i].c, e).Success?
    ensures Asked(g, tok, peer, name, e) == Success((tok.recipients[i],
      [Hello(name), Request(tok.recipients[i].kid, ChallengeStart(g, tok.recipients[i].c, e).value)]))
  {
    MatchesOfTidy(tok, peer);
  }

  /** A reply that reaches the machine and satisfies it, with its word of that. */
  lemma SmoothExchange<P>(g: Group<P>, h: Header, tok: Token, peer: DeviceID, name: string, s: nat, e: nat, rec: Recipient,
                          x: bytes, xOnly: bool, material: bytes)
    requires g.order > 0 && Asked(g, tok, peer, name, e) == Success((rec, [Hello(name), Request(rec.kid, x)]))
    requires Reply(g, s, xOnly, x).Success? && Reply(g, s, xOnly, x).value.error == ""
    requires xOnly ==> |Reply(g, s, xOnly, x).value.xOnly| == COORD_LEN
    requires Judged(g, h, rec, e, Reply(g, s, xOnly, x).value) == Success(material)
    ensures var reply := Reply(g, s, xOnly, x).value;
      var t := Exchanged(g, h, tok, peer, name, e, 3, [reply], true);
      && t.ok && t.delivered == [material]
      && Held(g, s, xOnly, true, 1, Taken(t, 3)) == Holding([reply], true)
  {
    var t := Exchanged(g, h, tok, peer, name, e, 3, [Reply(g, s, xOnly, x).value], true);
    assert Taken(t, 3) == [Hello(name), Request(rec.kid, x), Verdict(true, "")];
  }

  /** On a header in order, a holder enrolled on it whose messages get through
      unlocks the volume and is told so, with a full point or an x-coordinate
      alike, unless the machine's scalar cancels the enrolment's; then it sends
      nothing. */
  lemma EnrolledHolderUnlocks<P(!new)>(g: Group<P>, h: Header, at: nat, tok: Token, i: nat, peer: DeviceID, name: string,
                                       s: nat, d: Draw, e: nat, rec: Recipient, xOnly: bool)
    requires Laws(g) && Attempt(g, s, d, e, rec) && SoundAt(h, at, tok)
    requires i < |tok.recipients| && tok.recipients[i] == rec.(transport := tok.recipients[i].transport)
    requires Carries(tok.recipients[i], peer.CanonicalOrRaw())
    ensures ChallengeStart(g, rec.c, e).Success?
    ensures var reply := Reply(g, s, xOnly, ChallengeStart(g, rec.c, e).value);
      && (reply.Success? <==> (d.c + e) % g.order != 0)
      && (reply.Success? ==>
            var t := Exchanged(g, h, tok, peer, name, e, 3, [reply.value], true);
            && t.ok && t.delivered == [KeyMaterial(d.secret)]
            && Held(g, s, xOnly, true, 1, Taken(t, 3)) == Holding([reply.value], true))
  {
    HonestReply(g, s, d, e, rec, xOnly);
    EntryIsAsked(g, h, at, tok, i, peer, name, d, e);
    assert LiveEntry(h.slots, tok, i);
    if (d.c + e) % g.order != 0 {
      var x := ChallengeStart(g, rec.c, e).value;
      var reply := Reply(g, s, xOnly, x).value;
      RecoveredIsJudged(g, h, rec, tok.recipients[i].transport, e, reply, d.secret);
      SmoothExchange(g, h, tok, peer, name, s, e, tok.recipients[i], x, xOnly, KeyMaterial(d.secret));
    }
  }

  /** What satisfies the machine, exactly: an answer that recovers a secret of 32 bytes
      whose hex opens the volume. A full point is taken before a coordinate. */
  lemma JudgedIff<P>(g: Group<P>, h: Header, rec: Recipient, e: nat, resp: Answer, material: bytes)
    requires g.order > 0 && resp.error == ""
    ensures Judged(g, h, rec, e, resp) == Success(material)
      <==> Opens(h, material) && exists p :: |p| == 32 && KeyMaterial(p) == material && Recovers(g, e, rec, resp, p)
  {
    if Judged(g, h, rec, e, resp) == Success(material) {
      var p := if resp.y != [] then FinishFullPoint(g, e, rec, resp.y).value else FinishXOnly(g, e, rec, resp.xOnly).value;
      assert Recovers(g, e, rec, resp, p);
    }
  }

  /** A holder that is unwilling, or whose challenge is not a finite point, says nothing
      on the line and never says "unlocked". */
  lemma NothingIsSaid<P(!new)>(g: Group<P>, s: nat, xOnly: bool, willing: bool, writes: nat, incoming: seq<Message>)
    requires Laws(g)
    requires !willing || |incoming| < 2 || !incoming[1].Request? || g.decode(incoming[1].x) in {None, Some(g.zero)}
    ensures Held(g, s, xOnly, willing, writes, incoming) == Holding([], false)
  {
  }
}
