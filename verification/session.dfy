/** mobile/mobile.go: the phone's end of an exchange. */
module PhoneSession {
  import opened Basics
  import opened PrimeGroup
  import opened Mr1
  import opened Tokens
  import opened Luks
  import opened Exchange

  // The object the app calls. Calls follow one another, for Connect, Decline and the
  // sending of an answer hold the session's lock from end to end; only Cancel takes
  // another lock and may fall between any two steps of a Connect. AnswerWithScalar takes
  // the lock twice, to read the request and again to send, and Close cancels before it
  // takes it. A Decline or a Close in between does no harm: under the second lock the
  // connection and `answered` are looked at again, and the request is still the one that
  // was read, since a session that was closed never connects again.

  /** One attempt of a Connect: whether the dial gets through and what the
      connection is then worth, and whether Cancel is called meanwhile. */
  datatype Dial = Dial(reached: Option<Line>, cancelled: bool)

  datatype Line = Line(writes: nat, incoming: seq<Message>)

  function Declined(reason: string): Answer {
    Answer([], [], if reason == "" then "declined by the key holder" else reason)
  }

  /** The challenge on a line, if its second message has one this phone may answer;
      the first is the greeting, whatever it says. */
  function RequestOn<P(==)>(g: Group<P>, line: Line): Option<bytes> {
    if |line.incoming| >= 2 && ValidateChallengePoint(g, ChallengeIn(line.incoming[1])).Success?
    then Some(ChallengeIn(line.incoming[1])) else None
  }

  /** The scalar is the one this public point belongs to. */
  predicate Enrolled<P(==)>(g: Group<P>, s: nat, expectedPublic: bytes) {
    0 < s < g.order && ScalarBaseMult(g, s) == expectedPublic
  }

  /** Attempt k is got to, no Cancel coming before, and ends with a request that may be
      answered. */
  predicate Reaches<P(==)>(g: Group<P>, attempts: seq<Dial>, k: nat) {
    && k < |attempts| && attempts[k].reached.Some? && RequestOn(g, attempts[k].reached.value).Some?
    && forall j :: 0 <= j < k ==> !attempts[j].cancelled
  }

  /** It is the first that does. */
  predicate FirstReached<P(==)>(g: Group<P>, attempts: seq<Dial>, k: nat) {
    Reaches(g, attempts, k) && forall j :: 0 <= j < k ==> !Reaches(g, attempts, j)
  }

  /** All of the n attempts were made that there was time for: the last of them all, or
      the one during which Cancel came. */
  predicate MadeAll(attempts: seq<Dial>, n: int) {
    && 0 <= n <= |attempts| && (forall j :: 0 <= j < n - 1 ==> !attempts[j].cancelled)
    && (n < |attempts| ==> n > 0 && attempts[n - 1].cancelled)
  }

  class Session<P(==)> {
    const g: Group<P>
    var conn: Conn?<Answer, Message>
    var x: bytes
    var answered: bool
    var cancelled: bool
    var dials: nat
    /** Everything any connection of this session took, and all that arrived on
        the one it settled on. */
    ghost var said: seq<Answer>
    ghost var arrived: seq<Message>

    /** Something was said exactly if answered is set, only the first thing said
        can be an answer, and a session that has spoken does not dial again. */
    ghost predicate Valid()
      reads this, conn
    {
      && (answered <==> said != [])
      && (forall i :: 1 <= i < |said| ==> said[i].error != "")
      && (conn != null ==> conn.taken == said && x != [] && ValidateChallengePoint(g, x).Success?)
      && (conn != null ==> |arrived| >= 2 && x == ChallengeIn(arrived[1]))
      && (conn != null && said == [] ==> conn.incoming == arrived[2..])
      && (conn == null && answered ==> cancelled)
    }

    constructor (g: Group<P>)
      ensures Valid() && conn == null && said == [] && !cancelled && !answered && this.g == g && dials == 0 && x == []
    {
      this.g := g;
      conn, x, answered, cancelled, dials := null, [], false, false, 0;
      said, arrived := [], [];
    }

    /** The session is on this line, with the request that came over it. */
    ghost predicate Settled(reached: Option<Line>)
      reads this, conn
    {
      && reached.Some? && Some(x) == RequestOn(g, reached.value) && arrived == reached.value.incoming
      && conn != null && conn.writes == reached.value.writes
    }

    /** Connect, for the attempts that fit into its time: it succeeds exactly if one of
        them gets through before a Cancel, settles on the first that does, and else
        makes them all. A Cancel before it makes it fail without dialling. */
    method Connect(attempts: seq<Dial>) returns (r: Result<()>)
      requires Valid()
      modifies this
      ensures Valid() && said == old(said)
      ensures old(cancelled) || old(conn) != null ==> r.Failure? && dials == old(dials) && conn == old(conn) && cancelled == old(cancelled)
      ensures !old(cancelled) && old(conn) == null ==> (r.Success? <==> exists k: nat :: Reaches(g, attempts, k))
      ensures r.Success? ==> conn != null && fresh(conn) && !answered && !old(cancelled)
      ensures r.Success? ==> dials > old(dials) && FirstReached(g, attempts, dials - old(dials) - 1)
      ensures r.Success? ==> Settled(attempts[dials - old(dials) - 1].reached)
      ensures !old(cancelled) && old(conn) == null && r.Failure? ==> conn == null && MadeAll(attempts, dials - old(dials))
      ensures !old(cancelled) && old(conn) == null ==> old(dials) <= dials <= old(dials) + |attempts|
      ensures !old(cancelled) && old(conn) == null ==>
        (cancelled <==> dials > old(dials) && attempts[dials - old(dials) - 1].cancelled)
    {
      if conn != null {
        return Failure("session already connected");
      }
      if cancelled {
        return Failure("cancelled");
      }
      for k := 0 to |attempts|
        invariant conn == null && Valid() && said == old(said) && !cancelled && dials == old(dials) + k
        invariant forall j :: 0 <= j < k ==> !attempts[j].cancelled && !Reaches(g, attempts, j)
      {
        dials := dials + 1;
        var ok := ConnectOnce(attempts[k].reached);
        if attempts[k].cancelled {
          cancelled := true;
        }
        if ok {
          assert Reaches(g, attempts, k);
          return Success(());
        }
        assert !Reaches(g, attempts, k);
        if cancelled {
          assert forall j: nat :: j > k ==> !Reaches(g, attempts, j);
          return Failure("cancelled");
        }
      }
      return Failure("gave up dialling");
    }

    /** One attempt: any failure leaves the session with no connection. */
    method ConnectOnce(reached: Option<Line>) returns (ok: bool)
      requires Valid() && conn == null && !answered
      modifies this
      ensures Valid() && said == old(said) && dials == old(dials) && cancelled == old(cancelled) && answered == old(answered)
      ensures ok <==> conn != null
      ensures ok <==> reached.Some? && RequestOn(g, reached.value).Some?
      ensures ok ==> fresh(conn) && Settled(reached)
    {
      if reached.None? {
        return false;
      }
      var line := new Conn<Answer, Message>(reached.value.writes, reached.value.incoming);
      var hello := line.Read();
      if hello.None? {
        return false;
      }
      var req := line.Read();
      if req.None? {
        return false;
      }
      var challenge := ChallengeIn(req.value);
      if ValidateChallengePoint(g, challenge).Failure? {
        return false;
      }
      conn, x := line, challenge;
      arrived := reached.value.incoming;
      return true;
    }

    /** answerXOnly: nothing is sent unless a request is open and unanswered; the
        verdict is the machine's own, and the third message that arrived. */
    method AnswerXOnly(xOnly: bytes) returns (r: Result<()>)
      requires Valid()
      modifies this, conn
      ensures Valid() && conn == old(conn) && x == old(x) && arrived == old(arrived) && cancelled == old(cancelled)
      ensures said == old(said) || (old(said) == [] && said == [Answer([], xOnly, "")])
      ensures said != old(said) <==> conn != null && !old(answered) && |xOnly| == COORD_LEN && old(conn.writes) > 0
      ensures r.Success? <==> said != old(said) && ToldUnlocked(arrived)
    {
      if conn == null || x == [] {
        return Failure("no recovery request to answer");
      }
      if ValidateChallengePoint(g, x).Failure? {
        return Failure("refusing the machine's challenge");
      }
      if answered {
        return Failure("this request has already been answered");
      }
      if |xOnly| != COORD_LEN {
        return Failure("expected a 32-byte x-coordinate");
      }
      var ok := conn.Write(Answer([], xOnly, ""));
      if !ok {
        return Failure("sending answer");
      }
      answered := true;
      said := said + [Answer([], xOnly, "")];
      var result := conn.Read();
      if result.None? {
        return Failure("answer sent, but the machine did not report the outcome");
      }
      if !(result.value.Verdict? && result.value.ok) {
        return Failure("the machine could not use the answer");
      }
      return Success(());
    }

    /** What AnswerWithScalar comes to say, if it gets to. */
    ghost predicate Answers(s: nat, expectedPublic: bytes)
      reads this
    {
      && Enrolled(g, s, expectedPublic) && Reply(g, s, true, x).Success?
      && |Reply(g, s, true, x).value.xOnly| == COORD_LEN
    }

    /** AnswerWithScalar: with a scalar that is not the one the phone was enrolled
        with, nothing is sent; otherwise what is sent is x(s.X) for the request. */
    method AnswerWithScalar(s: nat, expectedPublic: bytes) returns (r: Result<()>)
      requires Valid()
      modifies this, conn
      ensures Valid() && conn == old(conn) && x == old(x) && arrived == old(arrived) && cancelled == old(cancelled)
      ensures said != old(said) <==> conn != null && !old(answered) && Answers(s, expectedPublic) && old(conn.writes) > 0
      ensures said != old(said) ==> old(said) == [] && said == [Reply(g, s, true, x).value]
      ensures r.Success? <==> said != old(said) && ToldUnlocked(arrived)
    {
      if !Enrolled(g, s, expectedPublic) {
        return Failure("this phone's saved key does not belong to its public point");
      }
      if x == [] {
        return Failure("no recovery request to answer");
      }
      if ValidateChallengePoint(g, x).Failure? {
        return Failure("refusing the machine's challenge");
      }
      var product := ScalarMult(g, x, s);
      if product.Failure? {
        return Failure("key agreement");
      }
      var xOnly := PointToX(g, product.value);
      if xOnly.Failure? {
        return Failure("key agreement gave no point");
      }
      r := AnswerXOnly(xOnly.value);
    }

    /** Decline does not look whether the request was answered. */
    method Decline(reason: string) returns (ok: bool)
      requires Valid()
      modifies this, conn
      ensures Valid() && conn == old(conn) && x == old(x) && arrived == old(arrived) && cancelled == old(cancelled)
      ensures said == if ok then old(said) + [Declined(reason)] else old(said)
      ensures ok <==> conn != null && old(conn.writes) > 0
    {
      if conn == null {
        return false;
      }
      ok := conn.Write(Declined(reason));
      if ok {
        answered := true;
        said := said + [Declined(reason)];
      }
    }

    method Cancel()
      requires Valid()
      modifies this`cancelled
      ensures Valid() && cancelled
    {
      cancelled := true;
    }

    method Close()
      requires Valid()
      modifies this`cancelled, this`conn
      ensures Valid() && cancelled && conn == null
    {
      cancelled := true;
      conn := null;
    }
  }

  /** A decline, whatever its reason, ends the exchange on the machine: nothing is
      delivered and no outcome reported, whatever comes after it on the line. */
  lemma ADeclineIsTaken<P>(g: Group<P>, h: Header, tok: Token, peer: DeviceID, name: string, e: nat, writes: nat,
                           reason: string, rest: seq<Answer>, deliverable: bool)
    requires g.order > 0
    ensures var t := Exchanged(g, h, tok, peer, name, e, writes, [Declined(reason)] + rest, deliverable);
      !t.ok && t.delivered == [] && Verdicts(t.attempted) == 0
  {
    ReportsExactlyOnce(g, h, tok, peer, name, e, writes, [Declined(reason)] + rest, deliverable);
  }

  /** The phone's end of an exchange over one line. */
  function OnLine<P(==)>(g: Group<P>, line: Line, s: nat, expectedPublic: bytes): Holding {
    Held(g, s, true, Enrolled(g, s, expectedPublic), line.writes, line.incoming)
  }

  /** Connecting and then answering, as the app does. Whichever attempt gets
      through, what is sent and what the phone says of it are what any key holder
      comes to on that line; the line it was is `at`. */
  method UnlockWithPhone<P(==)>(g: Group<P>, attempts: seq<Dial>, s: nat, expectedPublic: bytes)
    returns (at: Option<nat>, sent: seq<Answer>, unlocked: bool)
    ensures at.Some? <==> exists k: nat :: Reaches(g, attempts, k)
    ensures at.None? ==> sent == [] && !unlocked
    ensures at.Some? ==> FirstReached(g, attempts, at.value)
    ensures at.Some? ==> Holding(sent, unlocked) == OnLine(g, attempts[at.value].reached.value, s, expectedPublic)
  {
    var session := new Session(g);
    var connected := session.Connect(attempts);
    if connected.Failure? {
      return None, [], false;
    }
    at := Some(session.dials - 1);
    var r := session.AnswerWithScalar(s, expectedPublic);
    sent := if session.answered then session.conn.taken else [];
    unlocked := r.Success?;
  }
}
