/** mrcore/mr1.go: enrolment and recovery. */
module Mr1 {
  import opened Basics
  import opened PrimeGroup

  // Enrolling a key holder and recovering the volume secret with its help, over any
  // prime-order group. SHA-256, HKDF and AES-256-GCM are symbolic: a digest or key is
  // equal to another only if made from the same input, and a box opens under the key
  // and nonce that sealed it, only.

  const SECRET_LEN := 32
  const NONCE_LEN := 12

  /** A transport Device ID as a person may write it: one identity in some
      spelling, spelling 0 being the canonical one, or text that is none. */
  datatype DeviceID = Spelled(identity: nat, spelling: nat) | Text(text: string)
  {
    function Canonical(): Option<DeviceID> {
      if Spelled? then Some(Spelled(identity, 0)) else None
    }

    function CanonicalOrRaw(): DeviceID {
      if Spelled? then Spelled(identity, 0) else this
    }
  }

  datatype Digest = Sha256(of: bytes) | OtherDigest(raw: bytes)

  datatype AeadKey = Hkdf(x: bytes, kid: Digest)

  datatype Box = Sealed(key: AeadKey, nonce: bytes, plaintext: bytes) | Garbled

  datatype Recipient = Recipient(kid: Digest, s: bytes, c: bytes, ciphertext: Box, nonce: bytes, transport: Option<DeviceID>)

  // ---- the Group interface on encoded points ----

  function ScalarMult<P>(g: Group<P>, point: bytes, k: nat): Result<bytes> {
    match g.decode(point)
    case None => Failure("invalid point")
    case Some(p) => Success(g.encode(Mult(g, k, p)))
  }

  function ScalarBaseMult<P>(g: Group<P>, k: nat): bytes {
    g.encode(Mult(g, k, g.base))
  }

  function Add<P>(g: Group<P>, a: bytes, b: bytes): Result<bytes> {
    match (g.decode(a), g.decode(b))
    case (Some(p), Some(q)) => Success(g.encode(g.add(p, q)))
    case _ => Failure("invalid point")
  }

  /** Only the uncompressed spelling is taken; the negation itself is a
      multiplication by the order minus one. */
  function Negate<P>(g: Group<P>, point: bytes): Result<bytes>
    requires g.order > 0
  {
    match g.decode(point)
    case None => Failure("invalid point")
    case Some(p) =>
      if g.encode(p) != point then Failure("negate requires an uncompressed point")
      else Success(g.encode(Mult(g, g.order - 1, p)))
  }

  function PointToX<P(==)>(g: Group<P>, point: bytes): Result<bytes> {
    match g.decode(point)
    case None => Failure("invalid point")
    case Some(p) => if p == g.zero then Failure("point to x") else Success(g.x(p))
  }

  function LiftX<P>(g: Group<P>, x: bytes): Result<(bytes, bytes)> {
    match g.lift(x)
    case None => Failure("x is not a valid x-coordinate")
    case Some((even, odd)) => Success((g.encode(even), g.encode(odd)))
  }

  // ---- the protocol ----

  function DeriveKey<P(==)>(g: Group<P>, k: bytes, kid: Digest): Result<AeadKey> {
    match PointToX(g, k)
    case Failure(reason) => Failure(reason)
    case Success(x) => Success(Hkdf(x, kid))
  }

  function AeadOpen(key: AeadKey, nonce: bytes, box: Box): Result<bytes> {
    if |nonce| != NONCE_LEN then Failure("invalid nonce length")
    else if box.Sealed? && box.key == key && box.nonce == nonce then Success(box.plaintext)
    else Failure("authentication failed")
  }

  /** What Enrol draws at random: the volume secret, the ephemeral scalar and
      the AEAD nonce. */
  datatype Draw = Draw(secret: bytes, c: nat, nonce: bytes)

  predicate ProperDraw<P>(g: Group<P>, d: Draw) {
    |d.secret| == SECRET_LEN && 0 < d.c < g.order && |d.nonce| == NONCE_LEN
  }

  function Enrol<P(==)>(g: Group<P>, s: bytes, d: Draw): Result<(bytes, Recipient)> {
    match ScalarMult(g, s, d.c)
    case Failure(reason) => Failure(reason)
    case Success(k) =>
      var kid := Sha256(s);
      match DeriveKey(g, k, kid)
      case Failure(reason) => Failure(reason)
      case Success(key) =>
        Success((d.secret, Recipient(kid, s, ScalarBaseMult(g, d.c), Sealed(key, d.nonce, d.secret), d.nonce, None)))
  }

  function ValidateChallengePoint<P(==)>(g: Group<P>, x: bytes): Result<()> {
    if x == [] then Failure("challenge point is empty")
    else if g.decode(x) == Some(g.zero) then Failure("challenge point is the point at infinity")
    else match PointToX(g, x)
      case Failure(_) => Failure("challenge point is not a valid curve point")
      case Success(_) => Success(())
  }

  /** X = C + E for the ephemeral scalar e. */
  function ChallengeStart<P>(g: Group<P>, c: bytes, e: nat): Result<bytes> {
    Add(g, c, ScalarBaseMult(g, e))
  }

  function FinishWithY<P(==)>(g: Group<P>, rec: Recipient, eS: bytes, y: bytes): Result<bytes>
    requires g.order > 0
  {
    match Negate(g, eS)
    case Failure(reason) => Failure(reason)
    case Success(negEs) =>
      match Add(g, y, negEs)
      case Failure(reason) => Failure(reason)
      case Success(k') =>
        match DeriveKey(g, k', rec.kid)
        case Failure(reason) => Failure(reason)
        case Success(key) => AeadOpen(key, rec.nonce, rec.ciphertext)
  }

  function FinishFullPoint<P(==)>(g: Group<P>, e: nat, rec: Recipient, y: bytes): Result<bytes>
    requires g.order > 0
  {
    match ScalarMult(g, rec.s, e)
    case Failure(reason) => Failure(reason)
    case Success(eS) => FinishWithY(g, rec, eS, y)
  }

  function FinishXOnly<P(==)>(g: Group<P>, e: nat, rec: Recipient, xOnly: bytes): Result<bytes>
    requires g.order > 0
  {
    match ScalarMult(g, rec.s, e)
    case Failure(reason) => Failure(reason)
    case Success(eS) =>
      match LiftX(g, xOnly)
      case Failure(reason) => Failure(reason)
      case Success((even, odd)) =>
        match FinishWithY(g, rec, eS, even)
        case Success(p) => Success(p)
        case Failure(_) => FinishWithY(g, rec, eS, odd)
  }

  // ---- what it is for ----

  /** One enrolled recipient and one recovery attempt: the holder's scalar s, the
      enrolment's draw d, the attempt's scalar e. */
  predicate Attempt<P(==)>(g: Group<P>, s: nat, d: Draw, e: nat, rec: Recipient) {
    && 0 < s < g.order && 0 < e < g.order
    && ProperDraw(g, d)
    && Enrol(g, ScalarBaseMult(g, s), d) == Success((d.secret, rec))
  }

  lemma EnrolWorks<P(!new)>(g: Group<P>, s: nat, d: Draw)
    requires Laws(g) && 0 < s < g.order && ProperDraw(g, d)
    ensures Enrol(g, ScalarBaseMult(g, s), d).Success?
  {
    var bigS := Mult(g, s, g.base);
    assert Codec(g, bigS) && Codec(g, Mult(g, d.c, bigS));
    MultNonzero(g, s, g.base);
    MultNonzero(g, d.c, bigS);
  }

  /** The points of an attempt, named as in the protocol's description. */
  ghost function KeyPoint<P>(g: Group<P>, s: nat, d: Draw): P {
    Mult(g, d.c, Mult(g, s, g.base))
  }

  ghost function BlindPoint<P>(g: Group<P>, s: nat, e: nat): P {
    Mult(g, e, Mult(g, s, g.base))
  }

  ghost function AnswerPoint<P>(g: Group<P>, s: nat, d: Draw, e: nat): P {
    g.add(KeyPoint(g, s, d), BlindPoint(g, s, e))
  }

  /** s.(C + E) == c.S + e.S: the holder's answer, seen from the machine. */
  lemma AnswerIsSum<P(!new)>(g: Group<P>, s: nat, d: Draw, e: nat)
    requires Laws(g)
    ensures Mult(g, s, g.add(Mult(g, d.c, g.base), Mult(g, e, g.base))) == AnswerPoint(g, s, d, e)
  {
    MultOfSum(g, s, Mult(g, d.c, g.base), Mult(g, e, g.base));
    MultCommutes(g, s, d.c, g.base);
    MultCommutes(g, s, e, g.base);
  }

  lemma KeyPointNonzero<P(!new)>(g: Group<P>, s: nat, d: Draw, e: nat, rec: Recipient)
    requires Laws(g) && Attempt(g, s, d, e, rec)
    ensures KeyPoint(g, s, d) != g.zero && BlindPoint(g, s, e) != g.zero
  {
    MultNonzero(g, s, g.base);
    MultNonzero(g, d.c, Mult(g, s, g.base));
    MultNonzero(g, e, Mult(g, s, g.base));
  }

  /** The machine's last step on a decoded answer y opens the box exactly when
      y - e.S is the enrolment's key point up to sign. */
  lemma OpensIff<P(!new)>(g: Group<P>, s: nat, d: Draw, e: nat, rec: Recipient, y: P)
    requires Laws(g) && Attempt(g, s, d, e, rec)
    ensures var k' := g.add(y, g.neg(BlindPoint(g, s, e)));
      var r := FinishWithY(g, rec, g.encode(BlindPoint(g, s, e)), g.encode(y));
      && (r.Success? <==> k' == KeyPoint(g, s, d) || k' == g.neg(KeyPoint(g, s, d)))
      && (r.Success? ==> r.value == d.secret)
  {
    var eS, k := BlindPoint(g, s, e), KeyPoint(g, s, d);
    var k' := g.add(y, g.neg(eS));
    assert Codec(g, Mult(g, s, g.base)) && Codec(g, k);
    assert Codec(g, eS) && Codec(g, y) && Codec(g, g.neg(eS)) && Codec(g, k');
    MultOrderMinusOne(g, eS);
    KeyPointNonzero(g, s, d, e, rec);
    NegNonzero(g, k);
    assert SameX(g, k', k);
  }

  /** The first half of every recovery: e.S is computable from the entry. */
  lemma BlindFromEntry<P(!new)>(g: Group<P>, s: nat, d: Draw, e: nat, rec: Recipient)
    requires Laws(g) && Attempt(g, s, d, e, rec)
    ensures ScalarMult(g, rec.s, e) == Success(g.encode(BlindPoint(g, s, e)))
  {
    assert Codec(g, Mult(g, s, g.base));
  }

  /** A full point is accepted for exactly two values: the holder's own answer,
      and the one with the enrolment's share negated. Nothing else opens. */
  lemma FullPointAcceptance<P(!new)>(g: Group<P>, s: nat, d: Draw, e: nat, rec: Recipient, y: P)
    requires Laws(g) && Attempt(g, s, d, e, rec)
    ensures FinishFullPoint(g, e, rec, g.encode(y)).Success?
      <==> y == AnswerPoint(g, s, d, e) || y == g.add(g.neg(KeyPoint(g, s, d)), BlindPoint(g, s, e))
    ensures FinishFullPoint(g, e, rec, g.encode(y)).Success?
      ==> FinishFullPoint(g, e, rec, g.encode(y)) == Success(d.secret)
  {
    var eS, k := BlindPoint(g, s, e), KeyPoint(g, s, d);
    BlindFromEntry(g, s, d, e, rec);
    OpensIff(g, s, d, e, rec, y);
    SubtractThenAdd(g, y, eS);
    AddThenSubtract(g, k, eS);
    AddThenSubtract(g, g.neg(k), eS);
  }

  /** C + E is the point at infinity exactly when the two ephemeral scalars
      cancel, and that is the one challenge a key holder refuses. */
  lemma ChallengeRefusedIff<P(!new)>(g: Group<P>, s: nat, d: Draw, e: nat, rec: Recipient)
    requires Laws(g) && Attempt(g, s, d, e, rec)
    ensures ChallengeStart(g, rec.c, e) == Success(g.encode(g.add(Mult(g, d.c, g.base), Mult(g, e, g.base))))
    ensures ValidateChallengePoint(g, ChallengeStart(g, rec.c, e).value).Failure? <==> (d.c + e) % g.order == 0
    ensures g.add(Mult(g, d.c, g.base), Mult(g, e, g.base)) == g.zero <==> (d.c + e) % g.order == 0
  {
    var c, bigE := Mult(g, d.c, g.base), Mult(g, e, g.base);
    ChallengeIsSum(g, d.c, e);
    ValidUnlessZero(g, g.add(c, bigE));
  }

  lemma ChallengeIsSum<P(!new)>(g: Group<P>, c: nat, e: nat)
    requires Laws(g)
    ensures var sum := g.add(Mult(g, c, g.base), Mult(g, e, g.base));
      && ChallengeStart(g, ScalarBaseMult(g, c), e) == Success(g.encode(sum))
      && (sum == g.zero <==> (c + e) % g.order == 0)
  {
    assert Codec(g, Mult(g, c, g.base)) && Codec(g, Mult(g, e, g.base));
    MultPlus(g, c, e, g.base);
    assert Torsion(g, c + e, g.base);
  }

  lemma ValidUnlessZero<P(!new)>(g: Group<P>, p: P)
    requires Laws(g)
    ensures ValidateChallengePoint(g, g.encode(p)).Failure? <==> p == g.zero
  {
    assert Codec(g, p);
  }

  /** Recovery with the full point returns exactly the enrolled secret. */
  lemma RecoverFullPoint<P(!new)>(g: Group<P>, s: nat, d: Draw, e: nat, rec: Recipient)
    requires Laws(g) && Attempt(g, s, d, e, rec)
    ensures var x := ChallengeStart(g, rec.c, e);
      x.Success? && var y := ScalarMult(g, x.value, s);
      y.Success? && FinishFullPoint(g, e, rec, y.value) == Success(d.secret)
  {
    ChallengeRefusedIff(g, s, d, e, rec);
    var x := g.add(Mult(g, d.c, g.base), Mult(g, e, g.base));
    assert Codec(g, x);
    AnswerIsSum(g, s, d, e);
    FullPointAcceptance(g, s, d, e, rec, AnswerPoint(g, s, d, e));
  }

  /** The candidate with the wrong sign gives another key, or none at all: it
      never opens the box, the order being odd and C + E not at infinity. */
  lemma WrongSignNeverOpens<P(!new)>(g: Group<P>, s: nat, d: Draw, e: nat, rec: Recipient)
    requires Laws(g) && Attempt(g, s, d, e, rec) && (d.c + e) % g.order != 0
    ensures FinishWithY(g, rec, g.encode(BlindPoint(g, s, e)), g.encode(g.neg(AnswerPoint(g, s, d, e)))).Failure?
  {
    var eS, k, y := BlindPoint(g, s, e), KeyPoint(g, s, d), AnswerPoint(g, s, d, e);
    var k' := g.add(g.neg(y), g.neg(eS));
    OpensIff(g, s, d, e, rec, g.neg(y));
    KeyPointNonzero(g, s, d, e, rec);
    NegAdd(g, y, eS);
    if k' == g.neg(k) {
      // -(k + eS + eS) == -k, so eS + eS is nothing.
      NegNeg(g, k);
      NegNeg(g, g.add(y, eS));
      assert Associative(g, k, eS, eS);
      ZeroRight(g, k);
      Cancel(g, k, g.add(eS, eS), g.zero);
      NoTwoTorsion(g, eS);
      assert false;
    }
    if k' == k {
      // -(y + eS) == y - eS, so y is its own negative, so the challenge was infinity.
      AddThenSubtract(g, k, eS);
      assert Commutative(g, g.neg(y), g.neg(eS)) && Commutative(g, y, g.neg(eS));
      Cancel(g, g.neg(eS), g.neg(y), y);
      assert Inverse(g, y);
      NoTwoTorsion(g, y);
      AnswerIsSum(g, s, d, e);
      ChallengeRefusedIff(g, s, d, e, rec);
      MultNonzero(g, s, g.add(Mult(g, d.c, g.base), Mult(g, e, g.base)));
      assert false;
    }
  }

  /** Recovery with only the x-coordinate returns exactly the enrolled secret,
      whichever of the two candidates is the right one, and a failure on the
      even candidate never stops the odd one. */
  lemma RecoverXOnly<P(!new)>(g: Group<P>, s: nat, d: Draw, e: nat, rec: Recipient)
    requires Laws(g) && Attempt(g, s, d, e, rec) && (d.c + e) % g.order != 0
    ensures var x := ChallengeStart(g, rec.c, e);
      x.Success? && var y := ScalarMult(g, x.value, s);
      y.Success? && var answer := PointToX(g, y.value);
      answer.Success? && FinishXOnly(g, e, rec, answer.value) == Success(d.secret)
  {
    var x := g.add(Mult(g, d.c, g.base), Mult(g, e, g.base));
    var y := AnswerPoint(g, s, d, e);
    ChallengeRefusedIff(g, s, d, e, rec);
    AnswerIsSum(g, s, d, e);
    assert Codec(g, x) && Codec(g, y) && Lifts(g, y);
    MultNonzero(g, s, x);
    BlindFromEntry(g, s, d, e, rec);
    FullPointAcceptance(g, s, d, e, rec, y);
    WrongSignNeverOpens(g, s, d, e, rec);
  }

  /** All an x-coordinate can ever open, for every point y it may be the
      x-coordinate of: it is taken if y or -y would have been taken in full, and
      what comes out is the enrolled secret and nothing else. */
  lemma XOnlyAcceptance<P(!new)>(g: Group<P>, s: nat, d: Draw, e: nat, rec: Recipient, y: P)
    requires Laws(g) && Attempt(g, s, d, e, rec) && y != g.zero
    ensures FinishXOnly(g, e, rec, g.x(y)).Success?
      <==> FinishFullPoint(g, e, rec, g.encode(y)).Success? || FinishFullPoint(g, e, rec, g.encode(g.neg(y))).Success?
    ensures FinishXOnly(g, e, rec, g.x(y)).Success? ==> FinishXOnly(g, e, rec, g.x(y)) == Success(d.secret)
  {
    assert Lifts(g, y);
    BlindFromEntry(g, s, d, e, rec);
    OpensIff(g, s, d, e, rec, y);
    OpensIff(g, s, d, e, rec, g.neg(y));
  }

  /** Exactly the encodings of finite points are taken: as challenges, and as the
      public keys that are enrolled. */
  lemma OnlyFinitePointsAreTaken<P(!new)>(g: Group<P>, x: bytes, d: Draw)
    requires Laws(g) && ProperDraw(g, d)
    ensures var finite := g.decode(x).Some? && g.decode(x) != Some(g.zero);
      && (ValidateChallengePoint(g, x).Success? <==> x != [] && finite)
      && (PointToX(g, x).Success? <==> finite)
      && (Enrol(g, x, d).Success? <==> finite)
  {
    if g.decode(x).Some? {
      var p := g.decode(x).value;
      assert Codec(g, Mult(g, d.c, p));
      if p == g.zero {
        MultZero(g, d.c);
      } else {
        MultNonzero(g, d.c, p);
      }
    }
  }

  /** The blind is taken back only in the spelling it was made in. */
  lemma NegateIff<P(!new)>(g: Group<P>, point: bytes)
    requires Laws(g)
    ensures Negate(g, point).Success? <==> exists p :: point == g.encode(p)
    ensures Negate(g, point).Success? ==> g.decode(point).Some? && Negate(g, point).value == g.encode(g.neg(g.decode(point).value))
  {
    if Negate(g, point).Success? {
      var p := g.decode(point).value;
      assert point == g.encode(p);
      MultOrderMinusOne(g, p);
    }
    forall p | point == g.encode(p)
      ensures Negate(g, point).Success?
    {
      assert Codec(g, p);
    }
  }

  /** An entry whose key id, nonce or sealed box is not the one that was made opens for
      nobody, whatever is answered. */
  lemma AlteredEntryNeverOpens<P(!new)>(g: Group<P>, s: nat, d: Draw, e: nat, rec: Recipient, altered: Recipient, answer: bytes)
    requires Laws(g) && Attempt(g, s, d, e, rec)
    requires altered.ciphertext == rec.ciphertext && (altered.kid != rec.kid || altered.nonce != rec.nonce)
    ensures FinishFullPoint(g, e, altered, answer).Failure? && FinishXOnly(g, e, altered, answer).Failure?
  {
  }
}
