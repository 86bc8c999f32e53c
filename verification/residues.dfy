/** A group to be sure of. */
module Residues {
  import opened Basics
  import opened PrimeGroup

  // The integers modulo an odd prime, with x(p) = min(p, n - p): a group that
  // satisfies the laws MR-1 is proved from, so they are consistent and hold of
  // something. The prime is any one whose residues fit a coordinate.

  type FieldOrder = n: nat | OddPrime(n) && n < Pow256(32) witness FIVE()

  lemma FiveIsOddPrime()
    ensures OddPrime(5) && 5 < Pow256(32)
  {
    forall d | 1 < d < 5
      ensures 5 % d != 0
    {
      if d == 2 {
      } else if d == 3 {
      } else {
        assert d == 4;
      }
    }
  }

  function FIVE(): (n: nat)
    ensures OddPrime(n) && n < Pow256(32)
  {
    FiveIsOddPrime();
    5
  }

  /** Arbitrary but fixed. */
  const N: FieldOrder

  type Residue = p: int | 0 <= p < N witness 0

  function AddMod(p: Residue, q: Residue): Residue {
    if p + q < N then p + q else p + q - N
  }

  function NegMod(p: Residue): Residue {
    if p == 0 then 0 else N - p
  }

  function XOf(p: Residue): bytes {
    BigEndian(Min(p, N - p), COORD_LEN)
  }

  /** The point with the smaller representative counts as the even one. */
  function LiftResidue(x: bytes): Option<(Residue, Residue)> {
    if |x| == 32 && 0 < Value(x) < N - Value(x) then Some((Value(x), N - Value(x))) else None
  }

  /** Infinity is a single zero byte, any other point 0x04 and 64 bytes. */
  function EncodeResidue(p: Residue): bytes {
    if p == 0 then [0] else [4] + BigEndian(p, 64)
  }

  /** Both spellings of a point are read: uncompressed, and 0x02 or 0x03 before
      an x-coordinate. */
  function DecodeResidue(s: bytes): Option<Residue> {
    if s == [0] then Some(0)
    else if |s| == 65 && s[0] == 4 && 0 < Value(s[1..]) < N then Some(Value(s[1..]))
    else if |s| == 33 && (s[0] == 2 || s[0] == 3) then
      match LiftResidue(s[1..])
      case None => None
      case Some((even, odd)) => Some(if s[0] == 2 then even else odd)
    else None
  }

  const Zn: Group<Residue> :=
    Group(N, 0, 1, AddMod, NegMod, EncodeResidue, DecodeResidue, XOf, LiftResidue)

  lemma {:induction false} Pow256Monotone(a: nat, b: nat)
    requires a <= b
    ensures Pow256(a) <= Pow256(b)
  {
    if a < b {
      Pow256Monotone(a, b - 1);
    }
  }

  /** Euclid's lemma, by descent on the smaller factor; v names the product. */
  lemma {:induction false} Euclid(n: nat, a: nat, b: nat, v: nat)
    requires OddPrime(n) && 0 < a < n && v == a * b && v % n == 0
    ensures b % n == 0
    decreases a
  {
    if a > 1 {
      var q, r, m := n / a, n % a, v / n;
      assert r != 0;
      assert r * b == n * (b - q * m) by {
        assert r == n - q * a;
        assert v == n * m;
        assert (n - q * a) * b == n * b - q * (a * b);
        assert q * (n * m) == n * (q * m);
        assert n * b - n * (q * m) == n * (b - q * m);
      }
      MultipleMod(r * b, n, b - q * m);
      Euclid(n, r, b, r * b);
    }
  }

  lemma ProductDivisible(n: nat, k: nat, a: nat, v: nat)
    requires OddPrime(n) && 0 < a < n && v == k * a
    ensures v % n == 0 <==> k % n == 0
  {
    if v % n == 0 {
      Euclid(n, a, k, v);
    }
    if k % n == 0 {
      var q := k / n;
      assert v == n * (q * a);
      MultipleMod(v, n, q * a);
    }
  }

  lemma MultipleMod(v: nat, n: nat, k: int)
    requires n > 0 && v == n * k
    ensures v % n == 0
  {
    if k >= 0 {
      QuotientIs(v, n, k, 0);
    }
  }

  lemma MultStep(k: nat, p: Residue)
    requires k > 0
    ensures Mult(Zn, k, p) == AddMod(p, Mult(Zn, k - 1, p))
  {
  }

  lemma ProductStep(k: nat, p: nat)
    requires k > 0
    ensures (k - 1) * p >= 0 && k * p == (k - 1) * p + p
  {
  }

  /** Stated of the product v by name, to keep % away from a product. */
  lemma {:induction false} MultIsProduct(k: nat, p: Residue, v: nat)
    requires v == k * p
    ensures Mult(Zn, k, p) == v % N
  {
    if k == 0 {
      assert v == 0;
    } else {
      ProductStep(k, p);
      MultIsProduct(k - 1, p, v - p);
      MultNext(k, p, v - p);
    }
  }

  lemma MultNext(k: nat, p: Residue, before: nat)
    requires k > 0 && Mult(Zn, k - 1, p) == before % N
    ensures Mult(Zn, k, p) == (before + p) % N
  {
    MultStep(k, p);
    AddThenReduce(before, p, N);
  }

  lemma AddThenReduce(a: nat, p: nat, n: nat)
    requires p < n
    ensures (a + p) % n == if a % n + p < n then a % n + p else a % n + p - n
  {
    AddThenCarry(a, p, n, a / n, a % n);
  }

  lemma AddThenCarry(a: nat, p: nat, n: nat, q: nat, r: nat)
    requires p < n && r < n && a == n * q + r
    ensures (a + p) % n == if r + p < n then r + p else r + p - n
  {
    if r + p < n {
      QuotientIs(a + p, n, q, r + p);
    } else {
      assert n * (q + 1) == n * q + n;
      QuotientIs(a + p, n, q + 1, r + p - n);
    }
  }

  lemma ZeroProduct(k: nat, v: nat)
    requires v == k * 0
    ensures v == 0
  {
  }

  lemma VanishingMultiple(k: nat, a: Residue, v: nat)
    requires v == k * a
    ensures Mult(Zn, k, a) == 0 <==> a == 0 || k % N == 0
  {
    MultIsProduct(k, a, v);
    if a > 0 {
      ProductDivisible(N, k, a, v);
    } else {
      ZeroProduct(k, v);
    }
  }

  lemma TorsionHolds(k: nat, a: Residue)
    ensures Torsion(Zn, k, a)
  {
    VanishingMultiple(k, a, k * a);
  }

  lemma XRoundTrip(a: Residue)
    ensures Value(XOf(a)) == Min(a, N - a)
  {
    BigEndianRoundTrip(Min(a, N - a), COORD_LEN);
  }

  lemma CodecHolds(a: Residue)
    ensures Codec(Zn, a)
  {
    if a != 0 {
      Pow256Monotone(32, 64);
      BigEndianRoundTrip(a, 64);
      var s := EncodeResidue(a);
      assert s[1..] == BigEndian(a, 64);
    }
  }

  /** N is odd, so no residue is its own negative. */
  lemma LiftsHolds(a: Residue)
    ensures Lifts(Zn, a)
  {
    XRoundTrip(a);
    assert N % 2 != 0;
    assert a + a != N;
  }

  lemma ResiduesObeyTheLaws()
    ensures Laws(Zn)
  {
    forall a: Residue, b: Residue, c: Residue ensures Associative(Zn, a, b, c) {
    }
    forall k: nat, a: Residue ensures Torsion(Zn, k, a) {
      TorsionHolds(k, a);
    }
    forall a: Residue, b: Residue ensures SameX(Zn, a, b) {
      XRoundTrip(a);
      XRoundTrip(b);
    }
    forall a: Residue ensures Codec(Zn, a) && Lifts(Zn, a) {
      CodecHolds(a);
      LiftsHolds(a);
    }
    forall a: Residue, b: Residue ensures Commutative(Zn, a, b) && Identity(Zn, a) && Inverse(Zn, a) {
    }
  }
}
