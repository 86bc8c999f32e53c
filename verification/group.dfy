/** The prime-order group MR-1 runs over. */
module PrimeGroup {
  import opened Basics

  // Its laws (mrcore/group.go) and what follows from them. Points travel as byte
  // strings; P is what they decode to.

  datatype Group<!P> = Group(
    order: nat, zero: P, base: P,
    add: (P, P) -> P, neg: P -> P,
    encode: P -> bytes, decode: bytes -> Option<P>,
    x: P -> bytes, lift: bytes -> Option<(P, P)>)

  /** The length of an x-coordinate on the wire. */
  const COORD_LEN := 32

  /** k.p, by repeated addition. */
  function Mult<P>(g: Group<P>, k: nat, p: P): P {
    if k == 0 then g.zero else g.add(p, Mult(g, k - 1, p))
  }

  predicate OddPrime(n: nat) {
    n > 2 && forall d :: 1 < d < n ==> n % d != 0
  }

  // One law at one place each, so that a proof names the instances it uses.
  ghost predicate Associative<P>(g: Group<P>, a: P, b: P, c: P) {
    g.add(g.add(a, b), c) == g.add(a, g.add(b, c))
  }

  ghost predicate Commutative<P>(g: Group<P>, a: P, b: P) {
    g.add(a, b) == g.add(b, a)
  }

  ghost predicate Identity<P>(g: Group<P>, a: P) {
    g.add(g.zero, a) == a
  }

  ghost predicate Inverse<P>(g: Group<P>, a: P) {
    g.add(a, g.neg(a)) == g.zero
  }

  /** Every point but infinity has the prime order. */
  ghost predicate Torsion<P>(g: Group<P>, k: nat, a: P)
    requires g.order > 0
  {
    Mult(g, k, a) == g.zero <==> (a == g.zero || k % g.order == 0)
  }

  /** An x-coordinate names a point up to its sign. */
  ghost predicate SameX<P>(g: Group<P>, a: P, b: P) {
    a != g.zero && b != g.zero ==> (g.x(a) == g.x(b) <==> a == b || a == g.neg(b))
  }

  ghost predicate Codec<P>(g: Group<P>, a: P) {
    g.encode(a) != [] && |g.x(a)| == COORD_LEN && g.decode(g.encode(a)) == Some(a)
  }

  /** Lifting an x-coordinate gives both points that have it, in some order. */
  ghost predicate Lifts<P>(g: Group<P>, a: P) {
    a != g.zero ==> g.lift(g.x(a)) == Some((a, g.neg(a))) || g.lift(g.x(a)) == Some((g.neg(a), a))
  }

  ghost predicate Laws<P(!new)>(g: Group<P>) {
    && OddPrime(g.order)
    && g.base != g.zero
    && (forall a, b, c :: Associative(g, a, b, c))
    && (forall a, b :: Commutative(g, a, b))
    && (forall a :: Identity(g, a))
    && (forall a :: Inverse(g, a))
    && (forall k: nat, a :: Torsion(g, k, a))
    && (forall a, b :: SameX(g, a, b))
    && (forall a :: Codec(g, a))
    && (forall a :: Lifts(g, a))
  }

  // ---- consequences ----

  lemma ZeroRight<P(!new)>(g: Group<P>, a: P)
    requires Laws(g)
    ensures g.add(a, g.zero) == a
  {
    assert Commutative(g, a, g.zero) && Identity(g, a);
  }

  /** What can be added to a to give b is unique. */
  lemma Cancel<P(!new)>(g: Group<P>, a: P, b: P, c: P)
    requires Laws(g) && g.add(a, b) == g.add(a, c)
    ensures b == c
  {
    var n := g.neg(a);
    assert Inverse(g, a) && Commutative(g, a, n);
    assert Associative(g, n, a, b) && Associative(g, n, a, c);
    assert Identity(g, b) && Identity(g, c);
  }

  lemma NegUnique<P(!new)>(g: Group<P>, a: P, b: P)
    requires Laws(g) && g.add(a, b) == g.zero
    ensures b == g.neg(a)
  {
    assert Inverse(g, a);
    Cancel(g, a, b, g.neg(a));
  }

  lemma NegNeg<P(!new)>(g: Group<P>, a: P)
    requires Laws(g)
    ensures g.neg(g.neg(a)) == a
  {
    assert Inverse(g, a) && Commutative(g, a, g.neg(a));
    NegUnique(g, g.neg(a), a);
  }

  lemma NegZero<P(!new)>(g: Group<P>)
    requires Laws(g)
    ensures g.neg(g.zero) == g.zero
  {
    assert Identity(g, g.zero);
    NegUnique(g, g.zero, g.zero);
  }

  /** (a + b) + (c + d) == (a + c) + (b + d) */
  lemma Interchange<P(!new)>(g: Group<P>, a: P, b: P, c: P, d: P)
    requires Laws(g)
    ensures g.add(g.add(a, b), g.add(c, d)) == g.add(g.add(a, c), g.add(b, d))
  {
    assert Associative(g, a, b, g.add(c, d)) && Associative(g, b, c, d);
    assert Commutative(g, b, c);
    assert Associative(g, c, b, d) && Associative(g, a, c, g.add(b, d));
  }

  /** -(a + b) == -a + -b */
  lemma NegAdd<P(!new)>(g: Group<P>, a: P, b: P)
    requires Laws(g)
    ensures g.neg(g.add(a, b)) == g.add(g.neg(a), g.neg(b))
  {
    Interchange(g, a, b, g.neg(a), g.neg(b));
    assert Inverse(g, a) && Inverse(g, b) && Identity(g, g.zero);
    NegUnique(g, g.add(a, b), g.add(g.neg(a), g.neg(b)));
  }

  /** (a + b) - b == a */
  lemma AddThenSubtract<P(!new)>(g: Group<P>, a: P, b: P)
    requires Laws(g)
    ensures g.add(g.add(a, b), g.neg(b)) == a
  {
    assert Associative(g, a, b, g.neg(b)) && Inverse(g, b);
    ZeroRight(g, a);
  }

  /** (a - b) + b == a */
  lemma SubtractThenAdd<P(!new)>(g: Group<P>, a: P, b: P)
    requires Laws(g)
    ensures g.add(g.add(a, g.neg(b)), b) == a
  {
    AddThenSubtract(g, a, g.neg(b));
    NegNeg(g, b);
  }

  lemma {:induction false} MultZero<P(!new)>(g: Group<P>, k: nat)
    requires Laws(g)
    ensures Mult(g, k, g.zero) == g.zero
  {
    if k > 0 {
      MultZero(g, k - 1);
      assert Identity(g, g.zero);
    }
  }

  lemma {:induction false} MultOfSum<P(!new)>(g: Group<P>, k: nat, a: P, b: P)
    requires Laws(g)
    ensures Mult(g, k, g.add(a, b)) == g.add(Mult(g, k, a), Mult(g, k, b))
  {
    if k == 0 {
      assert Identity(g, g.zero);
    } else {
      MultOfSum(g, k - 1, a, b);
      Interchange(g, a, b, Mult(g, k - 1, a), Mult(g, k - 1, b));
    }
  }

  /** j.(k.p) == k.(j.p): what two parties do separately agrees. */
  lemma {:induction false} MultCommutes<P(!new)>(g: Group<P>, j: nat, k: nat, p: P)
    requires Laws(g)
    ensures Mult(g, j, Mult(g, k, p)) == Mult(g, k, Mult(g, j, p))
  {
    if j == 0 {
      MultZero(g, k);
    } else {
      MultCommutes(g, j - 1, k, p);
      MultOfSum(g, k, p, Mult(g, j - 1, p));
    }
  }

  lemma {:induction false} MultPlus<P(!new)>(g: Group<P>, j: nat, k: nat, p: P)
    requires Laws(g)
    ensures Mult(g, j + k, p) == g.add(Mult(g, j, p), Mult(g, k, p))
  {
    if j == 0 {
      assert Identity(g, Mult(g, k, p));
    } else {
      MultPlus(g, j - 1, k, p);
      assert Associative(g, p, Mult(g, j - 1, p), Mult(g, k, p));
    }
  }

  /** Multiplying by the order minus one is negation. */
  lemma MultOrderMinusOne<P(!new)>(g: Group<P>, p: P)
    requires Laws(g)
    ensures Mult(g, g.order - 1, p) == g.neg(p)
  {
    assert Torsion(g, g.order, p);
    NegUnique(g, p, Mult(g, g.order - 1, p));
  }

  /** No point but infinity is its own negative, the order being odd. */
  lemma NoTwoTorsion<P(!new)>(g: Group<P>, p: P)
    requires Laws(g) && g.add(p, p) == g.zero
    ensures p == g.zero
  {
    ZeroRight(g, p);
    assert Mult(g, 1, p) == g.add(p, Mult(g, 0, p)) == p;
    assert Mult(g, 2, p) == g.add(p, Mult(g, 1, p));
    assert Torsion(g, 2, p);
    assert 2 % g.order == 2;
  }

  lemma MultNonzero<P(!new)>(g: Group<P>, k: nat, p: P)
    requires Laws(g) && 0 < k < g.order && p != g.zero
    ensures Mult(g, k, p) != g.zero
  {
    assert Torsion(g, k, p);
    assert k % g.order == k;
  }

  lemma NegNonzero<P(!new)>(g: Group<P>, p: P)
    requires Laws(g) && p != g.zero
    ensures g.neg(p) != g.zero
  {
    if g.neg(p) == g.zero {
      NegNeg(g, p);
      NegZero(g);
    }
  }
}
