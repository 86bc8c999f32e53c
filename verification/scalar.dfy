/** Private scalars. */
module Scalar {
  import opened Basics

  // mrcore/group.go: the branch-free range check on a private scalar, and the rejection sampling that
  // draws one.

  /** uint16 arithmetic: a difference below zero wraps. */
  function WrapUint16(x: int): (w: int)
    ensures 0 <= w < 0x1_0000
  {
    x % 0x1_0000
  }

  lemma BorrowIsLess(a: byte, b: byte, borrow: int)
    requires 0 <= borrow <= 1
    ensures (WrapUint16(a as int - b as int - borrow) / 0x8000) % 2 == if a < b + borrow then 1 else 0
  {
    var d := a as int - b as int - borrow;
    if d < 0 {
      assert WrapUint16(d) == d + 0x1_0000;
    } else {
      assert WrapUint16(d) == d;
    }
  }

  lemma {:induction false} ValueOfSuffix(s: bytes, i: nat)
    requires i < |s|
    ensures Value(s[i..]) == s[i] * Pow256(|s| - i - 1) + Value(s[i + 1..])
  {
    var t := s[i..];
    if |t| == 1 {
      assert t[..0] == [] && s[i + 1..] == [];
      assert Value(t) == 256 * Value(t[..0]) + t[0];
    } else {
      var short := s[..|s| - 1];
      ValueOfSuffix(short, i);
      assert t[..|t| - 1] == short[i..];
      assert s[i + 1..][..|s| - i - 2] == short[i + 1..];
      assert s[i + 1..][|s| - i - 2] == s[|s| - 1] == t[|t| - 1];
      assert Pow256(|s| - i - 1) == 256 * Pow256(|s| - i - 2);
      var p := Pow256(|s| - i - 2);
      assert 256 * (s[i] * p) == s[i] * (256 * p);
    }
  }

  /** A digit that is smaller outweighs anything below it. */
  lemma DigitDecides(a: nat, b: nat, p: nat, low: nat, high: nat)
    requires a < b && low < p
    ensures a * p + low < b * p + high
  {
    assert (a + 1) * p <= b * p;
  }

  lemma BorrowStep(s: bytes, n: bytes, i: nat, borrow: int)
    requires |s| == |n| && i < |s|
    requires borrow == if Value(s[i + 1..]) < Value(n[i + 1..]) then 1 else 0
    ensures (s[i] < n[i] + borrow) <==> Value(s[i..]) < Value(n[i..])
  {
    ValueOfSuffix(s, i);
    ValueOfSuffix(n, i);
    ValueBound(s[i + 1..]);
    ValueBound(n[i + 1..]);
    var p, low, high := Pow256(|s| - i - 1), Value(s[i + 1..]), Value(n[i + 1..]);
    if s[i] < n[i] {
      DigitDecides(s[i], n[i], p, low, high);
    } else if n[i] < s[i] {
      DigitDecides(n[i], s[i], p, high, low);
    }
  }

  /** The byte loop of scalarInRange: `nonzero |= s[i]`, and the borrow chain
      in uint16. It refines the comparison of the two big-endian numbers. */
  method ScalarInRange(s: bytes, n: bytes) returns (ok: bool)
    ensures ok <==> |s| == |n| && 0 < Value(s) < Value(n)
  {
    if |s| != |n| {
      return false;
    }
    var nonzero: bv8 := 0;
    var borrow := 0;
    var i := |s|;
    assert s[|s|..] == [] && n[|n|..] == [];
    while i > 0
      invariant 0 <= i <= |s| && 0 <= borrow <= 1
      invariant borrow == if Value(s[i..]) < Value(n[i..]) then 1 else 0
      invariant nonzero != 0 <==> Value(s[i..]) > 0
    {
      i := i - 1;
      nonzero := nonzero | (s[i] as bv8);
      var d := WrapUint16(s[i] as int - n[i] as int - borrow);
      BorrowIsLess(s[i], n[i], borrow);
      BorrowStep(s, n, i, borrow);
      NonzeroStep(s, i);
      borrow := (d / 0x8000) % 2;
    }
    assert s[0..] == s && n[0..] == n;
    ok := nonzero != 0 && borrow == 1;
  }

  lemma NonzeroStep(s: bytes, i: nat)
    requires i < |s|
    ensures Value(s[i..]) > 0 <==> s[i] != 0 || Value(s[i + 1..]) > 0
  {
    ValueOfSuffix(s, i);
    var p := Pow256(|s| - i - 1);
    if s[i] > 0 {
      assert s[i] * p >= p;
    }
  }

  /** n, the order of P-256, big-endian. */
  const P256_ORDER: bytes := [
    0xFF, 0xFF, 0xFF, 0xFF, 0x00, 0x00, 0x00, 0x00, 0xFF, 0xFF, 0xFF, 0xFF, 0xFF, 0xFF, 0xFF, 0xFF,
    0xBC, 0xE6, 0xFA, 0xAD, 0xA7, 0x17, 0x9E, 0x84, 0xF3, 0xB9, 0xCA, 0xC2, 0xFC, 0x63, 0x25, 0x51]

  /** What counts as a private key: 32 bytes, in [1, n-1]. */
  predicate UsableScalar(s: bytes) {
    |s| == 32 && 0 < Value(s) < Value(P256_ORDER)
  }

  method ValidatePrivateScalar(scalar: bytes) returns (r: Result<()>)
    ensures r.Success? <==> UsableScalar(scalar)
  {
    if |scalar| != 32 {
      return Failure("a P-256 scalar is 32 bytes");
    }
    var ok := ScalarInRange(scalar, P256_ORDER);
    if !ok {
      return Failure("scalar is not in [1, n-1]");
    }
    return Success(());
  }

  /** randomScalarFrom over a finite reader: 32 bytes at a time, until one draw
      is in range or the reader has no 32 bytes left. */
  method RandomScalarFrom(reader: bytes) returns (r: Result<bytes>, draws: nat)
    ensures 32 * draws <= |reader|
    ensures r.Success? ==> draws > 0 && r.value == reader[32 * (draws - 1)..32 * draws] && UsableScalar(r.value)
    ensures r.Success? ==> forall k: nat :: k < draws - 1 ==> !UsableScalar(reader[32 * k..32 * k + 32])
    ensures r.Failure? ==> forall k: nat :: k < draws ==> !UsableScalar(reader[32 * k..32 * k + 32])
    ensures r.Failure? ==> |reader| < 32 * draws + 32
  {
    draws := 0;
    while 32 * draws + 32 <= |reader|
      invariant 32 * draws <= |reader|
      invariant forall k: nat :: k < draws ==> !UsableScalar(reader[32 * k..32 * k + 32])
    {
      var buf := reader[32 * draws..32 * draws + 32];
      draws := draws + 1;
      if 0 < Value(buf) < Value(P256_ORDER) {
        return Success(buf), draws;
      }
    }
    return Failure("random scalar: the reader ran out"), draws;
  }

  /** The sampler can return every scalar the check accepts, and by its contract
      nothing else: given a reader that starts with a usable scalar, it is the
      very one drawn, whatever follows. */
  method EveryUsableScalarCanBeDrawn(scalar: bytes, rest: bytes) returns (drawn: bytes)
    requires UsableScalar(scalar)
    ensures drawn == scalar
  {
    var reader := scalar + rest;
    var r, draws := RandomScalarFrom(reader);
    assert reader[32 * 0..32 * 0 + 32] == scalar;
    drawn := r.value;
  }
}
