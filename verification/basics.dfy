/** What several modules share: Option and Result; bytes; the fixed-width encodings of a
    natural number, most or least significant byte first, that the wire, pairing and
    journal formats use, with what they decode to; and two functions over sequences, how
    many elements have a property and what all elements give one after the other, with
    the lemmas by which the concurrent models count and the readers of text collect. */
module Basics {
  datatype Option<+T> = None | Some(value: T)

  datatype Result<+T> = Success(value: T) | Failure(reason: string)

  /** One octet. */
  type byte = x: int | 0 <= x < 256 witness 0

  type bytes = seq<byte>

  function Min(a: int, b: int): (m: int)
    ensures m <= a && m <= b && (m == a || m == b)
  {
    if a < b then a else b
  }

  /** 256 to the power `width`. */
  function Pow256(width: nat): (p: nat)
    ensures p > 0
  {
    if width == 0 then 1 else 256 * Pow256(width - 1)
  }

  /** The number a big-endian byte string stands for. */
  function Value(s: bytes): nat {
    if s == [] then 0 else 256 * Value(s[..|s| - 1]) + s[|s| - 1]
  }

  /** The low `width` bytes of n, most significant first. */
  function BigEndian(n: nat, width: nat): (s: bytes)
    ensures |s| == width
  {
    if width == 0 then [] else BigEndian(n / 256, width - 1) + [n % 256]
  }

  /** The low `width` bytes of n, least significant first. */
  function LittleEndian(n: nat, width: nat): (s: bytes)
    ensures |s| == width
  {
    if width == 0 then [] else [n % 256] + LittleEndian(n / 256, width - 1)
  }

  /** The number a little-endian byte string stands for. */
  function ValueLE(s: bytes): nat {
    if s == [] then 0 else s[0] + 256 * ValueLE(s[1..])
  }

  /** How many elements of a sequence have a property. */
  function Count<T>(s: seq<T>, f: T -> bool): nat {
    if s == [] then 0 else (if f(s[0]) then 1 else 0) + Count(s[1..], f)
  }

  /** What every element gives, one after the other. */
  function Collect<A, B>(s: seq<A>, f: A -> seq<B>): seq<B> {
    if s == [] then [] else f(s[0]) + Collect(s[1..], f)
  }

  lemma {:induction false} CollectConcat<A, B>(a: seq<A>, b: seq<A>, f: A -> seq<B>)
    ensures Collect(a + b, f) == Collect(a, f) + Collect(b, f)
  {
    if a == [] {
      assert a + b == b;
    } else {
      assert (a + b)[1..] == a[1..] + b && (a + b)[0] == a[0];
      CollectConcat(a[1..], b, f);
    }
  }

  lemma CollectOne<A, B>(a: A, f: A -> seq<B>)
    ensures Collect([a], f) == f(a)
  {
    assert [a][1..] == [];
  }

  lemma {:induction false} CountUpdate<T>(s: seq<T>, f: T -> bool, i: nat, t: T)
    requires i < |s|
    ensures Count(s[i := t], f) + (if f(s[i]) then 1 else 0) == Count(s, f) + (if f(t) then 1 else 0)
  {
    if i == 0 {
      assert s[0 := t][1..] == s[1..];
    } else {
      assert s[i := t][1..] == s[1..][i - 1 := t];
      CountUpdate(s[1..], f, i - 1, t);
    }
  }

  lemma {:induction false} CountBound<T>(s: seq<T>, f: T -> bool)
    ensures Count(s, f) <= |s|
    ensures Count(s, f) == |s| ==> forall i :: 0 <= i < |s| ==> f(s[i])
    ensures Count(s, f) == 0 ==> forall i :: 0 <= i < |s| ==> !f(s[i])
    ensures (forall i :: 0 <= i < |s| ==> !f(s[i])) ==> Count(s, f) == 0
    ensures (forall i :: 0 <= i < |s| ==> f(s[i])) ==> Count(s, f) == |s|
  {
    if s != [] {
      CountBound(s[1..], f);
    }
  }

  lemma {:induction false} ValueBound(s: bytes)
    ensures Value(s) < Pow256(|s|)
  {
    if s != [] {
      ValueBound(s[..|s| - 1]);
    }
  }

  lemma {:induction false} BigEndianRoundTrip(n: nat, width: nat)
    requires n < Pow256(width)
    ensures Value(BigEndian(n, width)) == n
  {
    if width > 0 {
      BigEndianRoundTrip(n / 256, width - 1);
      var s := BigEndian(n, width);
      assert s[..|s| - 1] == BigEndian(n / 256, width - 1);
    }
  }

  lemma {:induction false} LittleEndianRoundTrip(n: nat, width: nat)
    requires n < Pow256(width)
    ensures ValueLE(LittleEndian(n, width)) == n
  {
    if width > 0 {
      LittleEndianRoundTrip(n / 256, width - 1);
      var s := LittleEndian(n, width);
      assert s[1..] == LittleEndian(n / 256, width - 1);
    }
  }

  lemma MultipleBelow(d: nat, a: nat, b: nat)
    requires a < b
    ensures d * a + d <= d * b
  {
    assert d * (a + 1) <= d * b;
  }

  /** Quotient and remainder are the only numbers that fit. */
  lemma QuotientIs(n: nat, d: nat, q: nat, r: nat)
    requires r < d && n == d * q + r
    ensures n / d == q && n % d == r
  {
    var q' := n / d;
    assert d * q' <= n < d * q' + d;
    if q < q' {
      MultipleBelow(d, q, q');
    } else if q' < q {
      MultipleBelow(d, q', q);
    }
  }

  /** n >> (8 * i), as a byte. */
  function ShiftedByte(n: nat, i: nat): byte {
    (n / Pow256(i)) % 256
  }

  lemma ShiftedByteOfQuotient(n: nat, i: nat)
    ensures ShiftedByte(n, i + 1) == ShiftedByte(n / 256, i)
  {
    var p := Pow256(i);
    var q := n / 256;
    assert q == p * (q / p) + q % p;
    assert 256 * (p * (q / p)) == (256 * p) * (q / p);
    QuotientIs(n, 256 * p, q / p, 256 * (q % p) + n % 256);
  }

  lemma {:induction false} BigEndianByte(n: nat, width: nat, i: nat)
    requires i < width
    ensures BigEndian(n, width)[width - 1 - i] == ShiftedByte(n, i) == n / Pow256(i) % 256
  {
    if i > 0 {
      BigEndianByte(n / 256, width - 1, i - 1);
      ShiftedByteOfQuotient(n, i - 1);
    }
  }

  lemma {:induction false} LittleEndianByte(n: nat, width: nat, i: nat)
    requires i < width
    ensures LittleEndian(n, width)[i] == n / Pow256(i) % 256
  {
    if i > 0 {
      LittleEndianByte(n / 256, width - 1, i - 1);
      ShiftedByteOfQuotient(n, i - 1);
    }
  }
}
