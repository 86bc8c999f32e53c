/** The proof of the code. */
module PairingProof {
  import opened Basics

  // mrcore/pair.go: what a key holder sends with its pairing request, and why it is bound to
  // everything that goes into it. HMAC-SHA256 is symbolic: two values are equal only
  // when key and input are.

  /** "synctang-pair-v2" */
  const LABEL: bytes := [115, 121, 110, 99, 116, 97, 110, 103, 45, 112, 97, 105, 114, 45, 118, 50]

  datatype Mac = Hmac(key: bytes, input: bytes)

  /** What one proof is about. */
  datatype Claim = Claim(machineID: bytes, peerID: bytes, pubKey: bytes, nonce: bytes)
  {
    function Parts(): seq<bytes> {
      [LABEL, machineID, peerID, pubKey, nonce]
    }

    /** Every part is shorter than 2^63, as every Go slice is. */
    predicate Representable() {
      forall i :: 0 <= i < |Parts()| ==> |Parts()[i]| < 0x8000_0000_0000_0000
    }
  }

  /** Each part preceded by its length as eight big-endian bytes. */
  function Prefixed(parts: seq<bytes>): bytes {
    if parts == [] then [] else BigEndian(|parts[0]|, 8) + parts[0] + Prefixed(parts[1..])
  }

  function Proof(secret: bytes, claim: Claim): Mac {
    Hmac(secret, Prefixed(claim.Parts()))
  }

  /** The eight-byte length loop: lenBuf[7-i] = byte(len >> (8*i)). */
  method LengthPrefix(n: nat) returns (s: bytes)
    ensures s == BigEndian(n, 8)
  {
    var lenBuf := new byte[8](_ => 0);
    for i := 0 to 8
      invariant forall j :: 0 <= j < i ==> lenBuf[7 - j] == ShiftedByte(n, j)
    {
      lenBuf[7 - i] := ShiftedByte(n, i);
    }
    s := lenBuf[..];
    forall k | 0 <= k < 8
      ensures s[k] == BigEndian(n, 8)[k]
    {
      BigEndianByte(n, 8, 7 - k);
      assert lenBuf[7 - (7 - k)] == ShiftedByte(n, 7 - k);
    }
  }

  lemma {:induction false} PrefixedSnoc(parts: seq<bytes>, part: bytes)
    ensures Prefixed(parts + [part]) == Prefixed(parts) + BigEndian(|part|, 8) + part
  {
    if parts == [] {
      assert [part][1..] == [];
    } else {
      PrefixedSnoc(parts[1..], part);
      assert (parts + [part])[1..] == parts[1..] + [part];
    }
  }

  /** PairProof: the loop that feeds the MAC, part by part. */
  method PairProof(secret: bytes, machineID: bytes, peerID: bytes, pubKey: bytes, nonce: bytes)
    returns (mac: Mac)
    ensures mac == Proof(secret, Claim(machineID, peerID, pubKey, nonce))
  {
    var parts := [LABEL, machineID, peerID, pubKey, nonce];
    var fed: bytes := [];
    for i := 0 to |parts|
      invariant fed == Prefixed(parts[..i])
    {
      var lenBuf := LengthPrefix(|parts[i]|);
      fed := fed + lenBuf;
      fed := fed + parts[i];
      PrefixedSnoc(parts[..i], parts[i]);
      assert parts[..i + 1] == parts[..i] + [parts[i]];
    }
    assert parts[..|parts|] == parts;
    mac := Hmac(secret, fed);
  }

  /** No two lists of as many parts give the MAC the same input. */
  lemma {:induction false} PrefixedInjective(a: seq<bytes>, b: seq<bytes>)
    requires |a| == |b| && Prefixed(a) == Prefixed(b)
    requires forall i :: 0 <= i < |a| ==> |a[i]| < 0x8000_0000_0000_0000 && |b[i]| < 0x8000_0000_0000_0000
    ensures a == b
  {
    if a != [] {
      var x, y := Prefixed(a), Prefixed(b);
      assert Pow256(8) == 0x1_0000_0000_0000_0000;
      BigEndianRoundTrip(|a[0]|, 8);
      BigEndianRoundTrip(|b[0]|, 8);
      assert x[..8] == BigEndian(|a[0]|, 8) && y[..8] == BigEndian(|b[0]|, 8);
      assert |a[0]| == |b[0]|;
      assert x[8..8 + |a[0]|] == a[0] && y[8..8 + |b[0]|] == b[0];
      assert x[8 + |a[0]|..] == Prefixed(a[1..]) && y[8 + |b[0]|..] == Prefixed(b[1..]);
      PrefixedInjective(a[1..], b[1..]);
      assert a == [a[0]] + a[1..] && b == [b[0]] + b[1..];
    }
  }

  /** A proof vouches for exactly one secret, machine, peer, key and connection:
      it is accepted for another only if all five are the same. */
  lemma ProofBindsItsClaim(secret: bytes, claim: Claim, secret': bytes, claim': Claim)
    requires claim.Representable() && claim'.Representable()
    ensures Proof(secret, claim) == Proof(secret', claim') <==> secret == secret' && claim == claim'
  {
    if Proof(secret, claim) == Proof(secret', claim') {
      PrefixedInjective(claim.Parts(), claim'.Parts());
      assert claim.Parts()[1] == claim'.Parts()[1] && claim.Parts()[2] == claim'.Parts()[2];
      assert claim.Parts()[3] == claim'.Parts()[3] && claim.Parts()[4] == claim'.Parts()[4];
    }
  }

  function WithLength(part: bytes): bytes {
    BigEndian(|part|, 8) + part
  }

  lemma PrefixedFirst(part: bytes, rest: seq<bytes>)
    ensures Prefixed([part] + rest) == WithLength(part) + Prefixed(rest)
  {
    assert ([part] + rest)[1..] == rest;
  }

  /** What the MAC is fed: the label that names the format, then the machine, the peer,
      the key offered and the nonce, each behind its length. */
  lemma ProofInput(secret: bytes, claim: Claim)
    ensures Proof(secret, claim).key == secret
    ensures Proof(secret, claim).input
         == WithLength(LABEL) + (WithLength(claim.machineID) + (WithLength(claim.peerID) + (WithLength(claim.pubKey) + WithLength(claim.nonce))))
  {
    var c, d, e := [claim.peerID, claim.pubKey, claim.nonce], [claim.pubKey, claim.nonce], [claim.nonce];
    assert e == [claim.nonce] + [] && Prefixed([]) == [];
    PrefixedFirst(claim.nonce, []);
    assert WithLength(claim.nonce) + [] == WithLength(claim.nonce);
    assert d == [claim.pubKey] + e && c == [claim.peerID] + d;
    PrefixedFirst(claim.pubKey, e);
    PrefixedFirst(claim.peerID, d);
    assert claim.Parts() == [LABEL] + ([claim.machineID] + c);
    PrefixedFirst(claim.machineID, c);
    PrefixedFirst(LABEL, [claim.machineID] + c);
  }
}
