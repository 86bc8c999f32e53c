/** The LUKS2 header. */
module Luks {
  import opened Basics
  import opened Tokens

  // The cryptsetup commands that change it, and the way the program reads it
  // (cmd/synctang-unlocker/luksdump.go).

  const MAX_KEYSLOTS := 32
  const MAX_TOKENS := 32

  /** What each occupied keyslot opens with, and every token on the header. */
  datatype Header = Header(slots: map<nat, bytes>, tokens: map<nat, Document>)

  datatype Command =
    | AddKey(slot: nat, material: bytes)
    | KillSlot(name: string)
    | RemoveToken(id: nat)
    | ImportToken(at: Option<nat>, doc: Document)

  function HexDigit(d: nat): byte
    requires d < 16
  {
    if d < 10 then 48 + d else 87 + d
  }

  /** luksKeyMaterial: the lower-case hex of a secret, which is what a keyslot is
      added with and what is handed to systemd, never the raw bytes. */
  function KeyMaterial(p: bytes): (m: bytes)
    ensures |m| == 2 * |p|
    ensures forall i :: 0 <= i < |m| ==> m[i] != 0
  {
    if p == [] then [] else [HexDigit(p[0] / 16), HexDigit(p[0] % 16)] + KeyMaterial(p[1..])
  }

  /** Two secrets never share their key material. */
  lemma {:induction false} KeyMaterialInjective(p: bytes, q: bytes)
    requires KeyMaterial(p) == KeyMaterial(q)
    ensures p == q
  {
    if p != [] && q != [] {
      var m, n := KeyMaterial(p), KeyMaterial(q);
      assert m[0] == n[0] && m[1] == n[1];
      assert p[0] / 16 == q[0] / 16 && p[0] % 16 == q[0] % 16;
      assert m[2..] == KeyMaterial(p[1..]) && n[2..] == KeyMaterial(q[1..]);
      KeyMaterialInjective(p[1..], q[1..]);
      assert p == [p[0]] + p[1..] && q == [q[0]] + q[1..];
    } else {
      assert |p| == |q|;
    }
  }

  /** Which digits they are, most significant first. */
  lemma {:induction false} KeyMaterialIsHex(p: bytes, i: nat)
    requires i < |p|
    ensures KeyMaterial(p)[2 * i] == "0123456789abcdef"[p[i] / 16] as int
    ensures KeyMaterial(p)[2 * i + 1] == "0123456789abcdef"[p[i] % 16] as int
  {
    if i > 0 {
      KeyMaterialIsHex(p[1..], i - 1);
      assert KeyMaterial(p)[2 * i] == KeyMaterial(p[1..])[2 * (i - 1)];
      assert KeyMaterial(p)[2 * i + 1] == KeyMaterial(p[1..])[2 * (i - 1) + 1];
    }
  }

  // ---- slot names ----

  function Digit(d: nat): char
    requires d < 10
  {
    "0123456789"[d]
  }

  function Itoa(n: nat): (s: string)
    ensures s != []
  {
    if n < 10 then [Digit(n)] else Itoa(n / 10) + [Digit(n % 10)]
  }

  function Atoi(s: string): Option<nat> {
    if s == [] then None
    else
      var last := s[|s| - 1];
      if !('0' <= last <= '9') then None
      else if |s| == 1 then Some(last as int - '0' as int)
      else match Atoi(s[..|s| - 1])
        case None => None
        case Some(high) => Some(10 * high + (last as int - '0' as int))
  }

  lemma {:induction false} AtoiItoa(n: nat)
    ensures Atoi(Itoa(n)) == Some(n)
  {
    if n >= 10 {
      AtoiItoa(n / 10);
      var s := Itoa(n);
      assert s[..|s| - 1] == Itoa(n / 10);
    }
  }

  // ---- what a command does ----

  predicate Opens(h: Header, passphrase: bytes) {
    exists n :: n in h.slots && h.slots[n] == passphrase
  }

  /** A keyslot other than `slot` opens with the passphrase. */
  predicate OpensBesides(h: Header, passphrase: bytes, slot: nat) {
    exists n :: n in h.slots && n != slot && h.slots[n] == passphrase
  }

  function FreeTokenIDFrom(h: Header, i: nat): Option<nat>
    decreases MAX_TOKENS - i
  {
    if i >= MAX_TOKENS then None else if i !in h.tokens then Some(i) else FreeTokenIDFrom(h, i + 1)
  }

  /** Whether cryptsetup carries the command out. A keyslot is destroyed only for
      somebody who can open another one. */
  predicate Possible(h: Header, passphrase: bytes, c: Command) {
    match c
    case AddKey(slot, _) => slot < MAX_KEYSLOTS && slot !in h.slots && Opens(h, passphrase)
    case KillSlot(name) =>
      Atoi(name).Some? && Atoi(name).value in h.slots && OpensBesides(h, passphrase, Atoi(name).value)
    case RemoveToken(id) => id in h.tokens
    case ImportToken(Some(id), doc) => id < MAX_TOKENS && id !in h.tokens && "keyslots" in doc
    case ImportToken(None, doc) => FreeTokenIDFrom(h, 0).Some? && "keyslots" in doc
  }

  function Effect(h: Header, c: Command): Header {
    match c
    case AddKey(slot, material) => h.(slots := h.slots[slot := material])
    case KillSlot(name) => if Atoi(name).Some? then h.(slots := h.slots - {Atoi(name).value}) else h
    case RemoveToken(id) => h.(tokens := h.tokens - {id})
    case ImportToken(Some(id), doc) => h.(tokens := h.tokens[id := doc])
    case ImportToken(None, doc) =>
      match FreeTokenIDFrom(h, 0)
      case None => h
      case Some(id) => h.(tokens := h.tokens[id := doc])
  }

  /** The header after the first commands of a run. */
  function After(h: Header, cs: seq<Command>): Header
    decreases |cs|
  {
    if cs == [] then h else After(Effect(h, cs[0]), cs[1..])
  }

  lemma {:induction false} AfterOneMore(h: Header, cs: seq<Command>, c: Command)
    ensures After(h, cs + [c]) == Effect(After(h, cs), c)
    decreases |cs|
  {
    if cs == [] {
      assert [c][1..] == [];
    } else {
      assert (cs + [c])[1..] == cs[1..] + [c];
      AfterOneMore(Effect(h, cs[0]), cs[1..], c);
    }
  }

  lemma {:induction false} AfterBoth(h: Header, a: seq<Command>, b: seq<Command>)
    ensures After(h, a + b) == After(After(h, a), b)
    decreases |a|
  {
    if a == [] {
      assert a + b == b;
    } else {
      assert (a + b)[1..] == a[1..] + b;
      AfterBoth(Effect(h, a[0]), a[1..], b);
    }
  }

  /** A run of commands that stops at the first that cannot be carried out, and
      after `budget` of them at the latest, when the process or the machine is
      gone. Whether all ran, and what is left of the budget. */
  datatype Execution = Execution(header: Header, complete: bool, budget: nat)

  function Exec(h: Header, passphrase: bytes, cs: seq<Command>, budget: nat): Execution
    decreases |cs|
  {
    if cs == [] then Execution(h, true, budget)
    else if budget == 0 || !Possible(h, passphrase, cs[0]) then Execution(h, false, budget)
    else Exec(Effect(h, cs[0]), passphrase, cs[1..], budget - 1)
  }

  lemma ExecStep(h: Header, passphrase: bytes, c: Command, rest: seq<Command>, budget: nat)
    ensures Exec(h, passphrase, [c] + rest, budget) ==
      if budget > 0 && Possible(h, passphrase, c) then Exec(Effect(h, c), passphrase, rest, budget - 1)
      else Execution(h, false, budget)
  {
    assert ([c] + rest)[1..] == rest;
  }

  /** However a run ends, the header is what some first part of it made. */
  lemma {:induction false} ExecIsPrefix(h: Header, passphrase: bytes, cs: seq<Command>, budget: nat) returns (k: nat)
    ensures k <= |cs| && k <= budget
    ensures Exec(h, passphrase, cs, budget).header == After(h, cs[..k])
    ensures Exec(h, passphrase, cs, budget).complete ==> k == |cs|
    decreases |cs|
  {
    if cs == [] || budget == 0 || !Possible(h, passphrase, cs[0]) {
      k := 0;
    } else {
      var j := ExecIsPrefix(Effect(h, cs[0]), passphrase, cs[1..], budget - 1);
      k := j + 1;
      assert cs[..k][1..] == cs[1..][..j];
    }
  }

  /** A run whose headers are known one by one, and which gets as far as command
      `stop` on its own. */
  lemma {:induction false} ExecStages(hs: seq<Header>, cs: seq<Command>, passphrase: bytes, stop: nat, budget: nat)
    requires |hs| == |cs| + 1 && stop <= |cs|
    requires forall k :: 0 <= k < stop ==> Possible(hs[k], passphrase, cs[k]) && Effect(hs[k], cs[k]) == hs[k + 1]
    requires stop < |cs| ==> !Possible(hs[stop], passphrase, cs[stop])
    ensures Exec(hs[0], passphrase, cs, budget)
         == Execution(hs[Min(budget, stop)], budget >= stop && stop == |cs|, budget - Min(budget, stop))
    decreases |cs|
  {
    if stop > 0 && budget > 0 {
      assert Possible(hs[0], passphrase, cs[0]) && Effect(hs[0], cs[0]) == hs[1];
      ExecStages(hs[1..], cs[1..], passphrase, stop - 1, budget - 1);
    }
  }

  lemma {:induction false} ExecConcat(h: Header, passphrase: bytes, a: seq<Command>, b: seq<Command>, budget: nat)
    ensures var first := Exec(h, passphrase, a, budget);
      Exec(h, passphrase, a + b, budget) ==
        if first.complete then Exec(first.header, passphrase, b, first.budget) else first
    decreases |a|
  {
    if a == [] {
      assert a + b == b;
    } else {
      assert (a + b)[1..] == a[1..] + b;
      if budget > 0 && Possible(h, passphrase, a[0]) {
        ExecConcat(Effect(h, a[0]), passphrase, a[1..], b, budget - 1);
      }
    }
  }

  // ---- reading the header ----

  function LowestFreeFrom(slots: set<int>, i: nat): Option<nat>
    decreases MAX_KEYSLOTS - i
  {
    if i >= MAX_KEYSLOTS then None else if i !in slots then Some(i) else LowestFreeFrom(slots, i + 1)
  }

  /** The lowest keyslot nothing occupies, in cryptsetup's numbering. */
  function LowestFree(h: Header): Option<nat> {
    LowestFreeFrom(h.slots.Keys, 0)
  }

  lemma {:induction false} LowestFreeFromIs(slots: set<int>, i: nat)
    requires i <= MAX_KEYSLOTS
    ensures match LowestFreeFrom(slots, i)
      case None => forall n :: i <= n < MAX_KEYSLOTS ==> n in slots
      case Some(free) => i <= free < MAX_KEYSLOTS && free !in slots && forall n :: i <= n < free ==> n in slots
    decreases MAX_KEYSLOTS - i
  {
    if i < MAX_KEYSLOTS && i in slots {
      LowestFreeFromIs(slots, i + 1);
    }
  }

  lemma LowestFreeIs(h: Header)
    ensures match LowestFree(h)
      case None => forall n :: 0 <= n < MAX_KEYSLOTS ==> n in h.slots
      case Some(free) => free < MAX_KEYSLOTS && free !in h.slots && forall n :: 0 <= n < free ==> n in h.slots
  {
    LowestFreeFromIs(h.slots.Keys, 0);
  }

  function Mr1TokenFrom(h: Header, i: nat): Option<nat>
    decreases MAX_TOKENS - i
  {
    if i >= MAX_TOKENS then None
    else if i in h.tokens && TypeOf(h.tokens[i]) == TOKEN_TYPE then Some(i)
    else Mr1TokenFrom(h, i + 1)
  }

  /** The first token of this program's type, if there is one. */
  function Mr1Token(h: Header): Option<nat> {
    Mr1TokenFrom(h, 0)
  }

  lemma {:induction false} Mr1TokenFromIs(h: Header, i: nat)
    requires i <= MAX_TOKENS
    ensures match Mr1TokenFrom(h, i)
      case None => forall id :: i <= id < MAX_TOKENS && id in h.tokens ==> TypeOf(h.tokens[id]) != TOKEN_TYPE
      case Some(id) => (i <= id < MAX_TOKENS && id in h.tokens && TypeOf(h.tokens[id]) == TOKEN_TYPE
        && forall j :: i <= j < id && j in h.tokens ==> TypeOf(h.tokens[j]) != TOKEN_TYPE)
    decreases MAX_TOKENS - i
  {
    if i < MAX_TOKENS && !(i in h.tokens && TypeOf(h.tokens[i]) == TOKEN_TYPE) {
      Mr1TokenFromIs(h, i + 1);
    }
  }

  lemma {:induction false} FreeTokenIDIs(h: Header, i: nat)
    requires i <= MAX_TOKENS
    ensures match FreeTokenIDFrom(h, i)
      case None => forall id :: i <= id < MAX_TOKENS ==> id in h.tokens
      case Some(id) => i <= id < MAX_TOKENS && id !in h.tokens
    decreases MAX_TOKENS - i
  {
    if i < MAX_TOKENS && i in h.tokens {
      FreeTokenIDIs(h, i + 1);
    }
  }

  /** The token that answers to this program is the one at `id`, and the only one. */
  predicate OnlyMr1At(h: Header, id: nat) {
    && id < MAX_TOKENS && id in h.tokens && TypeOf(h.tokens[id]) == TOKEN_TYPE
    && forall j :: j in h.tokens && j != id ==> TypeOf(h.tokens[j]) != TOKEN_TYPE
  }

  lemma OnlyMr1IsFound(h: Header, id: nat)
    requires OnlyMr1At(h, id)
    ensures Mr1Token(h) == Some(id)
  {
    Mr1TokenFromIs(h, 0);
  }
}
