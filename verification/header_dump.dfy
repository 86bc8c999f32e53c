/** What is read out of a dump is what is on the header. */
module HeaderDump {
  import opened Basics
  import opened Tokens
  import opened Luks
  import opened LuksDump

  // The text of a luksDump, the header it was made of, and the numbers that are chosen
  // from it. Other sections, detail lines and whatever else a dump says play no part; and
  // every header whose token types fit on a line has a dump that shows it.

  /** The text of a dump in its parts, with the one that lists the keyslots and the
      one that lists the tokens; the others, and all details, may say anything. */
  datatype Layout = Layout(parts: seq<Part>, keyslotsAt: nat, keyslots: seq<Item>, tokensAt: nat, tokens: seq<Item>)

  function Dump(l: Layout): string {
    Text(AllLines(l.parts))
  }

  /** The heading stands in one place, and below it these items. */
  predicate HasSection(parts: seq<Part>, at: nat, heading: string, items: seq<Item>) {
    && at < |parts| && parts[at].body == Body(items)
    && (forall i :: 0 <= i < |parts| ==> (Heads(parts[i], heading) <==> i == at))
    && (forall i :: 0 <= i < |items| ==> Plain(items[i]))
  }

  predicate Numbered(items: seq<Item>, n: nat) {
    exists i :: 0 <= i < |items| && items[i].id == n
  }

  /** The items are those of `types`, in the order of their numbers. */
  ghost predicate Lists(items: seq<Item>, types: map<nat, string>) {
    && (forall i, j :: 0 <= i < j < |items| ==> items[i].id < items[j].id)
    && (forall n :: n in types <==> Numbered(items, n))
    && (forall i :: 0 <= i < |items| && items[i].id in types ==> items[i].rest == types[items[i].id])
  }

  function KeyslotTypes(h: Header): map<nat, string> {
    map n | n in h.slots :: "luks2"
  }

  function TokenTypes(h: Header): map<nat, string> {
    map n | n in h.tokens :: TypeOf(h.tokens[n])
  }

  predicate Unbroken(lines: seq<string>) {
    forall i :: 0 <= i < |lines| ==> '\n' !in lines[i]
  }

  ghost predicate Shows(l: Layout, h: Header) {
    && WellFormed(l.parts) && Unbroken(AllLines(l.parts))
    && HasSection(l.parts, l.keyslotsAt, "Keyslots", l.keyslots) && Lists(l.keyslots, KeyslotTypes(h))
    && HasSection(l.parts, l.tokensAt, "Tokens", l.tokens) && Lists(l.tokens, TokenTypes(h))
    && (forall n :: n in h.tokens ==> n < MAX_TOKENS)
  }

  // ---- choosing numbers ----

  lemma NumbersAreKeyslots(l: Layout, h: Header)
    requires Shows(l, h)
    ensures Numbers(IDs(Listed(l.keyslots))) == h.slots.Keys
  {
    ListedAt(l.keyslots);
    var ids := IDs(Listed(l.keyslots));
    forall n: int
      ensures n in ids <==> n in h.slots.Keys
    {
      if n in ids {
        var i :| 0 <= i < |ids| && ids[i] == n;
        assert Numbered(l.keyslots, l.keyslots[i].id);
        assert l.keyslots[i].id in KeyslotTypes(h);
      }
      if n in h.slots.Keys {
        assert n in KeyslotTypes(h);
        var i :| 0 <= i < |l.keyslots| && l.keyslots[i].id == n;
        assert ids[i] == n;
      }
    }
  }

  /** The first number of a type is that of the first item that has it. */
  lemma {:induction false} FirstOfType(items: seq<Item>, tokenType: string)
    ensures IDsOfType(Listed(items), tokenType) == [] <==> forall i :: 0 <= i < |items| ==> items[i].rest != tokenType
    ensures IDsOfType(Listed(items), tokenType) != [] ==>
      exists i :: FirstAt(items, tokenType, i) && IDsOfType(Listed(items), tokenType)[0] == items[i].id
  {
    if items != [] {
      FirstOfType(items[1..], tokenType);
      assert Listed(items)[1..] == Listed(items[1..]);
      if items[0].rest == tokenType {
        assert FirstAt(items, tokenType, 0);
      } else if IDsOfType(Listed(items[1..]), tokenType) != [] {
        var i :| FirstAt(items[1..], tokenType, i) && IDsOfType(Listed(items[1..]), tokenType)[0] == items[1..][i].id;
        assert items[i + 1].rest == tokenType;
        assert FirstAt(items, tokenType, i + 1) by {
          forall j | 0 <= j < i + 1
            ensures items[j].rest != tokenType
          {
            assert j > 0 ==> items[1..][j - 1].rest != tokenType;
          }
        }
        assert IDsOfType(Listed(items), tokenType) == [] + IDsOfType(Listed(items[1..]), tokenType);
      }
    }
  }

  predicate FirstAt(items: seq<Item>, tokenType: string, i: int) {
    0 <= i < |items| && items[i].rest == tokenType && forall j :: 0 <= j < i ==> items[j].rest != tokenType
  }

  /** A token of the header and its item. */
  lemma TokenHasItem(l: Layout, h: Header, n: nat) returns (j: nat)
    requires Shows(l, h) && n in h.tokens
    ensures j < |l.tokens| && l.tokens[j].id == n && l.tokens[j].rest == TypeOf(h.tokens[n])
  {
    assert n in TokenTypes(h);
    j :| 0 <= j < |l.tokens| && l.tokens[j].id == n;
  }

  lemma ItemHasToken(l: Layout, h: Header, j: nat)
    requires Shows(l, h) && j < |l.tokens|
    ensures l.tokens[j].id in h.tokens && l.tokens[j].id < MAX_TOKENS && l.tokens[j].rest == TypeOf(h.tokens[l.tokens[j].id])
  {
    assert Numbered(l.tokens, l.tokens[j].id);
    assert l.tokens[j].id in TokenTypes(h);
  }

  lemma FirstItemIsMr1Token(l: Layout, h: Header, i: nat)
    requires Shows(l, h) && FirstAt(l.tokens, TOKEN_TYPE, i)
    ensures Mr1Token(h) == Some(l.tokens[i].id)
  {
    Mr1TokenFromIs(h, 0);
    ItemHasToken(l, h, i);
    var j := TokenHasItem(l, h, Mr1Token(h).value);
    assert j >= i;
  }

  lemma FirstIsMr1Token(l: Layout, h: Header)
    requires Shows(l, h)
    ensures var ids := IDsOfType(Listed(l.tokens), TOKEN_TYPE);
      if ids == [] then Mr1Token(h).None? else ids[0] >= 0 && Mr1Token(h) == Some(ids[0])
  {
    FirstOfType(l.tokens, TOKEN_TYPE);
    if IDsOfType(Listed(l.tokens), TOKEN_TYPE) != [] {
      var i :| FirstAt(l.tokens, TOKEN_TYPE, i) && IDsOfType(Listed(l.tokens), TOKEN_TYPE)[0] == l.tokens[i].id;
      FirstItemIsMr1Token(l, h, i);
    } else if Mr1Token(h).Some? {
      Mr1TokenFromIs(h, 0);
      var j := TokenHasItem(l, h, Mr1Token(h).value);
      assert false;
    }
  }

  /** Where enrolling begins: from nothing but the text of a dump, whatever else it
      says, the keyslot that is chosen is the lowest free one of the header, and the
      token that is loaded is its first of this program's type. */
  method ChooseFromDump(dump: string, ghost l: Layout, ghost h: Header) returns (slot: Option<nat>, token: Option<nat>)
    requires Shows(l, h) && dump == Dump(l)
    ensures slot == LowestFree(h)
    ensures token == Mr1Token(h)
  {
    DumpIsReadBack(l.parts, l.keyslotsAt, "Keyslots", l.keyslots);
    DumpIsReadBack(l.parts, l.tokensAt, "Tokens", l.tokens);
    NumbersAreKeyslots(l, h);
    FirstIsMr1Token(l, h);
    slot := LowestFreeKeyslot(dump);
    var ids := TokenIDsOfType(dump, TOKEN_TYPE);
    token := if ids == [] then None else Some(ids[0]);
  }

  // ---- every header has such a dump ----

  /** The items of the numbers from i on. */
  function ItemsFrom(types: map<nat, string>, i: nat): seq<Item>
    decreases MAX_TOKENS - i
  {
    if i >= MAX_TOKENS then []
    else (if i in types then [Item(i, types[i], [])] else []) + ItemsFrom(types, i + 1)
  }

  /** Numbers below the limit, and types that fit on their line. */
  ghost predicate Listable(types: map<nat, string>) {
    forall n :: n in types ==> n < MAX_TOKENS && types[n] != [] && Trimmed(types[n]) && '\n' !in types[n]
  }

  /** The items are those of the numbers from i on, in order. */
  ghost predicate Tail(items: seq<Item>, types: map<nat, string>, i: nat) {
    && (forall j, k :: 0 <= j < k < |items| ==> items[j].id < items[k].id)
    && (forall k :: 0 <= k < |items| ==>
          i <= items[k].id && items[k].id in types && items[k] == Item(items[k].id, types[items[k].id], []))
    && (forall n :: n in types && i <= n ==> Numbered(items, n))
  }

  lemma TailGrows(items: seq<Item>, types: map<nat, string>, i: nat)
    requires Tail(items, types, i + 1) && i in types
    ensures Tail([Item(i, types[i], [])] + items, types, i)
  {
    var all := [Item(i, types[i], [])] + items;
    assert forall k :: 1 <= k < |all| ==> all[k] == items[k - 1];
    forall n | n in types && i <= n
      ensures Numbered(all, n)
    {
      if n == i {
        assert all[0].id == i;
      } else {
        var k :| 0 <= k < |items| && items[k].id == n;
        assert all[k + 1].id == n;
      }
    }
  }

  lemma TailSkips(items: seq<Item>, types: map<nat, string>, i: nat)
    requires Tail(items, types, i + 1) && i !in types
    ensures Tail(items, types, i)
  {
    forall n | n in types && i <= n
      ensures Numbered(items, n)
    {
      assert i + 1 <= n;
    }
  }

  lemma {:induction false} ItemsAreTail(types: map<nat, string>, i: nat)
    requires Listable(types) && i <= MAX_TOKENS
    ensures Tail(ItemsFrom(types, i), types, i)
    decreases MAX_TOKENS - i
  {
    if i < MAX_TOKENS {
      ItemsAreTail(types, i + 1);
      if i in types {
        TailGrows(ItemsFrom(types, i + 1), types, i);
      } else {
        TailSkips(ItemsFrom(types, i + 1), types, i);
        assert [] + ItemsFrom(types, i + 1) == ItemsFrom(types, i + 1);
      }
    }
  }

  lemma {:induction false} BodyLines(items: seq<Item>)
    requires forall i :: 0 <= i < |items| ==> items[i].details == [] && '\n' !in items[i].rest
    ensures Unbroken(Body(items)) && forall i :: 0 <= i < |Body(items)| ==> Indented(Body(items)[i])
  {
    if items != [] {
      ItoaDigits(items[0].id);
      assert '\n' !in ItemLine(items[0]) && Indented(ItemLine(items[0]));
      BodyLines(items[1..]);
      assert Body(items) == [ItemLine(items[0])] + Body(items[1..]);
    }
  }

  /** The least a dump says of a header. */
  function Rendered(h: Header): Layout {
    var keyslots, tokens := ItemsFrom(KeyslotTypes(h), 0), ItemsFrom(TokenTypes(h), 0);
    Layout([Part("Keyslots:", Body(keyslots)), Part("Tokens:", Body(tokens))], 0, keyslots, 1, tokens)
  }

  lemma TailIsListed(items: seq<Item>, types: map<nat, string>)
    requires Tail(items, types, 0)
    ensures Lists(items, types)
  {
    forall n
      ensures n in types <==> Numbered(items, n)
    {
      if Numbered(items, n) {
        var k :| 0 <= k < |items| && items[k].id == n;
      }
    }
  }

  lemma TailIsPlain(items: seq<Item>, types: map<nat, string>)
    requires Tail(items, types, 0) && Listable(types)
    ensures forall k :: 0 <= k < |items| ==> Plain(items[k]) && items[k].details == [] && '\n' !in items[k].rest
  {
    forall k | 0 <= k < |items|
      ensures Plain(items[k]) && items[k].details == [] && '\n' !in items[k].rest
    {
      assert items[k] == Item(items[k].id, types[items[k].id], []);
    }
  }

  /** A section of such items. */
  ghost predicate Section(items: seq<Item>, types: map<nat, string>) {
    && Lists(items, types) && (forall i :: 0 <= i < |items| ==> Plain(items[i]))
    && Unbroken(Body(items)) && forall i :: 0 <= i < |Body(items)| ==> Indented(Body(items)[i])
  }

  lemma ItemsAreASection(types: map<nat, string>)
    requires Listable(types)
    ensures Section(ItemsFrom(types, 0), types)
  {
    ItemsAreTail(types, 0);
    TailIsListed(ItemsFrom(types, 0), types);
    TailIsPlain(ItemsFrom(types, 0), types);
    BodyLines(ItemsFrom(types, 0));
  }

  lemma TwoParts(a: Part, b: Part)
    ensures AllLines([a, b]) == [a.head] + a.body + ([b.head] + b.body)
  {
    assert [a, b][1..] == [b] && [b][1..] == [];
    assert AllLines([b]) == [b.head] + b.body + [];
  }

  lemma Headings(a: seq<string>, b: seq<string>)
    ensures Heads(Part("Keyslots:", a), "Keyslots") && !Heads(Part("Keyslots:", a), "Tokens")
    ensures Heads(Part("Tokens:", b), "Tokens") && !Heads(Part("Tokens:", b), "Keyslots")
  {
    TrimSpaceOfTrimmed("Keyslots:");
    TrimSpaceOfTrimmed("Tokens:");
    assert "Keyslots:" == "Keyslots" + ":" && "Tokens:" == "Tokens" + ":";
    assert |"Keyslots:"| != |"Tokens:"|;
  }

  lemma PartsAreWellFormed(keyslots: seq<string>, tokens: seq<string>)
    requires Unbroken(keyslots) && forall i :: 0 <= i < |keyslots| ==> Indented(keyslots[i])
    requires Unbroken(tokens) && forall i :: 0 <= i < |tokens| ==> Indented(tokens[i])
    ensures var parts := [Part("Keyslots:", keyslots), Part("Tokens:", tokens)];
      WellFormed(parts) && Unbroken(AllLines(parts))
  {
    TwoParts(Part("Keyslots:", keyslots), Part("Tokens:", tokens));
    assert !Indented("Keyslots:") && !Indented("Tokens:");
  }

  lemma SectionsShow(h: Header, keyslots: seq<Item>, tokens: seq<Item>)
    requires Section(keyslots, KeyslotTypes(h)) && Section(tokens, TokenTypes(h))
    ensures var parts := [Part("Keyslots:", Body(keyslots)), Part("Tokens:", Body(tokens))];
      && WellFormed(parts) && Unbroken(AllLines(parts))
      && HasSection(parts, 0, "Keyslots", keyslots) && HasSection(parts, 1, "Tokens", tokens)
  {
    Headings(Body(keyslots), Body(tokens));
    PartsAreWellFormed(Body(keyslots), Body(tokens));
  }

  /** Every header whose numbers are in range and whose token types fit on a line has
      a dump that shows it. */
  lemma RenderedShows(h: Header)
    requires Listable(KeyslotTypes(h)) && Listable(TokenTypes(h))
    ensures Shows(Rendered(h), h)
  {
    ItemsAreASection(KeyslotTypes(h));
    ItemsAreASection(TokenTypes(h));
    SectionsShow(h, Rendered(h).keyslots, Rendered(h).tokens);
    assert forall n :: n in h.tokens ==> n in TokenTypes(h);
  }
}
