/** Reading a luksDump. */
module LuksDump {
  import opened Basics
  import opened Luks

  // cmd/synctang-unlocker/luksdump.go: keyslot and token numbers out of what
  // "cryptsetup luksDump" writes. Whitespace is ASCII whitespace.

  predicate Space(c: char) {
    c == ' ' || ('\t' <= c <= '\r')
  }

  function TrimLeft(s: string): string {
    if s != [] && Space(s[0]) then TrimLeft(s[1..]) else s
  }

  function TrimRight(s: string): string {
    if s != [] && Space(s[|s| - 1]) then TrimRight(s[..|s| - 1]) else s
  }

  function TrimSpace(s: string): string {
    TrimRight(TrimLeft(s))
  }

  /** strings.Cut at the first colon. */
  function CutColon(s: string): Option<(string, string)> {
    if s == [] then None
    else if s[0] == ':' then Some(([], s[1..]))
    else match CutColon(s[1..])
      case None => None
      case Some((before, after)) => Some(([s[0]] + before, after))
  }

  /** strconv.Atoi: an optional sign, digits, and within 64 bits. */
  function ParseInt(s: string): Option<int> {
    var negative := s != [] && s[0] == '-';
    var digits := if s != [] && (s[0] == '-' || s[0] == '+') then s[1..] else s;
    match Atoi(digits)
    case None => None
    case Some(n) =>
      if negative then (if n <= 0x8000_0000_0000_0000 then Some(-(n as int)) else None)
      else if n < 0x8000_0000_0000_0000 then Some(n) else None
  }

  /** strings.Split at newlines. */
  function Lines(s: string): (ls: seq<string>)
    ensures ls != []
  {
    if s == [] then [[]]
    else
      var rest := Lines(s[1..]);
      if s[0] == '\n' then [[]] + rest else [[s[0]] + rest[0]] + rest[1..]
  }

  predicate Indented(line: string) {
    line != [] && (line[0] == ' ' || line[0] == '\t')
  }

  /** The indented lines below each line that is the heading. */
  function SectionLines(lines: seq<string>, heading: string, inSection: bool): seq<string> {
    if lines == [] then []
    else if !Indented(lines[0]) then SectionLines(lines[1..], heading, TrimSpace(lines[0]) == heading + ":")
    else (if inSection then [lines[0]] else []) + SectionLines(lines[1..], heading, inSection)
  }

  method ParseSection(dump: string, heading: string) returns (lines: seq<string>)
    ensures lines == SectionLines(Lines(dump), heading, false)
  {
    lines := [];
    var all := Lines(dump);
    var inSection := false;
    for i := 0 to |all|
      invariant lines + SectionLines(all[i..], heading, inSection) == SectionLines(all, heading, false)
    {
      assert all[i..][1..] == all[i + 1..];
      if !Indented(all[i]) {
        inSection := TrimSpace(all[i]) == heading + ":";
      } else if inSection {
        assert (lines + [all[i]]) + SectionLines(all[i + 1..], heading, true)
            == lines + ([all[i]] + SectionLines(all[i + 1..], heading, true));
        lines := lines + [all[i]];
      } else {
        assert [] + SectionLines(all[i + 1..], heading, false) == SectionLines(all[i + 1..], heading, false);
      }
    }
  }

  datatype Entry = Entry(id: int, rest: string)

  /** The entry a line of a section is, if it is one. */
  function EntryOf(line: string): Option<Entry> {
    if line != [] && line[0] == '\t' then None
    else match CutColon(TrimSpace(line))
      case None => None
      case Some((idPart, rest)) =>
        match ParseInt(TrimSpace(idPart))
        case None => None
        case Some(id) => Some(Entry(id, TrimSpace(rest)))
  }

  /** What one line adds. */
  function EntryList(line: string): seq<Entry> {
    match EntryOf(line) case Some(e) => [e] case None => []
  }

  function Entries(lines: seq<string>): seq<Entry> {
    Collect(lines, EntryList)
  }

  lemma EntriesOneMore(lines: seq<string>, i: nat)
    requires i < |lines|
    ensures Entries(lines[..i + 1]) == Entries(lines[..i]) + EntryList(lines[i])
  {
    assert lines[..i + 1] == lines[..i] + [lines[i]];
    CollectConcat(lines[..i], [lines[i]], EntryList);
    CollectOne(lines[i], EntryList);
  }

  method EntryIDs(lines: seq<string>) returns (entries: seq<Entry>)
    ensures entries == Entries(lines)
  {
    entries := [];
    for i := 0 to |lines|
      invariant entries == Entries(lines[..i])
    {
      EntriesOneMore(lines, i);
      var e := EntryOf(lines[i]);
      if e.Some? {
        entries := entries + [e.value];
      }
    }
    assert lines[..|lines|] == lines;
  }

  function IDs(entries: seq<Entry>): seq<int> {
    seq(|entries|, i requires 0 <= i < |entries| => entries[i].id)
  }

  /** The entries that stand under a heading. */
  function Under(dump: string, heading: string): seq<Entry> {
    Entries(SectionLines(Lines(dump), heading, false))
  }

  method UsedKeyslots(dump: string) returns (ids: seq<int>)
    ensures ids == IDs(Under(dump, "Keyslots"))
  {
    var lines := ParseSection(dump, "Keyslots");
    var entries := EntryIDs(lines);
    ids := [];
    for i := 0 to |entries|
      invariant |ids| == i && forall k :: 0 <= k < i ==> ids[k] == entries[k].id
    {
      ids := ids + [entries[i].id];
    }
  }

  function Numbers(ids: seq<int>): set<int> {
    set n | n in ids
  }

  lemma {:induction false} LowestIsAt(slots: set<int>, i: nat, k: nat)
    requires i <= k <= MAX_KEYSLOTS && (forall n :: i <= n < k ==> n in slots) && (k < MAX_KEYSLOTS ==> k !in slots)
    ensures LowestFreeFrom(slots, i) == if k < MAX_KEYSLOTS then Some(k) else None
    decreases k - i
  {
    if i < k {
      LowestIsAt(slots, i + 1, k);
    }
  }

  /** The two loops of lowestFreeKeyslot. */
  method LowestUnused(ids: seq<int>) returns (r: Option<nat>)
    ensures r == LowestFreeFrom(Numbers(ids), 0)
    ensures r.Some? ==> r.value < MAX_KEYSLOTS && r.value !in ids && forall n :: 0 <= n < r.value ==> n in ids
    ensures r.None? ==> forall n :: 0 <= n < MAX_KEYSLOTS ==> n in ids
  {
    var used: set<int> := {};
    for i := 0 to |ids|
      invariant used == Numbers(ids[..i])
    {
      used := used + {ids[i]};
      assert ids[..i + 1] == ids[..i] + [ids[i]];
    }
    assert ids[..|ids|] == ids;
    assert forall n :: n in used <==> n in ids;
    for i := 0 to MAX_KEYSLOTS
      invariant forall n :: 0 <= n < i ==> n in ids
    {
      if i !in used {
        LowestIsAt(Numbers(ids), 0, i);
        return Some(i);
      }
    }
    LowestIsAt(Numbers(ids), 0, MAX_KEYSLOTS);
    return None;
  }

  method LowestFreeKeyslot(dump: string) returns (r: Option<nat>)
    ensures r == LowestFreeFrom(Numbers(IDs(Under(dump, "Keyslots"))), 0)
  {
    var ids := UsedKeyslots(dump);
    r := LowestUnused(ids);
  }

  function IDsOfType(entries: seq<Entry>, tokenType: string): seq<int> {
    if entries == [] then []
    else (if entries[0].rest == tokenType then [entries[0].id] else []) + IDsOfType(entries[1..], tokenType)
  }

  method TokenIDsOfType(dump: string, tokenType: string) returns (ids: seq<int>)
    ensures ids == IDsOfType(Under(dump, "Tokens"), tokenType)
  {
    var lines := ParseSection(dump, "Tokens");
    var entries := EntryIDs(lines);
    ids := [];
    for i := 0 to |entries|
      invariant ids + IDsOfType(entries[i..], tokenType) == IDsOfType(entries, tokenType)
    {
      assert entries[i..][1..] == entries[i + 1..];
      if entries[i].rest == tokenType {
        assert (ids + [entries[i].id]) + IDsOfType(entries[i + 1..], tokenType)
            == ids + ([entries[i].id] + IDsOfType(entries[i + 1..], tokenType));
        ids := ids + [entries[i].id];
      } else {
        assert [] + IDsOfType(entries[i + 1..], tokenType) == IDsOfType(entries[i + 1..], tokenType);
      }
    }
  }

  // ---- what a dump looks like ----

  /** One numbered item of a section, and its detail lines. */
  datatype Item = Item(id: nat, rest: string, details: seq<string>)

  /** A line that is not indented, and the indented ones below it. */
  datatype Part = Part(head: string, body: seq<string>)

  function ItemLine(item: Item): string {
    "  " + (Itoa(item.id) + (": " + item.rest))
  }

  function DetailLines(details: seq<string>): (ls: seq<string>)
    ensures |ls| == |details| && forall i :: 0 <= i < |ls| ==> ls[i] == "\t" + details[i]
  {
    if details == [] then [] else ["\t" + details[0]] + DetailLines(details[1..])
  }

  function Body(items: seq<Item>): seq<string> {
    if items == [] then [] else [ItemLine(items[0])] + DetailLines(items[0].details) + Body(items[1..])
  }

  function AllLines(parts: seq<Part>): seq<string> {
    if parts == [] then [] else [parts[0].head] + parts[0].body + AllLines(parts[1..])
  }

  function Text(lines: seq<string>): string {
    if lines == [] then [] else if |lines| == 1 then lines[0] else lines[0] + "\n" + Text(lines[1..])
  }

  predicate Trimmed(s: string) {
    s != [] ==> !Space(s[0]) && !Space(s[|s| - 1])
  }

  predicate WellFormed(parts: seq<Part>) {
    forall k :: 0 <= k < |parts| ==> !Indented(parts[k].head) && forall i :: 0 <= i < |parts[k].body| ==> Indented(parts[k].body[i])
  }

  // ---- reading it back ----

  lemma {:induction false} LinesOfText(lines: seq<string>)
    requires lines != [] && forall i :: 0 <= i < |lines| ==> '\n' !in lines[i]
    ensures Lines(Text(lines)) == lines
  {
    if |lines| == 1 {
      LinesOfLine(lines[0], []);
      assert lines[0] + [] == lines[0];
    } else {
      LinesOfText(lines[1..]);
      LinesOfLine(lines[0], "\n" + Text(lines[1..]));
      assert lines[0] + ("\n" + Text(lines[1..])) == Text(lines);
      assert ("\n" + Text(lines[1..]))[1..] == Text(lines[1..]);
      assert Lines("\n" + Text(lines[1..])) == [[]] + lines[1..];
      assert lines[0] + [] == lines[0];
      assert [lines[0]] + lines[1..] == lines;
    }
  }

  /** A line with no newline in it goes in front of the first line of the rest. */
  lemma {:induction false} LinesOfLine(line: string, rest: string)
    requires '\n' !in line
    ensures Lines(line + rest) == [line + Lines(rest)[0]] + Lines(rest)[1..]
  {
    if line == [] {
      assert [] + rest == rest;
      assert [] + Lines(rest)[0] == Lines(rest)[0];
    } else {
      assert (line + rest)[1..] == line[1..] + rest && (line + rest)[0] == line[0];
      LinesOfLine(line[1..], rest);
      assert [line[0]] + (line[1..] + Lines(rest)[0]) == line + Lines(rest)[0];
    }
  }

  predicate Heads(part: Part, heading: string) {
    TrimSpace(part.head) == heading + ":"
  }

  /** The bodies of the parts that have the heading. */
  function Bodies(parts: seq<Part>, heading: string): seq<string> {
    if parts == [] then [] else (if Heads(parts[0], heading) then parts[0].body else []) + Bodies(parts[1..], heading)
  }

  lemma {:induction false} IndentedLinesFollow(body: seq<string>, rest: seq<string>, heading: string, inSection: bool)
    requires forall i :: 0 <= i < |body| ==> Indented(body[i])
    ensures SectionLines(body + rest, heading, inSection)
         == (if inSection then body else []) + SectionLines(rest, heading, inSection)
  {
    if body == [] {
      assert body + rest == rest;
      assert [] + SectionLines(rest, heading, inSection) == SectionLines(rest, heading, inSection);
    } else {
      assert (body + rest)[1..] == body[1..] + rest && (body + rest)[0] == body[0];
      IndentedLinesFollow(body[1..], rest, heading, inSection);
      if inSection {
        assert [body[0]] + (body[1..] + SectionLines(rest, heading, inSection)) == body + SectionLines(rest, heading, inSection);
      } else {
        assert [] + SectionLines(body[1..] + rest, heading, inSection) == SectionLines(body[1..] + rest, heading, inSection);
      }
    }
  }

  lemma {:induction false} SectionIsBodies(parts: seq<Part>, heading: string, inSection: bool)
    requires WellFormed(parts)
    ensures SectionLines(AllLines(parts), heading, inSection) == Bodies(parts, heading)
  {
    if parts != [] {
      var rest := AllLines(parts[1..]);
      var now := Heads(parts[0], heading);
      assert AllLines(parts) == [parts[0].head] + (parts[0].body + rest);
      assert AllLines(parts)[1..] == parts[0].body + rest;
      IndentedLinesFollow(parts[0].body, rest, heading, now);
      SectionIsBodies(parts[1..], heading, now);
    }
  }

  // ---- one entry ----

  lemma {:induction false} ItoaDigits(n: nat)
    ensures forall i :: 0 <= i < |Itoa(n)| ==> '0' <= Itoa(n)[i] <= '9'
  {
    if n >= 10 {
      ItoaDigits(n / 10);
    }
  }

  lemma TrimSpaceOfTrimmed(s: string)
    requires Trimmed(s)
    ensures TrimSpace(s) == s && TrimSpace(" " + s) == s && (s != [] ==> TrimSpace("  " + s) == s)
  {
    assert (" " + s)[1..] == s && ("  " + s)[1..] == " " + s;
    assert TrimLeft(" " + s) == TrimLeft(s) && TrimLeft("  " + s) == TrimLeft(" " + s);
  }

  lemma {:induction false} CutColonAfter(before: string, after: string)
    requires ':' !in before
    ensures CutColon(before + (":" + after)) == Some((before, after))
  {
    if before == [] {
      assert before + (":" + after) == ":" + after;
    } else {
      assert (before + (":" + after))[1..] == before[1..] + (":" + after);
      CutColonAfter(before[1..], after);
      assert [before[0]] + before[1..] == before;
    }
  }

  lemma DigitsParse(n: nat)
    requires n < 0x8000_0000_0000_0000
    ensures ParseInt(Itoa(n)) == Some(n)
  {
    AtoiItoa(n);
    ItoaDigits(n);
  }

  predicate Plain(item: Item) {
    item.id < 0x8000_0000_0000_0000 && item.rest != [] && Trimmed(item.rest)
  }

  /** The number, the colon and the type, with the blanks around them trimmed. */
  lemma LineIsCut(digits: string, rest: string)
    requires digits != [] && rest != [] && ':' !in digits && Trimmed(digits) && Trimmed(rest)
    ensures TrimSpace("  " + (digits + (": " + rest))) == digits + (": " + rest)
    ensures CutColon(digits + (": " + rest)) == Some((digits, " " + rest))
    ensures TrimSpace(digits) == digits && TrimSpace(" " + rest) == rest
  {
    var inner := digits + (": " + rest);
    assert inner[0] == digits[0] && inner[|inner| - 1] == rest[|rest| - 1];
    TrimSpaceOfTrimmed(inner);
    TrimSpaceOfTrimmed(digits);
    TrimSpaceOfTrimmed(rest);
    assert ": " + rest == ":" + (" " + rest);
    CutColonAfter(digits, " " + rest);
  }

  /** A line that trims to a number, a colon and something is an entry. */
  lemma CutLineIsEntry(line: string, inner: string, idPart: string, rest: string, id: int)
    requires line != [] && line[0] != '\t' && TrimSpace(line) == inner && CutColon(inner) == Some((idPart, rest))
    requires ParseInt(TrimSpace(idPart)) == Some(id)
    ensures EntryOf(line) == Some(Entry(id, TrimSpace(rest)))
  {
  }

  lemma ItemIsRead(item: Item)
    requires Plain(item)
    ensures EntryOf(ItemLine(item)) == Some(Entry(item.id, item.rest))
  {
    var digits := Itoa(item.id);
    ItoaDigits(item.id);
    LineIsCut(digits, item.rest);
    DigitsParse(item.id);
    CutLineIsEntry(ItemLine(item), digits + (": " + item.rest), digits, " " + item.rest, item.id);
  }

  lemma {:induction false} DetailsAreSkipped(details: seq<string>)
    ensures Entries(DetailLines(details)) == []
  {
    if details != [] {
      assert DetailLines(details)[1..] == DetailLines(details[1..]);
      DetailsAreSkipped(details[1..]);
    }
  }

  function Listed(items: seq<Item>): seq<Entry> {
    if items == [] then [] else [Entry(items[0].id, items[0].rest)] + Listed(items[1..])
  }

  lemma {:induction false} ListedAt(items: seq<Item>)
    ensures |Listed(items)| == |items|
    ensures forall i :: 0 <= i < |items| ==> Listed(items)[i] == Entry(items[i].id, items[i].rest)
  {
    if items != [] {
      ListedAt(items[1..]);
      assert forall i :: 1 <= i < |items| ==> Listed(items)[i] == Listed(items[1..])[i - 1];
    }
  }

  /** The entries of a section are its numbered lines, whatever the details say. */
  lemma {:induction false} BodyIsRead(items: seq<Item>)
    requires forall i :: 0 <= i < |items| ==> Plain(items[i])
    ensures Entries(Body(items)) == Listed(items)
  {
    if items != [] {
      var line, details := ItemLine(items[0]), DetailLines(items[0].details);
      ItemIsRead(items[0]);
      DetailsAreSkipped(items[0].details);
      BodyIsRead(items[1..]);
      CollectConcat([line] + details, Body(items[1..]), EntryList);
      CollectConcat([line], details, EntryList);
      CollectOne(line, EntryList);
      assert Entries([line] + details) == [Entry(items[0].id, items[0].rest)];
    }
  }

  lemma {:induction false} OnlyBody(parts: seq<Part>, k: nat, heading: string)
    requires k < |parts| && forall i :: 0 <= i < |parts| ==> (Heads(parts[i], heading) <==> i == k)
    ensures Bodies(parts, heading) == parts[k].body
  {
    if k == 0 {
      NoBody(parts[1..], heading);
      assert parts[0].body + [] == parts[0].body;
    } else {
      OnlyBody(parts[1..], k - 1, heading);
      assert [] + parts[k].body == parts[k].body;
    }
  }

  lemma {:induction false} NoBody(parts: seq<Part>, heading: string)
    requires forall i :: 0 <= i < |parts| ==> !Heads(parts[i], heading)
    ensures Bodies(parts, heading) == []
  {
    if parts != [] {
      NoBody(parts[1..], heading);
    }
  }

  /** From the whole text of a dump, reading a section gives exactly the numbers and
      types that are listed in it, in order: other sections, detail lines and
      whatever stands around them play no part. */
  lemma DumpIsReadBack(parts: seq<Part>, k: nat, heading: string, items: seq<Item>)
    requires WellFormed(parts) && k < |parts| && parts[k].body == Body(items)
    requires forall i :: 0 <= i < |parts| ==> (Heads(parts[i], heading) <==> i == k)
    requires forall i :: 0 <= i < |items| ==> Plain(items[i])
    requires forall i :: 0 <= i < |AllLines(parts)| ==> '\n' !in AllLines(parts)[i]
    ensures Under(Text(AllLines(parts)), heading) == Listed(items)
  {
    LinesOfText(AllLines(parts));
    SectionIsBodies(parts, heading, false);
    OnlyBody(parts, k, heading);
    BodyIsRead(items);
  }

  // ---- and nothing else ----

  predicate AllSpace(s: string) {
    forall i :: 0 <= i < |s| ==> Space(s[i])
  }

  lemma {:induction false} TrimLeftIs(s: string) returns (before: string)
    ensures AllSpace(before) && s == before + TrimLeft(s) && (TrimLeft(s) != [] ==> !Space(TrimLeft(s)[0]))
  {
    before := [];
    if s != [] && Space(s[0]) {
      before := TrimLeftIs(s[1..]);
      before := [s[0]] + before;
      assert s == [s[0]] + s[1..];
    }
  }

  lemma {:induction false} TrimRightIs(s: string) returns (after: string)
    ensures AllSpace(after) && s == TrimRight(s) + after && (TrimRight(s) != [] ==> !Space(TrimRight(s)[|TrimRight(s)| - 1]))
  {
    after := [];
    if s != [] && Space(s[|s| - 1]) {
      after := TrimRightIs(s[..|s| - 1]);
      after := after + [s[|s| - 1]];
      assert s == s[..|s| - 1] + [s[|s| - 1]];
    }
  }

  /** Blanks are taken off both ends, as far as they go, and nothing else is. */
  lemma TrimSpaceIs(s: string) returns (before: string, after: string)
    ensures AllSpace(before) && AllSpace(after) && s == before + TrimSpace(s) + after && Trimmed(TrimSpace(s))
  {
    before := TrimLeftIs(s);
    after := TrimRightIs(TrimLeft(s));
    assert TrimSpace(s) != [] ==> TrimSpace(s)[0] == TrimLeft(s)[0];
  }

  lemma {:induction false} CutColonIs(s: string)
    ensures CutColon(s).None? <==> ':' !in s
    ensures CutColon(s).Some? ==> var (before, after) := CutColon(s).value; ':' !in before && s == before + (":" + after)
  {
    if s != [] && s[0] != ':' {
      CutColonIs(s[1..]);
      assert s == [s[0]] + s[1..];
    }
  }

  lemma {:induction false} AtoiIsDigits(s: string)
    ensures Atoi(s).Some? <==> s != [] && forall i :: 0 <= i < |s| ==> '0' <= s[i] <= '9'
  {
    if s != [] {
      var last := s[|s| - 1];
      if '0' <= last <= '9' && |s| > 1 {
        AtoiIsDigits(s[..|s| - 1]);
        assert forall i :: 0 <= i < |s| - 1 ==> s[..|s| - 1][i] == s[i];
      }
    }
  }

  /** Digits, with a sign or none, are a number if it fits into 64 bits. */
  lemma SignedNumbers(digits: string, n: nat)
    requires Atoi(digits) == Some(n)
    ensures ParseInt(digits) == (if n < 0x8000_0000_0000_0000 then Some(n as int) else None)
    ensures ParseInt("+" + digits) == (if n < 0x8000_0000_0000_0000 then Some(n as int) else None)
    ensures ParseInt("-" + digits) == (if n <= 0x8000_0000_0000_0000 then Some(-(n as int)) else None)
  {
    AtoiIsDigits(digits);
    assert ("+" + digits)[1..] == digits && ("-" + digits)[1..] == digits;
  }

  /** A line is an entry exactly if it does not begin with a tab and has a number in front
      of its first colon; what follows the colon is its type. */
  lemma EntryIff(line: string, id: int, rest: string)
    ensures EntryOf(line) == Some(Entry(id, rest)) <==>
      && (line == [] || line[0] != '\t')
      && exists before, after :: Cuts(TrimSpace(line), before, after) && ParseInt(TrimSpace(before)) == Some(id) && TrimSpace(after) == rest
  {
    CutColonIs(TrimSpace(line));
    if EntryOf(line) == Some(Entry(id, rest)) {
      var (before, after) := CutColon(TrimSpace(line)).value;
      assert Cuts(TrimSpace(line), before, after);
    }
    forall before, after | Cuts(TrimSpace(line), before, after)
      ensures CutColon(TrimSpace(line)) == Some((before, after))
    {
      CutColonAfter(before, after);
    }
  }

  /** The first colon of s stands between these. */
  predicate Cuts(s: string, before: string, after: string) {
    ':' !in before && s == before + (":" + after)
  }
}
