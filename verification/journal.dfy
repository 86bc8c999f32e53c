/** Writing to the journal. */
module Journal {
  import opened Basics

  // internal/journal/journal.go: one log record as a datagram of the native journal protocol ("Data Format" in
  // systemd's Native Journal Protocol), and a decoder for that format, which the
  // encoder is proved against.

  const NUL: byte := 0
  const NEWLINE: byte := 10
  const EQUALS: byte := 61

  /** The most of one value that is sent. */
  const MAX_VALUE := 32 * 1024

  /** " [cut]" */
  const CUT_NOTE: bytes := [32, 91, 99, 117, 116, 93]

  const PRIORITY: bytes := [80, 82, 73, 79, 82, 73, 84, 89]
  const SYSLOG_IDENTIFIER: bytes := [83, 89, 83, 76, 79, 71, 95, 73, 68, 69, 78, 84, 73, 70, 73, 69, 82]
  const MESSAGE: bytes := [77, 69, 83, 83, 65, 71, 69]

  datatype Field = Field(name: bytes, value: bytes)

  predicate NameByte(c: byte) {
    65 <= c <= 90 || 48 <= c <= 57 || c == 95
  }

  /** A name as FieldName makes them: never a separator of the format. */
  predicate ValidName(name: bytes) {
    name != [] && forall i :: 0 <= i < |name| ==> NameByte(name[i])
  }

  predicate WellNamed(fields: seq<Field>) {
    forall i :: 0 <= i < |fields| ==> ValidName(fields[i].name)
  }

  /** What is sent of a value. */
  function Cut(value: bytes): (sent: bytes)
    ensures |value| <= MAX_VALUE ==> sent == value
    ensures |value| > MAX_VALUE ==> |sent| == MAX_VALUE + |CUT_NOTE| && sent[..MAX_VALUE] == value[..MAX_VALUE]
    ensures |value| > MAX_VALUE ==> sent[MAX_VALUE..] == CUT_NOTE
  {
    if |value| > MAX_VALUE then value[..MAX_VALUE] + CUT_NOTE else value
  }

  predicate NeedsLength(value: bytes) {
    NEWLINE in value || NUL in value
  }

  function EncodeField(field: Field): bytes {
    var value := Cut(field.value);
    if NeedsLength(value) then
      field.name + [NEWLINE] + LittleEndian(|value|, 8) + value + [NEWLINE]
    else
      field.name + [EQUALS] + value + [NEWLINE]
  }

  function EncodeFields(fields: seq<Field>): bytes {
    if fields == [] then [] else EncodeField(fields[0]) + EncodeFields(fields[1..])
  }

  /** Go's remainder, which has the sign of the dividend. */
  function TruncatedMod(a: int, b: nat): (r: int)
    requires b > 0
    ensures -(b as int) < r < b
  {
    if a >= 0 then a % b else -((-a) % b)
  }

  /** The whole entry, field by field. */
  function EntryFields(priority: int, identifier: bytes, message: bytes, fields: seq<Field>): seq<Field> {
    [Field(PRIORITY, [48 + TruncatedMod(priority, 10)]), Field(SYSLOG_IDENTIFIER, identifier), Field(MESSAGE, message)] + fields
  }

  class Buffer {
    var data: bytes

    constructor ()
      ensures data == []
    {
      data := [];
    }

    method AppendField(name: bytes, value: bytes)
      modifies this
      ensures data == old(data) + EncodeField(Field(name, value))
    {
      var sent := value;
      if |value| > MAX_VALUE {
        sent := value[..MAX_VALUE] + CUT_NOTE;
      }
      ghost var prefix := LittleEndian(|sent|, 8);
      Gathered(data, name, [NEWLINE], prefix, sent, [NEWLINE]);
      Gathered(data, name, [EQUALS], [], sent, [NEWLINE]);
      if NEWLINE !in sent && NUL !in sent {
        data := data + name;
        data := data + [EQUALS];
        data := data + sent;
        data := data + [NEWLINE];
        return;
      }
      data := data + name;
      data := data + [NEWLINE];
      data := data + LittleEndian(|sent|, 8);
      data := data + sent;
      data := data + [NEWLINE];
    }
  }

  lemma Gathered(data: bytes, a: bytes, b: bytes, c: bytes, d: bytes, e: bytes)
    ensures data + a + b + c + d + e == data + (a + b + c + d + e)
    ensures c == [] ==> data + a + b + d + e == data + (a + b + d + e)
  {
    if c == [] {
      assert data + a + b + d + e == data + (a + b + d + e);
    }
    assert data + a + b + c + d + e == data + (a + b + c + d + e);
  }

  lemma {:induction false} EncodeFieldsConcat(a: seq<Field>, b: seq<Field>)
    ensures EncodeFields(a + b) == EncodeFields(a) + EncodeFields(b)
  {
    if a == [] {
      assert a + b == b;
    } else {
      EncodeFieldsConcat(a[1..], b);
      Uncons(a, b);
      Associate(EncodeField(a[0]), EncodeFields(a[1..]), EncodeFields(b));
    }
  }

  lemma Uncons(a: seq<Field>, b: seq<Field>)
    requires a != []
    ensures EncodeFields(a + b) == EncodeField(a[0]) + EncodeFields(a[1..] + b)
  {
    assert (a + b)[1..] == a[1..] + b;
  }

  lemma Associate(x: bytes, y: bytes, z: bytes)
    ensures x + (y + z) == (x + y) + z
  {
  }

  lemma EncodeFieldsSnoc(fields: seq<Field>, field: Field)
    ensures EncodeFields(fields + [field]) == EncodeFields(fields) + EncodeField(field)
  {
    EncodeFieldsConcat(fields, [field]);
    assert [field][1..] == [];
  }

  lemma Grow(all: seq<Field>, i: nat)
    requires i < |all|
    ensures EncodeFields(all[..i + 1]) == EncodeFields(all[..i]) + EncodeField(all[i])
  {
    assert all[..i + 1] == all[..i] + [all[i]];
    SnocIs(all[..i + 1], all[..i], all[i]);
  }

  lemma SnocIs(longer: seq<Field>, shorter: seq<Field>, last: Field)
    requires longer == shorter + [last]
    ensures EncodeFields(longer) == EncodeFields(shorter) + EncodeField(last)
  {
    EncodeFieldsSnoc(shorter, last);
  }

  /** The fields of its own that an entry begins with. */
  method Begin(priority: int, identifier: bytes, message: bytes) returns (b: Buffer)
    ensures fresh(b) && b.data == EncodeFields(EntryFields(priority, identifier, message, []))
  {
    ghost var all := EntryFields(priority, identifier, message, []);
    b := new Buffer();
    b.AppendField(PRIORITY, [48 + TruncatedMod(priority, 10)]);
    Grow(all, 0);
    b.AppendField(SYSLOG_IDENTIFIER, identifier);
    Grow(all, 1);
    b.AppendField(MESSAGE, message);
    Grow(all, 2);
    assert all[..3] == all;
  }

  /** The caller's fields after them. */
  method AppendFields(b: Buffer, fields: seq<Field>)
    modifies b
    ensures b.data == old(b.data) + EncodeFields(fields)
  {
    ghost var before := b.data;
    for i := 0 to |fields|
      invariant b.data == before + EncodeFields(fields[..i])
    {
      b.AppendField(fields[i].name, fields[i].value);
      Grow(fields, i);
      Associate(before, EncodeFields(fields[..i]), EncodeField(fields[i]));
    }
    assert fields[..|fields|] == fields;
  }

  method Encode(priority: int, identifier: bytes, message: bytes, fields: seq<Field>) returns (datagram: bytes)
    ensures datagram == EncodeFields(EntryFields(priority, identifier, message, fields))
    ensures WellNamed(fields) && priority >= 0 ==> Decode(datagram) == Some(Meant(priority, identifier, message, fields))
  {
    if WellNamed(fields) && priority >= 0 {
      EntryIsRead(priority, identifier, message, fields);
    }
    var b := Begin(priority, identifier, message);
    AppendFields(b, fields);
    OwnThenRest(priority, identifier, message, fields);
    datagram := b.data;
  }

  lemma OwnThenRest(priority: int, identifier: bytes, message: bytes, fields: seq<Field>)
    ensures EncodeFields(EntryFields(priority, identifier, message, fields))
         == EncodeFields(EntryFields(priority, identifier, message, [])) + EncodeFields(fields)
  {
    var own := EntryFields(priority, identifier, message, []);
    EncodeFieldsConcat(own, fields);
    assert own + fields == EntryFields(priority, identifier, message, fields);
  }

  // ---- the reader ----

  /** The first position of c, or the length when there is none. */
  function IndexOf(s: bytes, c: byte): (i: nat)
    ensures i <= |s|
    ensures i < |s| ==> s[i] == c
    ensures c !in s[..i]
  {
    if s == [] || s[0] == c then 0
    else
      var i := 1 + IndexOf(s[1..], c);
      assert s[..i] == [s[0]] + s[1..][..i - 1];
      i
  }

  /** One field off the front: a line with an equals sign is NAME=value; a line
      without one is a name, and a length and that many bytes follow. */
  function DecodeField(stream: bytes): Option<(Field, bytes)> {
    var end := IndexOf(stream, NEWLINE);
    if end == |stream| then None
    else
      var line, after := stream[..end], stream[end + 1..];
      var sign := IndexOf(line, EQUALS);
      if sign < |line| then Some((Field(line[..sign], line[sign + 1..]), after))
      else if |after| < 8 then None
      else
        var length := ValueLE(after[..8]);
        if |after| < 8 + length + 1 || after[8 + length] != NEWLINE then None
        else Some((Field(line, after[8..8 + length]), after[8 + length + 1..]))
  }

  function Decode(datagram: bytes): Option<seq<Field>>
    decreases |datagram|
  {
    if datagram == [] then Some([])
    else
      match DecodeField(datagram)
      case None => None
      case Some((field, rest)) =>
        match Decode(rest)
        case None => None
        case Some(later) => Some([field] + later)
  }

  lemma {:induction false} IndexOfFirst(s: bytes, c: byte, i: nat)
    requires i < |s| && s[i] == c && c !in s[..i]
    ensures IndexOf(s, c) == i
  {
    if i > 0 {
      assert s[..i][0] == s[0];
      assert s[1..][..i - 1] == s[..i][1..];
      IndexOfFirst(s[1..], c, i - 1);
    }
  }

  lemma DecodeTextField(name: bytes, value: bytes, rest: bytes)
    requires ValidName(name) && !NeedsLength(value)
    ensures DecodeField(name + [EQUALS] + value + [NEWLINE] + rest) == Some((Field(name, value), rest))
  {
    var line := name + [EQUALS] + value;
    var stream := name + [EQUALS] + value + [NEWLINE] + rest;
    assert stream[..|line|] == line && stream[|line|] == NEWLINE && stream[|line| + 1..] == rest;
    assert NEWLINE !in name;
    IndexOfFirst(stream, NEWLINE, |line|);
    assert line[..|name|] == name && line[|name| + 1..] == value;
    assert EQUALS !in name;
    IndexOfFirst(line, EQUALS, |name|);
  }

  lemma NoSign(name: bytes)
    requires ValidName(name)
    ensures NEWLINE !in name && EQUALS !in name && IndexOf(name, EQUALS) == |name|
  {
    assert NEWLINE !in name && EQUALS !in name;
  }

  lemma DecodeBinaryField(name: bytes, prefix: bytes, value: bytes, rest: bytes)
    requires ValidName(name) && |prefix| == 8 && ValueLE(prefix) == |value|
    ensures DecodeField(name + [NEWLINE] + (prefix + value + [NEWLINE] + rest)) == Some((Field(name, value), rest))
  {
    var after := prefix + value + [NEWLINE] + rest;
    var stream := name + [NEWLINE] + after;
    NoSign(name);
    assert after[..8] == prefix && after[8..8 + |value|] == value && after[8 + |value| + 1..] == rest;
    assert stream[..|name|] == name && stream[|name|] == NEWLINE && stream[|name| + 1..] == after;
    IndexOfFirst(stream, NEWLINE, |name|);
  }

  lemma LengthPrefix(n: nat)
    requires n < 0x1_0000_0000_0000_0000
    ensures ValueLE(LittleEndian(n, 8)) == n
  {
    assert Pow256(8) == 0x1_0000_0000_0000_0000;
    LittleEndianRoundTrip(n, 8);
  }

  /** A value with a newline or a NUL in it goes behind its name, a newline and its length,
      in eight bytes, the least significant first; any other behind its name and "=". */
  lemma FieldOnTheWire(name: bytes, value: bytes, i: nat)
    requires |value| <= MAX_VALUE && i < 8
    ensures var sent := EncodeField(Field(name, value));
      if NEWLINE in value || 0 in value then
        && |sent| == |name| + 1 + 8 + |value| + 1 && sent[..|name| + 1] == name + [10]
        && sent[|name| + 1 + i] == |value| / Pow256(i) % 256 && sent[|name| + 9..] == value + [10]
      else sent == name + [61] + value + [10]
  {
    LittleEndianByte(|value|, 8, i);
  }

  lemma EncodedShape(field: Field, rest: bytes)
    ensures var value := Cut(field.value);
      EncodeField(field) + rest ==
        if NeedsLength(value) then field.name + [NEWLINE] + (LittleEndian(|value|, 8) + value + [NEWLINE] + rest)
        else field.name + [EQUALS] + value + [NEWLINE] + rest
  {
  }

  lemma DecodeEncodedField(field: Field, rest: bytes)
    requires ValidName(field.name)
    ensures DecodeField(EncodeField(field) + rest) == Some((Field(field.name, Cut(field.value)), rest))
  {
    var value := Cut(field.value);
    EncodedShape(field, rest);
    if NeedsLength(value) {
      LengthPrefix(|value|);
      DecodeBinaryField(field.name, LittleEndian(|value|, 8), value, rest);
    } else {
      DecodeTextField(field.name, value, rest);
    }
  }

  /** The list as the journal receives it: names untouched, long values cut. */
  function Received(fields: seq<Field>): (r: seq<Field>)
    ensures |r| == |fields|
    ensures forall i :: 0 <= i < |r| ==> r[i] == Field(fields[i].name, Cut(fields[i].value))
  {
    seq(|fields|, i requires 0 <= i < |fields| => Field(fields[i].name, Cut(fields[i].value)))
  }

  lemma {:induction false} DecodeEncoded(fields: seq<Field>)
    requires WellNamed(fields)
    ensures Decode(EncodeFields(fields)) == Some(Received(fields))
  {
    if fields != [] {
      DecodeEncodedField(fields[0], EncodeFields(fields[1..]));
      DecodeEncoded(fields[1..]);
      assert EncodeField(fields[0]) != [];
      assert Received(fields) == [Received(fields)[0]] + Received(fields[1..]);
    }
  }

  /** What the journal is to read: the priority's last digit, then who logs, then what,
      then the fields. */
  function Meant(priority: int, identifier: bytes, message: bytes, fields: seq<Field>): seq<Field>
    requires priority >= 0
  {
    [Field(PRIORITY, [48 + priority % 10]), Field(SYSLOG_IDENTIFIER, Cut(identifier)), Field(MESSAGE, Cut(message))] + Received(fields)
  }

  lemma EntryIsRead(priority: int, identifier: bytes, message: bytes, fields: seq<Field>)
    requires WellNamed(fields) && priority >= 0
    ensures Decode(EncodeFields(EntryFields(priority, identifier, message, fields)))
         == Some(Meant(priority, identifier, message, fields))
  {
    EntryCannotBeForged(priority, identifier, message, fields);
    ReceivedIsMeant(priority, identifier, message, fields);
  }

  lemma ReceivedIsMeant(priority: int, identifier: bytes, message: bytes, fields: seq<Field>)
    requires priority >= 0
    ensures Received(EntryFields(priority, identifier, message, fields)) == Meant(priority, identifier, message, fields)
  {
    PriorityDigit(priority);
    OwnThree(PRIORITY, SYSLOG_IDENTIFIER, MESSAGE, [48 + priority % 10], identifier, message, fields);
  }

  lemma PriorityDigit(priority: int)
    requires priority >= 0
    ensures TruncatedMod(priority, 10) == priority % 10 && Cut([48 + priority % 10]) == [48 + priority % 10]
  {
  }

  lemma OwnThree(a: bytes, b: bytes, c: bytes, digit: bytes, identifier: bytes, message: bytes, fields: seq<Field>)
    requires Cut(digit) == digit
    ensures Received([Field(a, digit), Field(b, identifier), Field(c, message)] + fields)
         == [Field(a, digit), Field(b, Cut(identifier)), Field(c, Cut(message))] + Received(fields)
  {
    ThreeThenReceived(Field(a, digit), Field(b, identifier), Field(c, message), fields);
  }

  lemma ThreeThenReceived(a: Field, b: Field, c: Field, fields: seq<Field>)
    ensures Received([a, b, c] + fields)
         == [Field(a.name, Cut(a.value)), Field(b.name, Cut(b.value)), Field(c.name, Cut(c.value))] + Received(fields)
  {
  }

  /** Whatever the message and the values contain, newlines and NULs included,
      the journal reads exactly the entry that was meant and no field more. */
  lemma EntryCannotBeForged(priority: int, identifier: bytes, message: bytes, fields: seq<Field>)
    requires WellNamed(fields)
    ensures Decode(EncodeFields(EntryFields(priority, identifier, message, fields)))
         == Some(Received(EntryFields(priority, identifier, message, fields)))
  {
    DecodeEncoded(EntryFields(priority, identifier, message, fields));
  }

  // ---- names ----

  function CleanByte(c: byte): byte {
    if NameByte(c) then c else 95
  }

  /** A name journald accepts from a client and this package does not set itself. */
  predicate UsableName(name: bytes) {
    ValidName(name) && name[0] != 95 && !(48 <= name[0] <= 57)
    && name != MESSAGE && name != PRIORITY && name != SYSLOG_IDENTIFIER
  }

  /** FieldName on a key that is already in upper case: cleaned in place, then
      refused if it is no usable name. */
  method FieldName(key: bytes) returns (r: Option<bytes>)
    ensures var cleaned := seq(|key|, i requires 0 <= i < |key| => CleanByte(key[i]));
      r == if UsableName(cleaned) then Some(cleaned) else None
  {
    var name := new byte[|key|](i requires 0 <= i < |key| => key[i]);
    for i := 0 to |key|
      invariant forall j :: 0 <= j < i ==> name[j] == CleanByte(key[j])
      invariant forall j :: i <= j < |key| ==> name[j] == key[j]
    {
      if !NameByte(name[i]) {
        name[i] := 95;
      }
    }
    var cleaned := name[..];
    assert cleaned == seq(|key|, i requires 0 <= i < |key| => CleanByte(key[i]));
    if |cleaned| == 0 || cleaned[0] == 95 || 48 <= cleaned[0] <= 57 {
      return None;
    }
    if cleaned == MESSAGE || cleaned == PRIORITY || cleaned == SYSLOG_IDENTIFIER {
      return None;
    }
    return Some(cleaned);
  }
}
