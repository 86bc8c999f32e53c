/** The mr-1 token. */
module Tokens {
  import opened Basics
  import opened Mr1

  // mrcore/token.go: the token as the LUKS2 header stores it, a JSON object with the fields this
  // program owns and any others it has to keep.

  datatype Machine = Machine(name: string, transportID: string)

  /** A JSON value, as far as the fields of a token go. */
  datatype Json =
    | Str(text: string) | Num(number: int) | Names(names: seq<string>)
    | Recipients(recipients: seq<Recipient>) | MachineInfo(machine: Machine)
    | Null | Other(raw: string)

  type Document = map<string, Json>

  datatype Token = Token(
    version: int, keyslots: seq<string>, recipients: seq<Recipient>, machine: Machine, extra: Document)

  const TOKEN_TYPE := "mr-1"
  const CURRENT_VERSION := 1
  const WIRE_FIELDS: set<string> := {"type", "version", "keyslots", "recipients", "machine"}
  const NOBODY := Machine("", "")

  /** The five fields this build is responsible for. */
  function OwnFields(t: Token): Document {
    map["type" := Str(TOKEN_TYPE), "version" := Num(t.version), "keyslots" := Names(t.keyslots),
        "recipients" := Recipients(t.recipients), "machine" := MachineInfo(t.machine)]
  }

  /** Unknown fields first, so that they cannot displace an own one. */
  function Marshalled(t: Token): Document {
    t.extra + OwnFields(t)
  }

  function TypeOf(doc: Document): string {
    if "type" in doc && doc["type"].Str? then doc["type"].text else ""
  }

  function VersionOf(doc: Document): int {
    if "version" in doc && doc["version"].Num? then doc["version"].number else 0
  }

  /** A field that is absent or null leaves its variable alone; one of another
      shape is an error. */
  function KeyslotsOf(doc: Document): Result<seq<string>> {
    if "keyslots" !in doc || doc["keyslots"].Null? then Success([])
    else if doc["keyslots"].Names? then Success(doc["keyslots"].names)
    else Failure("unmarshal token: keyslots")
  }

  function RecipientsOf(doc: Document): Result<seq<Recipient>> {
    if "recipients" !in doc || doc["recipients"].Null? then Success([])
    else if doc["recipients"].Recipients? then Success(doc["recipients"].recipients)
    else Failure("unmarshal token: recipients")
  }

  function MachineOf(doc: Document): Result<Machine> {
    if "machine" !in doc || doc["machine"].Null? then Success(NOBODY)
    else if doc["machine"].MachineInfo? then Success(doc["machine"].machine)
    else Failure("unmarshal token: machine")
  }

  function Unmarshalled(doc: Document): Result<Token> {
    if TypeOf(doc) != TOKEN_TYPE then Failure("unmarshal token: unsupported type")
    else if VersionOf(doc) != CURRENT_VERSION then Failure("unmarshal token: unsupported version")
    else match (KeyslotsOf(doc), RecipientsOf(doc), MachineOf(doc))
      case (Success(keyslots), Success(recipients), Success(machine)) =>
        Success(Token(CURRENT_VERSION, keyslots, recipients, machine, doc - WIRE_FIELDS))
      case _ => Failure("unmarshal token: a field has the wrong shape")
  }

  /** MarshalJSON: the loop over the unknown fields, then the own ones. */
  method MarshalJSON(t: Token) returns (out: Document)
    ensures out == Marshalled(t)
  {
    out := map[];
    var todo := t.extra.Keys;
    while todo != {}
      invariant todo <= t.extra.Keys && out.Keys == t.extra.Keys - todo
      invariant forall k :: k in out ==> out[k] == t.extra[k]
      decreases todo
    {
      var k :| k in todo;
      out := out[k := t.extra[k]];
      todo := todo - {k};
    }
    assert out == t.extra;
    out := out["type" := Str(TOKEN_TYPE)];
    out := out["version" := Num(t.version)];
    out := out["keyslots" := Names(t.keyslots)];
    out := out["recipients" := Recipients(t.recipients)];
    out := out["machine" := MachineInfo(t.machine)];
  }

  /** UnmarshalJSON: type and version first, then the fields, then a loop that
      keeps what it does not know. */
  method UnmarshalJSON(raw: Document) returns (r: Result<Token>)
    ensures r == Unmarshalled(raw)
  {
    if TypeOf(raw) != TOKEN_TYPE {
      return Failure("unmarshal token: unsupported type");
    }
    if VersionOf(raw) != CURRENT_VERSION {
      return Failure("unmarshal token: unsupported version");
    }
    if KeyslotsOf(raw).Failure? || RecipientsOf(raw).Failure? || MachineOf(raw).Failure? {
      return Failure("unmarshal token: a field has the wrong shape");
    }
    var extra: Document := map[];
    var todo := raw.Keys;
    while todo != {}
      invariant todo <= raw.Keys && extra.Keys == raw.Keys - todo - WIRE_FIELDS
      invariant forall k :: k in extra ==> extra[k] == raw[k]
      decreases todo
    {
      var k :| k in todo;
      if k !in WIRE_FIELDS {
        extra := extra[k := raw[k]];
      }
      todo := todo - {k};
    }
    assert extra == raw - WIRE_FIELDS;
    return Success(Token(CURRENT_VERSION, KeyslotsOf(raw).value, RecipientsOf(raw).value, MachineOf(raw).value, extra));
  }

  /** A token as this build makes them. */
  predicate Current(t: Token) {
    t.version == CURRENT_VERSION && t.extra.Keys !! WIRE_FIELDS
  }

  /** Writing a token and reading it back gives the same token; a token of any
      other version is refused instead of misread. */
  lemma TokenRoundTrip(t: Token)
    ensures t.version != CURRENT_VERSION ==> Unmarshalled(Marshalled(t)).Failure?
    ensures t.version == CURRENT_VERSION ==> Unmarshalled(Marshalled(t)) == Success(t.(extra := t.extra - WIRE_FIELDS))
    ensures Current(t) ==> Unmarshalled(Marshalled(t)) == Success(t)
  {
    var doc := Marshalled(t);
    assert doc - WIRE_FIELDS == t.extra - WIRE_FIELDS;
    if Current(t) {
      assert t.extra - WIRE_FIELDS == t.extra;
    }
  }

  /** Whatever happens to the lists in between, a field this build does not know
      comes out of a read and a write as it went in, and none is invented. */
  lemma UnknownFieldsSurvive(doc: Document, keyslots: seq<string>, recipients: seq<Recipient>)
    requires Unmarshalled(doc).Success?
    ensures var rewritten := Marshalled(Unmarshalled(doc).value.(keyslots := keyslots, recipients := recipients));
      rewritten - WIRE_FIELDS == doc - WIRE_FIELDS && WIRE_FIELDS <= rewritten.Keys
  {
    var t := Unmarshalled(doc).value.(keyslots := keyslots, recipients := recipients);
    assert Marshalled(t) - WIRE_FIELDS == t.extra;
  }

  /** Absent, null, or of that shape. */
  predicate Fits(doc: Document, name: string, shape: Json -> bool) {
    name in doc ==> doc[name].Null? || shape(doc[name])
  }

  /** Exactly these documents are read as a token of this build's, and what the token
      then has stands under these names. */
  lemma ReadIff(doc: Document)
    ensures Unmarshalled(doc).Success? <==>
      && "type" in doc && doc["type"] == Str("mr-1") && "version" in doc && doc["version"] == Num(1)
      && Fits(doc, "keyslots", (j: Json) => j.Names?) && Fits(doc, "recipients", (j: Json) => j.Recipients?)
      && Fits(doc, "machine", (j: Json) => j.MachineInfo?)
    ensures Unmarshalled(doc).Success? ==>
      var t := Unmarshalled(doc).value;
      && t.keyslots == (if "keyslots" in doc && doc["keyslots"].Names? then doc["keyslots"].names else [])
      && t.recipients == (if "recipients" in doc && doc["recipients"].Recipients? then doc["recipients"].recipients else [])
      && t.machine == (if "machine" in doc && doc["machine"].MachineInfo? then doc["machine"].machine else NOBODY)
  {
  }

  /** And under these it is written. */
  lemma WrittenUnder(t: Token)
    ensures var doc := Marshalled(t);
      && WIRE_FIELDS <= doc.Keys
      && doc["type"] == Str("mr-1") && doc["version"] == Num(t.version)
      && doc["keyslots"] == Names(t.keyslots) && doc["recipients"] == Recipients(t.recipients)
      && doc["machine"] == MachineInfo(t.machine)
  {
  }
}
