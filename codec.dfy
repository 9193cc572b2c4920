/** The text form a `SessionUser` takes inside the session store: a JSON object
    with the camel-case property names of the web serializer defaults, in
    declaration order, with `null` for an absent contact field. */
module Codec {
  import opened Common
  import opened Models

  /** The exception the deserializer raises on a text it cannot read. */
  datatype JsonException = JsonException

  /** Deserializing either yields the record (or no record, for the literal `null`)
      or raises. */
  datatype Decoded = Decoded(user: Option<SessionUser>) | Raised(error: JsonException)

  const NullLiteral: string := "null"

  // ----- strings -----

  /** The characters a JSON string literal must escape: the quote and the backslash. */
  predicate NeedsEscape(c: char) {
    c == '"' || c == '\\'
  }

  /** The body of a string literal: every quote in it is escaped, so it comes
      right after a backslash, and the body never starts with one. */
  function Escape(s: string): (r: string)
    ensures |r| >= |s|
    ensures r != [] ==> r[0] != '"'
    ensures forall i :: 0 < i < |r| && r[i] == '"' ==> r[i - 1] == '\\'
  {
    if s == [] then []
    else
      var head := if NeedsEscape(s[0]) then ['\\', s[0]] else [s[0]];
      var tail := Escape(s[1..]);
      var r := head + tail;
      assert forall i :: |head| <= i < |r| ==> r[i] == tail[i - |head|];
      r
  }

  /** A JSON string literal: opening quote, escaped body, closing quote. */
  function Quote(s: string): string {
    ['"'] + Escape(s) + ['"']
  }

  /** Reads the body of a string literal up to its unescaped closing quote, which
      it consumes; yields the unescaped value and the text after the quote. */
  function ReadChars(t: string): Option<(string, string)>
  {
    if t == [] then None
    else if t[0] == '"' then Some(([], t[1..]))
    else if t[0] == '\\' then
      if |t| >= 2 && NeedsEscape(t[1]) then
        match ReadChars(t[2..])
        case None => None
        case Some(p) => Some(([t[1]] + p.0, p.1))
      else None
    else
      match ReadChars(t[1..])
      case None => None
      case Some(p) => Some(([t[0]] + p.0, p.1))
  }

  function ReadString(t: string): Option<(string, string)> {
    if |t| > 0 && t[0] == '"' then ReadChars(t[1..]) else None
  }

  /** A string property value: a string literal, or `null` for an absent value. */
  function QuoteNullable(v: Option<string>): string {
    match v
    case None => NullLiteral
    case Some(s) => Quote(s)
  }

  function ReadNullable(t: string): Option<(Option<string>, string)> {
    if |t| >= 4 && t[..4] == NullLiteral then Some((None, t[4..]))
    else match ReadString(t)
      case None => None
      case Some(p) => Some((Some(p.0), p.1))
  }

  /** Consumes a fixed piece of punctuation and property name. */
  function Expect(lit: string, t: string): Option<string> {
    if |lit| <= |t| && t[..|lit|] == lit then Some(t[|lit|..]) else None
  }

  // ----- the record -----

  const IdKey: string := "{\"id\":"
  const NameKey: string := ",\"name\":"
  const RoleKey: string := ",\"role\":"
  const PhoneKey: string := ",\"phoneNumber\":"
  const EmailKey: string := ",\"email\":"
  const Close: string := "}"

  /** `JsonSerializer.Serialize(user, SerializerOptions)`. */
  function Encode(u: SessionUser): (t: string)
    ensures |t| > 0 && t[0] == '{' && t[|t| - 1] == '}'
    ensures t != NullLiteral
  {
    IdKey + (Quote(u.id) + (NameKey + (Quote(u.name) + (RoleKey + (Quote(u.role) +
      (PhoneKey + (QuoteNullable(u.phoneNumber) + (EmailKey + (QuoteNullable(u.email) + Close)))))))))
  }

  /** `JsonSerializer.Deserialize<SessionUser>(json, SerializerOptions)` on the texts
      this codec writes, plus the literal `null`; any other text raises. */
  function Decode(t: string): (r: Decoded)
    ensures r == Decoded(None) <==> t == NullLiteral
  {
    if t == NullLiteral then Decoded(None)
    else match ParseRecord(t)
      case None => Raised(JsonException)
      case Some(u) => Decoded(Some(u))
  }

  function ParseRecord(t: string): Option<SessionUser> {
    match Expect(IdKey, t)
    case None => None
    case Some(t1) =>
      match ReadString(t1)
      case None => None
      case Some(id) =>
        match Expect(NameKey, id.1)
        case None => None
        case Some(t2) =>
          match ReadString(t2)
          case None => None
          case Some(name) =>
            match Expect(RoleKey, name.1)
            case None => None
            case Some(t3) =>
              match ReadString(t3)
              case None => None
              case Some(role) =>
                match Expect(PhoneKey, role.1)
                case None => None
                case Some(t4) =>
                  match ReadNullable(t4)
                  case None => None
                  case Some(phone) =>
                    match Expect(EmailKey, phone.1)
                    case None => None
                    case Some(t5) =>
                      match ReadNullable(t5)
                      case None => None
                      case Some(email) =>
                        if email.1 == Close then Some(SessionUser(id.0, name.0, role.0, phone.0, email.0))
                        else None
  }

  // ----- round trips -----

  /** Reading an escaped body back stops exactly at its closing quote and returns
      the original characters. */
  lemma {:induction false} ReadCharsEscape(s: string, rest: string)
    ensures ReadChars(Escape(s) + ['"'] + rest) == Some((s, rest))
  {
    if s == [] {
      assert Escape(s) + ['"'] + rest == ['"'] + rest;
    } else {
      var head := if NeedsEscape(s[0]) then ['\\', s[0]] else [s[0]];
      var t := Escape(s) + ['"'] + rest;
      assert t == head + (Escape(s[1..]) + ['"'] + rest);
      ReadCharsEscape(s[1..], rest);
      if NeedsEscape(s[0]) {
        assert t[2..] == Escape(s[1..]) + ['"'] + rest;
      } else {
        assert t[1..] == Escape(s[1..]) + ['"'] + rest;
      }
      assert [s[0]] + s[1..] == s;
    }
  }

  /** Conversely, whatever ReadChars accepts is an escaped body, its closing quote,
      and the remaining text: the reader accepts only what the writer can produce. */
  lemma {:induction false} ReadCharsCanonical(t: string)
    requires ReadChars(t).Some?
    ensures t == Escape(ReadChars(t).value.0) + ['"'] + ReadChars(t).value.1
  {
    if t[0] == '"' {
      assert t == [] + ['"'] + t[1..];
    } else if t[0] == '\\' {
      ReadCharsCanonical(t[2..]);
      var p := ReadChars(t[2..]).value;
      assert Escape([t[1]] + p.0) == ['\\', t[1]] + Escape(p.0) by {
        assert ([t[1]] + p.0)[1..] == p.0;
      }
      assert t == t[..2] + t[2..];
    } else {
      ReadCharsCanonical(t[1..]);
      var p := ReadChars(t[1..]).value;
      assert Escape([t[0]] + p.0) == [t[0]] + Escape(p.0) by {
        assert ([t[0]] + p.0)[1..] == p.0;
      }
      assert t == [t[0]] + t[1..];
    }
  }

  lemma ReadStringQuote(s: string, rest: string)
    ensures ReadString(Quote(s) + rest) == Some((s, rest))
  {
    var t := Quote(s) + rest;
    assert t[1..] == Escape(s) + ['"'] + rest;
    ReadCharsEscape(s, rest);
  }

  lemma ReadStringCanonical(t: string)
    requires ReadString(t).Some?
    ensures t == Quote(ReadString(t).value.0) + ReadString(t).value.1
  {
    ReadCharsCanonical(t[1..]);
    assert t == [t[0]] + t[1..];
  }

  lemma ReadNullableQuote(v: Option<string>, rest: string)
    ensures ReadNullable(QuoteNullable(v) + rest) == Some((v, rest))
  {
    var t := QuoteNullable(v) + rest;
    match v
    case None =>
      assert t[..4] == NullLiteral && t[4..] == rest;
    case Some(s) =>
      assert t[0] == '"';
      assert !(|t| >= 4 && t[..4] == NullLiteral) by {
        if |t| >= 4 { assert t[..4][0] == '"'; }
      }
      ReadStringQuote(s, rest);
  }

  lemma ReadNullableCanonical(t: string)
    requires ReadNullable(t).Some?
    ensures t == QuoteNullable(ReadNullable(t).value.0) + ReadNullable(t).value.1
  {
    if |t| >= 4 && t[..4] == NullLiteral {
      assert t == t[..4] + t[4..];
    } else {
      ReadStringCanonical(t);
    }
  }

  lemma ExpectPrefix(lit: string, rest: string)
    ensures Expect(lit, lit + rest) == Some(rest)
  {
    assert (lit + rest)[..|lit|] == lit;
  }

  lemma ExpectCanonical(lit: string, t: string)
    requires Expect(lit, t).Some?
    ensures t == lit + Expect(lit, t).value
  {
    assert t == t[..|lit|] + t[|lit|..];
  }

  /** Lossless storage: decoding what was encoded gives back the same record, for
      every record (well-formed or not). */
  lemma DecodeEncode(u: SessionUser)
    ensures Decode(Encode(u)) == Decoded(Some(u))
  {
    var tail5 := QuoteNullable(u.email) + Close;
    var tail4 := QuoteNullable(u.phoneNumber) + (EmailKey + tail5);
    var tail3 := Quote(u.role) + (PhoneKey + tail4);
    var tail2 := Quote(u.name) + (RoleKey + tail3);
    var tail1 := Quote(u.id) + (NameKey + tail2);
    assert Encode(u) == IdKey + tail1;
    ExpectPrefix(IdKey, tail1);
    ReadStringQuote(u.id, NameKey + tail2);
    ExpectPrefix(NameKey, tail2);
    ReadStringQuote(u.name, RoleKey + tail3);
    ExpectPrefix(RoleKey, tail3);
    ReadStringQuote(u.role, PhoneKey + tail4);
    ExpectPrefix(PhoneKey, tail4);
    ReadNullableQuote(u.phoneNumber, EmailKey + tail5);
    ExpectPrefix(EmailKey, tail5);
    ReadNullableQuote(u.email, Close);
  }

  /** Canonical reading: a text that decodes to a record is exactly that record's
      encoding, so two different texts never decode to the same record. */
  lemma EncodeDecode(t: string)
    requires Decode(t).Decoded? && Decode(t).user.Some?
    ensures Encode(Decode(t).user.value) == t
  {
    var t1 := Expect(IdKey, t).value;
    ExpectCanonical(IdKey, t);
    var id := ReadString(t1).value;
    ReadStringCanonical(t1);
    var t2 := Expect(NameKey, id.1).value;
    ExpectCanonical(NameKey, id.1);
    var name := ReadString(t2).value;
    ReadStringCanonical(t2);
    var t3 := Expect(RoleKey, name.1).value;
    ExpectCanonical(RoleKey, name.1);
    var role := ReadString(t3).value;
    ReadStringCanonical(t3);
    var t4 := Expect(PhoneKey, role.1).value;
    ExpectCanonical(PhoneKey, role.1);
    var phone := ReadNullable(t4).value;
    ReadNullableCanonical(t4);
    var t5 := Expect(EmailKey, phone.1).value;
    ExpectCanonical(EmailKey, phone.1);
    var email := ReadNullable(t5).value;
    ReadNullableCanonical(t5);
  }

  /** Encoding is injective: distinct records are stored as distinct texts. */
  lemma EncodeInjective(u: SessionUser, v: SessionUser)
    requires Encode(u) == Encode(v)
    ensures u == v
  {
    DecodeEncode(u);
    DecodeEncode(v);
  }
}
