/** The body of a queue message, as it is written and as it is read (app/queue.py:51-60). */
module QueuePayload {
  import opened Lifecycle
  import opened Text
  import opened Json

  const UUIDS := 0x1_0000_0000_0000_0000_0000_0000_0000_0000

  // ---------------------------------------------------------------- writing

  /** `str(uuid)`: 8-4-4-4-12 hexadecimal digits (section 4 of RFC 9562). */
  function UuidText(id: Uuid): Str {
    var h := Hex(id, 32);
    h[..8] + [45] + h[8..12] + [45] + h[12..16] + [45] + h[16..20] + [45] + h[20..]
  }

  /** The text of a body with `text` for the id. */
  function TextWith(text: Str, attempt: int): Str {
    Ascii("{\"event_id\": \"") + text + Ascii("\", \"attempt\": ") + Shown(attempt) + Ascii("}")
  }

  function BodyText(id: Uuid, attempt: int): Str {
    TextWith(UuidText(id), attempt)
  }

  lemma {:induction false} HexSevenBit(n: nat, k: nat)
    ensures SevenBit(Hex(n, k)) && Plain(Hex(n, k)) && 45 !in Hex(n, k)
  {
    if k > 0 { HexSevenBit(n / 16, k - 1); }
  }

  lemma UuidTextPlain(id: Uuid)
    ensures SevenBit(UuidText(id)) && Plain(UuidText(id))
  {
    HexSevenBit(id, 32);
  }

  lemma ShownSevenBit(n: int)
    ensures SevenBit(Shown(n))
  {
    DecimalValue(if n < 0 then -n else n);
  }

  lemma SevenBitConcat(a: Str, b: Str)
    requires SevenBit(a) && SevenBit(b)
    ensures SevenBit(a + b)
  {
  }

  lemma BodySevenBit(id: Uuid, attempt: int)
    ensures SevenBit(BodyText(id, attempt)) && Encodable(BodyText(id, attempt))
  {
    UuidTextPlain(id);
    ShownSevenBit(attempt);
    var a, b := Ascii("{\"event_id\": \""), Ascii("\", \"attempt\": ");
    SevenBitConcat(a, UuidText(id));
    SevenBitConcat(a + UuidText(id), b);
    SevenBitConcat(a + UuidText(id) + b, Shown(attempt));
    SevenBitConcat(a + UuidText(id) + b + Shown(attempt), Ascii("}"));
  }

  /** `_queue_payload`. */
  function Body(id: Uuid, attempt: int): seq<Byte> {
    BodySevenBit(id, attempt);
    Encode(BodyText(id, attempt))
  }

  // ---------------------------------------------------------------- the layout of what is written

  /** The characters other than dashes. */
  function Undashed(t: Str): Str {
    if t == [] then [] else if t[0] == 45 then Undashed(t[1..]) else [t[0]] + Undashed(t[1..])
  }

  predicate LowerHex(c: int) {
    48 <= c <= 57 || 97 <= c <= 102
  }

  lemma {:induction false} HexLower(n: nat, k: nat)
    ensures forall i :: 0 <= i < k ==> LowerHex(Hex(n, k)[i])
  {
    if k > 0 { HexLower(n / 16, k - 1); }
  }

  /** The text of an id has 36 characters: dashes exactly at 8, 13, 18 and 23, lower-case hexadecimal digits
      everywhere else, and those digits have the id as their value. */
  lemma UuidTextLayout(id: Uuid)
    ensures var t := UuidText(id);
      && |t| == 36
      && (forall i :: 0 <= i < 36 ==> (t[i] == 45 <==> i in {8, 13, 18, 23}))
      && (forall i :: 0 <= i < 36 && t[i] != 45 ==> LowerHex(t[i]))
      && |Undashed(t)| == 32 && Text.Value(Undashed(t), 16, 0) == id
  {
    hide Hex, Pow16, Undashed, Without, Text.Value;
    var h := Hex(id, 32);
    HexLower(id, 32);
    HexSevenBit(id, 32);
    SixteenToThe32();
    HexValue(id, 32);
    UndashedUuid(id);
    UndashedIsWithout(UuidText(id));
  }

  /** Where key, id and number stand in a body, byte for byte. */
  lemma BodyTextLayout(id: Uuid, attempt: int)
    ensures var b := Body(id, attempt);
      && |b| == 65 + |Shown(attempt)|
      && b[..14] == Ascii("{\"event_id\": \"")
      && b[14..50] == UuidText(id)
      && b[50..64] == Ascii("\", \"attempt\": ")
      && b[64..64 + |Shown(attempt)|] == Shown(attempt)
      && b[64 + |Shown(attempt)|] == 125
  {
    hide Shown, UuidText;
    UuidTextLayout(id);
    BodySevenBit(id, attempt);
    EncodeAscii(BodyText(id, attempt));
  }

  // ---------------------------------------------------------------- reading

  /** `text.replace(word, "")`. */
  function Without(t: Str, word: Str): Str
    requires word != []
    decreases |t|
  {
    if t == [] then []
    else if word <= t then Without(t[|word|..], word)
    else [t[0]] + Without(t[1..], word)
  }

  predicate IsBrace(c: int) {
    c == OPEN_BRACE || c == CLOSE_BRACE
  }

  /** `text.strip("{}")`. */
  function StripBraces(t: Str): Str {
    if t != [] && IsBrace(t[0]) then StripBraces(t[1..])
    else if t != [] && IsBrace(t[|t| - 1]) then StripBraces(t[..|t| - 1])
    else t
  }

  /** `uuid.UUID(text)`. */
  function ParseUuid(t: Str): Option<Uuid> {
    var hex := Without(StripBraces(Without(Without(t, Ascii("urn:")), Ascii("uuid:"))), [45]);
    if |hex| != 32 then None
    else match PyInt(hex, 16)
      case None => None
      case Some(n) => if 0 <= n < UUIDS then Some(n) else None
  }

  function Pow10(k: nat): int {
    if k == 0 then 1 else 10 * Pow10(k - 1)
  }

  lemma {:induction false} Pow10Positive(k: nat)
    ensures Pow10(k) > 0
  {
    if k > 0 { Pow10Positive(k - 1); }
  }

  /** `int(value)`; a fraction is truncated toward zero. */
  function ToInt(v: Value): Option<int> {
    match v
    case Int(n) => Some(n)
    case Bool(b) => Some(if b then 1 else 0)
    case Text(t) => PyInt(t, 10)
    case Float(negative, digits, e) =>
      Pow10Positive(if e < 0 then -e else e);
      Some(Signed(negative, if e >= 0 then digits * Pow10(e) else digits / Pow10(-e)))
    case _ => None
  }

  /** `_decode_payload`; None where it raises. */
  function ReadBody(raw: seq<Byte>): Option<(Uuid, int)> {
    match Loads(raw)
    case Some(Object(members)) => (
      match Get(members, Ascii("event_id"))
      case Some(Text(t)) => (
        match ParseUuid(t)
        case None => None
        case Some(id) => (
          match Get(members, Ascii("attempt"))
          case None => Some((id, 1))
          case Some(v) => (
            match ToInt(v)
            case None => None
            case Some(attempt) => Some((id, attempt)))))
      case _ => None)
    case _ => None
  }

  // ---------------------------------------------------------------- the round trip

  lemma {:induction false} WithoutAbsent(t: Str, word: Str, c: int)
    requires word != [] && c in word && c !in t
    ensures Without(t, word) == t
  {
    if t != [] {
      WithoutAbsent(t[1..], word, c);
    }
  }

  lemma {:induction false} DropDash(t: Str, rest: Str)
    requires 45 !in t
    ensures Without(t + [45] + rest, [45]) == t + Without(rest, [45])
  {
    var u := t + [45] + rest;
    if t == [] {
      assert u == [45] + rest;
      assert [45] <= u && u[1..] == rest;
    } else {
      assert u[1..] == t[1..] + [45] + rest;
      assert u[0] == t[0] && t[0] in t;
      DropDash(t[1..], rest);
    }
  }

  lemma UuidLayout(a: Str, b: Str, c: Str, d: Str, e: Str)
    ensures a + [45] + b + [45] + c + [45] + d + [45] + e == a + [45] + (b + [45] + (c + [45] + (d + [45] + e)))
  {
    assert c + [45] + d + [45] + e == c + [45] + (d + [45] + e);
    assert b + [45] + c + [45] + d + [45] + e == b + [45] + (c + [45] + d + [45] + e);
  }

  /** Taking the dashes out gives the digits back. */
  lemma UndashedUuid(id: Uuid)
    ensures Without(UuidText(id), [45]) == Hex(id, 32)
  {
    var h := Hex(id, 32);
    var a, b, c, d, e := h[..8], h[8..12], h[12..16], h[16..20], h[20..];
    HexSevenBit(id, 32);
    UuidLayout(a, b, c, d, e);
    WithoutAbsent(e, [45], 45);
    DropDash(d, e);
    DropDash(c, d + [45] + e);
    DropDash(b, c + [45] + (d + [45] + e));
    DropDash(a, b + [45] + (c + [45] + (d + [45] + e)));
    assert a + (b + (c + (d + e))) == h;
  }

  lemma SixteenToThe32()
    ensures Pow16(32) == UUIDS
  {
    assert Pow16(8) == 0x1_0000_0000;
    assert Pow16(16) == 0x1_0000_0000_0000_0000;
    assert Pow16(24) == 0x1_0000_0000_0000_0000_0000_0000;
  }

  lemma HexIsInt(t: Str)
    requires |t| == 32 && AllDigits(t, 16)
    ensures PyInt(t, 16) == Some(Text.Value(t, 16, 0))
  {
    hide Narrowed;
    assert forall i :: 0 <= i < |t| ==> IsDigit(t[i], 16);
    NarrowPlain(t);
    ReadAllDigits(t, 16, 0);
    assert IsDigit(t[0], 16) && IsDigit(t[1], 16) && IsDigit(t[31], 16);
  }

  lemma ParseUuidText(id: Uuid)
    ensures ParseUuid(UuidText(id)) == Some(id)
  {
    hide PyInt, UuidText, Hex, Pow16, Text.Value;
    var t := UuidText(id);
    var h := Hex(id, 32);
    SixteenToThe32();
    HexValue(id, 32);
    UuidAlphabet(id);
    assert Ascii("urn:")[3] == 58 && Ascii("uuid:")[4] == 58;
    WithoutAbsent(t, Ascii("urn:"), 58);
    WithoutAbsent(t, Ascii("uuid:"), 58);
    UndashedUuid(id);
    HexIsInt(h);
  }

  /** No colon anywhere, and no brace at either end. */
  lemma UuidAlphabet(id: Uuid)
    ensures var t := UuidText(id); 58 !in t && |t| == 36 && !IsBrace(t[0]) && !IsBrace(t[35])
  {
    SixteenToThe32();
    HexValue(id, 32);
    var h := Hex(id, 32);
    assert forall i :: 0 <= i < 32 ==> IsDigit(h[i], 16);
    assert UuidText(id)[0] == h[0] && UuidText(id)[35] == h[31];
  }

  lemma SkipNothing(t: Str)
    requires t != [] && !(t[0] in {32, 9, 10, 13})
    ensures SkipSpace(t) == t && SkipSpace([32] + t) == t
  {
    assert ([32] + t)[1..] == t;
  }

  lemma ShownNumeric(n: int)
    ensures var t := Shown(n);
      t != [] && (IsDecimal(t[0]) || (t[0] == MINUS && |t| > 1 && IsDecimal(t[1])))
  {
    DecimalValue(if n < 0 then -n else n);
  }

  lemma ParseShown(n: int)
    ensures ParseValue(Shown(n) + [CLOSE_BRACE]) == Some((Int(n), [CLOSE_BRACE]))
    ensures Shown(n) != [] && !(Shown(n)[0] in {32, 9, 10, 13})
  {
    ShownNumeric(n);
    ParseShownNumber(n, [CLOSE_BRACE]);
  }

  /** The text of a member from its key's quote on, whose value is the start of `value`. */
  function MemberText(key: Str, value: Str): Str {
    [QUOTE] + (key + [QUOTE] + ([COLON] + ([32] + value)))
  }

  function LastMember(key: Str, n: int): Str {
    MemberText(key, Shown(n) + [CLOSE_BRACE])
  }

  function TextMember(key: Str, text: Str, more: Str): Str {
    MemberText(key, [QUOTE] + (text + [QUOTE] + ([COMMA] + ([32] + more))))
  }

  predicate Solid(t: Str) {
    t != [] && !(t[0] in {32, 9, 10, 13})
  }

  lemma MemberHead(key: Str, value: Str)
    requires Plain(key) && Solid(value)
    ensures var t := MemberText(key, value);
      && At(t, QUOTE) && ParseString(t[1..]) == Some((key, [COLON] + ([32] + value)))
      && SkipSpace([COLON] + ([32] + value)) == [COLON] + ([32] + value)
      && SkipSpace(([COLON] + ([32] + value))[1..]) == value
  {
    var rest := [COLON] + ([32] + value);
    assert MemberText(key, value)[1..] == key + [QUOTE] + rest;
    ParsePlainString(key, rest);
    SkipNothing(rest);
    assert rest[1..] == [32] + value;
    SkipNothing(value);
  }

  lemma ParseLast(key: Str, value: Str, v: Value)
    requires Plain(key) && Solid(value) && ParseValue(value) == Some((v, [CLOSE_BRACE]))
    ensures ParseMembers(MemberText(key, value)) == Some(([Member(key, v)], []))
  {
    MemberHead(key, value);
  }

  lemma ParseMore(key: Str, value: Str, v: Value, more: Str)
    requires Plain(key) && Solid(value) && ParseValue(value) == Some((v, [COMMA] + ([32] + more)))
    requires At(more, QUOTE) && ParseMembers(more).Some?
    ensures ParseMembers(MemberText(key, value)) ==
            Some(([Member(key, v)] + ParseMembers(more).value.0, ParseMembers(more).value.1))
  {
    var after := [COMMA] + ([32] + more);
    MemberHead(key, value);
    SkipNothing(after);
    assert after[1..] == [32] + more;
    SkipNothing(more);
  }

  lemma ParseTextValue(text: Str, after: Str)
    requires Plain(text)
    ensures ParseValue([QUOTE] + (text + [QUOTE] + after)) == Some((Json.Text(text), after))
  {
    assert ([QUOTE] + (text + [QUOTE] + after))[1..] == text + [QUOTE] + after;
    ParsePlainString(text, after);
  }

  lemma ParseLastMember(key: Str, n: int)
    requires Plain(key)
    ensures At(LastMember(key, n), QUOTE) && ParseMembers(LastMember(key, n)) == Some(([Member(key, Int(n))], []))
  {
    ParseShown(n);
    ParseLast(key, Shown(n) + [CLOSE_BRACE], Int(n));
  }

  lemma ParseTextMember(key: Str, text: Str, more: Str)
    requires Plain(key) && Plain(text) && At(more, QUOTE) && ParseMembers(more).Some?
    ensures ParseMembers(TextMember(key, text, more)) ==
            Some(([Member(key, Json.Text(text))] + ParseMembers(more).value.0, ParseMembers(more).value.1))
  {
    var after := [COMMA] + ([32] + more);
    ParseTextValue(text, after);
    ParseMore(key, [QUOTE] + (text + [QUOTE] + after), Json.Text(text), more);
  }

  lemma Keys()
    ensures Ascii("event_id") == [101, 118, 101, 110, 116, 95, 105, 100]
    ensures Ascii("attempt") == [97, 116, 116, 101, 109, 112, 116]
  {
  }

  lemma MiddleLayout(key: Str, end: Str)
    ensures [QUOTE, COMMA, 32, QUOTE] + key + [QUOTE, COLON, 32] + end ==
            [QUOTE] + ([COMMA] + ([32] + ([QUOTE] + (key + [QUOTE] + ([COLON] + ([32] + end))))))
  {
    assert [QUOTE, COMMA, 32, QUOTE] == [QUOTE] + ([COMMA] + ([32] + [QUOTE]));
    assert [QUOTE, COLON, 32] + end == [QUOTE] + ([COLON] + ([32] + end));
  }

  lemma StartLayout(key: Str, text: Str, rest: Str)
    ensures [OPEN_BRACE, QUOTE] + key + [QUOTE, COLON, 32, QUOTE] + text + ([QUOTE] + rest) ==
            [OPEN_BRACE] + ([QUOTE] + (key + [QUOTE] + ([COLON] + ([32] + ([QUOTE] + (text + [QUOTE] + rest))))))
  {
    assert text + ([QUOTE] + rest) == text + [QUOTE] + rest;
    assert [QUOTE, COLON, 32, QUOTE] + (text + [QUOTE] + rest) ==
           [QUOTE] + ([COLON] + ([32] + ([QUOTE] + (text + [QUOTE] + rest))));
  }

  lemma Regroup(a: Str, b: Str, c: Str, d: Str, e: Str)
    ensures a + b + c + d + e == a + b + (c + (d + e))
  {
  }

  lemma BodyPieces()
    ensures Ascii("{\"event_id\": \"") == [OPEN_BRACE, QUOTE] + Ascii("event_id") + [QUOTE, COLON, 32, QUOTE]
    ensures Ascii("\", \"attempt\": ") == [QUOTE, COMMA, 32, QUOTE] + Ascii("attempt") + [QUOTE, COLON, 32]
    ensures Ascii("}") == [CLOSE_BRACE]
  {
    Keys();
  }

  lemma TextLayout(text: Str, attempt: int)
    ensures TextWith(text, attempt) ==
            [OPEN_BRACE] + TextMember(Ascii("event_id"), text, LastMember(Ascii("attempt"), attempt))
  {
    var end := Shown(attempt) + [CLOSE_BRACE];
    BodyPieces();
    Regroup(Ascii("{\"event_id\": \""), text, Ascii("\", \"attempt\": "), Shown(attempt), [CLOSE_BRACE]);
    MiddleLayout(Ascii("attempt"), end);
    StartLayout(Ascii("event_id"), text, [COMMA] + ([32] + LastMember(Ascii("attempt"), attempt)));
  }

  function MembersWith(text: Str, attempt: int): seq<Member> {
    [Member(Ascii("event_id"), Json.Text(text))] + [Member(Ascii("attempt"), Int(attempt))]
  }

  lemma PlainKeys()
    ensures Plain(Ascii("event_id")) && Plain(Ascii("attempt"))
  {
    Keys();
  }

  lemma ParseMembersWith(text: Str, attempt: int)
    requires Plain(text)
    ensures ParseMembers(TextMember(Ascii("event_id"), text, LastMember(Ascii("attempt"), attempt))) ==
            Some((MembersWith(text, attempt), []))
  {
    PlainKeys();
    ParseLastMember(Ascii("attempt"), attempt);
    ParseTextMember(Ascii("event_id"), text, LastMember(Ascii("attempt"), attempt));
  }

  lemma ParseObjectOf(members: Str)
    requires At(members, QUOTE) && ParseMembers(members).Some?
    ensures ParseValue([OPEN_BRACE] + members) ==
            Some((Object(ParseMembers(members).value.0), ParseMembers(members).value.1))
  {
    assert ([OPEN_BRACE] + members)[1..] == members;
    SkipNothing(members);
  }

  /** The text of a body, whatever plain text stands for its id, parses to the dictionary it was made from. */
  lemma ParseBodyText(text: Str, attempt: int)
    requires Plain(text)
    ensures ParseValue(TextWith(text, attempt)) == Some((Object(MembersWith(text, attempt)), []))
    ensures At(TextWith(text, attempt), OPEN_BRACE)
  {
    hide Plain, ParseValue, ParseMembers;
    var members := TextMember(Ascii("event_id"), text, LastMember(Ascii("attempt"), attempt));
    TextLayout(text, attempt);
    ParseMembersWith(text, attempt);
    ParseObjectOf(members);
  }

  lemma GetMembersWith(text: Str, attempt: int)
    ensures Get(MembersWith(text, attempt), Ascii("event_id")) == Some(Json.Text(text))
    ensures Get(MembersWith(text, attempt), Ascii("attempt")) == Some(Int(attempt))
  {
    Keys();
    assert MembersWith(text, attempt)[..1] == [Member(Ascii("event_id"), Json.Text(text))];
  }

  lemma LoadsText(t: Str, value: Value)
    requires Encodable(t) && At(t, OPEN_BRACE) && ParseValue(t) == Some((value, []))
    ensures Loads(Encode(t)) == Some(value)
  {
    hide Encode, Decode, ParseValue;
    DecodeEncode(t);
    SkipNothing(t);
  }

  lemma TextWithEncodable(text: Str, attempt: int)
    requires Encodable(text)
    ensures Encodable(TextWith(text, attempt))
  {
    ShownSevenBit(attempt);
  }

  /** A body is read by its id: it is malformed just when its text for the id is, and else gives that id and
      its own attempt. */
  lemma ReadBodyWith(text: Str, attempt: int)
    requires Plain(text) && Encodable(text)
    ensures Encodable(TextWith(text, attempt))
    ensures ReadBody(Encode(TextWith(text, attempt))) ==
            match ParseUuid(text) case None => None case Some(id) => Some((id, attempt))
  {
    hide Encode, Loads, ParseUuid, ParseValue, Plain, Encodable, TextWith, Get;
    TextWithEncodable(text, attempt);
    ParseBodyText(text, attempt);
    LoadsText(TextWith(text, attempt), Object(MembersWith(text, attempt)));
    GetMembersWith(text, attempt);
  }

  /** What the service writes it reads back: no message it published is dropped as malformed. */
  lemma BodyRoundTrip(id: Uuid, attempt: int)
    ensures ReadBody(Body(id, attempt)) == Some((id, attempt))
  {
    hide ReadBody, ParseUuid, UuidText, Encode, TextWith;
    UuidTextPlain(id);
    SevenBitEncodable(UuidText(id));
    ReadBodyWith(UuidText(id), attempt);
    ParseUuidText(id);
  }

  lemma SevenBitEncodable(t: Str)
    requires SevenBit(t)
    ensures Encodable(t)
  {
  }

  /** Different messages have different bodies. */
  lemma BodyInjective(id: Uuid, attempt: int, id': Uuid, attempt': int)
    requires Body(id, attempt) == Body(id', attempt')
    ensures id == id' && attempt == attempt'
  {
    BodyRoundTrip(id, attempt);
    BodyRoundTrip(id', attempt');
  }

  // ---------------------------------------------------------------- what cannot be read, and what else can

  lemma WithoutKeeps(t: Str, word: Str)
    requires word != []
    ensures |Without(t, word)| <= |t|
    ensures forall c :: c in t && c !in word ==> c in Without(t, word)
    decreases |t|
  {
    if t != [] {
      if word <= t {
        WithoutKeeps(t[|word|..], word);
        assert t == word + t[|word|..];
      } else {
        WithoutKeeps(t[1..], word);
        assert t == [t[0]] + t[1..];
      }
    }
  }

  lemma {:induction false} StripBracesKeeps(t: Str)
    ensures |StripBraces(t)| <= |t|
    ensures forall c :: c in t && !IsBrace(c) ==> c in StripBraces(t)
    decreases |t|
  {
    if t != [] && IsBrace(t[0]) {
      assert t == [t[0]] + t[1..];
      StripBracesKeeps(t[1..]);
    } else if t != [] && IsBrace(t[|t| - 1]) {
      assert t == t[..|t| - 1] + [t[|t| - 1]];
      StripBracesKeeps(t[..|t| - 1]);
    }
  }

  /** The characters that a readable id may hold, besides white space and digits of other scripts: hexadecimal
      digits, dashes, braces, signs, underscores, the letter of a prefix, and those of `urn:uuid:`. */
  predicate UuidCharacter(c: int) {
    || IsDigit(Narrowed(c), 16) || IsSpace(Narrowed(c))
    || c in {45, 43, 95, 120, 88, 123, 125} || c in {117, 114, 110, 58, 105, 100}
  }

  lemma UuidLetters()
    ensures Ascii("urn:") == [117, 114, 110, 58] && Ascii("uuid:") == [117, 117, 105, 100, 58]
  {
  }

  /** A text with fewer than 32 characters, or with a character that no id holds, is not read as an id. */
  lemma UnreadableUuid(t: Str)
    requires |t| < 32 || exists c :: c in t && !UuidCharacter(c)
    ensures ParseUuid(t) == None
  {
    hide PyInt, Narrowed;
    var a := Without(t, Ascii("urn:"));
    var b := Without(a, Ascii("uuid:"));
    var hex := Without(StripBraces(b), [45]);
    UuidLetters();
    WithoutKeeps(t, Ascii("urn:"));
    WithoutKeeps(a, Ascii("uuid:"));
    StripBracesKeeps(b);
    WithoutKeeps(StripBraces(b), [45]);
    if c :| c in t && !UuidCharacter(c) {
      assert c in hex;
      if PyInt(hex, 16).Some? {
        var i :| 0 <= i < |hex| && hex[i] == c;
        assert Narrow(hex)[i] == Narrowed(c);
        IntegerAlphabet(hex, 16, Narrowed(c));
        NarrowedSigns(c);
      }
    }
  }

  lemma NarrowedSigns(c: int)
    requires Narrowed(c) in {43, 45, 95, 120, 88}
    ensures c == Narrowed(c)
  {
  }

  lemma {:induction false} ValueBounds(t: Str, acc: nat)
    requires AllDigits(t, 16)
    ensures 0 <= Text.Value(t, 16, acc) < (acc + 1) * Pow16(|t|)
  {
    if t != [] {
      ValueBounds(t[1..], acc * 16 + DigitOf(t[0]));
      var d := DigitOf(t[0]);
      Pow16Positive(|t| - 1);
      ScaleUp(acc * 16 + d + 1, 16 * (acc + 1), Pow16(|t| - 1));
      assert 16 * (acc + 1) * Pow16(|t| - 1) == (acc + 1) * (16 * Pow16(|t| - 1));
    }
  }

  lemma ScaleUp(a: nat, b: nat, k: nat)
    requires a <= b
    ensures a * k <= b * k
  {
  }

  lemma {:induction false} Pow16Positive(k: nat)
    ensures Pow16(k) > 0
  {
    if k > 0 { Pow16Positive(k - 1); }
  }

  lemma {:induction false} UndashedIsWithout(t: Str)
    ensures Without(t, [45]) == Undashed(t)
    ensures (forall i :: 0 <= i < |t| ==> t[i] == 45 || IsDigit(t[i], 16)) ==> AllDigits(Undashed(t), 16)
  {
    if t != [] {
      UndashedIsWithout(t[1..]);
      assert [45] <= t <==> t[0] == 45;
    }
  }

  /** A text of hexadecimal digits and dashes, wherever the dashes stand, is read just when it has 32 digits,
      and then as their value. */
  lemma ReadableDigits(t: Str)
    requires forall i :: 0 <= i < |t| ==> t[i] == 45 || IsDigit(t[i], 16)
    ensures ParseUuid(t) == if |Undashed(t)| == 32 then Some(Text.Value(Undashed(t), 16, 0)) else None
  {
    hide PyInt, Pow16, Text.Value, Undashed;
    UuidLetters();
    WithoutAbsent(t, Ascii("urn:"), 58);
    WithoutAbsent(t, Ascii("uuid:"), 58);
    assert StripBraces(t) == t;
    UndashedIsWithout(t);
    if |Undashed(t)| == 32 {
      HexIsInt(Undashed(t));
      ValueBounds(Undashed(t), 0);
      SixteenToThe32();
    }
  }

  /** A body that is not UTF-8, or whose text does not start with a brace after white space, is malformed. */
  lemma UnreadableBody(raw: seq<Byte>)
    requires Decode(raw) == None || !At(SkipSpace(Decode(raw).value), OPEN_BRACE)
    ensures ReadBody(raw) == None
  {
    hide ParseString, ParseMembers, ParseItems, ParseExponent, TakeDigits, ParseUuid, ToInt, Get, Decode;
  }

  lemma ParseLastText(key: Str, text: Str)
    requires Plain(key) && Plain(text)
    ensures var t := MemberText(key, [QUOTE] + (text + [QUOTE] + [CLOSE_BRACE]));
      At(t, QUOTE) && ParseMembers(t) == Some(([Member(key, Json.Text(text))], []))
  {
    ParseTextValue(text, [CLOSE_BRACE]);
    ParseLast(key, [QUOTE] + (text + [QUOTE] + [CLOSE_BRACE]), Json.Text(text));
  }

  lemma GetSingle(key: Str, value: Value, other: Str)
    ensures Get([Member(key, value)], other) == if key == other then Some(value) else None
  {
    assert [Member(key, value)][..0] == [];
  }

  function TextWithoutAttempt(text: Str): Str {
    Ascii("{\"event_id\": \"") + text + Ascii("\"}")
  }

  /** A body without an attempt counts as the first. */
  lemma ReadBodyWithoutAttempt(text: Str)
    requires Plain(text) && Encodable(text)
    ensures Encodable(TextWithoutAttempt(text))
    ensures ReadBody(Encode(TextWithoutAttempt(text))) ==
            match ParseUuid(text) case None => None case Some(id) => Some((id, 1))
  {
    hide Encode, Loads, Get, ParseUuid, ParseValue, ParseMembers, Plain;
    var t := TextWithoutAttempt(text);
    var members := MemberText(Ascii("event_id"), [QUOTE] + (text + [QUOTE] + [CLOSE_BRACE]));
    Keys();
    PlainKeys();
    BodyPieces();
    assert Ascii("\"}") == [QUOTE, CLOSE_BRACE];
    StartLayout(Ascii("event_id"), text, [CLOSE_BRACE]);
    assert t == [OPEN_BRACE] + members;
    ParseLastText(Ascii("event_id"), text);
    ParseObjectOf(members);
    LoadsText(t, Object([Member(Ascii("event_id"), Json.Text(text))]));
    GetSingle(Ascii("event_id"), Json.Text(text), Ascii("event_id"));
    GetSingle(Ascii("event_id"), Json.Text(text), Ascii("attempt"));
  }

  function TextWithoutId(attempt: int): Str {
    Ascii("{\"attempt\": ") + Shown(attempt) + Ascii("}")
  }

  /** A body without an event id is malformed. */
  lemma ReadBodyWithoutId(attempt: int)
    ensures Encodable(TextWithoutId(attempt)) && ReadBody(Encode(TextWithoutId(attempt))) == None
  {
    hide Encode, Loads, Get, ParseUuid, ParseValue, ParseMembers, Plain, Shown;
    var t := TextWithoutId(attempt);
    var members := LastMember(Ascii("attempt"), attempt);
    Keys();
    PlainKeys();
    ShownSevenBit(attempt);
    assert Ascii("{\"attempt\": ") == [OPEN_BRACE, QUOTE] + Ascii("attempt") + [QUOTE, COLON, 32];
    assert t == [OPEN_BRACE] + members;
    ParseLastMember(Ascii("attempt"), attempt);
    ParseObjectOf(members);
    LoadsText(t, Object([Member(Ascii("attempt"), Int(attempt))]));
    GetSingle(Ascii("attempt"), Int(attempt), Ascii("event_id"));
  }

  /** Which JSON values convert to an attempt number: integers and booleans as they are, texts as `int` reads
      them, fractions by cutting off what follows the point; nothing else does. */
  lemma AttemptConverts(v: Value)
    requires v.Float? ==> v.digits >= 0
    ensures match v
      case Int(n) => ToInt(v) == Some(n)
      case Bool(b) => ToInt(v) == Some(if b then 1 else 0)
      case Text(t) => ToInt(v) == PyInt(t, 10)
      case Float(negative, digits, e) =>
        && ToInt(v).Some?
        && var n := if negative then -ToInt(v).value else ToInt(v).value;
           if e >= 0 then n == digits * Pow10(e) else 0 <= n * Pow10(-e) <= digits < (n + 1) * Pow10(-e)
      case _ => ToInt(v) == None
  {
    if v.Float? && v.exponent < 0 {
      Pow10Positive(-v.exponent);
      Quotient(v.digits, Pow10(-v.exponent));
    }
  }

  lemma Quotient(a: nat, b: nat)
    requires b > 0
    ensures 0 <= a / b * b <= a < (a / b + 1) * b
  {
    assert a == a / b * b + a % b;
  }
}
