/** JSON text as Python's `json.loads` reads it (sections 2 to 7 of RFC 8259, plus NaN and Infinity). */
module Json {
  import opened Lifecycle
  import opened Text

  datatype Value =
    | Null
    | Bool(b: bool)
    | Int(n: int)
      // sign, digits * 10^exponent
    | Float(negative: bool, digits: int, exponent: int)
    | NotFinite
    | Text(text: Str)
    | Array(items: seq<Value>)
    | Object(members: seq<Member>)

  datatype Member = Member(key: Str, value: Value)

  const QUOTE := 34
  const BACKSLASH := 92
  const COMMA := 44
  const COLON := 58
  const MINUS := 45
  const OPEN_BRACE := 123
  const CLOSE_BRACE := 125
  const OPEN_BRACKET := 91
  const CLOSE_BRACKET := 93

  predicate At(t: Str, c: int) {
    t != [] && t[0] == c
  }

  function SkipSpace(t: Str): (r: Str)
    ensures |r| <= |t|
  {
    if At(t, 32) || At(t, 9) || At(t, 10) || At(t, 13) then SkipSpace(t[1..]) else t
  }

  predicate StartsWith(t: Str, word: Str) {
    word <= t
  }

  // ---------------------------------------------------------------- strings

  function Hex4(t: Str): Option<int> {
    if |t| >= 4 && AllDigits(t[..4], 16) then Some(Text.Value(t[..4], 16, 0)) else None
  }

  function Unescaped(c: int): Option<int> {
    if c == QUOTE || c == BACKSLASH || c == 47 then Some(c)
    else if c == 98 then Some(8)
    else if c == 102 then Some(12)
    else if c == 110 then Some(10)
    else if c == 114 then Some(13)
    else if c == 116 then Some(9)
    else None
  }

  /** The code point after a backslash, and the text after it; an escaped surrogate pair is joined. */
  function ParseEscape(t: Str): (r: Option<(int, Str)>)
    ensures r.Some? ==> |r.value.1| < |t|
  {
    if t == [] then None
    else if t[0] != 117 then
      match Unescaped(t[0])
      case None => None
      case Some(c) => Some((c, t[1..]))
    else match Hex4(t[1..])
      case None => None
      case Some(high) =>
        var rest := t[5..];
        if 0xD800 <= high < 0xDC00 && |rest| >= 2 && rest[0] == BACKSLASH && rest[1] == 117 && Hex4(rest[2..]).Some?
           && 0xDC00 <= Hex4(rest[2..]).value < 0xE000
        then Some((0x1_0000 + (high - 0xD800) * 1024 + (Hex4(rest[2..]).value - 0xDC00), rest[6..]))
        else Some((high, rest))
  }

  /** A string after its opening quote, and the text after its closing one. */
  function ParseString(t: Str): (r: Option<(Str, Str)>)
    ensures r.Some? ==> |r.value.1| < |t|
    decreases |t|
  {
    if t == [] then None
    else if t[0] == QUOTE then Some(([], t[1..]))
    else if t[0] < 32 then None
    else
      var first := if t[0] == BACKSLASH then ParseEscape(t[1..]) else Some((t[0], t[1..]));
      match first
      case None => None
      case Some((c, u)) =>
        match ParseString(u)
        case None => None
        case Some((text, rest)) => Some(([c] + text, rest))
  }

  // ---------------------------------------------------------------- numbers

  function TakeDigits(t: Str): (r: Str)
    ensures |r| <= |t| && r == t[..|r|]
  {
    if t != [] && IsDecimal(t[0]) then [t[0]] + TakeDigits(t[1..]) else []
  }

  function Signed(negative: bool, n: int): int {
    if negative then -n else n
  }

  /** The exponent of a number, if it has one: its value and the text after it. */
  function ParseExponent(t: Str): (r: Option<(int, Str)>)
    ensures r.Some? ==> |r.value.1| <= |t|
  {
    if !At(t, 101) && !At(t, 69) then None
    else if |t| >= 2 && IsDecimal(t[1]) then
      var d := TakeDigits(t[1..]);
      Some((Text.Value(d, 10, 0), t[1 + |d|..]))
    else if |t| >= 3 && (t[1] == 43 || t[1] == MINUS) && IsDecimal(t[2]) then
      var d := TakeDigits(t[2..]);
      Some((Signed(t[1] == MINUS, Text.Value(d, 10, 0)), t[2 + |d|..]))
    else None
  }

  /** A number whose integer part is `whole`, from the text after that part. */
  function ParseNumberTail(negative: bool, whole: Str, t: Str): (r: (Value, Str))
    ensures |r.1| <= |t|
  {
    var fraction := if |t| >= 2 && t[0] == 46 && IsDecimal(t[1]) then TakeDigits(t[1..]) else [];
    var u := if fraction == [] then t else t[1 + |fraction|..];
    match ParseExponent(u)
    case Some((e, rest)) => (Float(negative, Text.Value(whole + fraction, 10, 0), e - |fraction|), rest)
    case None =>
      if fraction == [] then (Int(Signed(negative, Text.Value(whole, 10, 0))), t)
      else (Float(negative, Text.Value(whole + fraction, 10, 0), -|fraction|), u)
  }

  function ParseNumber(t: Str): (r: Option<(Value, Str)>)
    ensures r.Some? ==> |r.value.1| < |t|
  {
    var u := if At(t, MINUS) then t[1..] else t;
    if u == [] || !IsDecimal(u[0]) then None
    else
      var whole := if u[0] == 48 then [48] else TakeDigits(u);
      Some(ParseNumberTail(At(t, MINUS), whole, u[|whole|..]))
  }

  // ---------------------------------------------------------------- values

  function ParseValue(t: Str): (r: Option<(Value, Str)>)
    ensures r.Some? ==> |r.value.1| < |t|
    decreases |t|, 0
  {
    if t == [] then None
    else if t[0] == QUOTE then
      match ParseString(t[1..])
      case None => None
      case Some((text, rest)) => Some((Text(text), rest))
    else if t[0] == OPEN_BRACE then
      var u := SkipSpace(t[1..]);
      if At(u, CLOSE_BRACE) then Some((Object([]), u[1..]))
      else (
        match ParseMembers(u)
        case None => None
        case Some((members, rest)) => Some((Object(members), rest)))
    else if t[0] == OPEN_BRACKET then
      var u := SkipSpace(t[1..]);
      if At(u, CLOSE_BRACKET) then Some((Array([]), u[1..]))
      else (
        match ParseItems(u)
        case None => None
        case Some((items, rest)) => Some((Array(items), rest)))
    else if t[0] == 110 && StartsWith(t, Ascii("null")) then Some((Null, t[4..]))
    else if t[0] == 116 && StartsWith(t, Ascii("true")) then Some((Bool(true), t[4..]))
    else if t[0] == 102 && StartsWith(t, Ascii("false")) then Some((Bool(false), t[5..]))
    else if ParseNumber(t).Some? then ParseNumber(t)
    else if t[0] == 78 && StartsWith(t, Ascii("NaN")) then Some((NotFinite, t[3..]))
    else if t[0] == 73 && StartsWith(t, Ascii("Infinity")) then Some((NotFinite, t[8..]))
    else if t[0] == MINUS && StartsWith(t, Ascii("-Infinity")) then Some((NotFinite, t[9..]))
    else None
  }

  /** Members from the quote of a key on, up to the closing brace. */
  function ParseMembers(t: Str): (r: Option<(seq<Member>, Str)>)
    ensures r.Some? ==> |r.value.1| < |t|
    decreases |t|, 1
  {
    if !At(t, QUOTE) then None
    else match ParseString(t[1..])
      case None => None
      case Some((key, u)) =>
        var v := SkipSpace(u);
        if !At(v, COLON) then None
        else match ParseValue(SkipSpace(v[1..]))
          case None => None
          case Some((value, w)) =>
            var x := SkipSpace(w);
            if At(x, CLOSE_BRACE) then Some(([Member(key, value)], x[1..]))
            else if !At(x, COMMA) then None
            else match ParseMembers(SkipSpace(x[1..]))
              case None => None
              case Some((members, rest)) => Some(([Member(key, value)] + members, rest))
  }

  function ParseItems(t: Str): (r: Option<(seq<Value>, Str)>)
    ensures r.Some? ==> |r.value.1| < |t|
    decreases |t|, 1
  {
    match ParseValue(t)
    case None => None
    case Some((value, w)) =>
      var x := SkipSpace(w);
      if At(x, CLOSE_BRACKET) then Some(([value], x[1..]))
      else if !At(x, COMMA) then None
      else
        var y := SkipSpace(x[1..]);
        match ParseItems(y)
        case None => None
        case Some((items, rest)) => Some(([value] + items, rest))
  }

  /** `json.loads(raw.decode("utf-8"))`. */
  function Loads(raw: seq<Byte>): Option<Value> {
    match Decode(raw)
    case None => None
    case Some(t) =>
      if At(t, 0xFEFF) then None
      else match ParseValue(SkipSpace(t))
        case None => None
        case Some((value, rest)) => if SkipSpace(rest) == [] then Some(value) else None
  }

  /** The value a dictionary keeps for a key: the last one wins. */
  function Get(members: seq<Member>, key: Str): Option<Value> {
    if members == [] then None
    else if members[|members| - 1].key == key then Some(members[|members| - 1].value)
    else Get(members[..|members| - 1], key)
  }

  // ---------------------------------------------------------------- reading back what was printed

  predicate Plain(t: Str) {
    forall i :: 0 <= i < |t| ==> t[i] >= 32 && t[i] != QUOTE && t[i] != BACKSLASH
  }

  lemma {:induction false} ParsePlainString(t: Str, rest: Str)
    requires Plain(t)
    ensures ParseString(t + [QUOTE] + rest) == Some((t, rest))
  {
    var u := t + [QUOTE] + rest;
    if t == [] {
      assert u == [QUOTE] + rest;
    } else {
      assert u[1..] == t[1..] + [QUOTE] + rest;
      ParsePlainString(t[1..], rest);
      assert [t[0]] + t[1..] == t;
    }
  }

  lemma {:induction false} TakeAllDigits(t: Str, rest: Str)
    requires AllDecimal(t) && (rest == [] || !IsDecimal(rest[0]))
    ensures TakeDigits(t + rest) == t
  {
    if t == [] {
      assert t + rest == rest;
    } else {
      assert (t + rest)[1..] == t[1..] + rest;
      TakeAllDigits(t[1..], rest);
    }
  }

  /** An integer that nothing numeric follows is read back. */
  lemma ParseShownNumber(n: int, rest: Str)
    requires rest == [] || (rest[0] != 46 && rest[0] != 101 && rest[0] != 69 && !IsDecimal(rest[0]))
    ensures ParseNumber(Shown(n) + rest) == Some((Int(n), rest))
  {
    hide Decimal, TakeDigits;
    var m: nat := if n < 0 then -n else n;
    var t := Shown(n) + rest;
    var u := Decimal(m) + rest;
    DecimalValue(m);
    assert n < 0 ==> t[1..] == u;
    assert n >= 0 ==> t == u;
    TakeAllDigits(Decimal(m), rest);
    assert u[|Decimal(m)|..] == rest;
    assert u[0] == Decimal(m)[0];
    assert At(Shown(n) + rest, MINUS) <==> n < 0;
    assert ParseNumberTail(n < 0, Decimal(m), rest) == (Int(n), rest);
  }

  // ---------------------------------------------------------------- strings as `json.dumps` prints them

  /** A character inside quotes, with `ensure_ascii`: printable ASCII stands for itself, the rest is escaped,
      beyond the basic plane as a surrogate pair (section 7 of RFC 8259). */
  function Escaped(c: int): Str
    requires Scalar(c)
  {
    if c == QUOTE || c == BACKSLASH then [BACKSLASH, c]
    else if c == 8 then Ascii("\\b")
    else if c == 9 then Ascii("\\t")
    else if c == 10 then Ascii("\\n")
    else if c == 12 then Ascii("\\f")
    else if c == 13 then Ascii("\\r")
    else if 32 <= c < 127 then [c]
    else if c < 0x1_0000 then UnicodeEscape(c)
    else UnicodeEscape(0xD800 + (c - 0x1_0000) / 1024) + UnicodeEscape(0xDC00 + (c - 0x1_0000) % 1024)
  }

  function UnicodeEscape(c: nat): Str {
    [BACKSLASH, 117] + Hex(c, 4)
  }

  function Dumped(t: Str): Str
    requires Encodable(t)
  {
    if t == [] then [] else Escaped(t[0]) + Dumped(t[1..])
  }

  lemma Hex4Reads(c: nat, rest: Str)
    requires c < 0x1_0000
    ensures Hex4(Hex(c, 4) + rest) == Some(c)
  {
    assert Pow16(4) == 0x1_0000;
    HexValue(c, 4);
    assert (Hex(c, 4) + rest)[..4] == Hex(c, 4);
  }

  /** An escape of four hexadecimal digits gives the character, unless it is the first half of a pair. */
  lemma ParseUnicodeEscape(c: nat, rest: Str)
    requires c < 0x1_0000 && !(0xD800 <= c < 0xDC00)
    ensures var u := UnicodeEscape(c) + rest; u[0] == BACKSLASH && ParseEscape(u[1..]) == Some((c, rest))
  {
    hide Hex4, Hex, Unescaped;
    var u := UnicodeEscape(c) + rest;
    Hex4Reads(c, rest);
    assert u[1..] == [117] + (Hex(c, 4) + rest);
    assert u[1..][1..] == Hex(c, 4) + rest && u[1..][5..] == rest;
  }

  lemma ParsePair(c: int, rest: Str)
    requires 0x1_0000 <= c < 0x11_0000
    ensures var u := Escaped(c) + rest; u[0] == BACKSLASH && ParseEscape(u[1..]) == Some((c, rest))
  {
    hide Hex4, Hex, Unescaped;
    var high, low := 0xD800 + (c - 0x1_0000) / 1024, 0xDC00 + (c - 0x1_0000) % 1024;
    var second := UnicodeEscape(low) + rest;
    var u := Escaped(c) + rest;
    Hex4Reads(high, second);
    Hex4Reads(low, rest);
    assert u[1..] == [117] + (Hex(high, 4) + second);
    assert u[1..][1..] == Hex(high, 4) + second && u[1..][5..] == second;
    assert second[2..] == Hex(low, 4) + rest && second[6..] == rest;
  }

  /** Each printed character is read back as itself. */
  lemma ParseEscaped(c: int, rest: Str)
    requires Scalar(c)
    ensures var u := Escaped(c) + rest;
      if 32 <= c < 127 && c != QUOTE && c != BACKSLASH then u[0] == c && u[1..] == rest
      else u[0] == BACKSLASH && ParseEscape(u[1..]) == Some((c, rest))
  {
    var u := Escaped(c) + rest;
    if c >= 0x1_0000 {
      ParsePair(c, rest);
    } else if c >= 127 || (c < 32 && !(c in {8, 9, 10, 12, 13})) {
      ParseUnicodeEscape(c, rest);
    } else if c < 32 || c == QUOTE || c == BACKSLASH {
      assert u[1..][1..] == rest;
    }
  }

  /** Any text that can be encoded is read back from how it is printed, up to its closing quote. */
  lemma {:induction false} ParseDumped(t: Str, rest: Str)
    requires Encodable(t)
    ensures ParseString(Dumped(t) + [QUOTE] + rest) == Some((t, rest))
  {
    hide Escaped, ParseEscape;
    var u := Dumped(t) + [QUOTE] + rest;
    if t == [] {
      assert u == [QUOTE] + rest;
    } else {
      var more := Dumped(t[1..]) + [QUOTE] + rest;
      assert u == Escaped(t[0]) + more;
      ParseEscaped(t[0], more);
      ParseDumped(t[1..], rest);
      assert [t[0]] + t[1..] == t;
    }
  }
}
