/** Text as sequences of code points, UTF-8 as Python codes it, and Python's `int(text, base)`. */
module Text {
  import opened Lifecycle

  type Byte = b: int | 0 <= b < 256

  /** A Python string: code points, lone surrogates included. */
  type Str = seq<int>

  function Ascii(s: string): Str
    requires forall i :: 0 <= i < |s| ==> s[i] < 128 as char
  {
    seq(|s|, i requires 0 <= i < |s| => s[i] as int)
  }

  predicate SevenBit(t: Str) {
    forall i :: 0 <= i < |t| ==> 0 <= t[i] < 128
  }

  // ---------------------------------------------------------------- UTF-8 (RFC 3629, section 4)

  predicate Scalar(c: int) {
    0 <= c < 0xD800 || 0xE000 <= c < 0x11_0000
  }

  /** The continuation byte that holds the last six bits of `c`. */
  function Low(c: nat): Byte {
    0x80 + c % 64
  }

  function EncodePoint(c: int): (r: seq<Byte>)
    requires Scalar(c)
    ensures |r| > 0
  {
    if c < 0x80 then [c]
    else if c < 0x800 then [0xC0 + c / 64, Low(c)]
    else if c < 0x1_0000 then [0xE0 + c / 64 / 64, Low(c / 64), Low(c)]
    else [0xF0 + c / 64 / 64 / 64, Low(c / 64 / 64), Low(c / 64), Low(c)]
  }

  predicate Encodable(t: Str) {
    forall i :: 0 <= i < |t| ==> Scalar(t[i])
  }

  function Encode(t: Str): seq<Byte>
    requires Encodable(t)
  {
    if t == [] then [] else EncodePoint(t[0]) + Encode(t[1..])
  }

  predicate Tail(b: Byte) {
    0x80 <= b < 0xC0
  }

  /** Six more bits. */
  function More(high: int, b: int): int {
    high * 64 + (b - 0x80)
  }

  predicate Tails(b: seq<Byte>, n: nat) {
    n < |b| && forall i :: 1 <= i <= n ==> Tail(b[i])
  }

  /** The first code point, and the bytes it takes. */
  function DecodeFirst(b: seq<Byte>): (r: Option<(int, nat)>)
    requires b != []
    ensures r.Some? ==> Scalar(r.value.0) && 0 < r.value.1 <= |b|
  {
    var lead: int := b[0];
    if lead < 0x80 then Some((lead, 1))
    else if 0xC2 <= lead < 0xE0 && Tails(b, 1) then Some((More(lead - 0xC0, b[1]), 2))
    else if 0xE0 <= lead < 0xF0 && Tails(b, 2) then
      var c := More(More(lead - 0xE0, b[1]), b[2]);
      if c >= 0x800 && Scalar(c) then Some((c, 3)) else None
    else if 0xF0 <= lead < 0xF8 && Tails(b, 3) then
      var c := More(More(More(lead - 0xF0, b[1]), b[2]), b[3]);
      if c >= 0x1_0000 && Scalar(c) then Some((c, 4)) else None
    else None
  }

  function Decode(b: seq<Byte>): Option<Str> {
    if b == [] then Some([])
    else match DecodeFirst(b)
      case None => None
      case Some((c, n)) =>
        match Decode(b[n..])
        case None => None
        case Some(rest) => Some([c] + rest)
  }

  lemma MoreLow(c: nat)
    ensures More(c / 64, Low(c)) == c && Tail(Low(c))
  {
  }

  lemma LowMore(high: nat, b: Byte)
    requires Tail(b)
    ensures More(high, b) >= 0 && More(high, b) / 64 == high && Low(More(high, b)) == b
  {
  }

  lemma DecodeTwo(c: nat, b: seq<Byte>)
    requires 0x80 <= c < 0x800 && |b| >= 2 && b[0] == 0xC0 + c / 64 && b[1] == Low(c)
    ensures DecodeFirst(b) == Some((c, 2))
  {
    MoreLow(c);
    assert Tails(b, 1);
  }

  lemma DecodeThree(c: nat, b: seq<Byte>)
    requires 0x800 <= c < 0x1_0000 && Scalar(c)
    requires |b| >= 3 && b[0] == 0xE0 + c / 64 / 64 && b[1] == Low(c / 64) && b[2] == Low(c)
    ensures DecodeFirst(b) == Some((c, 3))
  {
    MoreLow(c);
    MoreLow(c / 64);
    assert Tails(b, 2);
  }

  lemma DecodeFour(c: nat, b: seq<Byte>)
    requires 0x1_0000 <= c < 0x11_0000
    requires |b| >= 4 && b[0] == 0xF0 + c / 64 / 64 / 64 && b[1] == Low(c / 64 / 64)
    requires b[2] == Low(c / 64) && b[3] == Low(c)
    ensures DecodeFirst(b) == Some((c, 4))
  {
    MoreLow(c);
    MoreLow(c / 64);
    MoreLow(c / 64 / 64);
    assert Tails(b, 3);
  }

  lemma DecodeEncodedPoint(c: int, rest: seq<Byte>)
    requires Scalar(c)
    ensures DecodeFirst(EncodePoint(c) + rest) == Some((c, |EncodePoint(c)|))
  {
    var b := EncodePoint(c) + rest;
    if 0x80 <= c < 0x800 { DecodeTwo(c, b); }
    else if 0x800 <= c < 0x1_0000 { DecodeThree(c, b); }
    else if c >= 0x1_0000 { DecodeFour(c, b); }
  }

  lemma EncodeDecodedPoint(b: seq<Byte>)
    requires b != [] && DecodeFirst(b).Some?
    ensures var (c, n) := DecodeFirst(b).value; EncodePoint(c) == b[..n]
  {
    var lead: int := b[0];
    var (c, n) := DecodeFirst(b).value;
    if n == 2 {
      LowMore(lead - 0xC0, b[1]);
    } else if n == 3 {
      LowMore(lead - 0xE0, b[1]);
      LowMore(More(lead - 0xE0, b[1]), b[2]);
    } else if n == 4 {
      LowMore(lead - 0xF0, b[1]);
      LowMore(More(lead - 0xF0, b[1]), b[2]);
      LowMore(More(More(lead - 0xF0, b[1]), b[2]), b[3]);
    }
    assert |EncodePoint(c)| == n;
    assert forall i :: 0 <= i < n ==> EncodePoint(c)[i] == b[i];
  }

  lemma {:induction false} DecodeEncode(t: Str)
    requires Encodable(t)
    ensures Decode(Encode(t)) == Some(t)
  {
    if t != [] {
      DecodeEncodedPoint(t[0], Encode(t[1..]));
      DecodeEncode(t[1..]);
      var b := Encode(t);
      assert b == EncodePoint(t[0]) + Encode(t[1..]);
      assert b[|EncodePoint(t[0])|..] == Encode(t[1..]);
      assert [t[0]] + t[1..] == t;
    }
  }

  lemma {:induction false} EncodeDecode(b: seq<Byte>)
    requires Decode(b).Some?
    ensures Encodable(Decode(b).value) && Encode(Decode(b).value) == b
  {
    if b != [] {
      var c, n := DecodeFirst(b).value.0, DecodeFirst(b).value.1;
      EncodeDecode(b[n..]);
      EncodeDecodedPoint(b);
      var t, rest := Decode(b).value, Decode(b[n..]).value;
      assert t == [c] + rest && t[0] == c && t[1..] == rest;
      assert Encode(t) == EncodePoint(c) + Encode(rest);
      assert b == b[..n] + b[n..];
    }
  }

  lemma {:induction false} EncodeConcat(a: Str, b: Str)
    requires Encodable(a) && Encodable(b)
    ensures Encodable(a + b) && Encode(a + b) == Encode(a) + Encode(b)
  {
    if a == [] {
      assert a + b == b;
    } else {
      assert (a + b)[1..] == a[1..] + b;
      EncodeConcat(a[1..], b);
    }
  }

  // ---------------------------------------------------------------- digits

  predicate IsDecimal(c: int) {
    48 <= c <= 57
  }

  predicate AllDecimal(t: Str) {
    forall i :: 0 <= i < |t| ==> IsDecimal(t[i])
  }

  function DigitOf(c: int): int {
    if 48 <= c <= 57 then c - 48
    else if 97 <= c <= 122 then c - 87
    else if 65 <= c <= 90 then c - 55
    else -1
  }

  predicate IsDigit(c: int, base: int) {
    0 <= DigitOf(c) < base
  }

  predicate AllDigits(t: Str, base: int) {
    forall i :: 0 <= i < |t| ==> IsDigit(t[i], base)
  }

  /** The value of digits read after `acc`. */
  function Value(t: Str, base: int, acc: int): int {
    if t == [] then acc else Value(t[1..], base, acc * base + DigitOf(t[0]))
  }

  function Decimal(n: nat): Str {
    if n < 10 then [48 + n] else Decimal(n / 10) + [48 + n % 10]
  }

  /** `str(n)`. */
  function Shown(n: int): Str {
    if n < 0 then [45] + Decimal(-n) else Decimal(n)
  }

  function HexDigit(d: int): int
    requires 0 <= d < 16
  {
    if d < 10 then 48 + d else 87 + d
  }

  /** The last `k` hexadecimal digits of `n`, in lower case. */
  function Hex(n: nat, k: nat): (r: Str)
    ensures |r| == k
  {
    if k == 0 then [] else Hex(n / 16, k - 1) + [HexDigit(n % 16)]
  }

  lemma {:induction false} ValueConcat(a: Str, b: Str, base: int, acc: int)
    ensures Value(a + b, base, acc) == Value(b, base, Value(a, base, acc))
  {
    if a == [] {
      assert a + b == b;
    } else {
      assert (a + b)[1..] == a[1..] + b;
      ValueConcat(a[1..], b, base, acc * base + DigitOf(a[0]));
    }
  }

  lemma {:induction false} DecimalValue(n: nat)
    ensures Decimal(n) != [] && AllDecimal(Decimal(n)) && Value(Decimal(n), 10, 0) == n
    ensures n > 0 ==> Decimal(n)[0] != 48
    ensures n == 0 ==> Decimal(n) == [48]
  {
    if n >= 10 {
      DecimalValue(n / 10);
      ValueConcat(Decimal(n / 10), [48 + n % 10], 10, 0);
    }
  }

  function Pow16(k: nat): int {
    if k == 0 then 1 else 16 * Pow16(k - 1)
  }

  lemma {:induction false} HexValue(n: nat, k: nat)
    requires n < Pow16(k)
    ensures AllDigits(Hex(n, k), 16) && Value(Hex(n, k), 16, 0) == n
  {
    if k > 0 {
      HexValue(n / 16, k - 1);
      ValueConcat(Hex(n / 16, k - 1), [HexDigit(n % 16)], 16, 0);
    }
  }

  // ---------------------------------------------------------------- Python's int(text, base)

  /** What is left of white space when text is converted: the ASCII part. */
  predicate IsSpace(c: int) {
    9 <= c <= 13 || c == 32
  }

  /** White space outside ASCII. */
  predicate WideSpace(c: int) {
    || c in {0x85, 0xA0, 0x1680, 0x2028, 0x2029, 0x202F, 0x205F, 0x3000}
    || 0x2000 <= c <= 0x200A
  }

  /** The zeros of the decimal digits outside ASCII (general category Nd of Unicode 14.0); each is
      followed by its nine other digits. */
  const ZEROS: seq<int> := [
    0x660, 0x6F0, 0x7C0, 0x966, 0x9E6, 0xA66, 0xAE6, 0xB66, 0xBE6, 0xC66, 0xCE6, 0xD66, 0xDE6, 0xE50, 0xED0,
    0xF20, 0x1040, 0x1090, 0x17E0, 0x1810, 0x1946, 0x19D0, 0x1A80, 0x1A90, 0x1B50, 0x1BB0, 0x1C40, 0x1C50,
    0xA620, 0xA8D0, 0xA900, 0xA9D0, 0xA9F0, 0xAA50, 0xABF0, 0xFF10, 0x104A0, 0x10D30, 0x11066, 0x110F0,
    0x11136, 0x111D0, 0x112F0, 0x11450, 0x114D0, 0x11650, 0x116C0, 0x11730, 0x118E0, 0x11950, 0x11C50, 0x11D50,
    0x11DA0, 0x16A60, 0x16AC0, 0x16B50, 0x1D7CE, 0x1D7D8, 0x1D7E2, 0x1D7EC, 0x1D7F6, 0x1E140, 0x1E2F0, 0x1E950,
    0x1FBF0
  ]

  function FindDigit(zeros: seq<int>, c: int): (d: int)
    ensures -1 <= d <= 9 && (d >= 0 ==> c - d in zeros)
    ensures d == -1 ==> forall z :: z in zeros ==> !(z <= c <= z + 9)
  {
    if zeros == [] then -1
    else if zeros[0] <= c <= zeros[0] + 9 then c - zeros[0]
    else
      assert zeros == [zeros[0]] + zeros[1..];
      FindDigit(zeros[1..], c)
  }

  /** The value of a digit is its distance from a zero; what is within nine of no zero is no digit. */
  function WideDigit(c: int): (d: int)
    ensures -1 <= d <= 9 && (d >= 0 ==> c - d in ZEROS)
    ensures d == -1 && Scalar(c) ==> forall z :: z in ZEROS ==> !(z <= c <= z + 9)
  {
    if Scalar(c) then FindDigit(ZEROS, c) else -1
  }

  /** Before it reads them, `int` turns white space and decimal digits of other scripts into ASCII ones,
      and everything else outside ASCII into a question mark. The separators 0x1C to 0x1F stay as they
      are, and are then no white space. */
  function Narrowed(c: int): int {
    if c < 127 then c
    else if WideSpace(c) then 32
    else if WideDigit(c) >= 0 then 48 + WideDigit(c)
    else 63
  }

  function Narrow(t: Str): Str {
    seq(|t|, i requires 0 <= i < |t| => Narrowed(t[i]))
  }

  lemma NarrowPlain(t: Str)
    requires forall i :: 0 <= i < |t| ==> t[i] < 127
    ensures Narrow(t) == t
  {
  }

  function StripLeft(t: Str): Str {
    if t != [] && IsSpace(t[0]) then StripLeft(t[1..]) else t
  }

  function StripRight(t: Str): Str {
    if t != [] && IsSpace(t[|t| - 1]) then StripRight(t[..|t| - 1]) else t
  }

  /** Digits with single underscores between them. */
  function ReadDigits(t: Str, base: int, acc: int): Option<int> {
    if t == [] then Some(acc)
    else if IsDigit(t[0], base) then ReadDigits(t[1..], base, acc * base + DigitOf(t[0]))
    else if t[0] == 95 && |t| > 1 && IsDigit(t[1], base) then ReadDigits(t[1..], base, acc)
    else None
  }

  function ReadNatural(t: Str, base: int): Option<int> {
    if t == [] || !IsDigit(t[0], base) then None else ReadDigits(t, base, 0)
  }

  /** An optional `0x` prefix, which an underscore may follow. */
  function WithoutPrefix(t: Str, base: int): Str {
    if base == 16 && |t| >= 2 && t[0] == 48 && (t[1] == 120 || t[1] == 88)
    then if |t| > 2 && t[2] == 95 then t[3..] else t[2..]
    else t
  }

  /** `int(text, base)`. */
  function PyInt(text: Str, base: int): Option<int> {
    var t := StripRight(StripLeft(Narrow(text)));
    if t != [] && t[0] == 45 then
      match ReadNatural(WithoutPrefix(t[1..], base), base)
      case None => None
      case Some(n) => Some(-n)
    else if t != [] && t[0] == 43 then ReadNatural(WithoutPrefix(t[1..], base), base)
    else ReadNatural(WithoutPrefix(t, base), base)
  }

  lemma {:induction false} ReadAllDigits(t: Str, base: int, acc: int)
    requires AllDigits(t, base)
    ensures ReadDigits(t, base, acc) == Some(Value(t, base, acc))
  {
    if t != [] {
      ReadAllDigits(t[1..], base, acc * base + DigitOf(t[0]));
    }
  }

  lemma Unstripped(t: Str)
    requires t != [] && !IsSpace(t[0]) && !IsSpace(t[|t| - 1])
    ensures StripRight(StripLeft(t)) == t
  {
  }

  lemma ShownNarrow(n: int)
    ensures Narrow(Shown(n)) == Shown(n)
  {
    DecimalValue(if n < 0 then -n else n);
    NarrowPlain(Shown(n));
  }

  /** `int(str(n))` is `n`. */
  lemma PyIntShown(n: int)
    ensures PyInt(Shown(n), 10) == Some(n)
  {
    hide Narrow, StripLeft, StripRight, Decimal, Value, ReadDigits;
    var m: nat := if n < 0 then -n else n;
    DecimalValue(m);
    ShownNarrow(n);
    ReadAllDigits(Decimal(m), 10, 0);
    Unstripped(Shown(n));
    assert ([45] + Decimal(m))[1..] == Decimal(m);
  }

  // ---------------------------------------------------------------- what `int` accepts

  lemma {:induction false} StripLeftKeeps(t: Str, c: int)
    requires !IsSpace(c)
    ensures c in t ==> c in StripLeft(t)
  {
    if t != [] && IsSpace(t[0]) {
      assert t == [t[0]] + t[1..];
      StripLeftKeeps(t[1..], c);
    }
  }

  lemma {:induction false} StripRightKeeps(t: Str, c: int)
    requires !IsSpace(c)
    ensures c in t ==> c in StripRight(t)
  {
    if t != [] && IsSpace(t[|t| - 1]) {
      assert t == t[..|t| - 1] + [t[|t| - 1]];
      StripRightKeeps(t[..|t| - 1], c);
    }
  }

  lemma {:induction false} DigitsOnly(t: Str, base: int, acc: int, c: int)
    requires ReadDigits(t, base, acc).Some? && c in t
    ensures IsDigit(c, base) || c == 95
  {
    if c != t[0] {
      assert t == [t[0]] + t[1..];
      DigitsOnly(t[1..], base, if IsDigit(t[0], base) then acc * base + DigitOf(t[0]) else acc, c);
    }
  }

  lemma PrefixKeeps(t: Str, base: int, c: int)
    requires c in t
    ensures c in WithoutPrefix(t, base) || (base == 16 && c in {48, 120, 88, 95})
  {
    var u := WithoutPrefix(t, base);
    assert t == t[..|t| - |u|] + u;
  }

  /** Text that `int` accepts holds white space, signs, digits of the base, underscores and the letter of a
      hexadecimal prefix, once it is narrowed. */
  lemma IntegerAlphabet(t: Str, base: int, c: int)
    requires PyInt(t, base).Some? && c in Narrow(t)
    ensures IsSpace(c) || c == 43 || c == 45 || c == 95 || IsDigit(c, base) || (base == 16 && (c == 120 || c == 88))
  {
    if !IsSpace(c) {
      StripLeftKeeps(Narrow(t), c);
      StripRightKeeps(StripLeft(Narrow(t)), c);
      var u := StripRight(StripLeft(Narrow(t)));
      var digits := if u[0] == 45 || u[0] == 43 then u[1..] else u;
      if c in digits {
        PrefixKeeps(digits, base, c);
        if c in WithoutPrefix(digits, base) { DigitsOnly(WithoutPrefix(digits, base), base, 0, c); }
      } else {
        assert u == [u[0]] + u[1..];
      }
    }
  }

  /** White space of ASCII and Latin-1 that `int` ignores around a number. */
  predicate Blank(c: int) {
    c in {9, 10, 11, 12, 13, 32, 0x85, 0xA0}
  }

  lemma {:induction false} StripLeftPad(a: Str, t: Str)
    requires (forall i :: 0 <= i < |a| ==> IsSpace(a[i])) && t != [] && !IsSpace(t[0])
    ensures StripLeft(a + t) == t
  {
    if a == [] {
      assert a + t == t;
    } else {
      assert (a + t)[1..] == a[1..] + t;
      StripLeftPad(a[1..], t);
    }
  }

  lemma {:induction false} StripRightPad(t: Str, b: Str)
    requires (forall i :: 0 <= i < |b| ==> IsSpace(b[i])) && t != [] && !IsSpace(t[|t| - 1])
    ensures StripRight(t + b) == t
  {
    if b == [] {
      assert t + b == t;
    } else {
      assert (t + b)[..|t + b| - 1] == t + b[..|b| - 1];
      StripRightPad(t, b[..|b| - 1]);
    }
  }

  /** Blanks around a printed integer do not matter. */
  lemma PyIntPadded(a: Str, n: int, b: Str)
    requires (forall i :: 0 <= i < |a| ==> Blank(a[i])) && (forall i :: 0 <= i < |b| ==> Blank(b[i]))
    ensures PyInt(a + Shown(n) + b, 10) == Some(n)
  {
    var t := Shown(n);
    ShownNarrow(n);
    DecimalValue(if n < 0 then -n else n);
    assert Narrow(a + t + b) == Narrow(a) + (t + Narrow(b));
    StripLeftPad(Narrow(a), t + Narrow(b));
    StripRightPad(t, Narrow(b));
    Unstripped(t);
    PyIntShown(n);
  }

  lemma {:induction false} EncodeAscii(t: Str)
    requires SevenBit(t)
    ensures Encodable(t) && Encode(t) == t
  {
    if t != [] {
      EncodeAscii(t[1..]);
      assert t == [t[0]] + t[1..];
    }
  }
}
