/** Signed webhooks: the verifier (app/security.py) and the sender (tools/send_signed_webhook.py), for
    any keyed digest. Texts are code points, bodies are bytes. */
module Signature {
  import opened Lifecycle
  import opened Text

  /** The hexadecimal digest of a message under a key. */
  type Mac = (seq<Byte>, seq<Byte>) -> Str

  datatype Reason = MissingHeaders | InvalidTimestamp | OutsideWindow | InvalidSignature

  /** The request is let through, answered 401, or ends in an unhandled exception. */
  datatype Verdict = Passed | Unauthorized(reason: Reason) | Raised

  ghost predicate HexDigests(mac: Mac) {
    forall key, message :: mac(key, message) != [] && SevenBit(mac(key, message))
  }

  const DOT := 46

  function Distance(a: int, b: int): nat {
    if a < b then b - a else a - b
  }

  predicate Missing(header: Option<Str>) {
    header == None || header == Some([])
  }

  /** The digest of `f"{timestamp}.{body.decode('utf-8')}"`; None where decoding or encoding raises. */
  function Digest(mac: Mac, secret: Str, timestamp: Str, body: seq<Byte>): Option<Str> {
    match Decode(body)
    case None => None
    case Some(text) =>
      if Encodable(secret) && Encodable(timestamp + [DOT] + text)
      then Some(mac(Encode(secret), Encode(timestamp + [DOT] + text)))
      else None
  }

  /** `verify_webhook_signature`, with the clock reading `now`. */
  function Verify(mac: Mac, secret: Str, tolerance: int, now: int,
                  body: seq<Byte>, timestamp: Option<Str>, signature: Option<Str>): Verdict {
    if secret == [] then Passed
    else if Missing(timestamp) || Missing(signature) then Unauthorized(MissingHeaders)
    else match PyInt(timestamp.value, 10)
      case None => Unauthorized(InvalidTimestamp)
      case Some(t) =>
        if Distance(now, t) > tolerance then Unauthorized(OutsideWindow)
        else match Digest(mac, secret, timestamp.value, body)
          case None => Raised
          case Some(expected) =>
            if !SevenBit(signature.value) || !SevenBit(expected) then Raised
            else if signature.value == expected then Passed
            else Unauthorized(InvalidSignature)
  }

  /** The time stamp and signature headers of `send_webhook` at time `t`. */
  function TimestampHeader(t: int): Str {
    Shown(t)
  }

  function BuildSignature(mac: Mac, secret: Str, body: seq<Byte>, t: int): Option<Str> {
    Digest(mac, secret, Shown(t), body)
  }

  // ---------------------------------------------------------------- what a time stamp may contain

  lemma NarrowedScalar(c: int)
    requires IsSpace(Narrowed(c)) || Narrowed(c) == 43 || Narrowed(c) == 45 || Narrowed(c) == 95 || IsDecimal(Narrowed(c))
    ensures Scalar(c) && c != DOT
  {
  }

  /** White space and digits of any script are no dot and can be encoded. */
  lemma IntegerTextScalar(t: Str)
    requires PyInt(t, 10).Some?
    ensures Encodable(t) && DOT !in t
  {
    hide PyInt, Narrowed;
    forall i | 0 <= i < |t| ensures Scalar(t[i]) && t[i] != DOT {
      assert Narrow(t)[i] == Narrowed(t[i]) && Narrowed(t[i]) in Narrow(t);
      IntegerAlphabet(t, 10, Narrowed(t[i]));
      NarrowedScalar(t[i]);
    }
  }

  // ---------------------------------------------------------------- the signed bytes

  /** What is signed is the time stamp, a dot, and the body byte for byte. */
  function Framed(timestamp: Str, body: seq<Byte>): seq<Byte>
    requires Encodable(timestamp)
  {
    Encode(timestamp) + [DOT] + body
  }

  lemma EncodeDot()
    ensures Encodable([DOT]) && Encode([DOT]) == [DOT]
  {
    assert EncodePoint(DOT) == [DOT] && Encode([DOT][1..]) == [];
  }

  lemma FrameEncodes(timestamp: Str, text: Str)
    requires Encodable(timestamp) && Encodable(text)
    ensures Encodable(timestamp + [DOT] + text)
    ensures Encode(timestamp + [DOT] + text) == Framed(timestamp, Encode(text))
  {
    EncodeDot();
    EncodeConcat(timestamp, [DOT]);
    EncodeConcat(timestamp + [DOT], text);
  }

  lemma DigestIsOfFrame(mac: Mac, secret: Str, timestamp: Str, body: seq<Byte>)
    requires Encodable(secret) && Encodable(timestamp)
    ensures Digest(mac, secret, timestamp, body) ==
            if Decode(body) == None then None else Some(mac(Encode(secret), Framed(timestamp, body)))
  {
    if Decode(body).Some? {
      EncodeDecode(body);
      FrameEncodes(timestamp, Decode(body).value);
    }
  }

  /** Text before its first dot is determined, and so is what follows it. */
  lemma {:induction false} FirstDot(a: Str, x: Str, b: Str, y: Str)
    requires DOT !in a && DOT !in b && a + ([DOT] + x) == b + ([DOT] + y)
    ensures a == b && x == y
  {
    var u, v := a + ([DOT] + x), b + ([DOT] + y);
    assert u[0] == (if a == [] then DOT else a[0]);
    assert v[0] == (if b == [] then DOT else b[0]);
    if a != [] && b != [] {
      assert u[1..] == a[1..] + ([DOT] + x);
      assert v[1..] == b[1..] + ([DOT] + y);
      FirstDot(a[1..], x, b[1..], y);
      assert a == [a[0]] + a[1..] && b == [b[0]] + b[1..];
    } else {
      assert a == [] && b == [] && x == u[1..] && y == v[1..];
    }
  }

  /** Two requests whose time stamps parse as integers sign the same bytes only if they have the same
      time stamp text and the same body. */
  lemma FramingInjective(timestamp: Str, body: seq<Byte>, timestamp': Str, body': seq<Byte>)
    requires PyInt(timestamp, 10).Some? && PyInt(timestamp', 10).Some?
    requires Decode(body).Some? && Decode(body').Some?
    requires Encodable(timestamp) && Encodable(timestamp') && Framed(timestamp, body) == Framed(timestamp', body')
    ensures timestamp == timestamp' && body == body'
  {
    hide PyInt, Encode, Decode, Encodable;
    FrameText(timestamp, body);
    FrameText(timestamp', body');
    IntegerTextScalar(timestamp);
    IntegerTextScalar(timestamp');
    var text, text' := Decode(body).value, Decode(body').value;
    assert timestamp + ([DOT] + text) == timestamp + [DOT] + text;
    assert timestamp' + ([DOT] + text') == timestamp' + [DOT] + text';
    FirstDot(timestamp, text, timestamp', text');
    EncodeDecode(body);
    EncodeDecode(body');
  }

  lemma FrameText(timestamp: Str, body: seq<Byte>)
    requires Encodable(timestamp) && Decode(body).Some?
    ensures Decode(Framed(timestamp, body)) == Some(timestamp + [DOT] + Decode(body).value)
  {
    EncodeDecode(body);
    FrameEncodes(timestamp, Decode(body).value);
    DecodeEncode(timestamp + [DOT] + Decode(body).value);
  }

  // ---------------------------------------------------------------- agreement

  /** A request passes just when no secret is set, or both headers are given, the time stamp is an integer
      within the tolerance of the clock, the body is UTF-8, and the signature is the digest, under the
      secret, of the time stamp, a dot and the body. */
  lemma PassesExactly(mac: Mac, secret: Str, tolerance: int, now: int,
                      body: seq<Byte>, timestamp: Option<Str>, signature: Option<Str>)
    requires HexDigests(mac)
    ensures Verify(mac, secret, tolerance, now, body, timestamp, signature) == Passed <==>
            || |secret| == 0
            || (&& timestamp.Some? && |timestamp.value| > 0 && signature.Some? && |signature.value| > 0
                && PyInt(timestamp.value, 10).Some?
                && PyInt(timestamp.value, 10).value - tolerance <= now <= PyInt(timestamp.value, 10).value + tolerance
                && Decode(body).Some? && Encodable(timestamp.value) && Encodable(secret)
                && signature.value == mac(Encode(secret), Encode(timestamp.value) + [46] + body))
  {
    hide PyInt, Decode, Encode;
    if timestamp.Some? && PyInt(timestamp.value, 10).Some? {
      IntegerTextScalar(timestamp.value);
      if Encodable(secret) { DigestIsOfFrame(mac, secret, timestamp.value, body); }
    }
  }

  /** With a secret set, a request without one of the headers, or with an empty one, is refused for that,
      and no other request is. */
  lemma MissingHeadersRefused(mac: Mac, secret: Str, tolerance: int, now: int,
                              body: seq<Byte>, timestamp: Option<Str>, signature: Option<Str>)
    ensures Verify(mac, secret, tolerance, now, body, timestamp, signature) == Unauthorized(MissingHeaders) <==>
            |secret| > 0 && (timestamp in {None, Some([])} || signature in {None, Some([])})
  {
    hide PyInt, Decode, Encode;
  }

  /** Why a request with both headers does not pass: the time stamp is no integer; or it is, and the clock is
      outside its window; or it is inside and the body is not UTF-8, the signature is not ASCII or the
      secret cannot be encoded; or all of that is well and the signature is another one. */
  lemma RefusedExactly(mac: Mac, secret: Str, tolerance: int, now: int,
                       body: seq<Byte>, timestamp: Str, signature: Str)
    requires HexDigests(mac) && |secret| > 0 && |timestamp| > 0 && |signature| > 0
    ensures var verdict := Verify(mac, secret, tolerance, now, body, Some(timestamp), Some(signature));
      match PyInt(timestamp, 10)
      case None => verdict == Unauthorized(InvalidTimestamp)
      case Some(t) =>
        && (now < t - tolerance || now > t + tolerance <==> verdict == Unauthorized(OutsideWindow))
        && (t - tolerance <= now <= t + tolerance ==>
              && (verdict == Raised <==> Decode(body) == None || !SevenBit(signature) || !Encodable(secret))
              && (verdict != Raised && verdict != Passed ==>
                    && verdict == Unauthorized(InvalidSignature) && Encodable(timestamp)
                    && signature != mac(Encode(secret), Encode(timestamp) + [46] + body)))
  {
    hide PyInt, Decode, Encode;
    if PyInt(timestamp, 10).Some? {
      IntegerTextScalar(timestamp);
      if Encodable(secret) {
        DigestIsOfFrame(mac, secret, timestamp, body);
      } else {
        NoDigest(mac, secret, timestamp, body);
      }
    }
  }

  lemma NoDigest(mac: Mac, secret: Str, timestamp: Str, body: seq<Byte>)
    requires !Encodable(secret)
    ensures Digest(mac, secret, timestamp, body) == None
  {
  }

  /** A request signed at time `t` over a UTF-8 body carries the digest of the time, a dot and the body; it
      passes at time `now` just when the two are within the tolerance, and is otherwise refused for that
      reason. */
  lemma SenderAndVerifierAgree(mac: Mac, secret: Str, tolerance: int, now: int, body: seq<Byte>, t: int)
    requires HexDigests(mac) && secret != [] && Encodable(secret) && Decode(body).Some?
    ensures var signature := BuildSignature(mac, secret, body, t);
      var verdict := Verify(mac, secret, tolerance, now, body, Some(TimestampHeader(t)), signature);
      && Encodable(Shown(t)) && signature == Some(mac(Encode(secret), Encode(Shown(t)) + [46] + body))
      && (verdict == Passed <==> t - tolerance <= now <= t + tolerance)
      && (verdict != Passed ==> verdict == Unauthorized(OutsideWindow))
  {
    hide PyInt, Decode, Encode;
    PyIntShown(t);
    IntegerTextScalar(Shown(t));
    DigestIsOfFrame(mac, secret, Shown(t), body);
    DecimalValue(if t < 0 then -t else t);
  }
}
