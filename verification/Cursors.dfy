/**
 Signed list cursors: a JSON body and its MAC, both base64url, joined by a dot. The MAC,
 the JSON parser and the printing of times are parameters; the JSON printer is written out.
 */
module Cursors {
  import opened Text
  import opened Base64
  import opened Evidence

  datatype Cursor = Cursor(version: nat, kind: string, tenantID: string, name: string, state: string,
                           vpcID: string, id: string, createdAt: Time)

  /** HMAC-SHA-256 yields 32 bytes. */
  type Mac = m: seq<Byte> | |m| == 32 witness seq(32, _ => 0)

  /** RFC 3339 with nanoseconds and an offset takes at most 35 characters, none of them escaped. */
  type Stamp = s: string | |s| <= 35 && IsPlain(s) witness ""

  /** SHA-256 in hexadecimal. */
  type Digest = s: string | |s| == 64 && IsPlain(s) witness seq(64, _ => '0')

  /** The key's MAC, the digest that stands for further filters, and the serialisation of cursors:
      `json.Marshal` and `json.Unmarshal`. */
  datatype Codec = Codec(mac: seq<Byte> -> Mac, fingerprint: seq<string> -> Digest, render: Cursor -> seq<Byte>,
                         parse: seq<Byte> -> Option<Cursor>)

  // -------- the JSON printer --------

  /** The bytes of an ASCII text; anything else would be a question mark. */
  function Ascii(s: string): (b: seq<Byte>)
    ensures |b| == |s|
  {
    seq(|s|, i requires 0 <= i < |s| => if s[i] < 128 as char then s[i] as int else 63)
  }

  function HexByte(n: nat): Byte
    requires n < 16
  {
    if n < 10 then 48 + n else 87 + n
  }

  /** A backslash-u escape of a code below 65536. */
  function UnicodeEscape(c: nat): seq<Byte>
    requires c < 65536
  {
    [92, 117, HexByte(c / 4096), HexByte(c / 256 % 16), HexByte(c / 16 % 16), HexByte(c % 16)]
  }

  /** UTF-8 of one character. */
  function Utf8(c: char): (b: seq<Byte>)
    ensures 1 <= |b| <= 4
  {
    var n := c as int;
    if n < 0x80 then [n]
    else if n < 0x800 then [0xC0 + n / 64, 0x80 + n % 64]
    else if n < 0x10000 then [0xE0 + n / 4096, 0x80 + n / 64 % 64, 0x80 + n % 64]
    else [0xF0 + n / 262144, 0x80 + n / 4096 % 64, 0x80 + n / 64 % 64, 0x80 + n % 64]
  }

  /** One character inside a JSON string, with the HTML-safe escapes. */
  function Escape(c: char): (b: seq<Byte>)
    ensures 1 <= |b| <= 6
    ensures PlainChar(c) ==> |b| == 1
  {
    var n := c as int;
    if n == 34 || n == 92 then [92, n]
    else if n == 8 then [92, 98]
    else if n == 12 then [92, 102]
    else if n == 10 then [92, 110]
    else if n == 13 then [92, 114]
    else if n == 9 then [92, 116]
    else if n < 32 || n == 60 || n == 62 || n == 38 || n == 0x2028 || n == 0x2029 then UnicodeEscape(n)
    else Utf8(c)
  }

  /** Characters printed as they are, in one byte. */
  predicate PlainChar(c: char) {
    'a' <= c <= 'z' || 'A' <= c <= 'Z' || '0' <= c <= '9' || c == '-' || c == '_' || c == ':' || c == '.' || c == '+'
  }

  predicate IsPlain(s: string) { forall i :: 0 <= i < |s| ==> PlainChar(s[i]) }

  function EscapeAll(s: string): seq<Byte> {
    if |s| == 0 then [] else Escape(s[0]) + EscapeAll(s[1..])
  }

  function JsonString(s: string): seq<Byte> { [34] + EscapeAll(s) + [34] }

  /** A key with a string value, and what follows. */
  function Field(key: string, value: string, rest: seq<Byte>): (b: seq<Byte>)
    ensures |b| == |key| + |EscapeAll(value)| + 2 + |rest|
  {
    Ascii(key) + (JsonString(value) + rest)
  }

  /** `json.Marshal` of the cursor: the fields in declaration order. */
  function Marshal(stamp: Time -> Stamp, c: Cursor): seq<Byte> {
    Ascii("{\"Version\":" + Decimal(c.version))
    + Field(",\"Kind\":", c.kind, Field(",\"TenantID\":", c.tenantID, Field(",\"Name\":", c.name,
      Field(",\"State\":", c.state, Field(",\"VPCID\":", c.vpcID, Field(",\"ID\":", c.id,
      Field(",\"CreatedAt\":", stamp(c.createdAt), Ascii("}"))))))))
  }

  /** The year 10000 in UTC: times from there on have no JSON form. */
  const END_OF_PRINTING: Time := 315_537_897_600_000_000

  predicate Printable(t: Time) { t < END_OF_PRINTING }

  /** The error of `json.Marshal` is dropped, which leaves an empty body. */
  function Body(stamp: Time -> Stamp, c: Cursor): seq<Byte> { if Printable(c.createdAt) then Marshal(stamp, c) else [] }

  lemma {:induction false} EscapeAtMostSix(s: string)
    ensures |EscapeAll(s)| <= 6 * |s|
  {
    if |s| > 0 { EscapeAtMostSix(s[1..]); }
  }

  lemma {:induction false} PlainIsShort(s: string)
    requires IsPlain(s)
    ensures |EscapeAll(s)| == |s|
  {
    if |s| > 0 { PlainIsShort(s[1..]); }
  }

  // -------- encoding and decoding --------

  const DOT: Byte := 46
  const MAX_LENGTH := 2048

  function Signed(k: Codec, body: seq<Byte>): seq<Byte> { Encode(body) + [DOT] + Encode(k.mac(body)) }

  function EncodeCursor(k: Codec, c: Cursor): seq<Byte> { Signed(k, k.render(c)) }

  /** `strings.Cut` at the first dot. */
  function Cut(t: seq<Byte>): (r: Option<(seq<Byte>, seq<Byte>)>)
    ensures r.None? ==> DOT !in t
    ensures r.Some? ==> t == r.value.0 + [DOT] + r.value.1 && DOT !in r.value.0
  {
    if |t| == 0 then None
    else if t[0] == DOT then Some(([], t[1..]))
    else match Cut(t[1..])
      case None => None
      case Some((left, right)) => Some(([t[0]] + left, right))
  }

  /** Every failure is the same invalid-cursor error. */
  function DecodeCursor(k: Codec, value: seq<Byte>): (r: Option<Cursor>) {
    if |value| > MAX_LENGTH then None
    else match Cut(value)
      case None => None
      case Some((left, right)) =>
        var body := Decode(left);
        if body.None? || Encode(body.value) != left then None
        else
          var signature := Decode(right);
          if signature.None? || Encode(signature.value) != right then None
          else if signature.value != k.mac(body.value) then None
          else k.parse(body.value)
  }

  lemma {:induction false} CutAtDot(left: seq<Byte>, right: seq<Byte>)
    requires DOT !in left
    ensures Cut(left + [DOT] + right) == Some((left, right))
  {
    var t := left + [DOT] + right;
    if |left| == 0 {
      assert t[1..] == right;
    } else {
      assert t[1..] == left[1..] + [DOT] + right;
      CutAtDot(left[1..], right);
      assert left == [left[0]] + left[1..];
    }
  }

  lemma EncodeHasNoDot(b: seq<Byte>)
    ensures DOT !in Encode(b)
  {
    EncodeUsesSymbols(b);
  }

  /** The body comes first, then a dot, then its MAC. */
  lemma BodyThenSignature(k: Codec, body: seq<Byte>)
    ensures var t, n := Signed(k, body), |Encode(body)|;
            |t| > n && t[..n] == Encode(body) && t[n] == 46 && t[n + 1..] == Encode(k.mac(body))
  {
  }

  /** A signed body decodes to what it parses as, if the text is short enough. */
  lemma SignedDecodes(k: Codec, body: seq<Byte>)
    ensures DecodeCursor(k, Signed(k, body)) == if |Signed(k, body)| <= MAX_LENGTH then k.parse(body) else None
  {
    EncodeHasNoDot(body);
    CutAtDot(Encode(body), Encode(k.mac(body)));
    DecodeEncode(body);
    DecodeEncode(k.mac(body));
  }

  /** Exactly the short texts that are the signed form of a parsing body are accepted, and what is
      returned is what that body parses as. */
  lemma AcceptedExactly(k: Codec, value: seq<Byte>, c: Cursor)
    ensures DecodeCursor(k, value) == Some(c) <==>
              |value| <= MAX_LENGTH && exists body :: value == Signed(k, body) && k.parse(body) == Some(c)
  {
    if DecodeCursor(k, value) == Some(c) {
      var (left, right) := Cut(value).value;
      assert value == Signed(k, Decode(left).value);
    }
    if |value| <= MAX_LENGTH && exists body :: value == Signed(k, body) && k.parse(body) == Some(c) {
      var body :| value == Signed(k, body) && k.parse(body) == Some(c);
      SignedDecodes(k, body);
    }
  }

  /** Each body has one accepted text, and each accepted text one body. */
  lemma SignedInjective(k: Codec, a: seq<Byte>, b: seq<Byte>)
    requires Signed(k, a) == Signed(k, b)
    ensures a == b
  {
    EncodeHasNoDot(a);
    EncodeHasNoDot(b);
    CutAtDot(Encode(a), Encode(k.mac(a)));
    CutAtDot(Encode(b), Encode(k.mac(b)));
    EncodeInjective(a, b);
  }

  // -------- issued cursors --------

  /** The shapes of cursor the list operations build. */
  predicate Fitting(c: Cursor) {
    && c.version == 1 && IsPlain(c.kind) && |c.kind| <= 78 && IsPlain(c.tenantID) && |c.tenantID| == 36
    && |c.name| <= 128 && IsPlain(c.state) && |c.state| <= 12 && IsPlain(c.vpcID) && |c.vpcID| <= 36
    && IsPlain(c.id) && |c.id| <= 39
  }

  lemma MarshalLength(stamp: Time -> Stamp, c: Cursor)
    requires Fitting(c)
    ensures |Marshal(stamp, c)| <= 1100
  {
    assert Decimal(1) == "1";
    PlainIsShort(c.kind);
    PlainIsShort(c.tenantID);
    EscapeAtMostSix(c.name);
    PlainIsShort(c.state);
    PlainIsShort(c.vpcID);
    PlainIsShort(c.id);
    PlainIsShort(stamp(c.createdAt));
  }

  /** The codec prints cursors as JSON, reads back what it printed, and rejects an empty body. */
  ghost predicate IsJson(k: Codec, stamp: Time -> Stamp) {
    && (forall c {:trigger k.render(c)} | Fitting(c) ::
          k.render(c) == Body(stamp, c) && (Printable(c.createdAt) ==> k.parse(k.render(c)) == Some(c)))
    && k.parse([]).None?
  }

  lemma SignedLength(k: Codec, body: seq<Byte>)
    requires |body| <= 1100
    ensures |Signed(k, body)| <= 1520
  {
    EncodeLength(body);
    EncodeLength(k.mac(body));
  }

  /** Every cursor the service can issue is far below the limit the decoder enforces. */
  lemma IssuedFits(k: Codec, stamp: Time -> Stamp, c: Cursor)
    requires IsJson(k, stamp) && Fitting(c)
    ensures |EncodeCursor(k, c)| <= 1520 < MAX_LENGTH
  {
    MarshalLength(stamp, c);
    SignedLength(k, k.render(c));
  }

  /** What the list operations rely on: an issued cursor comes back as it was issued, exactly if its time
      has a printed form. */
  ghost predicate RoundTrips(k: Codec) {
    forall c {:trigger EncodeCursor(k, c)} | Fitting(c) ::
      DecodeCursor(k, EncodeCursor(k, c)) == if Printable(c.createdAt) then Some(c) else None
  }

  /** It holds of the JSON codec, given only that the parser reads what the printer wrote. */
  lemma JsonRoundTrips(k: Codec, stamp: Time -> Stamp)
    requires IsJson(k, stamp)
    ensures RoundTrips(k)
  {
    forall c | Fitting(c) ensures DecodeCursor(k, EncodeCursor(k, c)) == if Printable(c.createdAt) then Some(c) else None {
      IssuedFits(k, stamp, c);
      SignedDecodes(k, k.render(c));
    }
  }
}
