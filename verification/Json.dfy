/**
 The JSON printer is injective, so codecs that read back what they print exist: for every MAC and every
 printing of times that tells printable times apart.
 */
module Json {
  import opened Text
  import opened Base64
  import opened Evidence
  import opened Cursors

  // -------- one character --------

  function UnHex(b: int): int { if b < 58 then b - 48 else b - 87 }

  function Hex4(a: int, b: int, c: int, d: int): int { 4096 * UnHex(a) + 256 * UnHex(b) + 16 * UnHex(c) + UnHex(d) }
  function Two(a: int, b: int): int { 64 * (a - 0xC0) + (b - 0x80) }
  function Three(a: int, b: int, c: int): int { 4096 * (a - 0xE0) + 64 * (b - 0x80) + (c - 0x80) }
  function Four(a: int, b: int, c: int, d: int): int {
    262144 * (a - 0xF0) + 4096 * (b - 0x80) + 64 * (c - 0x80) + (d - 0x80)
  }

  /** The character an escape began with, read off its first bytes. */
  function Unescape(b: seq<Byte>): int {
    if |b| == 0 then -1
    else if b[0] == 92 then
      if |b| < 2 then -1
      else if b[1] == 98 then 8
      else if b[1] == 102 then 12
      else if b[1] == 110 then 10
      else if b[1] == 114 then 13
      else if b[1] == 116 then 9
      else if b[1] != 117 then b[1]
      else if |b| < 6 then -1
      else Hex4(b[2], b[3], b[4], b[5])
    else if b[0] < 0x80 then b[0]
    else if b[0] < 0xE0 then (if |b| < 2 then -1 else Two(b[0], b[1]))
    else if b[0] < 0xF0 then (if |b| < 3 then -1 else Three(b[0], b[1], b[2]))
    else if |b| < 4 then -1
    else Four(b[0], b[1], b[2], b[3])
  }

  lemma Shift4(n: nat)
    ensures n / 256 == n / 16 / 16
  {
  }

  lemma Shift8(n: nat)
    ensures n / 4096 == n / 256 / 16
  {
  }

  lemma Shift6(n: nat)
    ensures n / 4096 == n / 64 / 64
  {
  }

  lemma Shift12(n: nat)
    ensures n / 262144 == n / 4096 / 64
  {
  }

  lemma HexDigits(c: nat)
    ensures 4096 * (c / 4096) + 256 * (c / 256 % 16) + 16 * (c / 16 % 16) + c % 16 == c
  {
    Shift4(c);
    Shift8(c);
  }

  lemma HexRoundTrip(c: nat)
    requires c < 65536
    ensures Unescape(UnicodeEscape(c)) == c
  {
    HexDigits(c);
    UnHexByte(c / 4096);
    UnHexByte(c / 256 % 16);
    UnHexByte(c / 16 % 16);
    UnHexByte(c % 16);
  }

  lemma UnHexByte(n: nat)
    requires n < 16
    ensures UnHex(HexByte(n)) == n
  {
  }

  lemma SixBits(n: nat)
    ensures 64 * (n / 64) + n % 64 == n
    ensures 4096 * (n / 4096) + 64 * (n / 64 % 64) + n % 64 == n
    ensures 262144 * (n / 262144) + 4096 * (n / 4096 % 64) + 64 * (n / 64 % 64) + n % 64 == n
  {
    Shift6(n);
    Shift12(n);
  }

  lemma Utf8RoundTrip(c: char)
    requires c as int != 92
    ensures Unescape(Utf8(c)) == c as int
  {
    SixBits(c as int);
  }

  lemma EscapeRoundTrip(c: char)
    ensures Unescape(Escape(c)) == c as int
    ensures Escape(c)[0] != 34
  {
    var n := c as int;
    if n < 32 || n == 60 || n == 62 || n == 38 || n == 0x2028 || n == 0x2029 { HexRoundTrip(n); }
    else if n != 34 && n != 92 { Utf8RoundTrip(c); }
  }

  /** What HTML could mistake, control characters, quotes and line separators are escaped; a letter is not. */
  lemma EscapesExactly(c: char)
    ensures |Escape(c)| == 1 ==> c as int < 128 && Escape(c) == [c as int]
    ensures c in "<>&" || c as int == 0x2028 || c as int == 0x2029 || (c as int < 32 && c !in "\n\r\t" && c as int != 8 && c as int != 12) ==>
              |Escape(c)| == 6 && Escape(c)[..2] == Ascii("\\u")
    ensures c == '\"' || c == '\\' ==> Escape(c) == [92, c as int]
  {
  }

  // -------- whole strings --------

  lemma Cancel(a: seq<Byte>, x: seq<Byte>, y: seq<Byte>)
    requires a + x == a + y
    ensures x == y
  {
    assert x == (a + x)[|a|..] && y == (a + y)[|a|..];
  }

  /** Reading depends on the first bytes only, so no escape is the beginning of another. */
  lemma UnescapePrefix(b: seq<Byte>, rest: seq<Byte>)
    requires Unescape(b) >= 0
    ensures Unescape(b + rest) == Unescape(b)
  {
  }

  lemma EscapeSplits(c: char, d: char, x: seq<Byte>, y: seq<Byte>)
    requires Escape(c) + x == Escape(d) + y
    ensures c == d && x == y
  {
    EscapeRoundTrip(c);
    EscapeRoundTrip(d);
    UnescapePrefix(Escape(c), x);
    UnescapePrefix(Escape(d), y);
    Cancel(Escape(c), x, y);
  }

  /** Characters written one after another in some code. */
  function Flat(code: char -> seq<Byte>, s: string): seq<Byte> {
    if |s| == 0 then [] else code(s[0]) + Flat(code, s[1..])
  }

  /** No code word begins another, or begins with the closing quote. */
  ghost predicate Decodable(code: char -> seq<Byte>) {
    && (forall c :: |code(c)| > 0 && code(c)[0] != 34)
    && (forall c, d, x, y :: code(c) + x == code(d) + y ==> c == d && x == y)
  }

  /** Only the empty string begins with its closing quote. */
  lemma FirstByte(code: char -> seq<Byte>, s: string, x: seq<Byte>)
    requires Decodable(code)
    ensures |Flat(code, s) + ([34] + x)| > 0
    ensures (Flat(code, s) + ([34] + x))[0] == 34 <==> s == ""
  {
    if |s| > 0 { assert Flat(code, s)[0] == code(s[0])[0]; }
  }

  lemma {:induction false} FlatSplits(code: char -> seq<Byte>, s: string, t: string, x: seq<Byte>, y: seq<Byte>)
    requires Decodable(code) && Flat(code, s) + ([34] + x) == Flat(code, t) + ([34] + y)
    ensures s == t && x == y
  {
    var l, r := Flat(code, s) + ([34] + x), Flat(code, t) + ([34] + y);
    FirstByte(code, s, x);
    FirstByte(code, t, y);
    if s == "" || t == "" {
      assert l == [34] + x && r == [34] + y;
      Cancel([34], x, y);
    } else {
      var u, v := Flat(code, s[1..]) + ([34] + x), Flat(code, t[1..]) + ([34] + y);
      assert l == code(s[0]) + u && r == code(t[0]) + v;
      assert s[0] == t[0] && u == v;
      FlatSplits(code, s[1..], t[1..], x, y);
      assert s == [s[0]] + s[1..] && t == [t[0]] + t[1..];
    }
  }

  lemma {:induction false} EscapeAllIsFlat(s: string)
    ensures EscapeAll(s) == Flat(Escape, s)
  {
    if |s| > 0 { EscapeAllIsFlat(s[1..]); }
  }

  lemma EscapeIsDecodable()
    ensures Decodable(Escape)
  {
    forall c ensures |Escape(c)| > 0 && Escape(c)[0] != 34 { EscapeRoundTrip(c); }
    forall c, d, x, y | Escape(c) + x == Escape(d) + y ensures c == d && x == y { EscapeSplits(c, d, x, y); }
  }

  /** A quoted string ends where it ends. */
  lemma JsonStringSplits(s: string, t: string, x: seq<Byte>, y: seq<Byte>)
    requires JsonString(s) + x == JsonString(t) + y
    ensures s == t && x == y
  {
    EscapeIsDecodable();
    EscapeAllIsFlat(s);
    EscapeAllIsFlat(t);
    var u, v := Flat(Escape, s) + ([34] + x), Flat(Escape, t) + ([34] + y);
    assert JsonString(s) + x == [34] + u && JsonString(t) + y == [34] + v;
    Cancel([34], u, v);
    FlatSplits(Escape, s, t, x, y);
  }

  lemma FieldSplits(key: string, s: string, t: string, x: seq<Byte>, y: seq<Byte>)
    requires Field(key, s, x) == Field(key, t, y)
    ensures s == t && x == y
  {
    Cancel(Ascii(key), JsonString(s) + x, JsonString(t) + y);
    JsonStringSplits(s, t, x, y);
  }

  // -------- whole cursors --------

  /** A printing of times that tells printable times apart. */
  ghost predicate Distinguishes(stamp: Time -> Stamp) {
    forall s, t :: Printable(s) && Printable(t) && stamp(s) == stamp(t) ==> s == t
  }

  function Rest4(stamp: Time -> Stamp, c: Cursor): seq<Byte> {
    Field(",\"VPCID\":", c.vpcID, Field(",\"ID\":", c.id, Field(",\"CreatedAt\":", stamp(c.createdAt), Ascii("}"))))
  }

  lemma RestInjective(stamp: Time -> Stamp, c: Cursor, d: Cursor)
    requires Distinguishes(stamp) && Printable(c.createdAt) && Printable(d.createdAt) && Rest4(stamp, c) == Rest4(stamp, d)
    ensures c.vpcID == d.vpcID && c.id == d.id && c.createdAt == d.createdAt
  {
    var x, y := Field(",\"CreatedAt\":", stamp(c.createdAt), Ascii("}")), Field(",\"CreatedAt\":", stamp(d.createdAt), Ascii("}"));
    FieldSplits(",\"VPCID\":", c.vpcID, d.vpcID, Field(",\"ID\":", c.id, x), Field(",\"ID\":", d.id, y));
    FieldSplits(",\"ID\":", c.id, d.id, x, y);
    FieldSplits(",\"CreatedAt\":", stamp(c.createdAt), stamp(d.createdAt), Ascii("}"), Ascii("}"));
  }

  lemma EmptyField(key: string, tail: string)
    ensures Field(key, "", Ascii(tail)) == Ascii(key + "\"\"" + tail)
  {
    assert EscapeAll("") == [];
  }

  /** The body, spelled out for a cursor without any texts. */
  lemma MarshalSpelled(stamp: Time -> Stamp, c: Cursor)
    requires c == Cursor(1, "", "", "", "", "", "", c.createdAt) && stamp(c.createdAt) == ""
    ensures Marshal(stamp, c)
         == Ascii("{\"Version\":" + Decimal(1)) + Ascii(",\"Kind\":" + "\"\"" + (",\"TenantID\":" + "\"\"" + (",\"Name\":" + "\"\"" + (
            ",\"State\":" + "\"\"" + (",\"VPCID\":" + "\"\"" + (",\"ID\":" + "\"\"" + (",\"CreatedAt\":" + "\"\"" + "}")))))))
  {
    var t7 := ",\"CreatedAt\":" + "\"\"" + "}";
    var t6 := ",\"ID\":" + "\"\"" + t7;
    var t5 := ",\"VPCID\":" + "\"\"" + t6;
    var t4 := ",\"State\":" + "\"\"" + t5;
    var t3 := ",\"Name\":" + "\"\"" + t4;
    var t2 := ",\"TenantID\":" + "\"\"" + t3;
    EmptyField(",\"CreatedAt\":", "}");
    EmptyField(",\"ID\":", t7);
    EmptyField(",\"VPCID\":", t6);
    EmptyField(",\"State\":", t5);
    EmptyField(",\"Name\":", t4);
    EmptyField(",\"TenantID\":", t3);
    EmptyField(",\"Kind\":", t2);
  }

  /** Distinct cursors print as distinct bodies. */
  lemma MarshalInjective(stamp: Time -> Stamp, c: Cursor, d: Cursor)
    requires Distinguishes(stamp) && Printable(c.createdAt) && Printable(d.createdAt) && c.version == d.version
    requires Marshal(stamp, c) == Marshal(stamp, d)
    ensures c == d
  {
    var r, s := Rest4(stamp, c), Rest4(stamp, d);
    var r3, s3 := Field(",\"State\":", c.state, r), Field(",\"State\":", d.state, s);
    var r2, s2 := Field(",\"Name\":", c.name, r3), Field(",\"Name\":", d.name, s3);
    var r1, s1 := Field(",\"TenantID\":", c.tenantID, r2), Field(",\"TenantID\":", d.tenantID, s2);
    Cancel(Ascii("{\"Version\":" + Decimal(c.version)), Field(",\"Kind\":", c.kind, r1), Field(",\"Kind\":", d.kind, s1));
    FieldSplits(",\"Kind\":", c.kind, d.kind, r1, s1);
    FieldSplits(",\"TenantID\":", c.tenantID, d.tenantID, r2, s2);
    FieldSplits(",\"Name\":", c.name, d.name, r3, s3);
    FieldSplits(",\"State\":", c.state, d.state, r, s);
    RestInjective(stamp, c, d);
  }

  /** The body is the printed form of this cursor. */
  ghost predicate Prints(stamp: Time -> Stamp, c: Cursor, body: seq<Byte>) {
    Fitting(c) && Printable(c.createdAt) && Marshal(stamp, c) == body
  }

  ghost function Parser(stamp: Time -> Stamp): seq<Byte> -> Option<Cursor> {
    body => if exists c :: Prints(stamp, c, body) then
              var c :| Prints(stamp, c, body);
              Some(c)
            else None
  }

  /** For every MAC and every such printing of times there is a codec that prints JSON and reads it back. */
  lemma CodecExists(mac: seq<Byte> -> Mac, fingerprint: seq<string> -> Digest, stamp: Time -> Stamp)
    requires Distinguishes(stamp)
    ensures IsJson(Codec(mac, fingerprint, c => Body(stamp, c), Parser(stamp)), stamp)
  {
    var k := Codec(mac, fingerprint, c => Body(stamp, c), Parser(stamp));
    forall c | Fitting(c) && Printable(c.createdAt) ensures k.parse(Marshal(stamp, c)) == Some(c) {
      assert Prints(stamp, c, Marshal(stamp, c));
      forall d | Prints(stamp, d, Marshal(stamp, c)) ensures d == c { MarshalInjective(stamp, c, d); }
    }
    forall c ensures !Prints(stamp, c, []) { assert |Marshal(stamp, c)| > 0; }
  }

  // -------- such a printing exists --------

  function PowerOfTen(k: nat): nat { if k == 0 then 1 else 10 * PowerOfTen(k - 1) }

  lemma {:induction false} DecimalIsShort(n: nat, k: nat)
    requires k > 0 && n < PowerOfTen(k)
    ensures |Decimal(n)| <= k
  {
    if n >= 10 {
      assert k > 1 by { assert PowerOfTen(0) == 1 && PowerOfTen(1) == 10; }
      DecimalIsShort(n / 10, k - 1);
    }
  }

  lemma EighteenDigits(t: Time)
    requires Printable(t)
    ensures |Decimal(t)| <= 18 && IsPlain(Decimal(t))
  {
    assert PowerOfTen(6) == 1_000_000;
    assert PowerOfTen(12) == 1_000_000_000_000 by { assert PowerOfTen(9) == 1_000_000_000; }
    assert PowerOfTen(18) == 1_000_000_000_000_000_000 by { assert PowerOfTen(15) == 1_000_000_000_000_000; }
    DecimalIsShort(t, 18);
  }

  /** The microseconds as a numeral. */
  function Numeral(t: Time): Stamp {
    if Printable(t) then EighteenDigits(t); Decimal(t) else ""
  }

  lemma NumeralsDistinguish()
    ensures Distinguishes(Numeral)
  {
    forall s, t | Printable(s) && Printable(t) && Numeral(s) == Numeral(t) ensures s == t { DecimalInjective(s, t); }
  }

  /** So the round trip the list operations rely on is no empty promise. */
  lemma RoundTripsAreReal(mac: seq<Byte> -> Mac, fingerprint: seq<string> -> Digest)
    ensures RoundTrips(Codec(mac, fingerprint, c => Body(Numeral, c), Parser(Numeral)))
  {
    NumeralsDistinguish();
    CodecExists(mac, fingerprint, Numeral);
    JsonRoundTrips(Codec(mac, fingerprint, c => Body(Numeral, c), Parser(Numeral)), Numeral);
  }
}
