/**
 Unpadded base64url (sections 3.2 and 5 of RFC 4648) over bytes: the encoder, and the
 standard library's decoder, which skips line breaks and ignores left-over bits.
 */
module Base64 {
  import opened Text

  type Byte = b: int | 0 <= b < 256
  type Sextet = v: int | 0 <= v < 64

  /** The URL-safe alphabet, as ASCII codes. */
  function Symbol(v: Sextet): (c: Byte)
    ensures Value(c) == Some(v)
  {
    if v < 26 then 65 + v else if v < 52 then 71 + v else if v < 62 then v - 4 else if v == 62 then 45 else 95
  }

  function Value(c: Byte): Option<Sextet> {
    if 65 <= c <= 90 then Some(c - 65)
    else if 97 <= c <= 122 then Some(c - 71)
    else if 48 <= c <= 57 then Some(c + 4)
    else if c == 45 then Some(62)
    else if c == 95 then Some(63)
    else None
  }

  predicate IsBreak(c: Byte) { c == 10 || c == 13 }

  function Single(a: Byte): seq<Byte> { [Symbol(a / 4), Symbol(a % 4 * 16)] }

  function Pair(a: Byte, b: Byte): seq<Byte> { [Symbol(a / 4), Symbol(a % 4 * 16 + b / 16), Symbol(b % 16 * 4)] }

  function Group(a: Byte, b: Byte, c: Byte): seq<Byte> {
    [Symbol(a / 4), Symbol(a % 4 * 16 + b / 16), Symbol(b % 16 * 4 + c / 64), Symbol(c % 64)]
  }

  /** Three bytes make four symbols; a tail of one or two bytes makes two or three. */
  function Encode(b: seq<Byte>): (t: seq<Byte>) {
    if |b| == 0 then []
    else if |b| == 1 then Single(b[0])
    else if |b| == 2 then Pair(b[0], b[1])
    else Group(b[0], b[1], b[2]) + Encode(b[3..])
  }

  function Strip(t: seq<Byte>): seq<Byte> {
    if |t| == 0 then [] else if IsBreak(t[0]) then Strip(t[1..]) else [t[0]] + Strip(t[1..])
  }

  function First(x: Sextet, y: Sextet): Byte { x * 4 + y / 16 }
  function Second(y: Sextet, z: Sextet): Byte { y % 16 * 16 + z / 4 }
  function Third(z: Sextet, w: Sextet): Byte { z % 4 * 64 + w }

  /** Symbols in groups of four; a lone symbol or a foreign one is an error, surplus bits are dropped. */
  function DecodeSymbols(t: seq<Byte>): (r: Option<seq<Byte>>) {
    if |t| == 0 then Some([])
    else if |t| == 1 || Value(t[0]).None? || Value(t[1]).None? then None
    else if |t| == 2 then Some([First(Value(t[0]).value, Value(t[1]).value)])
    else if Value(t[2]).None? then None
    else if |t| == 3 then
      Some([First(Value(t[0]).value, Value(t[1]).value), Second(Value(t[1]).value, Value(t[2]).value)])
    else if Value(t[3]).None? then None
    else match DecodeSymbols(t[4..])
      case None => None
      case Some(rest) =>
        Some([First(Value(t[0]).value, Value(t[1]).value), Second(Value(t[1]).value, Value(t[2]).value),
              Third(Value(t[2]).value, Value(t[3]).value)] + rest)
  }

  function Decode(t: seq<Byte>): (r: Option<seq<Byte>>) { DecodeSymbols(Strip(t)) }

  /** The bits of each byte come back from the symbols that share them. */
  lemma Regroup(a: Byte, b: Byte, c: Byte)
    ensures First(a / 4, a % 4 * 16 + b / 16) == a
    ensures Second(a % 4 * 16 + b / 16, b % 16 * 4 + c / 64) == b
    ensures Third(b % 16 * 4 + c / 64, c % 64) == c
  {
  }

  lemma DecodeFour(x: Sextet, y: Sextet, z: Sextet, w: Sextet, rest: seq<Byte>)
    requires DecodeSymbols(rest).Some?
    ensures DecodeSymbols([Symbol(x), Symbol(y), Symbol(z), Symbol(w)] + rest)
         == Some([First(x, y), Second(y, z), Third(z, w)] + DecodeSymbols(rest).value)
  {
    assert ([Symbol(x), Symbol(y), Symbol(z), Symbol(w)] + rest)[4..] == rest;
  }

  /** A full group in front of an encoding that decodes. */
  lemma EncodeFour(a: Byte, b: Byte, c: Byte, rest: seq<Byte>, tail: seq<Byte>)
    requires DecodeSymbols(rest) == Some(tail)
    ensures DecodeSymbols(Group(a, b, c) + rest) == Some([a, b, c] + tail)
  {
    Regroup(a, b, c);
    DecodeFour(a / 4, a % 4 * 16 + b / 16, b % 16 * 4 + c / 64, c % 64, rest);
  }

  lemma DecodeTwo(x: Sextet, y: Sextet)
    ensures DecodeSymbols([Symbol(x), Symbol(y)]) == Some([First(x, y)])
  {
  }

  lemma DecodeThree(x: Sextet, y: Sextet, z: Sextet)
    ensures DecodeSymbols([Symbol(x), Symbol(y), Symbol(z)]) == Some([First(x, y), Second(y, z)])
  {
  }

  lemma EncodeSingle(a: Byte)
    ensures DecodeSymbols(Single(a)) == Some([a])
  {
    var y: Sextet := a % 4 * 16;
    DecodeTwo(a / 4, y);
    assert y / 16 == a % 4;
  }

  lemma RegroupPair(a: Byte, b: Byte)
    ensures First(a / 4, a % 4 * 16 + b / 16) == a
    ensures Second(a % 4 * 16 + b / 16, b % 16 * 4) == b
  {
  }

  lemma EncodePair(a: Byte, b: Byte)
    ensures DecodeSymbols(Pair(a, b)) == Some([a, b])
  {
    RegroupPair(a, b);
    DecodeThree(a / 4, a % 4 * 16 + b / 16, b % 16 * 4);
  }

  lemma {:induction false} DecodeSymbolsEncode(b: seq<Byte>)
    ensures DecodeSymbols(Encode(b)) == Some(b)
  {
    if |b| >= 3 {
      DecodeSymbolsEncode(b[3..]);
      EncodeFour(b[0], b[1], b[2], Encode(b[3..]), b[3..]);
      assert b == [b[0], b[1], b[2]] + b[3..];
    } else if |b| == 2 {
      EncodePair(b[0], b[1]);
      assert b == [b[0], b[1]];
    } else if |b| == 1 {
      EncodeSingle(b[0]);
      assert b == [b[0]];
    }
  }

  predicate IsSymbol(c: Byte) { Value(c).Some? }

  lemma {:induction false} EncodeUsesSymbols(b: seq<Byte>)
    ensures forall i :: 0 <= i < |Encode(b)| ==> IsSymbol(Encode(b)[i])
  {
    if |b| >= 3 { EncodeUsesSymbols(b[3..]); }
  }

  lemma {:induction false} StripKeepsSymbols(t: seq<Byte>)
    requires forall i :: 0 <= i < |t| ==> IsSymbol(t[i])
    ensures Strip(t) == t
  {
    if |t| > 0 {
      StripKeepsSymbols(t[1..]);
      assert t == [t[0]] + t[1..];
    }
  }

  /** Decoding an encoding gives the bytes back. */
  lemma DecodeEncode(b: seq<Byte>)
    ensures Decode(Encode(b)) == Some(b)
  {
    EncodeUsesSymbols(b);
    StripKeepsSymbols(Encode(b));
    DecodeSymbolsEncode(b);
  }

  lemma EncodeInjective(a: seq<Byte>, b: seq<Byte>)
    requires Encode(a) == Encode(b)
    ensures a == b
  {
    DecodeEncode(a);
    DecodeEncode(b);
  }

  lemma {:induction false} EncodeLength(b: seq<Byte>)
    ensures |Encode(b)| == (4 * |b| + 2) / 3
  {
    if |b| >= 3 { EncodeLength(b[3..]); }
  }

  /** The decoder alone does not determine the text: a left-over bit or a line break goes unnoticed. */
  lemma DecoderIsLenient()
    ensures Decode([81, 81]) == Decode([81, 82]) == Decode([81, 10, 81]) == Some([65])
    ensures Encode([65]) == [81, 81]
  {
    var broken: seq<Byte> := [81, 10, 81];
    StripKeepsSymbols(broken[2..]);
    assert broken[1..][1..] == broken[2..] == [81];
    assert Strip(broken) == [81] + Strip(broken[1..]) == [81, 81];
    StripKeepsSymbols([81, 81]);
    StripKeepsSymbols([81, 82]);
  }

  /** Vectors of section 10 of RFC 4648, and the two symbols of the URL-safe alphabet. */
  lemma TestVectors()
    ensures Encode([102]) == [90, 103] && Encode([102, 111]) == [90, 109, 56]
    ensures Encode([102, 111, 111]) == [90, 109, 57, 118]
    ensures Encode([251, 255]) == [45, 95, 56]
  {
  }

  /** Letters, digits, hyphen and underscore are symbols. */
  predicate IsUrlSafe(c: Byte) { 48 <= c <= 57 || 65 <= c <= 90 || 97 <= c <= 122 || c == 45 || c == 95 }

  lemma {:induction false} DecodesOnlySymbols(t: seq<Byte>)
    requires DecodeSymbols(t).Some?
    ensures forall i :: 0 <= i < |t| ==> IsUrlSafe(t[i])
  {
    if |t| >= 4 {
      DecodesOnlySymbols(t[4..]);
      forall i | 4 <= i < |t| ensures IsUrlSafe(t[i]) { assert t[i] == t[4..][i - 4]; }
    }
  }

  lemma {:induction false} StripKeeps(t: seq<Byte>, c: Byte)
    requires c in t && !IsBreak(c)
    ensures c in Strip(t)
  {
    if t[0] != c { StripKeeps(t[1..], c); }
  }

  /** Any other byte but a line break, padding included, makes a text undecodable. */
  lemma OtherBytesAreRefused(t: seq<Byte>, c: Byte)
    requires c in t && !IsUrlSafe(c) && c != 10 && c != 13
    ensures Decode(t) == None
  {
    StripKeeps(t, c);
    if Decode(t).Some? { DecodesOnlySymbols(Strip(t)); }
  }
}
