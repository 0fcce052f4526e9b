/**
 The UUID texts the service accepts (`uuid.Parse`) and the one text it prints
 (`UUID.String`). Parsing is lenient in case and in four layouts; printing is not,
 and a UUID database column hands back the printed form.
 */
module Uuid {
  import opened Text

  type Nibble = n: int | 0 <= n < 16

  /** Sixteen bytes, as thirty-two hexadecimal digits. */
  type Value = s: seq<Nibble> | |s| == 32 witness seq(32, _ => 0)

  function HexDigit(c: char): (r: Option<Nibble>) {
    if '0' <= c <= '9' then Some(c as int - '0' as int)
    else if 'a' <= c <= 'f' then Some(c as int - 'a' as int + 10)
    else if 'A' <= c <= 'F' then Some(c as int - 'A' as int + 10)
    else None
  }

  function HexChar(n: Nibble): (c: char)
    ensures HexDigit(c) == Some(n) && c != '-'
  {
    if n < 10 then ('0' as int + n) as char else ('a' as int + n - 10) as char
  }

  /** Where the i-th digit stands in the dashed layout. */
  function DigitAt(i: nat): (p: nat)
    requires i < 32
    ensures p < 36 && p != 8 && p != 13 && p != 18 && p != 23
  {
    if i < 8 then i else if i < 12 then i + 1 else if i < 16 then i + 2 else if i < 20 then i + 3 else i + 4
  }

  predicate AllHex(s: string) { forall i :: 0 <= i < |s| ==> HexDigit(s[i]).Some? }

  predicate Dashed(s: string) {
    && |s| >= 36
    && s[8] == '-' && s[13] == '-' && s[18] == '-' && s[23] == '-'
    && forall i :: 0 <= i < 32 ==> HexDigit(s[DigitAt(i)]).Some?
  }

  function ParseDashed(s: string): (r: Option<Value>) {
    if Dashed(s) then Some(seq(32, i requires 0 <= i < 32 => HexDigit(s[DigitAt(i)]).value)) else None
  }

  function Lower(c: char): char { if 'A' <= c <= 'Z' then (c as int + 32) as char else c }

  predicate IsUrnPrefix(s: string) {
    |s| == 9 && forall i :: 0 <= i < 9 ==> Lower(s[i]) == "urn:uuid:"[i]
  }

  /** `uuid.Parse`; the bracketed layout's outer characters are not looked at. */
  function Parse(s: string): (r: Option<Value>) {
    if |s| == 36 then ParseDashed(s)
    else if |s| == 45 then (if IsUrnPrefix(s[..9]) then ParseDashed(s[9..]) else None)
    else if |s| == 38 then ParseDashed(s[1..])
    else if |s| == 32 && AllHex(s) then Some(seq(32, i requires 0 <= i < 32 => HexDigit(s[i]).value))
    else None
  }

  /** `UUID.String`: lower case, dashed. */
  function Print(u: Value): (s: string)
    ensures |s| == 36
  {
    seq(36, i requires 0 <= i < 36 =>
      if i == 8 || i == 13 || i == 18 || i == 23 then '-'
      else HexChar(u[if i < 8 then i else if i < 13 then i - 1 else if i < 18 then i - 2 else if i < 23 then i - 3 else i - 4]))
  }

  lemma ParsePrint(u: Value)
    ensures Parse(Print(u)) == Some(u)
  {
    var s := Print(u);
    forall i | 0 <= i < 32 ensures HexDigit(s[DigitAt(i)]) == Some(u[i]) {
      assert s[DigitAt(i)] == HexChar(u[i]);
    }
    assert ParseDashed(s).value == u;
  }

  predicate IsNil(u: Value) { forall i :: 0 <= i < 32 ==> u[i] == 0 }

  /** A non-nil UUID in some accepted layout. */
  predicate Valid(s: string) { Parse(s).Some? && !IsNil(Parse(s).value) }

  /** What a UUID column returns for a text it stored. */
  function Canonical(s: string): (t: string)
    requires Parse(s).Some?
    ensures |t| == 36
  {
    Print(Parse(s).value)
  }

  /** Already in the one printed form. */
  predicate IsCanonical(s: string) { Valid(s) && Canonical(s) == s }

  /** Storing and reading back keeps the identity and is stable from then on. */
  lemma CanonicalIsFixed(s: string)
    requires Valid(s)
    ensures IsCanonical(Canonical(s))
    ensures Parse(Canonical(s)) == Parse(s)
  {
    ParsePrint(Parse(s).value);
  }

  /** The layouts a UUID column takes from text: no URN prefix, and real braces only. */
  predicate ColumnAccepts(s: string) {
    Parse(s).Some? && |s| != 45 && (|s| == 38 ==> s[0] == '{' && s[37] == '}')
  }

  /** The printed form without its dashes. */
  function Bare(u: Value): string { seq(32, i requires 0 <= i < 32 => HexChar(u[i])) }

  /** The same digits in any of the four layouts are the same UUID; a column takes all but the URN. */
  lemma LayoutsAgree(u: Value)
    ensures Parse("urn:uuid:" + Print(u)) == Parse("{" + Print(u) + "}") == Parse(Bare(u)) == Some(u)
    ensures ColumnAccepts(Print(u)) && ColumnAccepts("{" + Print(u) + "}") && ColumnAccepts(Bare(u))
    ensures !ColumnAccepts("urn:uuid:" + Print(u)) && !ColumnAccepts("(" + Print(u) + ")")
  {
    ParsePrint(u);
    var s, urn, braced, bare := Print(u), "urn:uuid:" + Print(u), "{" + Print(u) + "}", Bare(u);
    assert urn[..9] == "urn:uuid:" && urn[9..] == s;
    BracedParses(u, '{', '}');
    BracedParses(u, '(', ')');
    assert braced == ['{'] + s + ['}'];
    assert Parse(bare).value == u;
  }

  lemma BracedParses(u: Value, open: char, close: char)
    ensures Parse([open] + Print(u) + [close]) == Some(u)
  {
    var s, t := Print(u), ([open] + Print(u) + [close])[1..];
    ParsePrint(u);
    assert Dashed(s) && forall i :: 0 <= i < 36 ==> t[i] == s[i];
    assert Dashed(t);
    assert ParseDashed(t).value == ParseDashed(s).value;
  }

  /** No other length is a UUID, and neither case nor anything but hexadecimal digits matters. */
  lemma OtherLengthsAreRefused(s: string)
    ensures Parse(s).Some? ==> |s| == 32 || |s| == 36 || |s| == 38 || |s| == 45
    ensures |s| == 36 && Parse(s).Some? ==>
              s[8] == '-' && s[13] == '-' && s[18] == '-' && s[23] == '-' && HexDigit(s[0]) == Some(Parse(s).value[0])
  {
    if |s| == 36 && Parse(s).Some? { assert DigitAt(0) == 0; }
  }

  /** The nil UUID is no identity in any layout, and every other is. */
  lemma NilIsInvalid(s: string)
    ensures Valid(s) <==> Parse(s).Some? && exists i :: 0 <= i < 32 && Parse(s).value[i] != 0
  {
  }
}
