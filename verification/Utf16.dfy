/** JavaScript strings: sequences of UTF-16 code units, and how JSON.stringify writes one. */
module Utf16 {
  import opened Options

  type Unit = u: int | 0 <= u < 0x1_0000

  type Text = seq<Unit>

  const QUOTE: Unit := 34
  const BACKSLASH: Unit := 92

  predicate IsHigh(u: Unit) {
    0xD800 <= u <= 0xDBFF
  }

  predicate IsLow(u: Unit) {
    0xDC00 <= u <= 0xDFFF
  }

  /** Half of a surrogate pair whose other half is missing. */
  predicate IsLone(s: Text, i: nat)
    requires i < |s|
  {
    || (IsHigh(s[i]) && !(i + 1 < |s| && IsLow(s[i + 1])))
    || (IsLow(s[i]) && !(i > 0 && IsHigh(s[i - 1])))
  }

  function HexDigit(n: int): Unit
    requires 0 <= n < 16
  {
    if n < 10 then 48 + n else 87 + n
  }

  function HexValue(u: Unit): Option<int> {
    if 48 <= u <= 57 then Some(u - 48) else if 97 <= u <= 102 then Some(u - 87) else None
  }

  /** The short escapes: backspace, tab, newline, form feed, carriage return. */
  function ShortEscape(u: Unit): Option<Unit> {
    if u == QUOTE || u == BACKSLASH then Some(u)
    else if u == 8 then Some(98)
    else if u == 9 then Some(116)
    else if u == 10 then Some(110)
    else if u == 12 then Some(102)
    else if u == 13 then Some(114)
    else None
  }

  /** One unit as JSON.stringify writes it (section 7 of RFC 8259), in front of what follows. */
  function PutUnit(s: Text, i: nat, rest: Text): Text
    requires i < |s|
  {
    var u := s[i];
    if ShortEscape(u).Some? then [BACKSLASH, ShortEscape(u).value] + rest
    else if u < 32 || IsLone(s, i) then
      [BACKSLASH, 117, HexDigit(u / 0x1000), HexDigit(u / 0x100 % 0x10), HexDigit(u / 0x10 % 0x10), HexDigit(u % 0x10)]
      + rest
    else [u] + rest
  }

  function PutUnits(s: Text, i: nat, rest: Text): Text
    requires i <= |s|
    decreases |s| - i
  {
    if i == |s| then rest else PutUnit(s, i, PutUnits(s, i + 1, rest))
  }

  /** A string in quotes, in front of what follows. */
  function PutString(s: Text, rest: Text): Text {
    [QUOTE] + PutUnits(s, 0, [QUOTE] + rest)
  }

  function ReadHex(t: Text): Option<Unit>
    requires |t| >= 6
  {
    match (HexValue(t[2]), HexValue(t[3]), HexValue(t[4]), HexValue(t[5]))
    case (Some(a), Some(b), Some(c), Some(d)) =>
      assert 0 <= a < 16 && 0 <= b < 16 && 0 <= c < 16 && 0 <= d < 16;
      Some(a * 0x1000 + b * 0x100 + c * 0x10 + d)
    case _ => None
  }

  function ReadShort(u: Unit): Option<Unit> {
    if u == QUOTE || u == BACKSLASH then Some(u)
    else if u == 98 then Some(8)
    else if u == 116 then Some(9)
    else if u == 110 then Some(10)
    else if u == 102 then Some(12)
    else if u == 114 then Some(13)
    else None
  }

  /** Reads one unit back, with what follows it. */
  function ReadUnit(t: Text): (r: Option<(Unit, Text)>)
    ensures r.Some? ==> |r.value.1| < |t|
  {
    if t == [] then None
    else if t[0] != BACKSLASH then Some((t[0], t[1..]))
    else if |t| < 2 then None
    else if t[1] == 117 then
      if |t| < 6 || ReadHex(t).None? then None else Some((ReadHex(t).value, t[6..]))
    else if ReadShort(t[1]).None? then None
    else Some((ReadShort(t[1]).value, t[2..]))
  }

  /** Reads up to the closing quote. */
  function ReadUnits(t: Text): (r: Option<(Text, Text)>)
    ensures r.Some? ==> |r.value.1| < |t|
    decreases |t|
  {
    if t == [] then None
    else if t[0] == QUOTE then Some(([], t[1..]))
    else match ReadUnit(t)
      case None => None
      case Some((u, after)) =>
        match ReadUnits(after)
        case None => None
        case Some((s, rest)) => Some(([u] + s, rest))
  }

  lemma HexDigitRoundTrip(n: int)
    requires 0 <= n < 16
    ensures HexValue(HexDigit(n)) == Some(n)
  {
  }

  lemma FourDigits(u: Unit)
    ensures u == u / 0x1000 * 0x1000 + u / 0x100 % 0x10 * 0x100 + u / 0x10 % 0x10 * 0x10 + u % 0x10
  {
    var a, b, c, d := u / 0x1000, u / 0x100 % 0x10, u / 0x10 % 0x10, u % 0x10;
    var p, q := u / 0x10, u / 0x100;
    assert u == 0x10 * p + d;
    assert q == p / 0x10 && p == 0x10 * q + c;
    assert a == q / 0x10 && q == 0x10 * a + b;
  }

  lemma HexRoundTrip(u: Unit, t: Text)
    requires |t| >= 6 && t[2] == HexDigit(u / 0x1000) && t[3] == HexDigit(u / 0x100 % 0x10)
    requires t[4] == HexDigit(u / 0x10 % 0x10) && t[5] == HexDigit(u % 0x10)
    ensures ReadHex(t) == Some(u)
  {
    hide HexDigit, HexValue;
    FourDigits(u);
    HexDigitRoundTrip(u / 0x1000);
    HexDigitRoundTrip(u / 0x100 % 0x10);
    HexDigitRoundTrip(u / 0x10 % 0x10);
    HexDigitRoundTrip(u % 0x10);
  }

  lemma UnitRoundTrip(s: Text, i: nat, rest: Text)
    requires i < |s|
    ensures ReadUnit(PutUnit(s, i, rest)) == Some((s[i], rest))
    ensures PutUnit(s, i, rest)[0] != QUOTE
  {
    var t := PutUnit(s, i, rest);
    if ShortEscape(s[i]).Some? {
      assert t[2..] == rest;
    } else if s[i] < 32 || IsLone(s, i) {
      assert t[6..] == rest;
      HexRoundTrip(s[i], t);
    } else {
      assert t[1..] == rest;
    }
    hide ReadHex, HexDigit, HexValue;
  }

  lemma {:induction false} UnitsRoundTrip(s: Text, i: nat, rest: Text)
    requires i <= |s|
    ensures ReadUnits(PutUnits(s, i, [QUOTE] + rest)) == Some((s[i..], rest))
    decreases |s| - i
  {
    if i < |s| {
      UnitsRoundTrip(s, i + 1, rest);
      UnitRoundTrip(s, i, PutUnits(s, i + 1, [QUOTE] + rest));
      assert s[i..] == [s[i]] + s[i + 1..];
    } else {
      assert ([QUOTE] + rest)[1..] == rest && s[i..] == [];
    }
  }

  /** A quoted string is read back exactly, whatever follows it: also quotes, controls and lone surrogates. */
  lemma StringRoundTrip(s: Text, rest: Text)
    ensures ReadUnits(PutString(s, rest)[1..]) == Some((s, rest))
  {
    UnitsRoundTrip(s, 0, rest);
    assert PutString(s, rest)[1..] == PutUnits(s, 0, [QUOTE] + rest) && s[0..] == s;
  }

  /** ASCII text as UTF-16 code units. */
  function Ascii(s: string): Text {
    seq(|s|, i requires 0 <= i < |s| => AsciiUnit(s[i]))
  }

  function AsciiUnit(c: char): Unit {
    if c as int < 128 then c as int else 0
  }
}
