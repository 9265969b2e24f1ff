/** Base64 with padding (section 4 of RFC 4648), and that it never writes two byte strings alike. */
module Base64 {
  import opened Utf16

  type Byte = b: int | 0 <= b < 256

  const PADDING: Unit := 61

  /** A to Z, a to z, 0 to 9, plus, slash. */
  function Digit(n: int): Unit
    requires 0 <= n < 64
  {
    if n < 26 then 65 + n
    else if n < 52 then 71 + n
    else if n < 62 then n - 4
    else if n == 62 then 43
    else 47
  }

  function First(a: Byte): (n: int)
    ensures 0 <= n < 64
  {
    a / 4
  }

  function Second(a: Byte, b: Byte): (n: int)
    ensures 0 <= n < 64
  {
    a % 4 * 16 + b / 16
  }

  function Third(b: Byte, c: Byte): (n: int)
    ensures 0 <= n < 64
  {
    b % 16 * 4 + c / 64
  }

  function Fourth(c: Byte): (n: int)
    ensures 0 <= n < 64
  {
    c % 64
  }

  /** Three bytes are four groups of six bits; missing bytes count as zero. */
  function Encode(bytes: seq<Byte>): Text {
    if bytes == [] then []
    else if |bytes| == 1 then [Digit(First(bytes[0])), Digit(Second(bytes[0], 0)), PADDING, PADDING]
    else if |bytes| == 2 then
      [Digit(First(bytes[0])), Digit(Second(bytes[0], bytes[1])), Digit(Third(bytes[1], 0)), PADDING]
    else
      [Digit(First(bytes[0])), Digit(Second(bytes[0], bytes[1])), Digit(Third(bytes[1], bytes[2])),
       Digit(Fourth(bytes[2]))] + Encode(bytes[3..])
  }

  lemma DigitsDiffer(m: int, n: int)
    requires 0 <= m < 64 && 0 <= n < 64 && Digit(m) == Digit(n)
    ensures m == n
  {
  }

  lemma DigitIsNotPadding(n: int)
    requires 0 <= n < 64
    ensures Digit(n) != PADDING
  {
  }

  /** The four digits fix the three bytes they were cut from. */
  lemma SameDigitsSameBytes(a: Byte, b: Byte, c: Byte, x: Byte, y: Byte, z: Byte)
    requires Digit(First(a)) == Digit(First(x)) && Digit(Second(a, b)) == Digit(Second(x, y))
    requires Digit(Third(b, c)) == Digit(Third(y, z)) && Digit(Fourth(c)) == Digit(Fourth(z))
    ensures a == x && b == y && c == z
  {
    hide Digit;
    DigitsDiffer(First(a), First(x));
    DigitsDiffer(Second(a, b), Second(x, y));
    DigitsDiffer(Third(b, c), Third(y, z));
    DigitsDiffer(Fourth(c), Fourth(z));
  }

  lemma {:induction false} EncodeIsInjective(a: seq<Byte>, b: seq<Byte>)
    requires Encode(a) == Encode(b)
    ensures a == b
  {
    hide Digit, First, Second, Third, Fourth;
    if |a| >= 3 && |b| >= 3 {
      assert Encode(a)[..4] == Encode(b)[..4] && Encode(a)[4..] == Encode(a[3..]) && Encode(b)[4..] == Encode(b[3..]);
      assert forall i | 0 <= i < 4 :: Encode(a)[i] == Encode(a)[..4][i] && Encode(b)[i] == Encode(b)[..4][i];
      SameDigitsSameBytes(a[0], a[1], a[2], b[0], b[1], b[2]);
      EncodeIsInjective(a[3..], b[3..]);
      assert a == [a[0], a[1], a[2]] + a[3..] && b == [b[0], b[1], b[2]] + b[3..];
    } else if |a| >= 3 || |b| >= 3 {
      LongHasNoPaddingFirst(if |a| >= 3 then a else b);
      ShortHasPaddingFirst(if |a| >= 3 then b else a);
    } else {
      ShortIsInjective(a, b);
    }
  }

  lemma LongHasNoPaddingFirst(bytes: seq<Byte>)
    requires |bytes| >= 3
    ensures |Encode(bytes)| >= 4 && Encode(bytes)[3] != PADDING
  {
    DigitIsNotPadding(Fourth(bytes[2]));
  }

  lemma ShortHasPaddingFirst(bytes: seq<Byte>)
    requires |bytes| < 3
    ensures bytes == [] ==> Encode(bytes) == []
    ensures bytes != [] ==> |Encode(bytes)| == 4 && Encode(bytes)[3] == PADDING
  {
  }

  lemma PaddingCounts(bytes: seq<Byte>)
    requires 0 < |bytes| < 3
    ensures Encode(bytes)[2] == PADDING <==> |bytes| == 1
  {
    if |bytes| == 2 {
      DigitIsNotPadding(Third(bytes[1], 0));
    }
  }

  lemma OneByte(a: Byte, b: Byte)
    requires Encode([a]) == Encode([b])
    ensures a == b
  {
    hide Digit, First, Second;
    var s, t := Encode([a]), Encode([b]);
    assert s[0] == Digit(First(a)) && s[1] == Digit(Second(a, 0));
    assert t[0] == Digit(First(b)) && t[1] == Digit(Second(b, 0));
    SameDigitsSameBytes(a, 0, 0, b, 0, 0);
  }

  lemma TwoBytes(a: Byte, b: Byte, x: Byte, y: Byte)
    requires Encode([a, b]) == Encode([x, y])
    ensures a == x && b == y
  {
    hide Digit, First, Second, Third;
    var s, t := Encode([a, b]), Encode([x, y]);
    assert s[0] == Digit(First(a)) && s[1] == Digit(Second(a, b)) && s[2] == Digit(Third(b, 0));
    assert t[0] == Digit(First(x)) && t[1] == Digit(Second(x, y)) && t[2] == Digit(Third(y, 0));
    SameDigitsSameBytes(a, b, 0, x, y, 0);
  }

  lemma ShortIsInjective(a: seq<Byte>, b: seq<Byte>)
    requires |a| < 3 && |b| < 3 && Encode(a) == Encode(b)
    ensures a == b
  {
    ShortHasPaddingFirst(a);
    ShortHasPaddingFirst(b);
    hide Encode;
    if a != [] && b != [] {
      PaddingCounts(a);
      PaddingCounts(b);
      if |a| == 1 {
        assert a == [a[0]] && b == [b[0]];
        OneByte(a[0], b[0]);
      } else {
        assert a == [a[0], a[1]] && b == [b[0], b[1]];
        TwoBytes(a[0], a[1], b[0], b[1]);
      }
    }
  }
}
