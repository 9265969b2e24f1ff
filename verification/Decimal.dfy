/** Decimal digits as text: what a JavaScript bigint prints as, and what a run of digits is worth. */
module Decimal {
  import opened Options

  predicate IsDigit(c: char) {
    '0' <= c <= '9'
  }

  predicate IsDigits(s: string) {
    forall i | 0 <= i < |s| :: IsDigit(s[i])
  }

  function DigitValue(c: char): nat
    requires IsDigit(c)
  {
    c as int - '0' as int
  }

  function DigitChar(d: nat): (c: char)
    requires d < 10
    ensures IsDigit(c) && DigitValue(c) == d
  {
    ('0' as int + d) as char
  }

  function Pow10(k: nat): (p: nat)
    ensures p > 0
  {
    if k == 0 then 1 else 10 * Pow10(k - 1)
  }

  /** What a run of digits is worth; the empty run is worth nothing. */
  function Value(s: string): nat
    requires IsDigits(s)
  {
    if s == "" then 0 else 10 * Value(s[..|s| - 1]) + DigitValue(s[|s| - 1])
  }

  /** The decimal text of a natural number, without leading zeros. */
  function Text(n: nat): (s: string)
    ensures |s| > 0 && IsDigits(s)
  {
    if n < 10 then [DigitChar(n)] else Text(n / 10) + [DigitChar(n % 10)]
  }

  /** A natural number below 10^k as exactly k digits. */
  function Padded(n: nat, k: nat): (s: string)
    requires n < Pow10(k)
    ensures |s| == k && IsDigits(s)
  {
    if k == 0 then "" else Padded(n / 10, k - 1) + [DigitChar(n % 10)]
  }

  lemma {:induction false} TextHasItsValue(n: nat)
    ensures Value(Text(n)) == n
    ensures n > 0 ==> Text(n)[0] != '0'
  {
    if n >= 10 {
      TextHasItsValue(n / 10);
      assert Text(n)[..|Text(n)| - 1] == Text(n / 10);
    } else {
      assert [DigitChar(n)][..0] == "";
    }
  }

  lemma {:induction false} PaddedHasItsValue(n: nat, k: nat)
    requires n < Pow10(k)
    ensures Value(Padded(n, k)) == n
  {
    if k > 0 {
      PaddedHasItsValue(n / 10, k - 1);
      assert Padded(n, k)[..k - 1] == Padded(n / 10, k - 1);
    }
  }

  lemma {:induction false} ValueOfConcat(a: string, b: string)
    requires IsDigits(a) && IsDigits(b)
    ensures IsDigits(a + b) && Value(a + b) == Value(a) * Pow10(|b|) + Value(b)
  {
    if b == "" {
      assert a + b == a;
    } else {
      var front := b[..|b| - 1];
      ValueOfConcat(a, front);
      assert (a + b)[..|a + b| - 1] == a + front && (a + b)[|a + b| - 1] == b[|b| - 1];
      TenTimes(Value(a), Pow10(|front|), Value(front));
    }
  }

  lemma TenAndOne(n: nat, d: nat)
    requires d < 10
    ensures (10 * n + d) / 10 == n && (10 * n + d) % 10 == d
  {
  }

  lemma TenTimes(a: nat, p: nat, b: nat)
    ensures 10 * (a * p + b) == a * (10 * p) + 10 * b
  {
  }

  lemma {:induction false} ValueIsBounded(s: string)
    requires IsDigits(s)
    ensures Value(s) < Pow10(|s|)
  {
    if s != "" {
      ValueIsBounded(s[..|s| - 1]);
    }
  }

  /** Digits of a fixed length are determined by their value. */
  lemma {:induction false} PaddedOfValue(s: string)
    requires IsDigits(s)
    ensures Value(s) < Pow10(|s|) && Padded(Value(s), |s|) == s
  {
    ValueIsBounded(s);
    if s != "" {
      var front, last := s[..|s| - 1], DigitValue(s[|s| - 1]);
      PaddedOfValue(front);
      TenAndOne(Value(front), last);
      assert s == front + [s[|s| - 1]];
    }
  }

  /** Digits that do not start with a zero are the text of their own value. */
  lemma {:induction false} TextOfValue(s: string)
    requires s != "" && IsDigits(s) && s[0] != '0'
    ensures Value(s) > 0 && Text(Value(s)) == s
  {
    var front := s[..|s| - 1];
    assert s == front + [s[|s| - 1]];
    if front != "" {
      TextOfValue(front);
    }
  }

  lemma {:induction false} Pow10Sum(a: nat, b: nat)
    ensures Pow10(a + b) == Pow10(a) * Pow10(b)
  {
    if a > 0 {
      Pow10Sum(a - 1, b);
      calc {
        Pow10(a + b);
        10 * (Pow10(a - 1) * Pow10(b));
        Pow10(a) * Pow10(b);
      }
    }
  }

  /** Zeros appended to digits multiply by ten each. */
  lemma {:induction false} ZerosHaveNoValue(k: nat)
    ensures IsDigits(seq(k, _ => '0')) && Value(seq(k, _ => '0')) == 0
  {
    var zeros := seq(k, _ => '0');
    if k > 0 {
      ZerosHaveNoValue(k - 1);
      assert zeros[..k - 1] == seq(k - 1, _ => '0');
    }
  }

  /** Length of the longest run of digits at the front. */
  function DigitRun(s: string): (n: nat)
    ensures n <= |s| && IsDigits(s[..n])
    ensures n < |s| ==> !IsDigit(s[n])
  {
    if s == "" || !IsDigit(s[0]) then 0
    else
      var n := 1 + DigitRun(s[1..]);
      assert s[..n] == [s[0]] + s[1..][..n - 1];
      n
  }

  lemma {:induction false} DigitRunStopsAt(digits: string, rest: string)
    requires IsDigits(digits) && (rest != "" ==> !IsDigit(rest[0]))
    ensures DigitRun(digits + rest) == |digits|
  {
    if digits == "" {
      assert digits + rest == rest;
    } else {
      DigitRunStopsAt(digits[1..], rest);
      assert (digits + rest)[1..] == digits[1..] + rest;
    }
  }

  /** A figure taken apart: digits, the digits after a point (none without one), and what is left. */
  datatype Parts = Parts(whole: string, fraction: string, tail: string)

  function Pointed(fraction: string): string {
    if fraction == "" then "" else "." + fraction
  }

  /** The start of a figure: at least one digit, then perhaps a point and at least one more. */
  function Split(s: string): (r: Option<Parts>)
    ensures r.Some? ==> r.value.whole != "" && IsDigits(r.value.whole) && IsDigits(r.value.fraction)
    ensures r.Some? ==> s == r.value.whole + Pointed(r.value.fraction) + r.value.tail
  {
    var n := DigitRun(s);
    if n == 0 then None
    else if n < |s| && s[n] == '.' then
      var m := DigitRun(s[n + 1..]);
      if m == 0 then None
      else
        assert s == s[..n] + ("." + s[n + 1..][..m]) + s[n + 1..][m..];
        Some(Parts(s[..n], s[n + 1..][..m], s[n + 1..][m..]))
    else
      assert s == s[..n] + "" + s[n..];
      Some(Parts(s[..n], "", s[n..]))
  }

  /** Split finds the only way to take a figure apart. */
  lemma SplitFinds(whole: string, fraction: string, tail: string)
    requires whole != "" && IsDigits(whole) && IsDigits(fraction)
    requires tail != "" ==> !IsDigit(tail[0]) && tail[0] != '.'
    ensures Split(whole + Pointed(fraction) + tail) == Some(Parts(whole, fraction, tail))
  {
    hide Split, DigitRun, IsDigits;
    var s, after := whole + Pointed(fraction) + tail, Pointed(fraction) + tail;
    assert s == whole + after;
    DigitRunStopsAt(whole, after);
    if fraction == "" {
      assert after == tail;
      SplitPlain(s, whole, tail);
    } else {
      assert after == "." + (fraction + tail);
      FractionRun(fraction, tail);
      SplitPointed(s, whole, fraction + tail, |fraction|);
    }
  }

  lemma SplitPlain(s: string, whole: string, tail: string)
    requires whole != "" && s == whole + tail && DigitRun(s) == |whole|
    requires tail != "" ==> tail[0] != '.'
    ensures Split(s) == Some(Parts(whole, "", tail))
  {
    hide DigitRun, IsDigits;
    assert s[..|whole|] == whole && s[|whole|..] == tail;
  }

  lemma SplitPointed(s: string, whole: string, after: string, m: nat)
    requires whole != "" && s == whole + ("." + after) && DigitRun(s) == |whole|
    requires DigitRun(after) == m && 0 < m <= |after|
    ensures Split(s) == Some(Parts(whole, after[..m], after[m..]))
  {
    hide DigitRun, IsDigits;
    assert s[..|whole|] == whole && s[|whole|] == '.' && s[|whole| + 1..] == after;
  }

  lemma FractionRun(fraction: string, tail: string)
    requires IsDigits(fraction) && (tail != "" ==> !IsDigit(tail[0]))
    ensures DigitRun(fraction + tail) == |fraction|
    ensures (fraction + tail)[..|fraction|] == fraction && (fraction + tail)[|fraction|..] == tail
  {
    DigitRunStopsAt(fraction, tail);
  }
}
