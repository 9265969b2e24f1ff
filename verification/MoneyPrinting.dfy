/**
 * The console's money: printing an amount in full or at a glance, and reading an operator's amount
 * back, on whole numbers of any size. Text is ASCII.
 */
module MoneyPrinting {
  import opened Arithmetic
  import opened Decimal
  import opened Options

  function Lower(s: string): string {
    seq(|s|, i requires 0 <= i < |s| => if 'A' <= s[i] <= 'Z' then (s[i] as int + 32) as char else s[i])
  }

  predicate IsSpace(c: char) {
    c in [' ', '\t', '\n', '\r', '\U{0B}', '\U{0C}']
  }

  function TrimStart(s: string): string {
    if s != "" && IsSpace(s[0]) then TrimStart(s[1..]) else s
  }

  function TrimEnd(s: string): string {
    if s != "" && IsSpace(s[|s| - 1]) then TrimEnd(s[..|s| - 1]) else s
  }

  function Without(s: string, c: char): string {
    if s == "" then ""
    else if s[0] == c then Without(s[1..], c)
    else [s[0]] + Without(s[1..], c)
  }

  function Clean(input: string): string {
    Without(Without(Lower(TrimEnd(TrimStart(input))), ','), '$')
  }

  const ZEROS: map<string, nat> := map["" := 0, "k" := 3, "m" := 6, "b" := 9, "t" := 12]

  function Zeros(k: nat): (s: string)
    ensures |s| == k && IsDigits(s)
  {
    seq(k, _ => '0')
  }

  /** Digits, an optional fraction and an optional suffix, resolved by shifting digits. */
  function ReadFigure(s: string): Option<nat> {
    match Split(s)
    case None => None
    case Some(p) =>
      if p.tail !in ZEROS || |p.fraction| > ZEROS[p.tail] then None
      else Some(Value(p.whole + p.fraction + Zeros(ZEROS[p.tail] - |p.fraction|)))
  }

  function Signed(negative: bool, magnitude: nat): int {
    var value: int := magnitude;
    if negative then -value else value
  }

  /** An operator's amount; None for anything it cannot read, zero included. */
  function ParseAmount(input: string, signed: bool): Option<int> {
    var raw := Clean(input);
    var negative := raw != "" && raw[0] == '-';
    match ReadFigure(if negative then raw[1..] else raw)
    case None => None
    case Some(value) =>
      if (negative && !signed) || value == 0 then None else Some(Signed(negative, value))
  }

  function Magnitude(x: int): nat {
    if x < 0 then -x else x
  }

  function Sign(x: int): string {
    if x < 0 then "-" else ""
  }

  /** A comma wherever the digits still to come are a positive multiple of three. */
  function Group(digits: string): string {
    if |digits| <= 3 then digits else Group(digits[..|digits| - 3]) + "," + digits[|digits| - 3..]
  }

  function AmountText(x: int): string {
    Sign(x) + "$" + Group(Text(Magnitude(x)))
  }

  function DropTrailingZeros(s: string): (r: string)
    ensures |r| <= |s|
  {
    if s != "" && s[|s| - 1] == '0' then DropTrailingZeros(s[..|s| - 1]) else s
  }

  /** padStart(2, '0') */
  function PadTwo(s: string): string {
    if |s| >= 2 then s else seq(2 - |s|, _ => '0') + s
  }

  /** Two decimals of a scale, by whole-number arithmetic. */
  function Hundredths(n: nat, scale: nat): nat
    requires scale > 0
  {
    Quotient(Remainder(n, scale) * 100, scale)
  }

  function ShowTwo(whole: nat, hundredths: nat, suffix: string): string {
    Text(whole) + Pointed(DropTrailingZeros(PadTwo(Text(hundredths)))) + suffix
  }

  function Compact(n: nat, scale: nat, suffix: string): string
    requires scale > 0
  {
    ShowTwo(Quotient(n, scale), Hundredths(n, scale), suffix)
  }

  /** The largest of the four scales the amount reaches, with its suffix; none below a thousand. */
  function ScaleOf(n: nat): Option<(string, nat)> {
    if n >= 1_000_000_000_000 then Some(("t", 12))
    else if n >= 1_000_000_000 then Some(("b", 9))
    else if n >= 1_000_000 then Some(("m", 6))
    else if n >= 1_000 then Some(("k", 3))
    else None
  }

  function CompactAmount(x: int): string {
    var n := Magnitude(x);
    Sign(x) + "$" +
    match ScaleOf(n)
    case Some((suffix, exponent)) => Compact(n, Pow10(exponent), suffix)
    case None => Text(n)
  }

  // Cleaning keeps what the printers write and only takes their punctuation off.

  predicate IsFigureChar(c: char) {
    IsDigit(c) || c in ['.', 'k', 'm', 'b', 't']
  }

  lemma WithoutFirst(x: char, s: string, c: char)
    ensures Without([x] + s, c) == (if x == c then "" else [x]) + Without(s, c)
  {
    assert ([x] + s)[1..] == s;
  }

  lemma Reassociated(a: string, b: string, c: string)
    ensures a + (b + c) == (a + b) + c
  {
  }

  lemma {:induction false} WithoutOfConcat(a: string, b: string, c: char)
    ensures Without(a + b, c) == Without(a, c) + Without(b, c)
  {
    if a == "" {
      assert a + b == b && Without(a, c) == "";
    } else {
      hide Without;
      var first, rest := a[0], a[1..];
      WithoutOfConcat(rest, b, c);
      WithoutFirst(first, rest, c);
      WithoutFirst(first, rest + b, c);
      Reassociated([first], rest, b);
      assert [first] + rest == a;
      Reassociated(if first == c then "" else [first], Without(rest, c), Without(b, c));
    }
  }

  lemma {:induction false} WithoutAbsent(s: string, c: char)
    requires c !in s
    ensures Without(s, c) == s
  {
    if s != "" {
      assert s[0] in s;
      WithoutAbsent(s[1..], c);
    }
  }

  lemma {:induction false} GroupedDigits(digits: string)
    requires IsDigits(digits)
    ensures forall i | 0 <= i < |Group(digits)| :: IsDigit(Group(digits)[i]) || Group(digits)[i] == ','
    ensures Without(Group(digits), ',') == digits
    ensures digits != "" ==> Group(digits) != ""
  {
    if |digits| <= 3 {
      WithoutAbsent(digits, ',');
    } else {
      var front, back := digits[..|digits| - 3], digits[|digits| - 3..];
      GroupedDigits(front);
      WithoutGrouped(Group(front), back);
      assert digits == front + back;
    }
  }

  lemma WithoutGrouped(front: string, back: string)
    requires IsDigits(back)
    ensures Without(front + "," + back, ',') == Without(front, ',') + back
  {
    WithoutAbsent(back, ',');
    WithoutOfConcat(front + ",", back, ',');
    WithoutOfConcat(front, ",", ',');
    assert ","[1..] == "";
    assert Without(",", ',') == "";
    assert Without(front, ',') + "" == Without(front, ',');
  }

  /** Text that starts and ends without a space and has no capitals is left alone by trimming and lowering. */
  predicate IsPlain(s: string) {
    s != "" && !IsSpace(s[0]) && !IsSpace(s[|s| - 1]) && forall i | 0 <= i < |s| :: !('A' <= s[i] <= 'Z')
  }

  lemma NothingToTrim(s: string)
    requires IsPlain(s)
    ensures Clean(s) == Without(Without(s, ','), '$')
  {
    assert TrimStart(s) == s && TrimEnd(s) == s;
    assert Lower(s) == s;
  }

  lemma PrintedIsPlain(sign: string, body: string)
    requires sign in ["", "-"] && body != ""
    requires forall i | 0 <= i < |body| :: IsFigureChar(body[i]) || body[i] == ','
    ensures IsPlain(sign + "$" + body)
  {
    var s := sign + "$" + body;
    assert s[|s| - 1] == body[|body| - 1];
  }

  /** What cleaning leaves of a printed amount: its sign and its body without commas. */
  lemma CleanPrinted(sign: string, body: string)
    requires sign in ["", "-"] && body != ""
    requires forall i | 0 <= i < |body| :: IsFigureChar(body[i]) || body[i] == ','
    ensures Clean(sign + "$" + body) == sign + Without(body, ',')
  {
    hide *;
    var head, bare := sign + "$", Without(body, ',');
    PrintedIsPlain(sign, body);
    NothingToTrim(head + body);
    WithoutOfConcat(head, body, ',');
    WithoutAbsent(head, ',');
    NoDollar(body);
    DollarGone(sign, bare);
  }

  lemma NoDollar(body: string)
    requires forall i | 0 <= i < |body| :: IsFigureChar(body[i]) || body[i] == ','
    ensures '$' !in Without(body, ',')
  {
    WithoutKeeps(body, ',');
  }

  lemma DollarGone(sign: string, bare: string)
    requires sign in ["", "-"] && '$' !in bare
    ensures Without(sign + "$" + bare, '$') == sign + bare
  {
    WithoutOfConcat(sign + "$", bare, '$');
    WithoutOfConcat(sign, "$", '$');
    WithoutAbsent(sign, '$');
    WithoutAbsent(bare, '$');
    assert "$"[1..] == "";
    assert Without("$", '$') == "" && sign + "" == sign;
  }

  lemma {:induction false} WithoutKeeps(s: string, c: char)
    ensures forall d | d in Without(s, c) :: d in s
  {
    if s != "" {
      WithoutKeeps(s[1..], c);
    }
  }

  lemma SuffixesAreLetters(suffix: string)
    requires suffix in ZEROS
    ensures suffix != "" ==> !IsDigit(suffix[0]) && suffix[0] != '.'
  {
  }

  lemma ReadsFigure(whole: string, fraction: string, suffix: string)
    requires whole != "" && IsDigits(whole) && IsDigits(fraction)
    requires suffix in ZEROS && |fraction| <= ZEROS[suffix]
    ensures ReadFigure(whole + Pointed(fraction) + suffix)
         == Some(Value(whole + fraction) * Pow10(ZEROS[suffix] - |fraction|))
  {
    hide Split, Value, Pow10, Zeros, Pointed, IsDigits, IsDigit, ReadFigure;
    SuffixesAreLetters(suffix);
    SplitFinds(whole, fraction, suffix);
    DigitsTogether(whole, fraction);
    FigureOf(whole + Pointed(fraction) + suffix, whole, fraction, suffix);
    ShiftedDigits(whole + fraction, ZEROS[suffix] - |fraction|);
  }

  lemma FigureOf(s: string, whole: string, fraction: string, suffix: string)
    requires Split(s) == Some(Parts(whole, fraction, suffix)) && suffix in ZEROS && |fraction| <= ZEROS[suffix]
    requires IsDigits(whole + fraction)
    ensures var zeros := Zeros(ZEROS[suffix] - |fraction|);
            IsDigits(whole + fraction + zeros) && ReadFigure(s) == Some(Value(whole + fraction + zeros))
  {
    hide Split, Value;
  }

  lemma DigitsTogether(a: string, b: string)
    requires IsDigits(a) && IsDigits(b)
    ensures IsDigits(a + b)
  {
  }

  lemma ShiftedDigits(digits: string, k: nat)
    requires IsDigits(digits)
    ensures Value(digits + Zeros(k)) == Value(digits) * Pow10(k)
  {
    ZerosHaveNoValue(k);
    ValueOfConcat(digits, Zeros(k));
  }

  /** Digits and punctuation, as the printers write them. */
  predicate IsBody(body: string) {
    body != "" && forall i | 0 <= i < |body| :: IsFigureChar(body[i]) || body[i] == ','
  }

  /** A figure the parser accepts: no more decimals than its suffix has zeros. */
  predicate IsFigure(whole: string, fraction: string, suffix: string) {
    whole != "" && IsDigits(whole) && IsDigits(fraction) && suffix in ZEROS && |fraction| <= ZEROS[suffix]
  }

  function FigureValue(whole: string, fraction: string, suffix: string): nat
    requires IsFigure(whole, fraction, suffix)
  {
    Value(whole + fraction) * Pow10(ZEROS[suffix] - |fraction|)
  }

  /** What the parser makes of a value: zero is refused. */
  function ReadBack(negative: bool, value: nat): Option<int> {
    if value == 0 then None else Some(Signed(negative, value))
  }

  /** Reading back a printed sign and a figure of the accepted shape. */
  lemma ParsePrinted(x: int, body: string, whole: string, fraction: string, suffix: string)
    requires IsBody(body) && IsFigure(whole, fraction, suffix)
    requires Without(body, ',') == whole + Pointed(fraction) + suffix
    ensures ParseAmount(Sign(x) + "$" + body, true) == ReadBack(x < 0, FigureValue(whole, fraction, suffix))
  {
    hide Without, Pointed, Value, Pow10, Clean, ReadFigure, IsFigureChar;
    CleanPrinted(Sign(x), body);
    ReadsFigure(whole, fraction, suffix);
    SignComesOff(x, Without(body, ','));
  }

  lemma SignComesOff(x: int, bare: string)
    requires bare != "" && bare[0] != '-'
    ensures var raw := Sign(x) + bare;
            var negative := raw != "" && raw[0] == '-';
            negative == (x < 0) && (if negative then raw[1..] else raw) == bare
  {
    var raw := Sign(x) + bare;
    if x < 0 {
      assert raw[1..] == bare;
    } else {
      assert raw == bare;
    }
  }

  lemma WholeFigure(digits: string)
    requires digits != "" && IsDigits(digits)
    ensures IsFigure(digits, "", "") && digits + Pointed("") + "" == digits
    ensures FigureValue(digits, "", "") == Value(digits)
  {
    hide Value;
    assert digits + "" == digits;
    assert Pow10(0) == 1 && ZEROS[""] == 0;
  }

  lemma ParsePrintedDigits(x: int, body: string, digits: string)
    requires IsBody(body) && digits != "" && IsDigits(digits) && Without(body, ',') == digits
    ensures ParseAmount(Sign(x) + "$" + body, true) == ReadBack(x < 0, Value(digits))
  {
    hide *;
    WholeFigure(digits);
    ParsePrinted(x, body, digits, "", "");
  }

  /** An amount printed in full is read back exactly; zero, which no operator may type, is refused. */
  lemma FullAmountRoundTrip(x: int)
    ensures ParseAmount(AmountText(x), true) == if x == 0 then None else Some(x)
  {
    var digits := Text(Magnitude(x));
    GroupedDigits(digits);
    ParsePrintedDigits(x, Group(digits), digits);
    TextHasItsValue(Magnitude(x));
  }

  lemma ValueOfTwo(a: char, b: char)
    requires IsDigit(a) && IsDigit(b)
    ensures Value([a]) == DigitValue(a)
    ensures Value([a, b]) == 10 * DigitValue(a) + DigitValue(b)
  {
    assert [a, b][..1] == [a] && [a][..0] == "";
  }

  /** Dropping trailing zeros of two decimals and putting the zeros back is the same two decimals. */
  lemma TwoDecimals(hundredths: nat)
    requires hundredths < 100
    ensures var d := DropTrailingZeros(PadTwo(Text(hundredths)));
            |d| <= 2 && IsDigits(d) && Value(d) * Pow10(2 - |d|) == hundredths
  {
    var d0, d1 := DigitChar(hundredths / 10), DigitChar(hundredths % 10);
    assert PadTwo(Text(hundredths)) == [d0, d1] by {
      if hundredths >= 10 {
        assert Text(hundredths) == [d0] + [d1];
      }
    }
    DropsZeros(d0, d1);
  }

  lemma DropsZeros(d0: char, d1: char)
    requires IsDigit(d0) && IsDigit(d1)
    ensures var d := DropTrailingZeros([d0, d1]);
            |d| <= 2 && IsDigits(d) && Value(d) * Pow10(2 - |d|) == 10 * DigitValue(d0) + DigitValue(d1)
  {
    ValueOfTwo(d0, d1);
    assert [d0, d1][..1] == [d0] && [d0][..0] == "";
    assert Pow10(0) == 1 && Pow10(1) == 10 && Pow10(2) == 100;
  }

  function CutTo(n: nat, block: nat): nat
    requires block > 0
  {
    n / block * block
  }

  /** The amount cut down, towards zero, to a hundredth of the scale it is shown in. */
  function CutToHundredths(x: int): int {
    match ScaleOf(Magnitude(x))
    case None => x
    case Some((_, exponent)) =>
      var hundredth := Pow10(exponent - 2);
      var cut := CutTo(Magnitude(x), hundredth);
      Signed(x < 0, cut)
  }

  lemma SmallRoundTrip(x: int)
    requires ScaleOf(Magnitude(x)).None?
    ensures ParseAmount(CompactAmount(x), true) == if x == 0 then None else Some(CutToHundredths(x))
  {
    var digits := Text(Magnitude(x));
    assert CompactAmount(x) == Sign(x) + "$" + digits;
    TextHasItsValue(Magnitude(x));
    DigitsAreABody(digits);
    hide Text, ParseAmount, Without, Value, CompactAmount, IsDigit;
    WithoutAbsent(digits, ',');
    ParsePrintedDigits(x, digits, digits);
  }

  lemma DigitsAreABody(digits: string)
    requires digits != "" && IsDigits(digits)
    ensures IsBody(digits) && ',' !in digits
  {
  }

  lemma ShownInScale(x: int, suffix: string, exponent: nat)
    requires ScaleOf(Magnitude(x)) == Some((suffix, exponent)) && exponent >= 3
    ensures CompactAmount(x) == Sign(x) + "$" + Compact(Magnitude(x), Pow10(exponent), suffix)
    ensures CutToHundredths(x) == Signed(x < 0, CutTo(Magnitude(x), Pow10(exponent - 2))) && x != 0
  {
    hide Compact, Pow10, Sign, CutTo;
  }

  lemma ScaledRoundTrip(x: int, suffix: string, exponent: nat)
    requires ScaleOf(Magnitude(x)) == Some((suffix, exponent))
    ensures ParseAmount(CompactAmount(x), true) == if x == 0 then None else Some(CutToHundredths(x))
  {
    hide CompactAmount, CutToHundredths, ScaleOf, Pow10, Compact, ParseAmount, Magnitude, Sign, Signed, CutTo;
    ReachesItsScale(Magnitude(x));
    ShownInScale(x, suffix, exponent);
    ParseCompact(x, suffix, exponent);
  }

  /** An amount shown at a glance is read back as itself cut to a hundredth of the scale shown. */
  lemma CompactAmountRoundTrip(x: int)
    ensures ParseAmount(CompactAmount(x), true) == if x == 0 then None else Some(CutToHundredths(x))
  {
    hide ParseAmount, CompactAmount, CutToHundredths, ScaleOf;
    match ScaleOf(Magnitude(x)) {
      case None => SmallRoundTrip(x);
      case Some((suffix, exponent)) => ScaledRoundTrip(x, suffix, exponent);
    }
  }

  lemma ReachesItsScale(n: nat)
    requires ScaleOf(n).Some?
    ensures var (suffix, exponent) := ScaleOf(n).value;
            suffix in ["k", "m", "b", "t"] && ZEROS[suffix] == exponent && exponent >= 3 && Pow10(exponent) <= n
  {
    assert Pow10(3) == 1_000;
    Pow10Sum(3, 3);
    Pow10Sum(6, 3);
    Pow10Sum(6, 6);
  }

  lemma ParseCompact(x: int, suffix: string, exponent: nat)
    requires suffix in ["k", "m", "b", "t"] && ZEROS[suffix] == exponent >= 3 && Pow10(exponent) <= Magnitude(x)
    ensures var hundredth := Pow10(exponent - 2);
            ParseAmount(Sign(x) + "$" + Compact(Magnitude(x), Pow10(exponent), suffix), true) ==
              Some(Signed(x < 0, CutTo(Magnitude(x), hundredth)))
  {
    Pow10Sum(2, exponent - 2);
    assert Pow10(2) == 100;
    CompactInHundredths(x, suffix, Magnitude(x), Pow10(exponent), Pow10(exponent - 2));
  }

  lemma CompactInHundredths(x: int, suffix: string, n: nat, scale: nat, hundredth: nat)
    requires suffix in ["k", "m", "b", "t"] && hundredth == Pow10(ZEROS[suffix] - 2)
    requires scale == 100 * hundredth && n >= scale
    ensures ParseAmount(Sign(x) + "$" + Compact(n, scale, suffix), true) ==
              Some(Signed(x < 0, CutTo(n, hundredth)))
  {
    hide Pow10, ParseAmount, ShowTwo, Hundredths, Quotient, Sign, Signed, CutTo;
    HundredthsOf(n, scale, hundredth);
    CompactReadsBack(x, Quotient(n, scale), Hundredths(n, scale), suffix);
  }

  lemma CompactReadsBack(x: int, whole: nat, hundredths: nat, suffix: string)
    requires suffix in ["k", "m", "b", "t"] && hundredths < 100 && whole > 0
    ensures var cut := (whole * 100 + hundredths) * Pow10(ZEROS[suffix] - 2);
            cut > 0 && ParseAmount(Sign(x) + "$" + ShowTwo(whole, hundredths, suffix), true) == Some(Signed(x < 0, cut))
  {
    hide Pow10, ParseAmount, DropTrailingZeros, PadTwo, Text, Value, Without;
    var body, decimals := ShowTwo(whole, hundredths, suffix), DropTrailingZeros(PadTwo(Text(hundredths)));
    TwoDecimals(hundredths);
    WithoutAbsent(body, ',');
    ParsePrinted(x, body, Text(whole), decimals, suffix);
    HundredthsInDigits(whole, hundredths, decimals, ZEROS[suffix]);
  }

  lemma HundredthsInDigits(whole: nat, hundredths: nat, decimals: string, exponent: nat)
    requires whole > 0 && exponent >= 2 && IsDigits(decimals) && |decimals| <= 2
    requires Value(decimals) * Pow10(2 - |decimals|) == hundredths
    ensures Value(Text(whole) + decimals) * Pow10(exponent - |decimals|)
         == (whole * 100 + hundredths) * Pow10(exponent - 2) > 0
  {
    TextHasItsValue(whole);
    ValueOfConcat(Text(whole), decimals);
    Pow10Sum(|decimals|, 2 - |decimals|);
    assert Pow10(2) == 100;
    Pow10Sum(2 - |decimals|, exponent - 2);
    Assemble(whole, hundredths, Value(decimals), Pow10(|decimals|), Pow10(2 - |decimals|), Pow10(exponent - 2));
    ProductAtMost(1, whole * 100 + hundredths, Pow10(exponent - 2));
  }

  lemma Assemble(whole: nat, hundredths: nat, d: nat, p: nat, q: nat, h: nat)
    requires p * q == 100 && d * q == hundredths
    ensures (whole * p + d) * (q * h) == (whole * 100 + hundredths) * h
  {
    calc {
      (whole * p + d) * (q * h);
      ((whole * p + d) * q) * h;
      { assert (whole * p + d) * q == whole * (p * q) + d * q; }
      (whole * 100 + hundredths) * h;
    }
  }

  /** Whole units and hundredths, taken separately, are the amount divided by a hundredth of the scale. */
  lemma HundredthsOf(n: nat, scale: nat, hundredth: nat)
    requires hundredth > 0 && scale == 100 * hundredth && n >= scale
    ensures Hundredths(n, scale) < 100 && Quotient(n, scale) > 0
    ensures (Quotient(n, scale) * 100 + Hundredths(n, scale)) * hundredth == CutTo(n, hundredth)
  {
    var whole, rest := Quotient(n, scale), Remainder(n, scale);
    var hundredths := Quotient(rest, hundredth);
    CancelFactor(rest, 100, hundredth);
    BlocksOf(rest, hundredths, hundredth);
    BlocksOf(n, 0, scale);
    if hundredths >= 100 {
      ProductAtMost(100, hundredths, hundredth);
    }
    WholeAndHundredths(n, whole, rest, hundredths, hundredth);
  }

  lemma WholeAndHundredths(n: nat, whole: nat, rest: nat, hundredths: nat, hundredth: nat)
    requires hundredth > 0 && n == whole * (100 * hundredth) + rest
    requires hundredths * hundredth <= rest < hundredths * hundredth + hundredth
    ensures n / hundredth == whole * 100 + hundredths
  {
    assert n == (whole * 100) * hundredth + rest;
    BlocksOf(n, whole * 100 + hundredths, hundredth);
  }
}
