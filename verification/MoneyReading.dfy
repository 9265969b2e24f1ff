/**
 * Reading the server's abbreviated money ("383K", "1.97M"): the interval of whole-dollar amounts a
 * display can stand for, and whether a requested amount is among them.
 */
module MoneyReading {
  import opened Arithmetic
  import opened Decimal
  import opened Options

  datatype Unit = One | K | M | B | T

  const UNITS: map<string, Unit> := map["" := One, "K" := K, "M" := M, "B" := B, "T" := T]

  function Exponent(unit: Unit): nat {
    match unit case One => 0 case K => 3 case M => 6 case B => 9 case T => 12
  }

  function Scale(unit: Unit): nat {
    match unit
    case One => 1
    case K => 1_000
    case M => 1_000_000
    case B => 1_000_000_000
    case T => 1_000_000_000_000
  }

  function Suffix(unit: Unit): string {
    match unit case One => "" case K => "K" case M => "M" case B => "B" case T => "T"
  }

  /** A display taken apart: "1.97M" is 1, 97 and M. */
  datatype Figure = Figure(whole: string, fraction: string, unit: Unit)

  predicate WellFormed(f: Figure) {
    f.whole != "" && IsDigits(f.whole) && f.whole[0] != '0' && IsDigits(f.fraction)
  }

  function Show(f: Figure): string {
    f.whole + Pointed(f.fraction) + Suffix(f.unit)
  }

  function ReadDisplay(s: string): Option<Figure> {
    match Split(s)
    case None => None
    case Some(p) =>
      if p.whole[0] == '0' || p.tail !in UNITS then None
      else Some(Figure(p.whole, p.fraction, UNITS[p.tail]))
  }

  /** Amounts from `low` up to, but not including, `low + step`. */
  datatype Interval = Interval(low: nat, step: nat) {
    predicate Has(amount: int) {
      low <= amount < low + step
    }
  }

  function Bounds(displayed: string): Option<Interval> {
    match ReadDisplay(displayed)
    case None => None
    case Some(f) => BoundsOf(Value(f.whole + f.fraction), Scale(f.unit), Pow10(|f.fraction|))
  }

  function BoundsOf(digits: nat, scale: nat, denominator: nat): Option<Interval>
    requires denominator > 0
  {
    var numerator := digits * scale;
    if numerator % denominator != 0 then None
    else
      var step := scale / denominator;
      if step < 1 then None else Some(Interval(numerator / denominator, step))
  }

  /** What the gateway accepts as the text of an amount: no sign, no leading zero, at most 19 digits. */
  predicate IsAmountText(s: string) {
    1 <= |s| <= 19 && IsDigits(s) && s[0] != '0'
  }

  predicate CoversRequestedAmount(displayed: string, requested: string)
    requires IsAmountText(requested)
  {
    match Bounds(displayed)
    case None => false
    case Some(bounds) => bounds.Has(Value(requested))
  }

  /** The gateway's own version of the same question, for the receipt of a vault release. */
  predicate DisplayedAmountCovers(displayed: string, amount: int) {
    match ReadDisplay(displayed)
    case None => false
    case Some(f) => AmountCovers(Value(f.whole + f.fraction), Scale(f.unit), Pow10(|f.fraction|), amount)
  }

  predicate AmountCovers(digits: nat, scale: nat, denominator: nat, amount: int)
    requires denominator > 0
  {
    var numerator := digits * scale;
    numerator % denominator == 0 &&
    var step := if scale / denominator >= 1 then scale / denominator else 1;
    Interval(numerator / denominator, step).Has(amount)
  }

  /** The answer to /bal: the figure with its thousands commas, and the unit behind it. */
  function ReadBalance(digits: string, unit: Unit): Option<Interval> {
    match Split(StripCommas(digits))
    case None => None
    case Some(p) => if p.tail != "" then None else Some(BalanceInterval(p.whole, p.fraction, unit))
  }

  function BalanceInterval(whole: string, fraction: string, unit: Unit): Interval
    requires IsDigits(whole) && IsDigits(fraction)
  {
    if unit == One then Interval(Value(whole), 1)
    else ScaledBalance(Value(whole + fraction), Scale(unit), Pow10(|fraction|))
  }

  function ScaledBalance(digits: nat, scale: nat, denominator: nat): Interval
    requires denominator > 0
  {
    var step := scale / denominator;
    Interval((digits * scale) / denominator, if step >= 1 then step else 1)
  }

  function StripCommas(s: string): string {
    if s == "" then ""
    else if s[0] == ',' then StripCommas(s[1..])
    else [s[0]] + StripCommas(s[1..])
  }

  /** The digits the server shows for an amount: in some unit, cut off (not rounded) after some decimals. */
  function Shown(amount: nat, unit: Unit, decimals: nat): nat {
    Quotient(amount * Pow10(decimals), Scale(unit))
  }

  function Truncated(amount: nat, unit: Unit, decimals: nat): string {
    var shown := Shown(amount, unit, decimals);
    Text(Quotient(shown, Pow10(decimals))) + Pointed(Padded(Remainder(shown, Pow10(decimals)), decimals)) + Suffix(unit)
  }

  /** How many dollars one unit of the last shown digit stands for. */
  function Block(unit: Unit, decimals: nat): (block: nat)
    requires decimals <= Exponent(unit)
    ensures block > 0
  {
    Pow10(Exponent(unit) - decimals)
  }

  lemma ScaleIsPowerOfTen(unit: Unit)
    ensures Scale(unit) == Pow10(Exponent(unit))
  {
    assert Pow10(3) == 1_000;
    Pow10Sum(3, 3);
    Pow10Sum(6, 3);
    Pow10Sum(6, 6);
  }

  lemma ScaleIsBlocks(unit: Unit, decimals: nat)
    requires decimals <= Exponent(unit)
    ensures Scale(unit) == Pow10(decimals) * Block(unit, decimals)
  {
    ScaleIsPowerOfTen(unit);
    Pow10Sum(decimals, Exponent(unit) - decimals);
  }

  lemma OverPreciseScale(unit: Unit, decimals: nat)
    requires decimals > Exponent(unit)
    ensures Pow10(decimals) == Scale(unit) * Pow10(decimals - Exponent(unit))
    ensures Scale(unit) < Pow10(decimals)
  {
    ScaleIsPowerOfTen(unit);
    Pow10Sum(Exponent(unit), decimals - Exponent(unit));
    assert Pow10(decimals - Exponent(unit)) >= 10;
    ProductAtMost(10, Pow10(decimals - Exponent(unit)), Scale(unit));
  }

  lemma SuffixesAreUnits(unit: Unit)
    ensures Suffix(unit) in UNITS && UNITS[Suffix(unit)] == unit
    ensures Suffix(unit) != "" ==> !IsDigit(Suffix(unit)[0]) && Suffix(unit)[0] != '.'
  {
  }

  /** The pattern reads exactly the displays that are a well-formed figure written out. */
  lemma ReadDisplayInvertsShow(s: string, f: Figure)
    ensures ReadDisplay(s) == Some(f) <==> WellFormed(f) && s == Show(f)
  {
    hide Split;
    if WellFormed(f) && s == Show(f) {
      SuffixesAreUnits(f.unit);
      SplitFinds(f.whole, f.fraction, Suffix(f.unit));
    }
    if ReadDisplay(s) == Some(f) {
      UnitsAreSuffixes(Split(s).value.tail);
    }
  }

  lemma UnitsAreSuffixes(tail: string)
    requires tail in UNITS
    ensures Suffix(UNITS[tail]) == tail
  {
  }

  lemma BoundsOfBlocks(digits: nat, scale: nat, denominator: nat, block: nat)
    requires denominator > 0 && block > 0 && scale == denominator * block
    ensures BoundsOf(digits, scale, denominator) == Some(Interval(digits * block, block))
  {
    assert digits * scale == (digits * block) * denominator + 0;
    DivideExactly(digits * block, denominator, 0);
    assert scale == block * denominator + 0;
    DivideExactly(block, denominator, 0);
  }

  lemma BoundsOfTooFine(digits: nat, scale: nat, denominator: nat)
    requires scale < denominator
    ensures BoundsOf(digits, scale, denominator) == None
  {
    DivideExactly(0, denominator, scale);
  }

  function BoundsOfFigure(f: Figure): Option<Interval>
    requires IsDigits(f.whole) && IsDigits(f.fraction)
  {
    if |f.fraction| > Exponent(f.unit) then None
    else
      var block := Block(f.unit, |f.fraction|);
      Some(Interval(Value(f.whole + f.fraction) * block, block))
  }

  /** A display has an interval exactly when its decimals stop at a whole dollar. */
  lemma BoundsDefinedExactly(s: string)
    ensures Bounds(s) == if ReadDisplay(s).None? then None else BoundsOfFigure(ReadDisplay(s).value)
  {
    if ReadDisplay(s).Some? {
      var f := ReadDisplay(s).value;
      var n, scale, denominator := Value(f.whole + f.fraction), Scale(f.unit), Pow10(|f.fraction|);
      if |f.fraction| <= Exponent(f.unit) {
        ScaleIsBlocks(f.unit, |f.fraction|);
        BoundsOfBlocks(n, scale, denominator, Block(f.unit, |f.fraction|));
      } else {
        OverPreciseScale(f.unit, |f.fraction|);
        BoundsOfTooFine(n, scale, denominator);
      }
    }
  }

  lemma ShownInBlocks(amount: nat, unit: Unit, decimals: nat)
    requires decimals <= Exponent(unit)
    ensures Shown(amount, unit, decimals) == amount / Block(unit, decimals)
  {
    ScaleIsBlocks(unit, decimals);
    CancelFactor(amount, Pow10(decimals), Block(unit, decimals));
  }

  /** Shown digits split in two are a figure's two parts exactly when they are its digits run together. */
  lemma SplitDigits(shown: nat, whole: string, fraction: string)
    requires whole != "" && IsDigits(whole) && whole[0] != '0' && IsDigits(fraction)
    ensures Text(Quotient(shown, Pow10(|fraction|))) == whole
            && Padded(Remainder(shown, Pow10(|fraction|)), |fraction|) == fraction
       <==> shown == Value(whole + fraction)
  {
    var p := Pow10(|fraction|);
    OnlyTextOf(Quotient(shown, p), whole);
    OnlyPaddedOf(Remainder(shown, p), fraction);
    ValueOfConcat(whole, fraction);
    QuotientAndRemainder(shown, p, Value(whole), Value(fraction));
  }

  lemma OnlyTextOf(n: nat, s: string)
    requires s != "" && IsDigits(s) && s[0] != '0'
    ensures Text(n) == s <==> n == Value(s)
  {
    TextOfValue(s);
    TextHasItsValue(n);
  }

  lemma OnlyPaddedOf(n: nat, s: string)
    requires IsDigits(s) && n < Pow10(|s|)
    ensures Value(s) < Pow10(|s|)
    ensures Padded(n, |s|) == s <==> n == Value(s)
  {
    PaddedOfValue(s);
    PaddedHasItsValue(n, |s|);
  }

  lemma SameDisplay(f: Figure, g: Figure)
    requires f.whole != "" && IsDigits(f.whole) && IsDigits(f.fraction)
    requires g.whole != "" && IsDigits(g.whole) && IsDigits(g.fraction)
    requires Show(f) == Show(g) && f.unit == g.unit
    ensures f == g
  {
    SuffixesAreUnits(f.unit);
    SplitFinds(f.whole, f.fraction, Suffix(f.unit));
    SplitFinds(g.whole, g.fraction, Suffix(f.unit));
  }

  /** A truncation shows a figure exactly when its shown digits are the figure's digits. */
  lemma TruncationShows(amount: nat, f: Figure)
    requires WellFormed(f)
    ensures Truncated(amount, f.unit, |f.fraction|) == Show(f)
       <==> Shown(amount, f.unit, |f.fraction|) == Value(f.whole + f.fraction)
  {
    var shown, p := Shown(amount, f.unit, |f.fraction|), Pow10(|f.fraction|);
    SplitDigits(shown, f.whole, f.fraction);
    var g := Figure(Text(Quotient(shown, p)), Padded(Remainder(shown, p), |f.fraction|), f.unit);
    assert Show(g) == Truncated(amount, f.unit, |f.fraction|);
    if Show(f) == Show(g) {
      SameDisplay(f, g);
    }
  }

  /** The interval of a display holds exactly the amounts the server would cut down to that display. */
  lemma BoundsAreTheTruncations(s: string, amount: nat)
    requires Bounds(s).Some?
    ensures ReadDisplay(s).Some?
    ensures var f := ReadDisplay(s).value;
            Bounds(s).value.Has(amount) <==> Truncated(amount, f.unit, |f.fraction|) == s
  {
    var f := ReadDisplay(s).value;
    ReadDisplayInvertsShow(s, f);
    BoundsDefinedExactly(s);
    TruncationShows(amount, f);
    ShownInBlocks(amount, f.unit, |f.fraction|);
    BlocksOf(amount, Value(f.whole + f.fraction), Block(f.unit, |f.fraction|));
  }

  /** Whether a display is the amount cut off in some unit it reaches, with no decimals finer than a dollar. */
  ghost predicate IsTruncationOf(displayed: string, amount: nat) {
    exists unit, decimals: nat ::
      decimals <= Exponent(unit) && amount >= Scale(unit) && displayed == Truncated(amount, unit, decimals)
  }

  /** A payout counts as confirmed exactly when the display is what the server prints for the amount asked for. */
  lemma CoversExactlyTheTruncations(displayed: string, requested: string)
    requires IsAmountText(requested)
    ensures CoversRequestedAmount(displayed, requested) <==> IsTruncationOf(displayed, Value(requested))
  {
    var amount := Value(requested);
    BoundsDefinedExactly(displayed);
    if CoversRequestedAmount(displayed, requested) {
      BoundsAreTheTruncations(displayed, amount);
      var f := ReadDisplay(displayed).value;
      ReadDisplayInvertsShow(displayed, f);
      AtLeastOneUnit(f, amount);
    }
    if IsTruncationOf(displayed, amount) {
      var unit, decimals: nat :|
        decimals <= Exponent(unit) && amount >= Scale(unit) && displayed == Truncated(amount, unit, decimals);
      TruncationIsReadBack(amount, unit, decimals);
      BoundsAreTheTruncations(displayed, amount);
    }
  }

  lemma AtLeastOneUnit(f: Figure, amount: nat)
    requires WellFormed(f) && |f.fraction| <= Exponent(f.unit)
    requires Truncated(amount, f.unit, |f.fraction|) == Show(f)
    ensures amount >= Scale(f.unit)
  {
    var p, block, n := Pow10(|f.fraction|), Block(f.unit, |f.fraction|), Value(f.whole + f.fraction);
    TruncationShows(amount, f);
    TextOfValue(f.whole);
    ValueOfConcat(f.whole, f.fraction);
    ProductAtMost(1, Value(f.whole), p);
    ShownInBlocks(amount, f.unit, |f.fraction|);
    BlocksOf(amount, n, block);
    ScaleIsBlocks(f.unit, |f.fraction|);
    ProductAtMost(p, n, block);
  }

  lemma TruncationIsReadBack(amount: nat, unit: Unit, decimals: nat)
    requires decimals <= Exponent(unit) && amount >= Scale(unit)
    ensures ReadDisplay(Truncated(amount, unit, decimals)).Some?
    ensures var f := ReadDisplay(Truncated(amount, unit, decimals)).value; f.unit == unit && |f.fraction| == decimals
  {
    var shown := Shown(amount, unit, decimals);
    var high, low := Quotient(shown, Pow10(decimals)), Remainder(shown, Pow10(decimals));
    ShownInBlocks(amount, unit, decimals);
    ScaleIsBlocks(unit, decimals);
    AtLeast(amount, Pow10(decimals), Block(unit, decimals));
    AtLeast(shown, 1, Pow10(decimals));
    TextHasItsValue(high);
    ReadDisplayInvertsShow(Truncated(amount, unit, decimals), Figure(Text(high), Padded(low, decimals), unit));
  }

  lemma AtLeast(a: nat, n: nat, q: nat)
    requires q > 0 && a >= n * q
    ensures a / q >= n
  {
    BlocksOf(a, a / q, q);
    if a / q < n {
      ProductAtMost(a / q + 1, n, q);
    }
  }

  /** Wherever the receipt reader has an interval for a figure, the balance reader has the same one. */
  lemma BalanceReaderAgrees(s: string)
    requires Bounds(s).Some?
    ensures ReadDisplay(s).Some?
    ensures var f := ReadDisplay(s).value;
            ReadBalance(f.whole + Pointed(f.fraction), f.unit) == Bounds(s)
  {
    var f := ReadDisplay(s).value;
    ReadDisplayInvertsShow(s, f);
    BoundsDefinedExactly(s);
    BalanceFigure(f);
    BalanceIntervalAgrees(f);
  }

  lemma BalanceFigure(f: Figure)
    requires WellFormed(f)
    ensures ReadBalance(f.whole + Pointed(f.fraction), f.unit) == Some(BalanceInterval(f.whole, f.fraction, f.unit))
  {
    hide BalanceInterval;
    var digits := f.whole + Pointed(f.fraction);
    NoCommas(digits);
    SplitFinds(f.whole, f.fraction, "");
    assert digits + "" == digits;
  }

  lemma BalanceIntervalAgrees(f: Figure)
    requires WellFormed(f) && BoundsOfFigure(f).Some?
    ensures Some(BalanceInterval(f.whole, f.fraction, f.unit)) == BoundsOfFigure(f)
  {
    if f.unit == One {
      assert f.fraction == "" && f.whole + f.fraction == f.whole;
    } else {
      var n, p, block := Value(f.whole + f.fraction), Pow10(|f.fraction|), Block(f.unit, |f.fraction|);
      ScaleIsBlocks(f.unit, |f.fraction|);
      ScaledBlocks(n, Scale(f.unit), p, block);
    }
  }

  lemma ScaledBlocks(n: nat, scale: nat, p: nat, block: nat)
    requires p > 0 && block > 0 && scale == p * block
    ensures ScaledBalance(n, scale, p) == Interval(n * block, block)
  {
    assert n * scale == (n * block) * p + 0;
    DivideExactly(n * block, p, 0);
    assert scale == block * p + 0;
    DivideExactly(block, p, 0);
  }

  lemma {:induction false} NoCommas(s: string)
    requires forall i | 0 <= i < |s| :: s[i] != ','
    ensures StripCommas(s) == s
  {
    if s != "" {
      NoCommas(s[1..]);
    }
  }

  /**
   * The gateway's reading and the worker's differ in one way only: a display with more decimals
   * than a dollar has, all of them zero at the end, is one exact amount to the gateway and nothing
   * to the worker.
   */
  lemma GatewayCoversMoreOnlyWhenOverPrecise(displayed: string, requested: string)
    requires IsAmountText(requested)
    ensures DisplayedAmountCovers(displayed, Value(requested)) <==>
            CoversRequestedAmount(displayed, requested) || IsOverPreciseDisplayOf(displayed, Value(requested))
  {
    if ReadDisplay(displayed).Some? {
      GatewayCoversFigure(ReadDisplay(displayed).value, Value(requested));
      BoundsDefinedExactly(displayed);
    }
  }

  lemma GatewayCoversFigure(f: Figure, amount: nat)
    requires WellFormed(f)
    ensures AmountCovers(Value(f.whole + f.fraction), Scale(f.unit), Pow10(|f.fraction|), amount) <==>
            (BoundsOfFigure(f).Some? && BoundsOfFigure(f).value.Has(amount)) || OverPreciseFigure(f, amount)
  {
    var n, scale, p := Value(f.whole + f.fraction), Scale(f.unit), Pow10(|f.fraction|);
    if |f.fraction| > Exponent(f.unit) {
      OverPreciseScale(f.unit, |f.fraction|);
      OverPrecise(n, scale, Pow10(|f.fraction| - Exponent(f.unit)), p, amount);
    } else {
      ScaleIsBlocks(f.unit, |f.fraction|);
      WholeDollars(n, scale, p, Block(f.unit, |f.fraction|), amount);
    }
  }

  lemma WholeDollars(n: nat, scale: nat, p: nat, block: nat, amount: int)
    requires p > 0 && block > 0 && scale == p * block
    ensures AmountCovers(n, scale, p, amount) <==> Interval(n * block, block).Has(amount)
  {
    assert n * scale == (n * block) * p + 0;
    DivideExactly(n * block, p, 0);
    assert scale == block * p + 0;
    DivideExactly(block, p, 0);
  }

  predicate IsOverPreciseDisplayOf(displayed: string, amount: nat) {
    match ReadDisplay(displayed)
    case None => false
    case Some(f) => OverPreciseFigure(f, amount)
  }

  predicate OverPreciseFigure(f: Figure, amount: nat)
    requires WellFormed(f)
  {
    |f.fraction| > Exponent(f.unit)
    && Value(f.whole + f.fraction) == amount * Pow10(|f.fraction| - Exponent(f.unit))
  }

  lemma OverPrecise(n: nat, scale: nat, q: nat, p: nat, amount: nat)
    requires scale > 0 && q > 0 && p == scale * q && scale < p
    ensures AmountCovers(n, scale, p, amount) <==> n == amount * q
  {
    DivideExactly(0, p, scale);
    if n == amount * q {
      assert n * scale == amount * p + 0;
      DivideExactly(amount, p, 0);
    }
    if AmountCovers(n, scale, p, amount) {
      assert n * scale == amount * p;
      assert (n - amount * q) * scale == 0;
      MultipleIsFar(n - amount * q, scale);
    }
  }
}
