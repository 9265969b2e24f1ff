/**
 * The integer odds of an upgrade: the win chance in parts per million, and which of the 2^52 samples of a fair
 * roll fall below it, first with an exact product and then with one rounded to a double.
 */
module Odds {
  import opened Arithmetic
  import opened Options

  const ROLL_SCALE: nat := 1_000_000
  const SAMPLES: nat := 4_503_599_627_370_496

  predicate Valid(stake: int, target: int, edgeBps: int, cap: int) {
    stake > 0 && target > 0 && 0 <= edgeBps < 10_000 && 0 < cap <= ROLL_SCALE
  }

  /** What the house lets the player have of the stake, scaled by ten thousand and a million. */
  function Numerator(stake: nat, edgeBps: nat): nat
    requires edgeBps < 10_000
  {
    stake * (10_000 - edgeBps) * ROLL_SCALE
  }

  function Denominator(target: nat): (d: nat)
    ensures target > 0 ==> d > 0
  {
    target * 10_000
  }

  function WinChancePpm(stake: int, target: int, edgeBps: int, cap: int): (chance: Option<nat>) {
    if !Valid(stake, target, edgeBps, cap) then None
    else
      var raw := Quotient(Numerator(stake, edgeBps), Denominator(target));
      Some(if raw > cap then cap else raw)
  }

  /** Only meaningless requests are refused. */
  lemma DefinedExactly(stake: int, target: int, edgeBps: int, cap: int)
    ensures WinChancePpm(stake, target, edgeBps, cap).Some? <==> Valid(stake, target, edgeBps, cap)
    ensures Valid(stake, target, edgeBps, cap) ==> WinChancePpm(stake, target, edgeBps, cap).value <= cap
  {
    hide Numerator, Denominator;
  }

  /**
   * The house keeps at least its edge: chance times target never exceeds the stake less the edge, and one
   * part per million more would, unless the cap is what holds it.
   */
  lemma HouseKeepsItsEdge(stake: int, target: int, edgeBps: int, cap: int)
    requires Valid(stake, target, edgeBps, cap)
    ensures var chance := WinChancePpm(stake, target, edgeBps, cap).value;
            && chance * Denominator(target) <= Numerator(stake, edgeBps)
            && (chance < cap ==> (chance + 1) * Denominator(target) > Numerator(stake, edgeBps))
  {
    var n, d := Numerator(stake, edgeBps), Denominator(target);
    var chance := WinChancePpm(stake, target, edgeBps, cap).value;
    hide Numerator, Denominator, WinChancePpm;
    BlocksOf(n, n / d, d);
    ProductAtMost(chance, n / d, d);
  }

  lemma QuotientRises(a: nat, b: nat, d: nat)
    requires a <= b && d > 0
    ensures a / d <= b / d
  {
    BlocksOf(a, a / d, d);
    BlocksOf(b, b / d, d);
    MultipleIsFar(b / d - a / d, d);
    assert (b / d - a / d) * d == b / d * d - a / d * d;
  }

  lemma QuotientFalls(a: nat, d: nat, e: nat)
    requires 0 < d <= e
    ensures a / e <= a / d
  {
    BlocksOf(a, a / e, e);
    BlocksOf(a, a / d, d);
    var x, y := a / e, a / d;
    assert x * e <= a < y * d + d;
    assert x * d <= x * e by {
      ProductAtMost(d, e, x);
    }
    MultipleIsFar(y - x, d);
    assert (y - x) * d == y * d - x * d;
  }

  lemma NumeratorRises(stake: nat, more: nat, edgeBps: nat)
    requires stake <= more && edgeBps < 10_000
    ensures Numerator(stake, edgeBps) <= Numerator(more, edgeBps)
  {
    ProductAtMost(stake, more, 10_000 - edgeBps);
  }

  /** A higher stake never wins less often, a dearer target never more often. */
  lemma ChanceIsMonotone(stake: int, more: int, target: int, dearer: int, edgeBps: int, cap: int)
    requires Valid(stake, target, edgeBps, cap) && stake <= more && target <= dearer
    ensures WinChancePpm(stake, dearer, edgeBps, cap).value
         <= WinChancePpm(stake, target, edgeBps, cap).value
         <= WinChancePpm(more, target, edgeBps, cap).value
  {
    NumeratorRises(stake, more, edgeBps);
    QuotientRises(Numerator(stake, edgeBps), Numerator(more, edgeBps), Denominator(target));
    assert Denominator(target) <= Denominator(dearer);
    QuotientFalls(Numerator(stake, edgeBps), Denominator(target), Denominator(dearer));
    hide Numerator, Denominator;
  }

  // The roll.

  /** Thirteen hex digits of the digest, as parts per million. */
  function RollPpm(sample: nat): nat {
    sample * ROLL_SCALE / SAMPLES
  }

  /** How many samples roll below a chance: its share of all of them, rounded up. */
  function Winning(chance: nat): nat {
    (chance * SAMPLES + ROLL_SCALE - 1) / ROLL_SCALE
  }

  /** A sample wins exactly when it is one of the first so many. */
  lemma WinsExactly(sample: nat, chance: nat)
    ensures RollPpm(sample) < chance <==> sample < Winning(chance)
  {
    var roll, winning := RollPpm(sample), Winning(chance);
    BlocksOf(sample * ROLL_SCALE, roll, SAMPLES);
    BlocksOf(chance * SAMPLES + ROLL_SCALE - 1, winning, ROLL_SCALE);
    MultipleIsFar(chance - roll, SAMPLES);
    MultipleIsFar(winning - sample, ROLL_SCALE);
    assert (chance - roll) * SAMPLES == chance * SAMPLES - roll * SAMPLES;
    assert (winning - sample) * ROLL_SCALE == winning * ROLL_SCALE - sample * ROLL_SCALE;
  }

  /** The true chance exceeds the published one by less than one sample. */
  lemma TrueChanceIsNear(chance: nat)
    requires chance <= ROLL_SCALE
    ensures chance * SAMPLES <= Winning(chance) * ROLL_SCALE < chance * SAMPLES + ROLL_SCALE
    ensures Winning(chance) <= SAMPLES
  {
    BlocksOf(chance * SAMPLES + ROLL_SCALE - 1, Winning(chance), ROLL_SCALE);
    ProductAtMost(chance, ROLL_SCALE, SAMPLES);
    MultipleIsFar(Winning(chance) - SAMPLES, ROLL_SCALE);
    assert (Winning(chance) - SAMPLES) * ROLL_SCALE == Winning(chance) * ROLL_SCALE - SAMPLES * ROLL_SCALE;
  }

  function Below(n: nat): set<nat> {
    if n == 0 then {} else Below(n - 1) + {n - 1}
  }

  lemma {:induction false} BelowHas(n: nat)
    ensures |Below(n)| == n && forall s: nat :: s in Below(n) <==> s < n
  {
    if n > 0 {
      BelowHas(n - 1);
    }
  }

  // The same with the product rounded to a double.

  /** The sample over 2^52, times a million: the product before it is rounded. */
  function Product(sample: nat): real {
    sample as real * 1_000_000.0 / SAMPLES as real
  }

  function Whole(n: nat): real {
    n as real
  }

  /**
   * Rounding to the nearest double, as far as it matters between zero and a million: it keeps order and whole
   * numbers, and is off by no more than half of 2^-52 of a million.
   */
  ghost predicate Rounds(round: real -> real) {
    && (forall x, y | 0.0 <= x <= y <= 1_000_000.0 :: round(x) <= round(y))
    && (forall n: nat | n <= ROLL_SCALE :: round(Whole(n)) == Whole(n))
    && (forall x | 0.0 <= x <= 1_000_000.0 ::
          -1_000_000.0 <= 2.0 * SAMPLES as real * (round(x) - x) <= 1_000_000.0)
  }

  function RoundedRoll(sample: nat, round: real -> real): int {
    round(Product(sample)).Floor
  }

  lemma ProductOf(sample: nat)
    ensures Product(sample) * SAMPLES as real == sample as real * 1_000_000.0
    ensures sample < SAMPLES ==> 0.0 <= Product(sample) < 1_000_000.0
  {
  }

  /** A product below the chance is exactly a sample that wins without rounding. */
  lemma ProductBelow(sample: nat, chance: nat)
    ensures Product(sample) < chance as real <==> sample < Winning(chance)
  {
    ProductOf(sample);
    WinsExactly(sample, chance);
    BlocksOf(sample * ROLL_SCALE, RollPpm(sample), SAMPLES);
    BelowInWhole(sample, chance);
  }

  lemma BelowInWhole(sample: nat, chance: nat)
    requires Product(sample) * SAMPLES as real == sample as real * 1_000_000.0
    requires RollPpm(sample) * SAMPLES <= sample * ROLL_SCALE < RollPpm(sample) * SAMPLES + SAMPLES
    ensures Product(sample) < chance as real <==> RollPpm(sample) < chance
  {
    var x, roll := Product(sample), RollPpm(sample);
    hide Product, RollPpm;
    assert (sample * ROLL_SCALE) as real == sample as real * 1_000_000.0;
    assert (roll * SAMPLES) as real == roll as real * SAMPLES as real;
    Divides(x, roll as real, SAMPLES as real);
    Divides(roll as real + 1.0, x, SAMPLES as real);
  }

  /** From the products with a positive factor to the factors. */
  lemma Divides(x: real, y: real, k: real)
    requires k > 0.0
    ensures x * k >= y * k ==> x >= y
    ensures x * k > y * k ==> x > y
  {
    assert (x - y) * k == x * k - y * k;
    if x < y {
      assert (y - x) * k > 0.0;
    }
  }

  /** Rounding can take the win from one sample only: the last winner, when its product rounds up to the chance. */
  lemma RoundedWinsExactly(sample: nat, chance: nat, round: real -> real)
    requires Rounds(round) && sample < SAMPLES && chance <= ROLL_SCALE
    ensures RoundedRoll(sample, round) < chance <==>
            sample < Winning(chance) && !(sample + 1 == Winning(chance) && round(Product(sample)) == chance as real)
  {
    var x := Product(sample);
    ProductOf(sample);
    ProductBelow(sample, chance);
    assert RoundedRoll(sample, round) < chance <==> round(x) < chance as real;
    if x < chance as real {
      assert round(x) <= round(Whole(chance)) == chance as real;
      if round(x) == chance as real {
        NextIsPast(sample, chance, round);
      }
    } else {
      assert round(x) >= round(Whole(chance)) == chance as real;
    }
  }

  /** A product that rounds up to the chance is less than one step below it. */
  lemma NextIsPast(sample: nat, chance: nat, round: real -> real)
    requires Rounds(round) && sample < Winning(chance) && sample < SAMPLES && chance <= ROLL_SCALE
    requires round(Product(sample)) == chance as real
    ensures sample + 1 == Winning(chance)
  {
    var x, y := Product(sample), Product(sample + 1);
    ProductOf(sample);
    ProductOf(sample + 1);
    ProductBelow(sample + 1, chance);
    assert 2.0 * SAMPLES as real * (chance as real - x) <= 1_000_000.0;
    hide Product, Winning;
    Divides(y, chance as real, SAMPLES as real);
  }

  /** So with rounding as without, the chance is right to within one sample of the 2^52. */
  lemma RoundedWinnersAreCounted(chance: nat, round: real -> real)
    requires Rounds(round) && chance <= ROLL_SCALE
    ensures var winners := set s: nat | s < SAMPLES && RoundedRoll(s, round) < chance;
            && |winners| <= Winning(chance) <= |winners| + 1
            && chance * SAMPLES - ROLL_SCALE <= |winners| * ROLL_SCALE < chance * SAMPLES + ROLL_SCALE
  {
    hide RoundedRoll, Product, Below, Winning, Rounds;
    var n := Winning(chance);
    var winners := set s: nat | s < SAMPLES && RoundedRoll(s, round) < chance;
    var last := if n > 0 && round(Product(n - 1)) == chance as real then {n - 1} else {};
    TrueChanceIsNear(chance);
    BelowHas(n);
    forall s: nat
      ensures s in winners <==> s in Below(n) - last
    {
      if s < SAMPLES {
        RoundedWinsExactly(s, chance, round);
      }
    }
    AllButOne(winners, Below(n), last);
    CountIsNear(chance, |winners|, n);
  }

  lemma AllButOne(winners: set<nat>, all: set<nat>, last: set<nat>)
    requires (forall s: nat :: s in winners <==> s in all - last) && last <= all && |last| <= 1
    ensures |winners| <= |all| <= |winners| + 1
  {
    assert winners == all - last;
    assert |all - last| == |all| - |last|;
  }

  lemma CountIsNear(chance: nat, count: nat, winning: nat)
    requires count <= winning <= count + 1
    requires chance * SAMPLES <= winning * ROLL_SCALE < chance * SAMPLES + ROLL_SCALE
    ensures chance * SAMPLES - ROLL_SCALE <= count * ROLL_SCALE < chance * SAMPLES + ROLL_SCALE
  {
  }
}
