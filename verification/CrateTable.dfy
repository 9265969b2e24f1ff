/**
 * A crate's ordinary table: the shape of its weights, the shares that pay exactly the target, and the
 * integer weights that are published.
 */
module CrateTable {
  import opened CrateMath

  const MAX_SHAPE_RATIO := 250_000.0

  // The shape.

  function Greatest(s: seq<real>): (m: real)
    requires s != []
    ensures forall i | 0 <= i < |s| :: s[i] <= m
    ensures exists i :: 0 <= i < |s| && s[i] == m
  {
    var n := |s| - 1;
    if n == 0 then assert s[0] == s[n]; s[n]
    else
      var front := s[..n];
      var m := Greatest(front);
      assert forall i | 0 <= i < n :: s[i] == front[i];
      assert exists i :: 0 <= i < n && s[i] == m;
      if s[n] > m then s[n] else m
  }

  function Least(s: seq<real>): (m: real)
    requires s != []
    ensures forall i | 0 <= i < |s| :: s[i] >= m
    ensures exists i :: 0 <= i < |s| && s[i] == m
  {
    var n := |s| - 1;
    if n == 0 then assert s[0] == s[n]; s[n]
    else
      var front := s[..n];
      var m := Least(front);
      assert forall i | 0 <= i < n :: s[i] == front[i];
      assert exists i :: 0 <= i < n && s[i] == m;
      if s[n] < m then s[n] else m
  }

  /** All that is used of the logarithm and the exponential: both rise, and the exponential is positive. */
  ghost predicate Rise(log: real -> real, exp: real -> real) {
    && (forall x, y | 0.0 < x <= y :: log(x) <= log(y))
    && (forall x, y | x <= y :: exp(x) <= exp(y))
    && (forall x :: exp(x) > 0.0)
  }

  function LogWeights(values: seq<real>, price: real, falloff: real, log: real -> real): seq<real>
    requires price > 0.0
  {
    seq(|values|, i requires 0 <= i < |values| => -Times(falloff, log(values[i] / price)))
  }

  function Exponentials(logs: seq<real>, peak: real, exp: real -> real): seq<real> {
    seq(|logs|, i requires 0 <= i < |logs| => exp(logs[i] - peak))
  }

  function Ratios(shaped: seq<real>, smallest: real): seq<real>
    requires smallest > 0.0
  {
    seq(|shaped|, i requires 0 <= i < |shaped| => Clamp(shaped[i] / smallest))
  }

  function Clamp(x: real): real {
    if x < MAX_SHAPE_RATIO then x else MAX_SHAPE_RATIO
  }

  /** Relative weights: a power of the value, the rarest normalised to one, the rest clamped. */
  function ShapeWeights(values: seq<real>, price: real, falloff: real, log: real -> real, exp: real -> real): seq<real>
    requires price > 0.0
  {
    var logs := LogWeights(values, price, falloff, log);
    if logs == [] then []
    else
      var shaped := Exponentials(logs, Greatest(logs), exp);
      var smallest := Least(shaped);
      if smallest <= 0.0 then seq(|values|, _ => 1.0) else Ratios(shaped, smallest)
  }

  lemma LogWeightsFall(values: seq<real>, price: real, falloff: real, log: real -> real, exp: real -> real)
    requires price > 0.0 && falloff >= 0.0 && Rise(log, exp) && Rising(values)
    requires forall i | 0 <= i < |values| :: values[i] > 0.0
    ensures Falling(LogWeights(values, price, falloff, log))
  {
    forall i, j | 0 <= i < j < |values|
      ensures Times(falloff, log(values[i] / price)) <= Times(falloff, log(values[j] / price))
    {
      QuotientsRise(values[i], values[j], price);
      TimesRises(falloff, log(values[i] / price), log(values[j] / price));
    }
    hide Times;
  }

  lemma QuotientsRise(x: real, y: real, price: real)
    requires 0.0 < x <= y && price > 0.0
    ensures 0.0 < x / price <= y / price
  {
  }

  lemma TimesRises(k: real, x: real, y: real)
    requires k >= 0.0 && x <= y
    ensures Times(k, x) <= Times(k, y)
  {
  }

  lemma RatioBounds(x: real, smallest: real)
    requires x >= smallest > 0.0
    ensures 1.0 <= Clamp(x / smallest) <= MAX_SHAPE_RATIO
  {
    assert x / smallest >= 1.0;
  }

  lemma RatiosFall(x: real, y: real, smallest: real)
    requires x >= y && smallest > 0.0
    ensures Clamp(x / smallest) >= Clamp(y / smallest)
  {
    assert x / smallest >= y / smallest;
  }

  /** The dearer an item the smaller its weight, and every weight lies between one and the clamp. */
  lemma ShapeFalls(values: seq<real>, price: real, falloff: real, log: real -> real, exp: real -> real)
    requires price > 0.0 && falloff >= 0.0 && Rise(log, exp) && Rising(values)
    requires forall i | 0 <= i < |values| :: values[i] > 0.0
    ensures var weights := ShapeWeights(values, price, falloff, log, exp);
            && |weights| == |values| && Falling(weights)
            && forall i | 0 <= i < |weights| :: 1.0 <= weights[i] <= MAX_SHAPE_RATIO
  {
    var logs := LogWeights(values, price, falloff, log);
    LogWeightsFall(values, price, falloff, log, exp);
    hide LogWeights;
    if logs != [] {
      var shaped := Exponentials(logs, Greatest(logs), exp);
      ExponentialsFall(logs, Greatest(logs), log, exp);
      hide Exponentials;
      RatiosAreShaped(shaped, Least(shaped));
    }
    hide Ratios;
  }

  lemma ExponentialsFall(logs: seq<real>, peak: real, log: real -> real, exp: real -> real)
    requires Falling(logs) && Rise(log, exp)
    ensures Falling(Exponentials(logs, peak, exp))
    ensures forall i | 0 <= i < |logs| :: Exponentials(logs, peak, exp)[i] > 0.0
  {
    forall i, j | 0 <= i < j < |logs|
      ensures exp(logs[i] - peak) >= exp(logs[j] - peak)
    {
      assert logs[j] - peak <= logs[i] - peak;
    }
  }

  lemma RatiosAreShaped(shaped: seq<real>, smallest: real)
    requires Falling(shaped) && smallest > 0.0 && forall i | 0 <= i < |shaped| :: shaped[i] >= smallest
    ensures Falling(Ratios(shaped, smallest))
    ensures forall i | 0 <= i < |shaped| :: 1.0 <= Ratios(shaped, smallest)[i] <= MAX_SHAPE_RATIO
  {
    forall i | 0 <= i < |shaped|
      ensures 1.0 <= Clamp(shaped[i] / smallest) <= MAX_SHAPE_RATIO
    {
      RatioBounds(shaped[i], smallest);
    }
    forall i, j | 0 <= i < j < |shaped|
      ensures Clamp(shaped[i] / smallest) >= Clamp(shaped[j] / smallest)
    {
      RatiosFall(shaped[i], shaped[j], smallest);
    }
    hide Clamp;
  }

  // Shares of the ordinary weight.

  /** How much of the table one unit of shape gets, so that cheap filler brings the mean down to the target. */
  function ScalePerWeight(shaped: seq<real>, values: seq<real>, filler: real, target: real): real
    requires |shaped| == |values| && Dot(shaped, values) - Times(Sum(shaped), filler) != 0.0
  {
    (target - filler) / (Dot(shaped, values) - Times(Sum(shaped), filler))
  }

  function FillerShare(shaped: seq<real>, scale: real): real {
    1.0 - Times(Sum(shaped), scale)
  }

  /** The conditions under which the relaxation loop stops. */
  predicate Usable(shaped: seq<real>, values: seq<real>, filler: real, target: real)
    requires |shaped| == |values|
  {
    && Sum(shaped) > 0.0 && WeightedMean(shaped, values) > target
    && Dot(shaped, values) - Times(Sum(shaped), filler) > 0.0
    && var scale := ScalePerWeight(shaped, values, filler, target);
       && scale > 0.0 && FillerShare(shaped, scale) > 0.0
       && FillerShare(shaped, scale) >= Times(if shaped == [] then 0.0 else shaped[0], scale)
  }

  function Shares(shaped: seq<real>, scale: real): seq<real> {
    [FillerShare(shaped, scale)] + Scaled(shaped, scale)
  }

  lemma SolveForTarget(s: real, d: real, filler: real, target: real, scale: real)
    requires d - Times(s, filler) > 0.0 && scale == (target - filler) / (d - Times(s, filler))
    ensures Times(1.0 - Times(s, scale), filler) + Times(scale, d) == target
  {
    var gap := d - s * filler;
    assert scale * gap == target - filler;
    assert (1.0 - s * scale) * filler + scale * d == filler + scale * gap;
  }

  lemma ScaledKeepsSigns(s: seq<real>, k: real)
    requires k >= 0.0
    ensures NonNegative(s) ==> NonNegative(Scaled(s, k))
    ensures Falling(s) ==> Falling(Scaled(s, k))
  {
    forall i, j | 0 <= i < |s| && 0 <= j < |s| && s[i] >= s[j]
      ensures Times(k, s[i]) >= Times(k, s[j])
    {
      TimesRises(k, s[j], s[i]);
    }
    forall i | 0 <= i < |s| && s[i] >= 0.0
      ensures Times(k, s[i]) >= 0.0
    {
    }
    hide Times;
  }

  /** The solved shares are a table: no share is negative, they sum to one, and they pay exactly the target. */
  lemma SharesPayTheTarget(shaped: seq<real>, values: seq<real>, filler: real, target: real)
    requires |shaped| == |values| && NonNegative(shaped) && Usable(shaped, values, filler, target)
    ensures var shares := Shares(shaped, ScalePerWeight(shaped, values, filler, target));
            NonNegative(shares) && Sum(shares) == 1.0 && Dot(shares, [filler] + values) == target
  {
    var scale := ScalePerWeight(shaped, values, filler, target);
    var shares := Shares(shaped, scale);
    SumFirst(shares);
    DotFirst(shares, [filler] + values);
    assert shares[1..] == Scaled(shaped, scale) && ([filler] + values)[1..] == values;
    SumScaled(shaped, scale);
    DotScaled(shaped, scale, values);
    SolveForTarget(Sum(shaped), Dot(shaped, values), filler, target, scale);
    ScaledKeepsSigns(shaped, scale);
    assert Times(scale, Sum(shaped)) == Times(Sum(shaped), scale);
    hide Times, Sum, Dot, Scaled;
  }

  /** From the filler up, no outcome is likelier than a cheaper one. */
  lemma SharesFall(shaped: seq<real>, values: seq<real>, filler: real, target: real)
    requires |shaped| == |values| && Falling(shaped) && Usable(shaped, values, filler, target)
    ensures Falling(Shares(shaped, ScalePerWeight(shaped, values, filler, target)))
  {
    var scale := ScalePerWeight(shaped, values, filler, target);
    assert scale > 0.0 && FillerShare(shaped, scale) >= Times(if shaped == [] then 0.0 else shaped[0], scale);
    hide Usable, ScalePerWeight;
    ScaledKeepsSigns(shaped, scale);
    assert shaped != [] ==> Scaled(shaped, scale)[0] == Times(shaped[0], scale);
    InFrontFalls(FillerShare(shaped, scale), Scaled(shaped, scale));
  }

  lemma InFrontFalls(x: real, s: seq<real>)
    requires Falling(s) && (s != [] ==> x >= s[0])
    ensures Falling([x] + s)
  {
    var t := [x] + s;
    forall i, j | 0 <= i < j < |t|
      ensures t[i] >= t[j]
    {
      assert t[j] == s[j - 1] && s[0] >= s[j - 1];
    }
  }

  /** A usable crate's plain mean is at least its target: nothing the loop accepts could do without it. */
  lemma UsableNeedsTheMean(shaped: seq<real>, values: seq<real>, filler: real, target: real)
    requires |shaped| == |values| && NonNegative(shaped) && Falling(shaped) && Rising([filler] + values)
    requires Usable(shaped, values, filler, target)
    ensures Mean([filler] + values) >= target
  {
    var shares := Shares(shaped, ScalePerWeight(shaped, values, filler, target));
    SharesPayTheTarget(shaped, values, filler, target);
    SharesFall(shaped, values, filler, target);
    hide Shares, Usable, ScalePerWeight, Sum, Dot, Mean;
    FallingTableMean(shares, [filler] + values);
    assert WeightedMean(shares, [filler] + values) == target / 1.0;
  }

  /** And no table at all that falls reaches a target above the plain mean, so trimming is necessary. */
  lemma NoFallingTableBeatsTheMean(weights: seq<real>, values: seq<real>, target: real)
    requires |weights| == |values| && Falling(weights) && Rising(values) && Sum(weights) > 0.0
    requires values != [] ==> Mean(values) < target
    ensures WeightedMean(weights, values) < target
  {
    FallingTableMean(weights, values);
  }

  predicate Flat(shaped: seq<real>) {
    shaped != [] && shaped[0] > 0.0 && forall i | 0 <= i < |shaped| :: shaped[i] == shaped[0]
  }

  lemma MeanAtMost(values: seq<real>, top: real)
    requires values != [] && forall i | 0 <= i < |values| :: values[i] <= top
    ensures Mean(values) <= top
  {
    SumAtMost(values, top);
    AtMost(Sum(values), |values| as real, top);
    hide Sum;
  }

  lemma AtMost(sum: real, n: real, top: real)
    requires n > 0.0 && sum <= Times(n, top)
    ensures sum / n <= top
  {
    var q := sum / n;
    assert sum == q * n;
    assert (top - q) * n >= 0.0;
  }

  /** A mean above the filler has something above the filler. */
  lemma DearestIsDearer(filler: real, values: seq<real>, target: real)
    requires Rising([filler] + values) && target > filler && Mean([filler] + values) == target
    ensures values != [] && values[|values| - 1] > filler
  {
    var all := [filler] + values;
    if values == [] || values[|values| - 1] <= filler {
      assert forall i | 0 <= i < |all| :: all[i] <= all[|all| - 1] <= filler;
      MeanAtMost(all, filler);
    }
  }

  /** Shares that are all the same, and positive, come from a flat shape. */
  lemma FlatSharesAreFlat(shaped: seq<real>, scale: real)
    requires shaped != [] && scale > 0.0 && FillerShare(shaped, scale) > 0.0
    requires var shares := Shares(shaped, scale); forall i | 0 <= i < |shares| :: shares[i] == shares[0]
    ensures Flat(shaped)
  {
    var shares := Shares(shaped, scale);
    forall i | 0 <= i < |shaped|
      ensures Times(scale, shaped[i]) == shares[0]
    {
      assert shares[i + 1] == Scaled(shaped, scale)[i];
    }
    hide FillerShare;
    forall i | 0 <= i < |shaped|
      ensures shaped[i] == shaped[0] && shaped[0] > 0.0
    {
      SameFactor(scale, shaped[i], shaped[0], shares[0]);
    }
  }

  lemma UsableAtTheMeanIsFlat(shaped: seq<real>, values: seq<real>, filler: real, target: real)
    requires |shaped| == |values| && NonNegative(shaped) && Falling(shaped) && Rising([filler] + values)
    requires target > filler && Mean([filler] + values) == target && Usable(shaped, values, filler, target)
    ensures Flat(shaped)
  {
    var all, scale := [filler] + values, ScalePerWeight(shaped, values, filler, target);
    var shares := Shares(shaped, scale);
    assert scale > 0.0 && FillerShare(shaped, scale) > 0.0;
    assert Times(|all| as real, target) == Times(1.0, Sum(all));
    assert |shares| == |all|;
    hide Usable, ScalePerWeight, Sum, Dot, Mean, FillerShare, Shares, Times, Flat;
    SharesPayTheTarget(shaped, values, filler, target);
    SharesFall(shaped, values, filler, target);
    DearestIsDearer(filler, values, target);
    assert all[|all| - 1] == values[|values| - 1];
    ChebyshevIsEqualOnlyWhenFlat(shares, all);
    FlatSharesAreFlat(shaped, scale);
  }

  lemma SameFactor(k: real, x: real, y: real, product: real)
    requires k > 0.0 && Times(k, x) == product && Times(k, y) == product && product > 0.0
    ensures x == y && y > 0.0
  {
    assert k * (x - y) == 0.0;
  }

  lemma FlatIsUsableAtTheMean(shaped: seq<real>, values: seq<real>, filler: real, target: real)
    requires |shaped| == |values| && Flat(shaped)
    requires target > filler && Mean([filler] + values) == target
    ensures Usable(shaped, values, filler, target)
  {
    var c, n := shaped[0], |values| as real;
    FlatSums(shaped, values, c);
    SumFirst([filler] + values);
    assert ([filler] + values)[1..] == values && |[filler] + values| as real == n + 1.0;
    FlatNumbers(c, n, Sum(values), filler, target);
  }

  lemma FlatNumbers(c: real, n: real, total: real, filler: real, target: real)
    requires c > 0.0 && n >= 1.0 && target > filler && (filler + total) / (n + 1.0) == target
    ensures Times(n, c) > 0.0 && Times(c, total) / Times(n, c) > target
    ensures var gap := Times(c, total) - Times(Times(n, c), filler);
            && gap > 0.0
            && var scale := (target - filler) / gap;
               scale > 0.0 && 1.0 - Times(Times(n, c), scale) > 0.0 && 1.0 - Times(Times(n, c), scale) >= Times(c, scale)
  {
    var rise := target - filler;
    assert filler + total == target * (n + 1.0);
    FlatGap(c, n, total, filler, rise);
    FlatMean(c, n, total, filler, target);
    FlatScale(c, n, rise);
  }

  lemma FlatGap(c: real, n: real, total: real, filler: real, rise: real)
    requires c > 0.0 && n >= 1.0 && rise > 0.0 && filler + total == (filler + rise) * (n + 1.0)
    ensures Times(c, total) - Times(Times(n, c), filler) == Times(c, Times(n + 1.0, rise)) > 0.0
  {
    assert total - n * filler == (n + 1.0) * rise;
    assert c * total - (n * c) * filler == c * (total - n * filler);
    assert (n + 1.0) * rise > 0.0;
  }

  lemma FlatMean(c: real, n: real, total: real, filler: real, target: real)
    requires c > 0.0 && n >= 1.0 && target > filler && filler + total == target * (n + 1.0)
    ensures Times(n, c) > 0.0 && Times(c, total) / Times(n, c) > target
  {
    var mean := total / n;
    assert total == mean * n;
    assert n * c > 0.0;
    assert c * total == mean * (n * c);
    assert (mean - target) * n > 0.0;
  }

  /** The scale is one part of n + 1 for each unit of shape. */
  lemma FlatScale(c: real, n: real, rise: real)
    requires c > 0.0 && n >= 1.0 && rise > 0.0 && Times(c, Times(n + 1.0, rise)) > 0.0
    ensures var scale := rise / Times(c, Times(n + 1.0, rise));
            scale > 0.0 && 1.0 - Times(Times(n, c), scale) > 0.0 && 1.0 - Times(Times(n, c), scale) >= Times(c, scale)
  {
    var scale, part := rise / Times(c, Times(n + 1.0, rise)), 1.0 / (n + 1.0);
    assert part * (n + 1.0) == 1.0;
    SameQuotient(c, n + 1.0, rise, part);
    assert c * scale == part;
    assert (n * c) * scale == n * part;
    assert n * part == 1.0 - part;
  }

  lemma SameQuotient(c: real, m: real, rise: real, part: real)
    requires c > 0.0 && m > 0.0 && rise > 0.0 && part * m == 1.0 && Times(c, Times(m, rise)) > 0.0
    ensures rise / Times(c, Times(m, rise)) > 0.0 && c * (rise / Times(c, Times(m, rise))) == part
  {
    var scale := rise / Times(c, Times(m, rise));
    assert scale * Times(c, Times(m, rise)) == rise;
    Reassociate(scale, c, m, rise);
    Unit((c * scale) * m, rise);
    assert ((c * scale) * m) * part == part;
    assert (c * scale) * (m * part) == part;
  }

  lemma Reassociate(scale: real, c: real, m: real, rise: real)
    ensures scale * Times(c, Times(m, rise)) == ((c * scale) * m) * rise
  {
    var q := m * rise;
    assert scale * (c * q) == (c * scale) * q;
  }

  lemma Unit(x: real, rise: real)
    requires rise > 0.0 && x * rise == rise
    ensures x == 1.0
  {
    assert (x - 1.0) * rise == 0.0;
  }

  /**
   * What trimming drops for a mean that does not clear the target was no loss, with one exception: at a mean
   * of exactly the target, a crate whose shape is flat is usable.
   */
  lemma DroppedCratesAreUsableExactlyWhenFlat(shaped: seq<real>, values: seq<real>, filler: real, target: real)
    requires |shaped| == |values| && NonNegative(shaped) && Falling(shaped) && Rising([filler] + values)
    requires target > filler && Mean([filler] + values) <= target
    ensures Usable(shaped, values, filler, target) <==> Mean([filler] + values) == target && Flat(shaped)
  {
    if Usable(shaped, values, filler, target) {
      UsableNeedsTheMean(shaped, values, filler, target);
      UsableAtTheMeanIsFlat(shaped, values, filler, target);
    } else if Flat(shaped) && Mean([filler] + values) == target {
      FlatIsUsableAtTheMean(shaped, values, filler, target);
    }
    hide Usable, Flat, Mean;
  }

  /** Such crates exist: three equal items at 20 over a filler of 10, for a target of 17.5. */
  lemma UsableAtTheMean()
    ensures Usable([1.0, 1.0, 1.0], [20.0, 20.0, 20.0], 10.0, 17.5)
    ensures Mean([10.0, 20.0, 20.0, 20.0]) == 17.5
  {
    var all := [10.0, 20.0, 20.0, 20.0];
    SumFirst(all);
    SumFirst(all[1..]);
    SumFirst(all[1..][1..]);
    SumFirst(all[1..][1..][1..]);
    assert [10.0] + [20.0, 20.0, 20.0] == all;
    FlatIsUsableAtTheMean([1.0, 1.0, 1.0], [20.0, 20.0, 20.0], 10.0, 17.5);
  }

  // Integer weights.

  /** Math.round: to the nearest integer, halves up. */
  function Round(x: real): int {
    (x + 0.5).Floor
  }

  function Weight(x: real): int {
    if Round(x) > 1 then Round(x) else 1
  }

  function Weights(shaped: seq<real>, scale: real): seq<int> {
    seq(|shaped|, i requires 0 <= i < |shaped| => Weight(Times(scale, shaped[i])))
  }

  function Total(weights: seq<int>): int {
    if weights == [] then 0 else Total(weights[..|weights| - 1]) + weights[|weights| - 1]
  }

  /** The filler takes whatever rounding left over. */
  function FillerWeight(ordinary: int, weights: seq<int>): int {
    ordinary - Total(weights)
  }

  function AsReals(weights: seq<int>): seq<real> {
    seq(|weights|, i requires 0 <= i < |weights| => weights[i] as real)
  }

  lemma WeightIsNear(x: real)
    requires x > 0.0
    ensures -1.0 < Weight(x) as real - x < 1.0 && Weight(x) >= 1
  {
  }

  lemma WeightRises(x: real, y: real)
    requires x <= y
    ensures Weight(x) <= Weight(y)
  {
  }

  /** Rounding keeps the order of the shape, and every weight drawable. */
  lemma WeightsFall(shaped: seq<real>, scale: real)
    requires Falling(shaped) && scale >= 0.0
    ensures var weights := Weights(shaped, scale);
            && (forall i, j | 0 <= i < j < |weights| :: weights[i] >= weights[j])
            && (forall i | 0 <= i < |weights| :: weights[i] >= 1)
  {
    forall i, j | 0 <= i < j < |shaped|
      ensures Weight(Times(scale, shaped[i])) >= Weight(Times(scale, shaped[j]))
    {
      TimesRises(scale, shaped[j], shaped[i]);
      WeightRises(Times(scale, shaped[j]), Times(scale, shaped[i]));
    }
    hide Times;
  }

  /** Each value's height above the filler. */
  function Above(values: seq<real>, filler: real): seq<real> {
    seq(|values|, i requires 0 <= i < |values| => values[i] - filler)
  }

  lemma GapStep(w: real, x: real, above: real)
    requires -1.0 < w - x < 1.0 && above >= 0.0
    ensures Times(w, above) - Times(x, above) <= above && Times(x, above) - Times(w, above) <= above
    ensures above > 0.0 ==> Times(w, above) - Times(x, above) < above && Times(x, above) - Times(w, above) < above
  {
    TimesSubtracts(w, x, above);
    BelowOne(w - x, above);
    TimesSubtracts(x, w, above);
    BelowOne(x - w, above);
    hide Times;
  }

  lemma BelowOne(e: real, above: real)
    requires e < 1.0 && above >= 0.0
    ensures Times(e, above) <= above && (above > 0.0 ==> Times(e, above) < above)
  {
    var rest := 1.0 - e;
    assert rest > 0.0 && rest * above >= 0.0 && (above > 0.0 ==> rest * above > 0.0);
    assert rest * above == above - e * above;
  }

  /** Weights each less than one unit off move the total value by less than the sum of the heights. */
  lemma {:induction false} RoundingGap(ws: seq<real>, xs: seq<real>, above: seq<real>)
    requires |ws| == |xs| == |above| && NonNegative(above)
    requires forall i | 0 <= i < |ws| :: -1.0 < ws[i] - xs[i] < 1.0
    ensures -Sum(above) <= Dot(ws, above) - Dot(xs, above) <= Sum(above)
    ensures Sum(above) > 0.0 ==> -Sum(above) < Dot(ws, above) - Dot(xs, above) < Sum(above)
  {
    if ws != [] {
      var n := |ws| - 1;
      RoundingGap(ws[..n], xs[..n], above[..n]);
      GapStep(ws[n], xs[n], above[n]);
      SumNonNegative(above[..n]);
      hide Times;
    }
  }

  lemma AboveStep(d: real, s: real, filler: real, w: real, v: real)
    ensures d - Times(s, filler) + Times(w, v - filler) == d + Times(w, v) - Times(s + w, filler)
  {
    assert w * (v - filler) == w * v - w * filler && (s + w) * filler == s * filler + w * filler;
  }

  lemma {:induction false} DotAbove(ws: seq<real>, values: seq<real>, filler: real)
    requires |ws| == |values|
    ensures Dot(ws, Above(values, filler)) == Dot(ws, values) - Times(Sum(ws), filler)
  {
    if ws != [] {
      var n := |ws| - 1;
      DotAbove(ws[..n], values[..n], filler);
      assert Above(values, filler)[..n] == Above(values[..n], filler);
      AboveStep(Dot(ws[..n], values[..n]), Sum(ws[..n]), filler, ws[n], values[n]);
      hide Times;
    }
  }

  lemma {:induction false} TotalAsReals(weights: seq<int>)
    ensures Sum(AsReals(weights)) == Total(weights) as real
  {
    if weights != [] {
      var n := |weights| - 1;
      TotalAsReals(weights[..n]);
      assert AsReals(weights)[..n] == AsReals(weights[..n]);
    }
  }

  /** What the published integer table pays in all: the filler's weight and the shaped weights on their values. */
  function Payout(ordinary: int, weights: seq<int>, values: seq<real>, filler: real): real
    requires |weights| == |values|
  {
    Times(FillerWeight(ordinary, weights) as real, filler) + Dot(AsReals(weights), values)
  }

  lemma FillerAbsorbs(ordinary: int, weights: seq<int>, values: seq<real>, filler: real)
    requires |weights| == |values|
    ensures FillerWeight(ordinary, weights) + Total(weights) == ordinary
    ensures Payout(ordinary, weights, values, filler)
         == Times(ordinary as real, filler) + Dot(AsReals(weights), Above(values, filler))
  {
    DotAbove(AsReals(weights), values, filler);
    TotalAsReals(weights);
    var o, t := ordinary as real, Total(weights) as real;
    assert FillerWeight(ordinary, weights) as real == o - t;
    hide Dot, Sum, Above, AsReals, Total, FillerWeight;
    TimesSubtracts(o, t, filler);
    hide Times;
  }

  lemma TimesSubtracts(a: real, b: real, c: real)
    ensures Times(a - b, c) == Times(a, c) - Times(b, c)
  {
  }

  lemma ExactPayout(o: real, s: real, d: real, filler: real, target: real, scale: real)
    requires d - Times(s, filler) > 0.0 && scale == (target - filler) / (d - Times(s, filler))
    ensures Times(o, filler) + Times(Times(o, scale), d - Times(s, filler)) == Times(o, target)
  {
    var gap := d - s * filler;
    assert scale * gap == target - filler;
    assert (o * scale) * gap == o * (scale * gap);
    assert o * filler + o * (target - filler) == o * target;
  }

  /**
   * The integer table's weights sum exactly to the ordinary weight, and it pays the target per unit of
   * weight to within the summed heights of the values above the filler, over the ordinary weight.
   */
  lemma RoundedTableIsNear(shaped: seq<real>, values: seq<real>, filler: real, target: real, ordinary: int)
    requires |shaped| == |values| && ordinary > 0 && Usable(shaped, values, filler, target)
    requires forall i | 0 <= i < |shaped| :: shaped[i] > 0.0
    requires forall i | 0 <= i < |values| :: values[i] >= filler
    ensures var scale := ScalePerWeight(shaped, values, filler, target);
            var weights := Weights(shaped, Times(ordinary as real, scale));
            && FillerWeight(ordinary, weights) + Total(weights) == ordinary
            && var miss := Payout(ordinary, weights, values, filler) - Times(ordinary as real, target);
               -Sum(Above(values, filler)) < miss < Sum(Above(values, filler))
  {
    var o, scale := ordinary as real, ScalePerWeight(shaped, values, filler, target);
    var weights, exact := Weights(shaped, Times(o, scale)), Scaled(shaped, Times(o, scale));
    var above := Above(values, filler);
    assert Times(o, scale) > 0.0;
    forall i | 0 <= i < |shaped|
      ensures -1.0 < AsReals(weights)[i] - exact[i] < 1.0
    {
      assert exact[i] == Times(Times(o, scale), shaped[i]) > 0.0;
      WeightIsNear(exact[i]);
    }
    assert Dot(shaped, values) - Times(Sum(shaped), filler) > 0.0 && NonNegative(above);
    assert scale == (target - filler) / (Dot(shaped, values) - Times(Sum(shaped), filler));
    FillerAbsorbs(ordinary, weights, values, filler);
    DotAbove(shaped, values, filler);
    DotScaled(shaped, Times(o, scale), above);
    ExactPayout(o, Sum(shaped), Dot(shaped, values), filler, target, scale);
    PositiveHeights(shaped, above);
    hide Times, Dot, Sum, Usable, Weights, Above, Payout, Scaled;
    RoundingGap(AsReals(weights), exact, above);
  }

  lemma {:induction false} PositiveHeights(ws: seq<real>, above: seq<real>)
    requires |ws| == |above| && NonNegative(above) && Dot(ws, above) > 0.0
    ensures Sum(above) > 0.0
  {
    if above != [] {
      var n := |above| - 1;
      SumNonNegative(above[..n]);
      if above[n] == 0.0 {
        PositiveHeights(ws[..n], above[..n]);
      }
    }
  }

  lemma MissPerUnit(paid: real, o: real, target: real, gap: real)
    requires o > 0.0 && -gap < paid - Times(o, target) < gap
    ensures -(gap / o) < paid / o - target < gap / o
  {
    var p, g := paid / o, gap / o;
    assert p * o == paid && g * o == gap;
    assert (p - target - g) * o == paid - o * target - gap;
    assert (p - target + g) * o == paid - o * target + gap;
    assert (p - target - g) * o < 0.0 && (p - target + g) * o > 0.0;
  }

  /** So the ordinary mean misses its target by less than the summed heights over the ordinary weight. */
  lemma OrdinaryMeanIsNear(shaped: seq<real>, values: seq<real>, filler: real, target: real, ordinary: int)
    requires |shaped| == |values| && ordinary > 0 && Usable(shaped, values, filler, target)
    requires forall i | 0 <= i < |shaped| :: shaped[i] > 0.0
    requires forall i | 0 <= i < |values| :: values[i] >= filler
    ensures var weights := Weights(shaped, Times(ordinary as real, ScalePerWeight(shaped, values, filler, target)));
            var miss := Payout(ordinary, weights, values, filler) / ordinary as real - target;
            var bound := Sum(Above(values, filler)) / ordinary as real;
            -bound < miss < bound
  {
    RoundedTableIsNear(shaped, values, filler, target, ordinary);
    var weights := Weights(shaped, Times(ordinary as real, ScalePerWeight(shaped, values, filler, target)));
    MissPerUnit(Payout(ordinary, weights, values, filler), ordinary as real, target, Sum(Above(values, filler)));
    hide Payout, Sum, Usable, Weights, Above, Times;
  }
}
