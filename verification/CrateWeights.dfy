/** The integer weights of a whole crate, at the finest resolution that fits the column. */
module CrateWeights {
  import opened LargestRemainder
  import opened CrateMath
  import opened CrateTable
  import opened Options

  const MAX_ITEM_WEIGHT := 1_000_000_000
  const MAX_TOTAL_WEIGHT := 4_000_000_000

  function Ceil(x: real): int {
    -((-x).Floor)
  }

  function LargerOf(a: int, b: int): int {
    if a > b then a else b
  }

  function SmallerOf(a: int, b: int): int {
    if a < b then a else b
  }

  datatype Split = Split(mystery: int, ordinary: int, total: int)

  /** resolveWeightSplit: the mystery slot's weight and the rest, or nothing when the rest has no room. */
  function ResolveWeightSplit(probability: real, least: int, most: int): (split: Option<Split>)
    ensures split.Some? ==>
              && split.value.mystery + split.value.ordinary == split.value.total <= most
              && split.value.mystery >= 1 && split.value.ordinary >= 1
  {
    if probability <= 0.0 || probability >= 1.0 then None
    else
      var total := SmallerOf(most, LargerOf(Ceil(least as real / probability), least + 1));
      var mystery := LargerOf(1, Round(probability * total as real));
      if total - mystery < 1 then None else Some(Split(mystery, total - mystery, total))
  }

  /**
   * The slot gets the weight it asked for unless the column's limit cuts the total, and its chance to half a
   * unit exactly when its share of the total comes to half a unit; below that it still gets one.
   */
  lemma SplitKeepsTheChance(probability: real, least: int, most: int)
    requires ResolveWeightSplit(probability, least, most).Some?
    ensures var split := ResolveWeightSplit(probability, least, most).value;
            var share := probability * split.total as real;
            && (split.mystery >= least || split.total == most)
            && (-0.5 <= split.mystery as real - share <= 0.5 <==> share >= 0.5)
            && (share < 0.5 ==> split.mystery == 1)
  {
    hide *;
    var split := ResolveWeightSplit(probability, least, most).value;
    var share := SplitParts(probability, least, most);
    RoundIsNear(share, split.mystery, least);
    if split.total != most {
      AsksForEnough(probability, least, split.total);
    }
  }

  lemma SplitParts(probability: real, least: int, most: int) returns (share: real)
    requires ResolveWeightSplit(probability, least, most).Some?
    ensures var split := ResolveWeightSplit(probability, least, most).value;
            && 0.0 < probability && share == probability * split.total as real
            && split.mystery == LargerOf(1, Round(share))
            && (split.total == most || split.total >= Ceil(least as real / probability))
  {
    share := probability * ResolveWeightSplit(probability, least, most).value.total as real;
  }

  lemma RoundIsNear(x: real, mystery: int, least: int)
    requires mystery == LargerOf(1, Round(x))
    ensures -0.5 <= mystery as real - x <= 0.5 <==> x >= 0.5
    ensures (x < 0.5 ==> mystery == 1) && (x >= least as real ==> mystery >= least)
  {
  }

  lemma AsksForEnough(probability: real, least: int, total: int)
    requires 0.0 < probability && total >= Ceil(least as real / probability)
    ensures probability * total as real >= least as real
  {
    var q := least as real / probability;
    assert q * probability == least as real;
    assert total as real >= q;
    TimesRises(probability, q, total as real);
  }

  datatype Solved = Solved(split: Split, filler: int, shaped: seq<int>, sub: seq<int>)

  predicate Drawable(weights: seq<int>) {
    forall i | 0 <= i < |weights| :: 1 <= weights[i] <= MAX_ITEM_WEIGHT
  }

  /** The least weight the mystery slot needs so that its rarest payload gets `resolution` units. */
  function LeastMystery(resolution: int, sub: seq<real>, rarest: real): int
    requires rarest > 0.0
  {
    LargerOf(|sub|, Ceil(resolution as real / rarest))
  }

  /**
   * At this resolution the crate can be written down so: the split is the one for the slot's chance, the
   * filler takes what the shaped weights leave over, the slot is divided over its payloads, and every weight
   * fits the column.
   */
  predicate FitsAt(
      solved: Solved, resolution: int, shaped: seq<real>, scale: real, probability: real, sub: seq<real>, rarest: real)
    requires rarest > 0.0
  {
    && ResolveWeightSplit(probability, LeastMystery(resolution, sub, rarest), MAX_TOTAL_WEIGHT) == Some(solved.split)
    && solved.split.mystery >= |sub|
    && solved.shaped == Weights(shaped, Times(solved.split.ordinary as real, scale))
    && solved.filler == FillerWeight(solved.split.ordinary, solved.shaped)
    && Portions(solved.split.mystery, sub) == Some(solved.sub)
    && Drawable([solved.filler] + solved.shaped + solved.sub)
  }

  /** Then the weights sum exactly to the split's total, and the payloads' to the slot's, each by its share. */
  lemma FittingWeightsAddUp(
      solved: Solved, resolution: int, shaped: seq<real>, scale: real, probability: real, sub: seq<real>, rarest: real)
    requires NonNegative(sub) && rarest > 0.0 && FitsAt(solved, resolution, shaped, scale, probability, sub, rarest)
    ensures Total([solved.filler] + solved.shaped + solved.sub) == solved.split.total <= MAX_TOTAL_WEIGHT
    ensures |solved.sub| == |sub| && Total(solved.sub) == solved.split.mystery
    ensures Sum(sub) == 1.0 ==> Quota(Exact(sub, solved.split.mystery - |sub|), solved.sub)
  {
    hide Portions, Weights, Quota, Exact, Drawable, Sum, Total, LeastMystery, NonNegative;
    PortionsAddUp(solved.split.mystery, sub);
    TotalOfCrate(solved.filler, solved.shaped, solved.sub);
  }

  lemma {:induction false} TotalOfConcat(a: seq<int>, b: seq<int>)
    ensures Total(a + b) == Total(a) + Total(b)
  {
    if b == [] {
      assert a + b == a;
    } else {
      var n := |b| - 1;
      assert (a + b)[..|a + b| - 1] == a + b[..n];
      TotalOfConcat(a, b[..n]);
    }
  }

  lemma TotalOfCrate(filler: int, shaped: seq<int>, sub: seq<int>)
    ensures Total([filler] + shaped + sub) == filler + Total(shaped) + Total(sub)
  {
    TotalOfConcat([filler] + shaped, sub);
    TotalOfConcat([filler], shaped);
    assert [filler][..0] == [];
  }

  method AllDrawable(weights: seq<int>) returns (ok: bool)
    ensures ok == Drawable(weights)
  {
    for i := 0 to |weights|
      invariant Drawable(weights[..i])
    {
      if weights[i] > MAX_ITEM_WEIGHT || weights[i] < 1 {
        return false;
      }
      assert weights[..i + 1] == weights[..i] + [weights[i]];
    }
    assert weights[..|weights|] == weights;
    return true;
  }

  lemma DrawableParts(filler: int, shaped: seq<int>, sub: seq<int>)
    ensures Drawable([filler] + shaped + sub) <==> 1 <= filler <= MAX_ITEM_WEIGHT && Drawable(shaped) && Drawable(sub)
  {
    var all := [filler] + shaped + sub;
    assert all[0] == filler;
    assert forall i | 0 <= i < |shaped| :: all[1 + i] == shaped[i];
    assert forall i | 0 <= i < |sub| :: all[1 + |shaped| + i] == sub[i];
  }

  /** One rung: the weights at this resolution, exactly when there are any that fit. */
  method WeightsAt(resolution: int, shaped: seq<real>, scale: real, probability: real, sub: seq<real>, rarest: real)
    returns (solved: Option<Solved>)
    requires NonNegative(sub) && rarest > 0.0
    ensures solved.Some? ==> FitsAt(solved.value, resolution, shaped, scale, probability, sub, rarest)
    ensures solved.None? ==> forall other :: !FitsAt(other, resolution, shaped, scale, probability, sub, rarest)
  {
    hide Weights, Portions, Drawable, ResolveWeightSplit;
    var least := LargerOf(|sub|, Ceil(resolution as real / rarest));
    var split := ResolveWeightSplit(probability, least, MAX_TOTAL_WEIGHT);
    if split.None? || split.value.mystery < |sub| {
      return None;
    }
    var ordinary := split.value.ordinary;
    var shapedWeights := Weights(shaped, Times(ordinary as real, scale));
    var filler := FillerWeight(ordinary, shapedWeights);
    var shapedOk := AllDrawable(shapedWeights);
    var parts := Apportion(split.value.mystery, sub);
    DrawableParts(filler, shapedWeights, if parts.Some? then parts.value else []);
    if filler < 1 || filler > MAX_ITEM_WEIGHT || !shapedOk || parts.None? {
      return None;
    }
    var subOk := AllDrawable(parts.value);
    if !subOk {
      return None;
    }
    // The check on the sum that follows in the source never fires.
    TotalOfCrate(filler, shapedWeights, parts.value);
    var summed := filler + Total(shapedWeights) + Total(parts.value);
    assert summed == split.value.total;
    return Some(Solved(split.value, filler, shapedWeights, parts.value));
  }

  const RESOLUTIONS := [16, 8, 4, 2, 1]

  /** None of the first `n` resolutions has weights that fit. */
  ghost predicate NoneFits(n: nat, shaped: seq<real>, scale: real, probability: real, sub: seq<real>, rarest: real)
    requires rarest > 0.0 && n <= |RESOLUTIONS|
  {
    forall finer, other | 0 <= finer < n ::
      !FitsAt(other, RESOLUTIONS[finer], shaped, scale, probability, sub, rarest)
  }

  /** The finest of five resolutions at which the weights fit, and nothing exactly when they fit at none. */
  method SolveWeights(shaped: seq<real>, scale: real, probability: real, sub: seq<real>, rarest: real)
    returns (solved: Option<Solved>)
    requires NonNegative(sub) && rarest > 0.0
    ensures solved.Some? ==>
              exists rung | 0 <= rung < |RESOLUTIONS| ::
                && FitsAt(solved.value, RESOLUTIONS[rung], shaped, scale, probability, sub, rarest)
                && NoneFits(rung, shaped, scale, probability, sub, rarest)
    ensures solved.None? ==> NoneFits(|RESOLUTIONS|, shaped, scale, probability, sub, rarest)
  {
    hide FitsAt;
    solved := None;
    for i := 0 to |RESOLUTIONS|
      invariant solved.None? && NoneFits(i, shaped, scale, probability, sub, rarest)
    {
      solved := WeightsAt(RESOLUTIONS[i], shaped, scale, probability, sub, rarest);
      if solved.Some? {
        return;
      }
    }
  }
}
