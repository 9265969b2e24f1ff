/** Building a crate: thinning and trimming its pool, and flattening its curve until it is usable. */
module CrateSearch {
  import opened CrateMath
  import opened CrateTable
  import opened Options

  // Thinning the pool.

  function Distance(value: real, target: real, log: real -> real): real {
    if log(value) < target then target - log(value) else log(value) - target
  }

  /** The nearest unpicked index below `n`, the first of equals. */
  function Nearest(values: seq<real>, picked: set<nat>, target: real, log: real -> real, n: nat): (best: Option<nat>)
    requires n <= |values|
    ensures best.Some? ==> best.value < n && best.value !in picked
  {
    if n == 0 then None
    else
      var best := Nearest(values, picked, target, log, n - 1);
      if n - 1 in picked then best
      else if best.None? || Distance(values[n - 1], target, log) < Distance(values[best.value], target, log)
      then Some(n - 1) else best
  }

  function Target(values: seq<real>, limit: nat, step: nat, log: real -> real): real
    requires values != [] && limit >= 2
  {
    log(values[0]) + (log(values[|values| - 1]) - log(values[0])) * step as real / (limit - 1) as real
  }

  /** The picks once `steps` of the stops between the ends have been made. */
  function Picked(values: seq<real>, limit: nat, steps: nat, log: real -> real): set<nat>
    requires values != [] && limit >= 2
  {
    if steps == 0 then {0, |values| - 1}
    else
      var before := Picked(values, limit, steps - 1, log);
      var best := Nearest(values, before, Target(values, limit, steps, log), log, |values|);
      if best.Some? then before + {best.value} else before
  }

  lemma {:induction false} NearestIsNearest(
      values: seq<real>, picked: set<nat>, target: real, log: real -> real, n: nat)
    requires n <= |values|
    ensures var best := Nearest(values, picked, target, log, n);
            && (best.None? ==> forall i | 0 <= i < n :: i in picked)
            && (best.Some? ==>
                  && (forall i | 0 <= i < n && i !in picked ::
                        Distance(values[best.value], target, log) <= Distance(values[i], target, log))
                  && (forall i | 0 <= i < best.value && i !in picked ::
                        Distance(values[best.value], target, log) < Distance(values[i], target, log)))
  {
    hide Distance;
    if n > 0 {
      NearestIsNearest(values, picked, target, log, n - 1);
    }
  }

  function Below(n: nat): set<nat> {
    if n == 0 then {} else Below(n - 1) + {n - 1}
  }

  lemma {:induction false} BelowHas(n: nat)
    ensures |Below(n)| == n && forall i: nat :: i in Below(n) <==> i < n
  {
    if n > 0 {
      BelowHas(n - 1);
    }
  }

  lemma SomethingIsUnpicked(values: seq<real>, picked: set<nat>, target: real, log: real -> real)
    requires |picked| < |values|
    ensures Nearest(values, picked, target, log, |values|).Some?
  {
    NearestIsNearest(values, picked, target, log, |values|);
    if Nearest(values, picked, target, log, |values|).None? {
      BelowHas(|values|);
      SubsetIsSmaller(Below(|values|), picked);
    }
  }

  lemma OneMore(s: set<nat>, x: nat)
    requires x !in s
    ensures |s + {x}| == |s| + 1
  {
  }

  lemma TwoEnds(n: nat)
    requires n >= 2
    ensures PickedWell({0, n - 1}, 2, n)
  {
  }

  /** `count` picks, both ends among them. */
  predicate PickedWell(picked: set<nat>, count: nat, n: nat)
    requires n >= 2
  {
    |picked| == count && 0 in picked && n - 1 in picked && forall i | i in picked :: i < n
  }

  lemma OneMoreIsWell(picked: set<nat>, count: nat, n: nat, x: nat)
    requires n >= 2 && PickedWell(picked, count, n) && x < n && x !in picked
    ensures PickedWell(picked + {x}, count + 1, n)
  {
    OneMore(picked, x);
  }

  /** Every stop finds something new, so the picks grow by one each time. */
  lemma {:induction false} EveryStopPicks(values: seq<real>, limit: nat, steps: nat, log: real -> real)
    requires 2 <= limit < |values| && steps <= limit - 2
    ensures PickedWell(Picked(values, limit, steps, log), steps + 2, |values|)
  {
    if steps == 0 {
      TwoEnds(|values|);
    } else {
      EveryStopPicks(values, limit, steps - 1, log);
      var before, target := Picked(values, limit, steps - 1, log), Target(values, limit, steps, log);
      SomethingIsUnpicked(values, before, target, log);
      OneMoreIsWell(before, steps + 1, |values|, Nearest(values, before, target, log, |values|).value);
      hide Target, PickedWell;
    }
  }

  lemma SubsetIsSmaller(a: set<nat>, b: set<nat>)
    requires a <= b
    ensures |a| <= |b|
  {
    assert b == a + (b - a);
  }

  /** The picked indices in order. */
  function Ascending(picked: set<nat>, n: nat): seq<nat> {
    if n == 0 then []
    else Ascending(picked, n - 1) + if n - 1 in picked then [n - 1] else []
  }

  lemma {:induction false} AscendingIsOrdered(picked: set<nat>, n: nat)
    ensures Ordered(Ascending(picked, n), picked, n)
  {
    hide Ordered;
    if n == 0 {
      NothingIsOrdered(picked);
    } else {
      AscendingIsOrdered(picked, n - 1);
      var r := Ascending(picked, n - 1);
      AppendOrdered(picked, r, n - 1);
      assert r + [] == r;
    }
  }

  predicate Ordered(r: seq<nat>, picked: set<nat>, n: nat) {
    && (forall i, j | 0 <= i < j < |r| :: r[i] < r[j])
    && (forall i | 0 <= i < |r| :: r[i] < n && r[i] in picked)
  }

  lemma NothingIsOrdered(picked: set<nat>)
    ensures Ordered([], picked, 0)
  {
  }

  lemma AppendOrdered(picked: set<nat>, r: seq<nat>, x: nat)
    requires Ordered(r, picked, x)
    ensures Ordered(r, picked, x + 1)
    ensures x in picked ==> Ordered(r + [x], picked, x + 1)
  {
  }

  lemma {:induction false} AscendingHasAll(picked: set<nat>, n: nat, x: nat)
    requires x in picked && x < n
    ensures x in Ascending(picked, n)
  {
    if x < n - 1 {
      AscendingHasAll(picked, n - 1, x);
    }
  }

  function PickedBelow(picked: set<nat>, n: nat): set<nat> {
    set x | x in picked && x < n
  }

  lemma {:induction false} AscendingHasNoMore(picked: set<nat>, n: nat)
    ensures |Ascending(picked, n)| == |PickedBelow(picked, n)|
  {
    if n > 0 {
      AscendingHasNoMore(picked, n - 1);
      if n - 1 in picked {
        assert PickedBelow(picked, n) == PickedBelow(picked, n - 1) + {n - 1};
      } else {
        assert PickedBelow(picked, n) == PickedBelow(picked, n - 1);
      }
    } else {
      assert PickedBelow(picked, n) == {};
    }
  }

  /**
   * A pool longer than the limit is thinned to exactly `limit` entries, in order and without repeats, its
   * cheapest and its dearest among them.
   */
  lemma ThinnedKeepsTheEnds(values: seq<real>, limit: nat, log: real -> real)
    requires 2 <= limit < |values|
    ensures var r := Ascending(AllPicked(values, limit, log), |values|);
            && |r| == limit && r[0] == 0 && r[limit - 1] == |values| - 1
            && (forall i, j | 0 <= i < j < limit :: r[i] < r[j])
            && (forall i | 0 <= i < limit :: r[i] < |values|)
  {
    EveryStopPicks(values, limit, limit - 2, log);
    var picked := Picked(values, limit, limit - 2, log);
    var r := Ascending(picked, |values|);
    AscendingIsOrdered(picked, |values|);
    AscendingHasNoMore(picked, |values|);
    assert picked == PickedBelow(picked, |values|);
    AscendingHasAll(picked, |values|, 0);
    AscendingHasAll(picked, |values|, |values| - 1);
    hide Picked, Ascending, PickedBelow, Nearest;
  }

  /** The picks once all stops have been made; with a limit below two there are none, and the ends stay. */
  function AllPicked(values: seq<real>, limit: nat, log: real -> real): set<nat>
    requires values != []
  {
    if limit < 2 then {0, |values| - 1} else Picked(values, limit, limit - 2, log)
  }

  /** A limit below two still leaves the two ends. */
  lemma ThinnedBelowTwo(values: seq<real>, limit: nat, log: real -> real)
    requires limit < 2 && limit < |values|
    ensures Ascending(AllPicked(values, limit, log), |values|) == if |values| == 1 then [0] else [0, |values| - 1]
  {
    var n := |values|;
    if n == 1 {
      assert Ascending({0}, 1) == Ascending({0}, 0) + [0];
    } else {
      OnlyFirst(n, n - 1);
    }
  }

  lemma {:induction false} OnlyFirst(n: nat, k: nat)
    requires n >= 2 && 1 <= k < n
    ensures Ascending({0, n - 1}, k) == [0]
  {
    if k == 1 {
      assert Ascending({0, n - 1}, 1) == Ascending({0, n - 1}, 0) + [0];
    } else {
      OnlyFirst(n, k - 1);
      assert [0] + [] == [0];
    }
  }

  /** thinPool, as the indices it keeps. */
  method ThinPool(values: seq<real>, limit: nat, log: real -> real) returns (kept: seq<nat>)
    ensures |values| <= limit ==> kept == seq(|values|, i => i)
    ensures |values| > limit ==> kept == Ascending(AllPicked(values, limit, log), |values|)
  {
    if |values| <= limit {
      return seq(|values|, i => i);
    }
    var picked: set<nat> := {0, |values| - 1};
    var step := 1;
    if limit >= 2 {
      EveryStopPicks(values, limit, 0, log);
    }
    while step < limit - 1 && |picked| < limit
      invariant 1 <= step && (limit >= 2 ==> step <= limit - 1)
      invariant limit < 2 ==> picked == AllPicked(values, limit, log)
      invariant limit >= 2 ==> picked == Picked(values, limit, step - 1, log) && |picked| == step + 1
      decreases limit - step
    {
      var target := Target(values, limit, step, log);
      var best := FindNearest(values, picked, target, log);
      if best.Some? {
        picked := picked + {best.value};
      }
      EveryStopPicks(values, limit, step, log);
      step := step + 1;
    }
    kept := InOrder(picked, |values|);
  }

  method InOrder(picked: set<nat>, count: nat) returns (kept: seq<nat>)
    ensures kept == Ascending(picked, count)
  {
    kept := [];
    for index := 0 to count
      invariant kept == Ascending(picked, index)
    {
      if index in picked {
        kept := kept + [index];
      }
    }
  }

  method FindNearest(values: seq<real>, picked: set<nat>, target: real, log: real -> real) returns (best: Option<nat>)
    ensures best == Nearest(values, picked, target, log, |values|)
  {
    best := None;
    for index := 0 to |values|
      invariant best == Nearest(values, picked, target, log, index)
    {
      if index !in picked {
        var distance := Distance(values[index], target, log);
        if best.None? || distance < Distance(values[best.value], target, log) {
          best := Some(index);
        }
      }
    }
  }

  // Trimming the cheap end.

  /** Drops the cheapest entries while the plain mean does not clear the target, down to three entries. */
  method Trim(values: seq<real>, target: real) returns (cut: nat)
    requires values != []
    ensures cut < |values|
    ensures forall k | 0 <= k < cut :: |values| - k > 3 && Mean(values[k..]) <= target
    ensures |values| - cut <= 3 || Mean(values[cut..]) > target
  {
    cut := 0;
    while |values| - cut > 3 && Mean(values[cut..]) <= target
      invariant cut < |values|
      invariant forall k | 0 <= k < cut :: |values| - k > 3 && Mean(values[k..]) <= target
    {
      cut := cut + 1;
    }
  }

  /** Nothing trimmed could have been kept, short of a mean of exactly the target: no falling table reaches it. */
  lemma TrimmingIsNecessary(values: seq<real>, target: real, k: nat, weights: seq<real>)
    requires k < |values| && Rising(values) && Mean(values[k..]) < target
    requires |weights| == |values| - k && Falling(weights) && Sum(weights) > 0.0
    ensures WeightedMean(weights, values[k..]) < target
  {
    NoFallingTableBeatsTheMean(weights, values[k..], target);
  }

  // Flattening the curve.

  const FLATTEST := 0.02
  const RUNGS: nat := 400

  function Flatter(falloff: real): real {
    if falloff * 0.88 > FLATTEST then falloff * 0.88 else FLATTEST
  }

  function Falloff(start: real, rung: nat): real {
    if rung == 0 then start else Flatter(Falloff(start, rung - 1))
  }

  /** The rungs the loop gets to: it stops once the curve is as flat as it may be. */
  predicate Reached(start: real, rung: nat) {
    rung < RUNGS && forall k | 0 <= k < rung :: Falloff(start, k) > FLATTEST
  }

  predicate UsableAt(
      values: seq<real>, price: real, filler: real, target: real, log: real -> real, exp: real -> real, falloff: real)
    requires price > 0.0
  {
    var shaped := ShapeWeights(values, price, falloff, log, exp);
    |shaped| == |values| && Usable(shaped, values, filler, target)
  }

  /** The relaxation loop: the steepest rung that is usable, or nothing when none of them is. */
  method Relax(
      values: seq<real>, price: real, filler: real, target: real, start: real, log: real -> real, exp: real -> real)
    returns (rung: Option<nat>)
    requires price > 0.0
    ensures rung.Some? ==>
              && Reached(start, rung.value)
              && UsableAt(values, price, filler, target, log, exp, Falloff(start, rung.value))
              && forall k | 0 <= k < rung.value :: !UsableAt(values, price, filler, target, log, exp, Falloff(start, k))
    ensures rung.None? ==>
              forall k | Reached(start, k) :: !UsableAt(values, price, filler, target, log, exp, Falloff(start, k))
  {
    hide UsableAt, Flatter;
    var falloff := start;
    for relaxation := 0 to RUNGS
      invariant falloff == Falloff(start, relaxation)
      invariant forall k | 0 <= k < relaxation :: Falloff(start, k) > FLATTEST
      invariant forall k | 0 <= k < relaxation :: !UsableAt(values, price, filler, target, log, exp, Falloff(start, k))
    {
      if UsableAt(values, price, filler, target, log, exp, falloff) {
        return Some(relaxation);
      }
      if falloff <= FLATTEST {
        return None;
      }
      falloff := Flatter(falloff);
    }
    return None;
  }

  /** Whatever rung is taken, the crate pays its target with a falling table, so its plain mean clears the target. */
  lemma RelaxedCrateIsSound(
      values: seq<real>, price: real, filler: real, target: real, log: real -> real, exp: real -> real, falloff: real)
    requires price > 0.0 && falloff >= 0.0 && Rise(log, exp) && Rising([filler] + values) && filler > 0.0
    requires UsableAt(values, price, filler, target, log, exp, falloff)
    ensures var shaped := ShapeWeights(values, price, falloff, log, exp);
            var shares := Shares(shaped, ScalePerWeight(shaped, values, filler, target));
            && Falling(shares) && NonNegative(shares) && Sum(shares) == 1.0 && Dot(shares, [filler] + values) == target
    ensures Mean([filler] + values) >= target
  {
    ValuesRise(filler, values);
    ShapeFalls(values, price, falloff, log, exp);
    var shaped := ShapeWeights(values, price, falloff, log, exp);
    assert |shaped| == |values| && Usable(shaped, values, filler, target);
    hide UsableAt, Usable, ShapeWeights, Shares, ScalePerWeight, Mean, Dot, Sum, Rise;
    SharesPayTheTarget(shaped, values, filler, target);
    SharesFall(shaped, values, filler, target);
    UsableNeedsTheMean(shaped, values, filler, target);
  }

  lemma ValuesRise(filler: real, values: seq<real>)
    requires Rising([filler] + values)
    ensures Rising(values) && forall i | 0 <= i < |values| :: values[i] >= filler
  {
    var all := [filler] + values;
    forall i, j | 0 <= i < |values| && 0 <= j < |values|
      ensures filler <= values[i] && (i < j ==> values[i] <= values[j])
    {
      assert all[i + 1] == values[i] && all[j + 1] == values[j] && all[0] == filler;
    }
  }

  // What a table pays.

  function Shorter(a: nat, b: nat): nat {
    if a < b then a else b
  }

  /** The mean of the entries that have a weight. */
  function MeanOfWeighted(values: seq<real>, weights: seq<real>): real {
    var n := Shorter(|values|, |weights|);
    if Sum(weights[..n]) > 0.0 then Dot(weights[..n], values[..n]) / Sum(weights[..n]) else 0.0
  }

  /** expectedValue: an entry without a weight, or a weight without an entry, does not count. */
  method ExpectedValue(values: seq<real>, weights: seq<real>) returns (mean: real)
    ensures mean == MeanOfWeighted(values, weights)
  {
    var weighted, total := 0.0, 0.0;
    for index := 0 to |values|
      invariant var n := Shorter(index, |weights|);
                weighted == Dot(weights[..n], values[..n]) && total == Sum(weights[..n])
    {
      if index < |weights| {
        assert weights[..index + 1][..index] == weights[..index] && values[..index + 1][..index] == values[..index];
        weighted := weighted + Times(weights[index], values[index]);
        total := total + weights[index];
      }
    }
    return if total > 0.0 then weighted / total else 0.0;
  }

  /** On a table it is what the shares pay: weights that stand for shares of a positive whole average alike. */
  lemma ScalingKeepsTheMean(values: seq<real>, weights: seq<real>, k: real)
    requires |values| == |weights| && k > 0.0 && Sum(weights) > 0.0
    ensures MeanOfWeighted(values, Scaled(weights, k)) == MeanOfWeighted(values, weights) == WeightedMean(weights, values)
  {
    assert weights[..|weights|] == weights && values[..|values|] == values;
    assert Scaled(weights, k)[..|weights|] == Scaled(weights, k);
    SumScaled(weights, k);
    DotScaled(weights, k, values);
    Cancelled(k, Dot(weights, values), Sum(weights));
  }

  lemma Cancelled(k: real, d: real, s: real)
    requires k > 0.0 && s > 0.0
    ensures Times(k, s) > 0.0 && Times(k, d) / Times(k, s) == d / s
  {
    var q := d / s;
    assert d == q * s;
    assert k * d == q * (k * s);
    assert k * s > 0.0;
  }
}
