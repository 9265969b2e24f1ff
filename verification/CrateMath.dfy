/** Sums over a crate's table, and what a table can average when dearer outcomes are never likelier. */
module CrateMath {

  function Sum(s: seq<real>): real {
    if s == [] then 0.0 else Sum(s[..|s| - 1]) + s[|s| - 1]
  }

  function Times(k: real, x: real): real {
    k * x
  }

  /** Sum of weights[i] * values[i]. */
  function Dot(weights: seq<real>, values: seq<real>): real
    requires |weights| == |values|
  {
    if weights == [] then 0.0
    else
      var n := |weights| - 1;
      Dot(weights[..n], values[..n]) + Times(weights[n], values[n])
  }

  predicate Rising(s: seq<real>) {
    forall i, j | 0 <= i < j < |s| :: s[i] <= s[j]
  }

  predicate Falling(s: seq<real>) {
    forall i, j | 0 <= i < j < |s| :: s[i] >= s[j]
  }

  predicate NonNegative(s: seq<real>) {
    forall i | 0 <= i < |s| :: s[i] >= 0.0
  }

  function Mean(values: seq<real>): real
    requires values != []
  {
    Sum(values) / |values| as real
  }

  function WeightedMean(weights: seq<real>, values: seq<real>): real
    requires |weights| == |values| && Sum(weights) > 0.0
  {
    Dot(weights, values) / Sum(weights)
  }

  lemma {:induction false} SumNonNegative(s: seq<real>)
    requires NonNegative(s)
    ensures Sum(s) >= 0.0
  {
    if s != [] {
      SumNonNegative(s[..|s| - 1]);
    }
  }

  lemma CrossStep(w: real, v: real, wi: real, vi: real)
    requires wi >= w && vi <= v
    ensures Times(wi, vi) + Times(w, v) <= Times(wi, v) + Times(w, vi)
  {
    assert (wi - w) * (v - vi) >= 0.0;
  }

  /** One further entry, dearer than all of these and no likelier: its products against theirs. */
  lemma {:induction false} Cross(weights: seq<real>, values: seq<real>, w: real, v: real)
    requires |weights| == |values|
    requires forall i | 0 <= i < |weights| :: weights[i] >= w && values[i] <= v
    ensures Dot(weights, values) + Times(|weights| as real, Times(w, v)) <= Times(Sum(weights), v) + Times(w, Sum(values))
  {
    if weights != [] {
      var n := |weights| - 1;
      Cross(weights[..n], values[..n], w, v);
      CrossStep(w, v, weights[n], values[n]);
      assert |weights| as real == n as real + 1.0;
      hide Times;
      CrossSum(Dot(weights[..n], values[..n]), n as real, Sum(weights[..n]), Sum(values[..n]), w, v, weights[n],
        values[n]);
    }
  }

  lemma CrossSum(d: real, n: real, sw: real, sv: real, w: real, v: real, wi: real, vi: real)
    requires d + Times(n, Times(w, v)) <= Times(sw, v) + Times(w, sv)
    requires Times(wi, vi) + Times(w, v) <= Times(wi, v) + Times(w, vi)
    ensures d + Times(wi, vi) + Times(n + 1.0, Times(w, v)) <= Times(sw + wi, v) + Times(w, sv + vi)
  {
    assert (n + 1.0) * (w * v) == n * (w * v) + w * v;
    assert (sw + wi) * v == sw * v + wi * v && w * (sv + vi) == w * sv + w * vi;
  }

  lemma ChebyshevStep(d: real, n: real, sw: real, sv: real, w: real, v: real)
    requires Times(n, d) <= Times(sw, sv) && d + Times(n, Times(w, v)) <= Times(sw, v) + Times(w, sv)
    ensures Times(n + 1.0, d + Times(w, v)) <= Times(sw + w, sv + v)
  {
    assert (n + 1.0) * (d + w * v) == n * d + d + n * (w * v) + w * v;
    assert (sw + w) * (sv + v) == sw * sv + sw * v + w * sv + w * v;
  }

  /** Chebyshev's sum inequality: falling weights on rising values average at most what equal weights do. */
  lemma {:induction false} Chebyshev(weights: seq<real>, values: seq<real>)
    requires |weights| == |values| && Falling(weights) && Rising(values)
    ensures Times(|weights| as real, Dot(weights, values)) <= Times(Sum(weights), Sum(values))
  {
    if weights != [] {
      var n := |weights| - 1;
      Chebyshev(weights[..n], values[..n]);
      Cross(weights[..n], values[..n], weights[n], values[n]);
      var d, sw, sv := Dot(weights[..n], values[..n]), Sum(weights[..n]), Sum(values[..n]);
      assert Dot(weights, values) == d + Times(weights[n], values[n]);
      assert Sum(weights) == sw + weights[n] && Sum(values) == sv + values[n];
      assert |weights| as real == n as real + 1.0;
      hide Dot, Sum, Times;
      ChebyshevStep(d, n as real, sw, sv, weights[n], values[n]);
    }
  }

  lemma CrossStepStrict(w: real, v: real, wi: real, vi: real)
    requires wi > w && vi < v
    ensures Times(wi, vi) + Times(w, v) < Times(wi, v) + Times(w, vi)
  {
    var a, b := wi - w, v - vi;
    PositiveTimes(a, b);
    assert a * b == wi * v - wi * vi - w * v + w * vi;
  }

  lemma PositiveTimes(a: real, b: real)
    requires a > 0.0 && b > 0.0
    ensures a * b > 0.0
  {
  }

  lemma CrossSumStrict(d: real, n: real, sw: real, sv: real, w: real, v: real, wi: real, vi: real)
    requires d + Times(n, Times(w, v)) < Times(sw, v) + Times(w, sv)
    requires Times(wi, vi) + Times(w, v) <= Times(wi, v) + Times(w, vi)
    ensures d + Times(wi, vi) + Times(n + 1.0, Times(w, v)) < Times(sw + wi, v) + Times(w, sv + vi)
  {
    assert (n + 1.0) * (w * v) == n * (w * v) + w * v;
    assert (sw + wi) * v == sw * v + wi * v && w * (sv + vi) == w * sv + w * vi;
  }

  /** Strictly so when the first of these is strictly likelier and strictly cheaper. */
  lemma {:induction false} CrossStrict(weights: seq<real>, values: seq<real>, w: real, v: real)
    requires |weights| == |values| && weights != [] && weights[0] > w && values[0] < v
    requires forall i | 0 <= i < |weights| :: weights[i] >= w && values[i] <= v
    ensures Dot(weights, values) + Times(|weights| as real, Times(w, v)) < Times(Sum(weights), v) + Times(w, Sum(values))
  {
    var n := |weights| - 1;
    assert |weights| as real == n as real + 1.0;
    if n == 0 {
      CrossStepStrict(w, v, weights[0], values[0]);
      assert weights[..0] == [] && values[..0] == [];
    } else {
      CrossStrict(weights[..n], values[..n], w, v);
      CrossStep(w, v, weights[n], values[n]);
      hide Times;
      CrossSumStrict(Dot(weights[..n], values[..n]), n as real, Sum(weights[..n]), Sum(values[..n]), w, v, weights[n],
                     values[n]);
    }
  }

  lemma ChebyshevStepStrict(d: real, n: real, sw: real, sv: real, w: real, v: real)
    requires Times(n, d) <= Times(sw, sv) && d + Times(n, Times(w, v)) < Times(sw, v) + Times(w, sv)
    ensures Times(n + 1.0, d + Times(w, v)) < Times(sw + w, sv + v)
  {
    assert (n + 1.0) * (d + w * v) == n * d + d + n * (w * v) + w * v;
    assert (sw + w) * (sv + v) == sw * sv + sw * v + w * sv + w * v;
  }

  lemma LastOf(weights: seq<real>, values: seq<real>, n: nat)
    requires |weights| == |values| == n + 1
    ensures Dot(weights, values) == Dot(weights[..n], values[..n]) + Times(weights[n], values[n])
    ensures Sum(weights) == Sum(weights[..n]) + weights[n] && Sum(values) == Sum(values[..n]) + values[n]
    ensures |weights| as real == n as real + 1.0
  {
  }

  lemma ChebyshevStrict(weights: seq<real>, values: seq<real>)
    requires |weights| == |values| && Falling(weights) && Rising(values) && weights != []
    requires weights[0] > weights[|weights| - 1] && values[0] < values[|values| - 1]
    ensures Times(|weights| as real, Dot(weights, values)) < Times(Sum(weights), Sum(values))
  {
    hide *;
    var n := |weights| - 1;
    FrontOf(weights, values, n);
    LastOf(weights, values, n);
    StrictByLast(weights[..n], values[..n], weights[n], values[n]);
  }

  lemma FrontOf(weights: seq<real>, values: seq<real>, n: nat)
    requires |weights| == |values| == n + 1 && Falling(weights) && Rising(values) && weights[0] > weights[n]
    ensures n > 0 && Falling(weights[..n]) && Rising(values[..n])
    ensures forall i | 0 <= i < n :: weights[..n][i] >= weights[n] && values[..n][i] <= values[n]
  {
  }

  lemma StrictByLast(ws: seq<real>, vs: seq<real>, w: real, v: real)
    requires |ws| == |vs| && ws != [] && Falling(ws) && Rising(vs) && ws[0] > w && vs[0] < v
    requires forall i | 0 <= i < |ws| :: ws[i] >= w && vs[i] <= v
    ensures Times(|ws| as real + 1.0, Dot(ws, vs) + Times(w, v)) < Times(Sum(ws) + w, Sum(vs) + v)
  {
    hide Dot, Sum, Times, Falling, Rising;
    Chebyshev(ws, vs);
    CrossStrict(ws, vs, w, v);
    ChebyshevStepStrict(Dot(ws, vs), |ws| as real, Sum(ws), Sum(vs), w, v);
  }

  /** The equality case: with values that differ, only equal weights average as much as equal weights do. */
  lemma ChebyshevIsEqualOnlyWhenFlat(weights: seq<real>, values: seq<real>)
    requires |weights| == |values| && Falling(weights) && Rising(values) && weights != []
    requires values[0] < values[|values| - 1]
    requires Times(|weights| as real, Dot(weights, values)) == Times(Sum(weights), Sum(values))
    ensures forall i | 0 <= i < |weights| :: weights[i] == weights[0]
  {
    hide Dot, Sum, Times;
    if weights[0] > weights[|weights| - 1] {
      ChebyshevStrict(weights, values);
    }
  }

  lemma {:induction false} FlatSums(weights: seq<real>, values: seq<real>, w: real)
    requires |weights| == |values| && forall i | 0 <= i < |weights| :: weights[i] == w
    ensures Sum(weights) == Times(|weights| as real, w) && Dot(weights, values) == Times(w, Sum(values))
  {
    if weights != [] {
      var n := |weights| - 1;
      FlatSums(weights[..n], values[..n], w);
      assert |weights| as real == n as real + 1.0;
    }
  }

  lemma {:induction false} SumAtMost(values: seq<real>, top: real)
    requires forall i | 0 <= i < |values| :: values[i] <= top
    ensures Sum(values) <= Times(|values| as real, top)
  {
    if values != [] {
      var n := |values| - 1;
      SumAtMost(values[..n], top);
      assert |values| as real == n as real + 1.0;
    }
  }

  lemma QuotientBound(a: real, b: real, n: real, w: real)
    requires n > 0.0 && w > 0.0 && Times(n, a) <= Times(w, b)
    ensures a / w <= b / n
  {
    var x, y := a / w, b / n;
    assert a == x * w && b == y * n;
    assert n * (x * w) <= w * (y * n);
    assert (n * w) * (y - x) >= 0.0;
    assert n * w > 0.0;
  }

  /** A table that is never likelier for being dearer averages at most the plain mean of its values. */
  lemma FallingTableMean(weights: seq<real>, values: seq<real>)
    requires |weights| == |values| && Falling(weights) && Rising(values) && Sum(weights) > 0.0
    ensures values != [] && WeightedMean(weights, values) <= Mean(values)
  {
    Chebyshev(weights, values);
    QuotientBound(Dot(weights, values), Sum(values), |values| as real, Sum(weights));
  }

  lemma {:induction false} SumFirst(s: seq<real>)
    requires s != []
    ensures Sum(s) == s[0] + Sum(s[1..])
  {
    if |s| > 1 {
      var t := s[..|s| - 1];
      SumFirst(t);
      assert t[1..] == s[1..][..|s| - 2];
    }
  }

  lemma {:induction false} DotFirst(weights: seq<real>, values: seq<real>)
    requires |weights| == |values| && weights != []
    ensures Dot(weights, values) == Times(weights[0], values[0]) + Dot(weights[1..], values[1..])
  {
    if |weights| > 1 {
      var n := |weights| - 1;
      DotFirst(weights[..n], values[..n]);
      assert weights[..n][1..] == weights[1..][..n - 1] && values[..n][1..] == values[1..][..n - 1];
    }
  }

  lemma {:induction false} SumScaled(s: seq<real>, k: real)
    ensures Sum(Scaled(s, k)) == Times(k, Sum(s))
  {
    if s != [] {
      var n := |s| - 1;
      SumScaled(s[..n], k);
      ScaledPrefix(s, k, n);
      Spread(k, Sum(s[..n]), s[n]);
      hide Times;
    }
  }

  lemma {:induction false} DotScaled(s: seq<real>, k: real, values: seq<real>)
    requires |s| == |values|
    ensures Dot(Scaled(s, k), values) == Times(k, Dot(s, values))
  {
    if s != [] {
      var n := |s| - 1;
      DotScaled(s[..n], k, values[..n]);
      ScaledPrefix(s, k, n);
      Regroup(k, s[n], values[n]);
      Spread(k, Dot(s[..n], values[..n]), Times(s[n], values[n]));
      hide Times;
    }
  }

  lemma Spread(k: real, a: real, b: real)
    ensures Times(k, a + b) == Times(k, a) + Times(k, b)
  {
  }

  lemma Regroup(a: real, b: real, c: real)
    ensures Times(Times(a, b), c) == Times(a, Times(b, c))
  {
  }

  function Scaled(s: seq<real>, k: real): seq<real> {
    seq(|s|, i requires 0 <= i < |s| => Times(k, s[i]))
  }

  lemma ScaledPrefix(s: seq<real>, k: real, n: nat)
    requires n <= |s|
    ensures Scaled(s, k)[..n] == Scaled(s[..n], k)
  {
    hide Times;
  }
}
