/** Dividing a whole weight over shares by the largest remainder, one unit each to begin with. */
module LargestRemainder {
  import opened CrateMath
  import opened CrateTable
  import opened Options

  function Exact(probabilities: seq<real>, remaining: int): seq<real> {
    seq(|probabilities|, i requires 0 <= i < |probabilities| => Times(remaining as real, probabilities[i]))
  }

  function Floors(exact: seq<real>): seq<int> {
    seq(|exact|, i requires 0 <= i < |exact| => exact[i].Floor)
  }

  function Remainder(x: real): real {
    x - x.Floor as real
  }

  /** Positions by falling remainder; equal remainders stay in the order they came. */
  function InsertAt(exact: seq<real>, i: nat, order: seq<nat>): seq<nat>
    requires i < |exact| && forall k | 0 <= k < |order| :: order[k] < |exact|
  {
    if order == [] || Remainder(exact[i]) >= Remainder(exact[order[0]]) then [i] + order
    else [order[0]] + InsertAt(exact, i, order[1..])
  }

  function Order(exact: seq<real>, n: nat): (order: seq<nat>)
    requires n <= |exact|
    ensures forall k | 0 <= k < |order| :: order[k] < |exact|
    decreases |exact| - n
  {
    if n == |exact| then [] else
      InsertKeepsRange(exact, n, Order(exact, n + 1));
      InsertAt(exact, n, Order(exact, n + 1))
  }

  lemma {:induction false} InsertKeepsRange(exact: seq<real>, i: nat, order: seq<nat>)
    requires i < |exact| && forall k | 0 <= k < |order| :: order[k] < |exact|
    ensures forall k | 0 <= k < |InsertAt(exact, i, order)| :: InsertAt(exact, i, order)[k] < |exact|
  {
    if order != [] && Remainder(exact[i]) < Remainder(exact[order[0]]) {
      InsertKeepsRange(exact, i, order[1..]);
    }
  }

  predicate ByRemainder(exact: seq<real>, order: seq<nat>) {
    && (forall k | 0 <= k < |order| :: order[k] < |exact|)
    && forall k, l | 0 <= k < l < |order| :: Remainder(exact[order[k]]) >= Remainder(exact[order[l]])
  }

  lemma {:induction false} InsertKeepsEntries(exact: seq<real>, i: nat, order: seq<nat>)
    requires i < |exact| && forall k | 0 <= k < |order| :: order[k] < |exact|
    ensures |InsertAt(exact, i, order)| == |order| + 1
    ensures multiset(InsertAt(exact, i, order)) == multiset(order) + multiset{i}
  {
    hide Remainder;
    if order != [] {
      assert order == [order[0]] + order[1..];
      if Remainder(exact[i]) < Remainder(exact[order[0]]) {
        InsertKeepsEntries(exact, i, order[1..]);
      }
    }
  }

  lemma {:induction false} InsertKeepsOrder(exact: seq<real>, i: nat, order: seq<nat>)
    requires i < |exact| && ByRemainder(exact, order)
    ensures ByRemainder(exact, InsertAt(exact, i, order))
  {
    hide Remainder, ByRemainder;
    OrderInRange(exact, order);
    if order == [] {
      OneInOrder(exact, i);
    } else if Remainder(exact[i]) >= Remainder(exact[order[0]]) {
      FirstInOrder(exact, i, order);
    } else {
      var rest := InsertAt(exact, i, order[1..]);
      RestInOrder(exact, order);
      InsertKeepsOrder(exact, i, order[1..]);
      InsertAddsOne(exact, i, order[1..]);
      LaterInOrder(exact, i, order, rest);
    }
  }

  lemma OrderInRange(exact: seq<real>, order: seq<nat>)
    requires ByRemainder(exact, order)
    ensures forall k | 0 <= k < |order| :: order[k] < |exact|
  {
  }

  lemma NoneInOrder(exact: seq<real>)
    ensures ByRemainder(exact, [])
  {
  }

  lemma OneInOrder(exact: seq<real>, i: nat)
    requires i < |exact|
    ensures ByRemainder(exact, [i] + [])
  {
  }

  lemma RestInOrder(exact: seq<real>, order: seq<nat>)
    requires order != [] && ByRemainder(exact, order)
    ensures ByRemainder(exact, order[1..])
  {
  }

  lemma FirstInOrder(exact: seq<real>, i: nat, order: seq<nat>)
    requires i < |exact| && order != [] && ByRemainder(exact, order)
    requires Remainder(exact[i]) >= Remainder(exact[order[0]])
    ensures ByRemainder(exact, [i] + order)
  {
  }

  lemma {:induction false} InsertAddsOne(exact: seq<real>, i: nat, order: seq<nat>)
    requires i < |exact| && forall k | 0 <= k < |order| :: order[k] < |exact|
    ensures forall j | j in InsertAt(exact, i, order) :: j == i || j in order
  {
    hide Remainder;
    if order != [] && Remainder(exact[i]) < Remainder(exact[order[0]]) {
      InsertAddsOne(exact, i, order[1..]);
    }
  }

  lemma LaterInOrder(exact: seq<real>, i: nat, order: seq<nat>, rest: seq<nat>)
    requires i < |exact| && order != [] && ByRemainder(exact, order) && ByRemainder(exact, rest)
    requires Remainder(exact[i]) < Remainder(exact[order[0]]) && forall j | j in rest :: j == i || j in order[1..]
    ensures ByRemainder(exact, [order[0]] + rest)
  {
    hide Remainder;
    forall l | 0 <= l < |rest|
      ensures Remainder(exact[order[0]]) >= Remainder(exact[rest[l]])
    {
      if rest[l] != i {
        assert rest[l] in order[1..];
        var k :| 0 <= k < |order[1..]| && order[1..][k] == rest[l];
        assert order[k + 1] == rest[l];
      }
    }
  }

  function From(n: nat, count: nat): multiset<nat>
    requires n <= count
    decreases count - n
  {
    if n == count then multiset{} else multiset{n} + From(n + 1, count)
  }

  lemma {:induction false} FromHasEach(n: nat, count: nat, i: nat)
    requires n <= count
    ensures From(n, count)[i] == if n <= i < count then 1 else 0
    decreases count - n
  {
    if n < count {
      FromHasEach(n + 1, count, i);
    }
  }

  lemma {:induction false} OrderIsSorted(exact: seq<real>, n: nat)
    requires n <= |exact|
    ensures var order := Order(exact, n);
            ByRemainder(exact, order) && |order| == |exact| - n && multiset(order) == From(n, |exact|)
    decreases |exact| - n
  {
    hide Remainder, ByRemainder, InsertAt;
    if n == |exact| {
      NoneInOrder(exact);
    } else {
      OrderIsSorted(exact, n + 1);
      InsertKeepsOrder(exact, n, Order(exact, n + 1));
      InsertKeepsEntries(exact, n, Order(exact, n + 1));
    }
  }

  predicate IsOrdering(order: seq<nat>, count: nat) {
    && |order| == count
    && (forall k | 0 <= k < count :: order[k] < count)
    && (forall k, l | 0 <= k < l < count :: order[k] != order[l])
    && forall i | 0 <= i < count :: i in order
  }

  lemma {:induction false} CountOf(order: seq<nat>, x: nat, k: nat, l: nat)
    requires k < l < |order| && order[k] == order[l] == x
    ensures multiset(order)[x] >= 2
  {
    assert order == order[..l] + order[l..];
    assert order[..l][k] == x && order[l..][0] == x;
    assert x in multiset(order[..l]) && x in multiset(order[l..]);
  }

  lemma OrderIsOrdering(exact: seq<real>)
    ensures IsOrdering(Order(exact, 0), |exact|) && ByRemainder(exact, Order(exact, 0))
  {
    var order := Order(exact, 0);
    OrderIsSorted(exact, 0);
    forall k, l | 0 <= k < l < |order|
      ensures order[k] != order[l]
    {
      if order[k] == order[l] {
        CountOf(order, order[k], k, l);
        FromHasEach(0, |exact|, order[k]);
      }
    }
    forall i | 0 <= i < |exact|
      ensures i in order
    {
      FromHasEach(0, |exact|, i);
      assert i in multiset(order);
    }
  }

  // Sums of floors.

  lemma {:induction false} FloorsAreNear(exact: seq<real>)
    ensures Total(Floors(exact)) as real <= Sum(exact)
    ensures exact != [] ==> Sum(exact) < (Total(Floors(exact)) + |exact|) as real
  {
    if exact != [] {
      var n := |exact| - 1;
      FloorsAreNear(exact[..n]);
      assert Floors(exact)[..n] == Floors(exact[..n]);
      assert exact[n].Floor as real <= exact[n] < exact[n].Floor as real + 1.0;
    }
  }

  lemma ExactSums(probabilities: seq<real>, remaining: int)
    ensures Sum(Exact(probabilities, remaining)) == Times(remaining as real, Sum(probabilities))
  {
    assert Exact(probabilities, remaining) == Scaled(probabilities, remaining as real);
    SumScaled(probabilities, remaining as real);
  }

  lemma {:induction false} OneMoreUnit(s: seq<int>, i: nat)
    requires i < |s|
    ensures Total(s[i := s[i] + 1]) == Total(s) + 1
  {
    var n := |s| - 1;
    if i < n {
      OneMoreUnit(s[..n], i);
      assert s[i := s[i] + 1][..n] == s[..n][i := s[i] + 1];
    } else {
      assert s[i := s[i] + 1][..n] == s[..n];
    }
  }

  function PlusOne(s: seq<int>): seq<int> {
    seq(|s|, i requires 0 <= i < |s| => s[i] + 1)
  }

  lemma {:induction false} PlusOneTotals(s: seq<int>)
    ensures Total(PlusOne(s)) == Total(s) + |s|
  {
    if s != [] {
      var n := |s| - 1;
      PlusOneTotals(s[..n]);
      assert PlusOne(s)[..n] == PlusOne(s[..n]);
    }
  }

  /** The units each position got beyond its floor, when no position is served twice. */
  predicate HandedOut(exact: seq<real>, given: seq<int>, order: seq<nat>, cursor: nat)
    requires |given| == |exact| && IsOrdering(order, |exact|)
  {
    forall k | 0 <= k < |order| :: given[order[k]] == exact[order[k]].Floor + if k < cursor then 1 else 0
  }

  /** The weights follow the shares: each its floor or one more, plus one, and the larger remainders first. */
  ghost predicate Quota(exact: seq<real>, weights: seq<int>) {
    && |weights| == |exact|
    && (forall i | 0 <= i < |exact| :: weights[i] - 1 - exact[i].Floor in {0, 1})
    && (forall i, j | 0 <= i < |exact| && 0 <= j < |exact| ::
          weights[i] - 1 == exact[i].Floor + 1 && weights[j] - 1 == exact[j].Floor
          ==> Remainder(exact[i]) >= Remainder(exact[j]))
  }

  lemma HandedOutIsQuota(exact: seq<real>, given: seq<int>, cursor: nat)
    requires |given| == |exact| && cursor <= |exact|
    requires IsOrdering(Order(exact, 0), |exact|) && ByRemainder(exact, Order(exact, 0))
    requires HandedOut(exact, given, Order(exact, 0), cursor)
    ensures Quota(exact, PlusOne(given))
  {
    hide Remainder, Order;
    var order, weights := Order(exact, 0), PlusOne(given);
    forall i, j | 0 <= i < |exact| && 0 <= j < |exact|
      ensures weights[i] - 1 - exact[i].Floor in {0, 1}
      ensures weights[i] - 1 == exact[i].Floor + 1 && weights[j] - 1 == exact[j].Floor
              ==> Remainder(exact[i]) >= Remainder(exact[j])
    {
      assert i in order && j in order;
      var k :| 0 <= k < |order| && order[k] == i;
      var l :| 0 <= l < |order| && order[l] == j;
      assert given[order[k]] == exact[order[k]].Floor + if k < cursor then 1 else 0;
      assert given[order[l]] == exact[order[l]].Floor + if l < cursor then 1 else 0;
    }
  }

  lemma HandOne(exact: seq<real>, given: seq<int>, order: seq<nat>, cursor: nat)
    requires |given| == |exact| && cursor < |exact| && IsOrdering(order, |exact|)
             && HandedOut(exact, given, order, cursor)
    ensures HandedOut(exact, given[order[cursor] := given[order[cursor]] + 1], order, cursor + 1)
  {
    forall k | 0 <= k < |order| && k != cursor
      ensures order[k] != order[cursor]
    {
    }
  }

  lemma SlotOf(order: seq<nat>, count: nat, next: nat)
    requires IsOrdering(order, count) && count > 0
    ensures |order| == count && order[next % count] < count && (next < count ==> next % count == next)
  {
  }

  /** The floors, and on top of them `units` units dealt out one by one, in order, round and round. */
  function Dealt(exact: seq<real>, order: seq<nat>, units: nat): (given: seq<int>)
    requires |order| == |exact| > 0 && forall k | 0 <= k < |order| :: order[k] < |exact|
    ensures |given| == |exact|
  {
    if units == 0 then Floors(exact)
    else
      var before, slot := Dealt(exact, order, units - 1), order[(units - 1) % |order|];
      before[slot := before[slot] + 1]
  }

  /** The parts of a whole, if it can be divided so: one unit each, and the rest dealt out. */
  function Portions(total: int, probabilities: seq<real>): Option<seq<int>> {
    if probabilities == [] || total < |probabilities| then None
    else
      var exact := Exact(probabilities, total - |probabilities|);
      var missing := total - |probabilities| - Total(Floors(exact));
      OrderIsOrdering(exact);
      if missing < 0 then None else Some(PlusOne(Dealt(exact, Order(exact, 0), missing)))
  }

  lemma {:induction false} DealtTotals(exact: seq<real>, order: seq<nat>, units: nat)
    requires |exact| > 0 && IsOrdering(order, |exact|)
    ensures |order| == |exact| && (forall k | 0 <= k < |order| :: order[k] < |exact|)
    ensures Total(Dealt(exact, order, units)) == Total(Floors(exact)) + units
    ensures units <= |exact| ==> HandedOut(exact, Dealt(exact, order, units), order, units)
  {
    hide Total;
    if units > 0 {
      DealtTotals(exact, order, units - 1);
      SlotOf(order, |exact|, units - 1);
      OneMoreUnit(Dealt(exact, order, units - 1), order[(units - 1) % |order|]);
      hide HandedOut, IsOrdering;
      if units <= |exact| {
        HandOne(exact, Dealt(exact, order, units - 1), order, units - 1);
      }
    } else {
      SlotOf(order, |exact|, 0);
    }
  }

  /** Hands the missing units out one by one, in order, starting over at the end of it. */
  method HandOut(exact: seq<real>, remaining: int, order: seq<nat>) returns (given: seq<int>)
    requires exact != [] && IsOrdering(order, |exact|)
    ensures |order| == |exact| && forall k | 0 <= k < |order| :: order[k] < |exact|
    ensures var missing := remaining - Total(Floors(exact));
            given == Dealt(exact, order, if missing > 0 then missing else 0)
  {
    SlotOf(order, |exact|, 0);
    assert forall k | 0 <= k < |order| :: order[k] < |exact|;
    hide IsOrdering, Floors, Total;
    given := Floors(exact);
    var handedOut := Total(given);
    var cursor := 0;
    while handedOut < remaining
      invariant cursor > 0 ==> handedOut <= remaining
      invariant handedOut == Total(Floors(exact)) + cursor && given == Dealt(exact, order, cursor)
    {
      var slot := order[cursor % |order|];
      given := given[slot := given[slot] + 1];
      handedOut := handedOut + 1;
      cursor := cursor + 1;
    }
  }

  /** Shares that sum to one leave fewer units over than there are shares. */
  lemma FewUnitsAreLeft(probabilities: seq<real>, remaining: int)
    requires probabilities != [] && Sum(probabilities) == 1.0
    ensures var floors := Total(Floors(Exact(probabilities, remaining)));
            floors <= remaining < floors + |probabilities|
  {
    var exact := Exact(probabilities, remaining);
    assert |exact| == |probabilities|;
    FloorsAreNear(exact);
    ExactSums(probabilities, remaining);
    assert Times(remaining as real, 1.0) == remaining as real;
    hide Exact, Floors, Sum, Times;
  }

  /**
   * apportion: the parts sum exactly to the whole and none is zero. With shares that sum to one it always
   * succeeds, every part within one unit of its share, the units left over going to the largest remainders.
   */
  method Apportion(total: int, probabilities: seq<real>) returns (weights: Option<seq<int>>)
    requires NonNegative(probabilities)
    ensures weights == Portions(total, probabilities)
    ensures weights.Some? ==> AddsUp(total, probabilities, weights.value)
    ensures probabilities != [] && total >= |probabilities| && Sum(probabilities) == 1.0 ==> weights.Some?
  {
    hide *;
    var count := |probabilities|;
    if count == 0 || total < count {
      NoPortions(total, probabilities);
      return None;
    }
    var remaining := total - count;
    var exact := Exact(probabilities, remaining);
    ExactKeepsCount(probabilities, remaining);
    OrderIsOrdering(exact);
    var given := HandOut(exact, remaining, Order(exact, 0));
    GivenIsPortions(total, probabilities, given);
    if Total(given) != remaining {
      return None;
    }
    PortionsAddUp(total, probabilities);
    return Some(PlusOne(given));
  }

  lemma ExactKeepsCount(probabilities: seq<real>, remaining: int)
    ensures |Exact(probabilities, remaining)| == |probabilities|
  {
  }

  lemma NoPortions(total: int, probabilities: seq<real>)
    requires probabilities == [] || total < |probabilities|
    ensures Portions(total, probabilities) == None
  {
  }

  /** What was handed out is everything, exactly when the whole can be divided so. */
  lemma GivenIsPortions(total: int, probabilities: seq<real>, given: seq<int>)
    requires probabilities != [] && total >= |probabilities|
    requires var exact := Exact(probabilities, total - |probabilities|);
             var order, missing := Order(exact, 0), total - |probabilities| - Total(Floors(exact));
             |order| == |exact| > 0 && (forall k | 0 <= k < |order| :: order[k] < |exact|)
             && given == Dealt(exact, order, if missing > 0 then missing else 0)
    ensures Total(given) == total - |probabilities| <==> Portions(total, probabilities).Some?
    ensures Portions(total, probabilities).Some? ==> Portions(total, probabilities).value == PlusOne(given)
    ensures Sum(probabilities) == 1.0 ==> Portions(total, probabilities).Some?
  {
    hide Sum, Order, Dealt, Floors, Total, Exact, HandedOut, IsOrdering, ByRemainder, PlusOne;
    var exact := Exact(probabilities, total - |probabilities|);
    var missing := total - |probabilities| - Total(Floors(exact));
    OrderIsOrdering(exact);
    DealtTotals(exact, Order(exact, 0), if missing > 0 then missing else 0);
    if Sum(probabilities) == 1.0 {
      FewUnitsAreLeft(probabilities, total - |probabilities|);
    }
  }

  /** The total is right, no part is zero, and with shares that sum to one each part follows its share. */
  ghost predicate AddsUp(total: int, probabilities: seq<real>, weights: seq<int>) {
    && |weights| == |probabilities| && Total(weights) == total
    && (forall i | 0 <= i < |weights| :: weights[i] >= 1)
    && (Sum(probabilities) == 1.0 ==> Quota(Exact(probabilities, total - |probabilities|), weights))
  }

  lemma PortionsAre(total: int, probabilities: seq<real>)
    requires Portions(total, probabilities).Some?
    ensures probabilities != [] && total >= |probabilities|
    ensures var exact := Exact(probabilities, total - |probabilities|);
            var order, missing := Order(exact, 0), total - |probabilities| - Total(Floors(exact));
            |order| == |exact| == |probabilities| && missing >= 0 && IsOrdering(order, |exact|)
            && ByRemainder(exact, order)
            && Portions(total, probabilities).value == PlusOne(Dealt(exact, order, missing))
  {
    var exact := Exact(probabilities, total - |probabilities|);
    OrderIsOrdering(exact);
    hide Order, Dealt, Floors, Total, ByRemainder, PlusOne;
  }

  lemma PortionsAddUp(total: int, probabilities: seq<real>)
    requires NonNegative(probabilities) && Portions(total, probabilities).Some?
    ensures AddsUp(total, probabilities, Portions(total, probabilities).value)
  {
    hide Portions, Order, Dealt, Floors, Total, Exact, HandedOut, IsOrdering, ByRemainder, Quota, Sum;
    PortionsAre(total, probabilities);
    var remaining := total - |probabilities|;
    var exact := Exact(probabilities, remaining);
    var order, missing := Order(exact, 0), remaining - Total(Floors(exact));
    var given := Dealt(exact, order, missing);
    ExactIsNonNegative(probabilities, remaining);
    DealtTotals(exact, order, missing);
    DealtIsNonNegative(exact, order, missing);
    PlusOneTotals(given);
    if Sum(probabilities) == 1.0 {
      FewUnitsAreLeft(probabilities, remaining);
      HandedOutIsQuota(exact, given, missing);
    }
  }

  lemma {:induction false} DealtIsNonNegative(exact: seq<real>, order: seq<nat>, units: nat)
    requires |order| == |exact| > 0 && forall k | 0 <= k < |order| :: order[k] < |exact|
    requires forall i | 0 <= i < |exact| :: exact[i] >= 0.0
    ensures forall i | 0 <= i < |exact| :: Dealt(exact, order, units)[i] >= 0
  {
    if units > 0 {
      DealtIsNonNegative(exact, order, units - 1);
    }
  }

  lemma ExactIsNonNegative(probabilities: seq<real>, remaining: int)
    requires NonNegative(probabilities) && remaining >= 0
    ensures |Exact(probabilities, remaining)| == |probabilities|
    ensures forall i | 0 <= i < |probabilities| :: Exact(probabilities, remaining)[i] >= 0.0
  {
    forall i | 0 <= i < |probabilities|
      ensures Times(remaining as real, probabilities[i]) >= 0.0
    {
    }
    hide Times;
  }
}
