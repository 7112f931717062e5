/** The two scaling transforms of `Budget.Init`: dividing every year column by
    a fixed per-year divisor, to remove inflation (rounded) or to express an
    amount per inhabitant (not rounded). */
module Scaling {
  import opened LineItems

  /** Which divisor table a transform uses. */
  datatype Transform = Inflation | PerCapita

  /** `inflationDivisor`: the price level of each year relative to 2012. */
  function InflationDivisor(y: Year): real {
    if y == 2012 then 1.000
    else if y == 2013 then 1.025
    else if y == 2014 then 1.040375
    else 1.0528595
  }

  /** `perCapitaDivisor`: the population of each year. */
  function Population(y: Year): real {
    if y == 2012 then 16730.0
    else if y == 2013 then 16780.0
    else if y == 2014 then 16829.0
    else 16901.0
  }

  /** `Math.round`: the nearest integer, halves rounded up. */
  function Round(x: real): (n: int)
    ensures x - 0.5 < n as real <= x + 0.5
  {
    (x + 0.5).Floor
  }

  /** The new content of a year column with old content `v`. */
  function AdjustedAmount(t: Transform, y: Year, v: real): real {
    match t
    case Inflation => Round(v / InflationDivisor(y)) as real
    case PerCapita => v / Population(y)
  }

  /** One line item with every year column adjusted and everything else kept. */
  function AdjustItem(t: Transform, i: LineItem): LineItem {
    var a := i.amounts;
    i.(amounts := Amounts(AdjustedAmount(t, 2012, a.y2012), AdjustedAmount(t, 2013, a.y2013),
                          AdjustedAmount(t, 2014, a.y2014), AdjustedAmount(t, 2015, a.y2015)))
  }

  /** The ledger a transform produces: every item adjusted, in the same order. */
  function AdjustLedger(t: Transform, items: seq<LineItem>): seq<LineItem> {
    seq(|items|, k requires 0 <= k < |items| => AdjustItem(t, items[k]))
  }

  /** `adjustForInflation` (t = Inflation) and `adjustPerCapita` (t = PerCapita):
      each item is cloned, its year columns are overwritten one by one, and the
      clone is pushed onto a fresh list. The input is a value and stays as it was. */
  method Adjust(t: Transform, lineItems: seq<LineItem>) returns (adjusted: seq<LineItem>)
    ensures adjusted == AdjustLedger(t, lineItems)
  {
    adjusted := [];
    var n := 0;
    while n < |lineItems|
      invariant 0 <= n <= |lineItems|
      invariant |adjusted| == n
      invariant forall k :: 0 <= k < n ==> adjusted[k] == AdjustItem(t, lineItems[k])
    {
      var i := lineItems[n];
      var l := i;
      var y := 2012;
      while y < 2016
        invariant 2012 <= y <= 2016
        invariant l == i.(amounts := l.amounts)
        invariant forall z: Year :: l.amounts.At(z) == if z < y then AdjustedAmount(t, z, i.amounts.At(z)) else i.amounts.At(z)
      {
        l := l.(amounts := l.amounts.With(y, AdjustedAmount(t, y, l.amounts.At(y))));
        y := y + 1;
      }
      AmountsExtensional(l.amounts, AdjustItem(t, i).amounts);
      adjusted := adjusted + [l];
      n := n + 1;
    }
  }

  /** An adjusted ledger has the input's length and order, and each item keeps
      its names and unique key: only the year columns differ, and each item is
      the adjustment of the input item at the same position. */
  lemma AdjustKeepsShape(t: Transform, items: seq<LineItem>)
    ensures |AdjustLedger(t, items)| == |items|
    ensures forall k :: 0 <= k < |items| ==> AdjustLedger(t, items)[k] == AdjustItem(t, items[k])
    ensures forall k :: 0 <= k < |items| ==>
      AdjustLedger(t, items)[k] == items[k].(amounts := AdjustLedger(t, items)[k].amounts)
  {
  }

  /** The 2012 inflation divisor is 1, so a whole 2012 amount is left as it is. */
  lemma BaseYearUnchanged(i: LineItem)
    requires i.amounts.y2012 == i.amounts.y2012.Floor as real
    ensures AdjustItem(Inflation, i).amounts.At(2012) == i.amounts.At(2012)
  {
    var n := i.amounts.y2012.Floor;
    assert i.amounts.y2012 / InflationDivisor(2012) == n as real;
    RoundWhole(n);
  }

  /** `Math.round` leaves a whole number as it is. */
  lemma RoundWhole(n: int)
    ensures Round(n as real) == n
  {
    var r := Round(n as real);
    assert n as real - 0.5 < r as real <= n as real + 0.5;
  }

  /** An inflation-adjusted column is a whole number, and multiplied back by its
      divisor it lies within half a divisor of the original amount. */
  lemma InflationRoundsToNearest(i: LineItem, y: Year)
    ensures var a := AdjustItem(Inflation, i).amounts.At(y);
      && a == a.Floor as real
      && i.amounts.At(y) - InflationDivisor(y) / 2.0 < a * InflationDivisor(y) <= i.amounts.At(y) + InflationDivisor(y) / 2.0
  {
    var v, d := i.amounts.At(y), InflationDivisor(y);
    var a := AdjustItem(Inflation, i).amounts.At(y);
    assert a == Round(v / d) as real;
    assert v / d - 0.5 < a <= v / d + 0.5;
    assert (v / d) * d == v;
    MultiplyBounds(v / d - 0.5, a, v / d + 0.5, d);
  }

  lemma MultiplyBounds(lo: real, a: real, hi: real, d: real)
    requires lo < a <= hi && d > 0.0
    ensures lo * d < a * d <= hi * d
  {
  }

  /** Per-capita values are not rounded: multiplied back by the population they
      give the original amount exactly. */
  lemma PerCapitaExact(i: LineItem, y: Year)
    ensures AdjustItem(PerCapita, i).amounts.At(y) * Population(y) == i.amounts.At(y)
  {
  }
}
