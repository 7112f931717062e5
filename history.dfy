/** `getHistorical` of `Budget.Expenses` and `Budget.Receipts`: the yearly sums
    of the line items selected by agency, bureau and account name, one point
    per year for the area chart. */
module History {
  import opened Wrappers
  import opened LineItems
  import opened Nesting
  import opened Aggregation

  /** One point of the area chart; the source dates it `1/1/<year>`. */
  datatype Point = Point(year: Year, amount: real)

  /** The `_.filter` test: the most specific name given decides how many names
      must match, and a name left `undefined` never equals a row's name. With
      no name at all nothing is selected. */
  predicate Selects(r: LineItem, agency: Option<string>, bureau: Option<string>, account: Option<string>) {
    if account.Some? then Some(r.agency) == agency && Some(r.bureau) == bureau && Some(r.account) == account
    else if bureau.Some? then Some(r.agency) == agency && Some(r.bureau) == bureau
    else if agency.Some? then Some(r.agency) == agency
    else false
  }

  /** The selected rows, in ledger order. */
  function Rows(items: seq<LineItem>, agency: Option<string>, bureau: Option<string>, account: Option<string>): seq<LineItem> {
    if items == [] then []
    else (if Selects(items[0], agency, bureau, account) then [items[0]] else []) + Rows(items[1..], agency, bureau, account)
  }

  /** `_.reduce(rows, (sum, r) => sum + parseFloat(r[y]), 0)`. */
  function SumAt(rows: seq<LineItem>, y: Year): real {
    if rows == [] then 0.0 else rows[0].amounts.At(y) + SumAt(rows[1..], y)
  }

  /** `getHistorical(agencyName, bureauName, accountName)` over the given ledger:
      one point per year 2012..2015, in that order, each the sum of the
      selected rows' amounts for the year. */
  method GetHistorical(items: seq<LineItem>, agency: Option<string>, bureau: Option<string>, account: Option<string>)
    returns (historical: seq<Point>)
    ensures |historical| == 4
    ensures forall k :: 0 <= k < 4 ==> historical[k].year == 2012 + k
    ensures forall k :: 0 <= k < 4 ==> historical[k].amount == SumAt(Rows(items, agency, bureau, account), 2012 + k)
  {
    var rows := Rows(items, agency, bureau, account);
    historical := [];
    var y := 2012;
    while y < 2016
      invariant 2012 <= y <= 2016
      invariant |historical| == y - 2012
      invariant forall k :: 0 <= k < y - 2012 ==> historical[k] == Point(2012 + k, SumAt(rows, 2012 + k))
    {
      var amount := SumAt(rows, y);
      historical := historical + [Point(y, amount)];
      y := y + 1;
    }
  }

  lemma {:induction false} AgencyRowsAreAgencyLeaves(items: seq<LineItem>, y: Year, a: string)
    ensures SumAt(Rows(items, Some(a), None, None), y) == LeafTotal(Filter(YearlyExpenses(items, y), ByAgency, a))
  {
    if items != [] {
      AgencyRowsAreAgencyLeaves(items[1..], y, a);
      var head := if Selects(items[0], Some(a), None, None) then [items[0]] else [];
      var rest := Rows(items[1..], Some(a), None, None);
      assert Rows(items, Some(a), None, None) == head + rest;
      SumAtAppend(head, rest, y);
      var leaf := YearlyLineItem(items[0], y);
      var lhead := if leaf.agencyName == a then [leaf] else [];
      assert Filter(YearlyExpenses(items, y), ByAgency, a) == lhead + Filter(YearlyExpenses(items[1..], y), ByAgency, a);
      LeafTotalAppend(lhead, Filter(YearlyExpenses(items[1..], y), ByAgency, a));
    }
  }

  lemma {:induction false} BureauRowsAreBureauLeaves(items: seq<LineItem>, y: Year, a: string, b: string)
    ensures SumAt(Rows(items, Some(a), Some(b), None), y)
         == LeafTotal(Filter(Filter(YearlyExpenses(items, y), ByAgency, a), ByBureau, b))
  {
    if items != [] {
      BureauRowsAreBureauLeaves(items[1..], y, a, b);
      var head := if Selects(items[0], Some(a), Some(b), None) then [items[0]] else [];
      var rest := Rows(items[1..], Some(a), Some(b), None);
      assert Rows(items, Some(a), Some(b), None) == head + rest;
      SumAtAppend(head, rest, y);
      var leaf := YearlyLineItem(items[0], y);
      var ahead := if leaf.agencyName == a then [leaf] else [];
      var arest := Filter(YearlyExpenses(items[1..], y), ByAgency, a);
      assert Filter(YearlyExpenses(items, y), ByAgency, a) == ahead + arest;
      FilterAppend(ahead, arest, ByBureau, b);
      var bhead := Filter(ahead, ByBureau, b);
      LeafTotalAppend(bhead, Filter(arest, ByBureau, b));
    }
  }

  lemma {:induction false} SumAtAppend(a: seq<LineItem>, b: seq<LineItem>, y: Year)
    ensures SumAt(a + b, y) == SumAt(a, y) + SumAt(b, y)
  {
    if a != [] {
      assert (a + b)[1..] == a[1..] + b;
      SumAtAppend(a[1..], b, y);
    } else {
      assert a + b == b;
    }
  }

  /** The area chart of an agency agrees with the treemap: its amount for a
      year is the size of the agency's node in that year's tree, and 0 when
      the tree has no such agency. */
  lemma HistoricalMatchesAgency(items: seq<LineItem>, y: Year, a: string)
    ensures FindByName(GetYearlyData(items, y).children, a).Some? ==>
      SumAt(Rows(items, Some(a), None, None), y) == FindByName(GetYearlyData(items, y).children, a).value.size
    ensures FindByName(GetYearlyData(items, y).children, a).None? ==>
      SumAt(Rows(items, Some(a), None, None), y) == 0.0
  {
    var ls := YearlyExpenses(items, y);
    var cs := GetYearlyData(items, y).children;
    AgencyRowsAreAgencyLeaves(items, y, a);
    YearlyDataChildren(items, y);
    FindByNameFound(cs, a);
    AgencyOfLeaves(items, y, a);
    if FindByName(cs, a).Some? {
      AgencyNodeForShape(ls, a);
    }
  }

  /** The area chart of a bureau agrees with `getYearlyBureau`: its amount for
      a year is the size of the bureau node, and 0 when there is none. */
  lemma HistoricalMatchesBureau(items: seq<LineItem>, y: Year, a: string, b: string)
    ensures GetYearlyBureau(items, y, a, b).Ok? && GetYearlyBureau(items, y, a, b).value.Some? ==>
      SumAt(Rows(items, Some(a), Some(b), None), y) == GetYearlyBureau(items, y, a, b).value.value.size
    ensures !(GetYearlyBureau(items, y, a, b).Ok? && GetYearlyBureau(items, y, a, b).value.Some?) ==>
      SumAt(Rows(items, Some(a), Some(b), None), y) == 0.0
  {
    var ls := YearlyExpenses(items, y);
    BureauRowsAreBureauLeaves(items, y, a, b);
    YearlyBureauSpec(items, y, a, b);
    AgencyOfLeaves(items, y, a);
    if !HasAgency(items, a) {
      assert Filter(Filter(ls, ByAgency, a), ByBureau, b) == [];
    }
  }
}
