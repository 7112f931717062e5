/** The cached ledgers of one domain (expenses or income) and the choice among
    them that `currentExpenseItems` and `currentIncomeItems` make from the
    `capitaTracker` and `moneyTracker` values. */
module Variants {
  import opened Wrappers
  import opened LineItems
  import opened Scaling

  /** The six globals one CSV load sets, for one domain. */
  datatype Ledgers = Ledgers(
    raw: seq<LineItem>,
    inflation: seq<LineItem>,
    perCapita: seq<LineItem>,
    perCapitaInflation: seq<LineItem>,
    volledig: seq<LineItem>,
    volledigInflation: seq<LineItem>)

  /** The ledgers of both domains. */
  datatype Books = Books(expenses: Ledgers, income: Ledgers)

  /** The relation between the six globals that the load callback establishes. */
  predicate DerivedFrom(l: Ledgers, items: seq<LineItem>) {
    && l.raw == items
    && l.inflation == AdjustLedger(Inflation, items)
    && l.perCapita == AdjustLedger(PerCapita, items)
    && l.perCapitaInflation == AdjustLedger(PerCapita, AdjustLedger(Inflation, items))
    && l.volledig == items
    && l.volledigInflation == AdjustLedger(Inflation, items)
  }

  /** The body of the `d3.csv` callback: derive the cached variants from the
      loaded rows. Per-capita-inflation is the per-capita transform of the
      inflation-adjusted ledger; the "volledig" pair shares the raw and the
      inflation-adjusted ledgers, with no per-capita division. */
  method DeriveLedgers(items: seq<LineItem>) returns (l: Ledgers)
    ensures DerivedFrom(l, items)
  {
    var inflation := Adjust(Inflation, items);
    var perCapita := Adjust(PerCapita, items);
    var perCapitaInflation := Adjust(PerCapita, inflation);
    l := Ledgers(items, inflation, perCapita, perCapitaInflation, items, inflation);
  }

  const Totaal: string := "totaal"
  const PerCapitaLabel: string := "per_capita"
  const Volledig: string := "volledig"
  const Normal: string := "normal"
  const InflationLabel: string := "inflation"

  /** The `capitaTracker` values the choosers set. */
  predicate KnownCapita(capita: string) {
    capita == Totaal || capita == PerCapitaLabel || capita == Volledig
  }

  /** The `moneyTracker` values the choosers set. */
  predicate KnownMoney(money: string) {
    money == Normal || money == InflationLabel
  }

  /** `currentExpenseItems` / `currentIncomeItems`: the ledger the trackers
      select, or `undefined` when a tracker holds a value none of the branches
      names. */
  function SelectLedger(l: Ledgers, capita: string, money: string): Option<seq<LineItem>> {
    if capita == Totaal then
      if money == Normal then Some(l.raw)
      else if money == InflationLabel then Some(l.inflation)
      else None
    else if capita == PerCapitaLabel then
      if money == Normal then Some(l.perCapita)
      else if money == InflationLabel then Some(l.perCapitaInflation)
      else None
    else if capita == Volledig then
      if money == Normal then Some(l.volledig)
      else if money == InflationLabel then Some(l.volledigInflation)
      else None
    else None
  }

  /** The variant of `raw` a pair of tracker values stands for: inflation
      first when asked, then per capita when asked. Each transform is applied
      at most once. */
  function Variant(raw: seq<LineItem>, capita: string, money: string): seq<LineItem> {
    var scaled := if money == InflationLabel then AdjustLedger(Inflation, raw) else raw;
    if capita == PerCapitaLabel then AdjustLedger(PerCapita, scaled) else scaled
  }

  /** A ledger is selected exactly when both trackers hold a known value, and
      then it is the variant those values name. */
  lemma SelectLedgerSpec(l: Ledgers, raw: seq<LineItem>, capita: string, money: string)
    requires DerivedFrom(l, raw)
    ensures SelectLedger(l, capita, money).Some? <==> KnownCapita(capita) && KnownMoney(money)
    ensures SelectLedger(l, capita, money).Some? ==> SelectLedger(l, capita, money).value == Variant(raw, capita, money)
  {
  }

  /** "volledig" selects the same ledger as "totaal", whatever the money tracker. */
  lemma VolledigIsTotaal(l: Ledgers, raw: seq<LineItem>, money: string)
    requires DerivedFrom(l, raw)
    ensures SelectLedger(l, Volledig, money) == SelectLedger(l, Totaal, money)
  {
  }
}
