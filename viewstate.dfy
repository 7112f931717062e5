/** `Budget.State`: the trackers that remember where the treemap is (level,
    agency, bureau, last clicked item) and how amounts are shown (year, type,
    money, capita), the transitions the treemap clicks and the chooser
    buttons make, and the data each transition hands to the display. */
module ViewState {
  import opened Wrappers
  import opened LineItems
  import opened Variants
  import opened Aggregation
  import opened History

  /** The values `levelTracker` can hold when it is defined. */
  datatype Level = BudgetLevel | AgencyLevel | BureauLevel

  const Uitgaven: string := "uitgaven"
  const Inkomsten: string := "inkomsten"

  /** A snapshot of the tracker fields. A field the source deletes or never
      set is `None`. */
  datatype Trackers = Trackers(
    level: Option<Level>,
    agency: Option<string>,
    bureau: Option<string>,
    lastItem: Option<string>,
    year: Year,
    kind: string,
    money: string,
    capita: string)
  {
    /** `atBudgetLevel`: no level yet, or the budget level. */
    predicate AtBudgetLevel() {
      level == None || level == Some(BudgetLevel)
    }

    /** `treemapLevelName`: the bureau if one is tracked, else the agency, else
        `false` (here `None`). */
    function TreemapLevelName(): Option<string> {
      if bureau.Some? then bureau else if agency.Some? then agency else None
    }

    /** `removeTrackers`: the location trackers are deleted; how amounts are
        shown is kept. */
    function Cleared(): (r: Trackers)
      ensures r.level == None && r.agency == None && r.bureau == None
      ensures r.AtBudgetLevel() && r.TreemapLevelName() == None && r.lastItem == None
      ensures r.year == year && r.kind == kind && r.money == money && r.capita == capita
    {
      this.(level := None, agency := None, bureau := None, lastItem := None)
    }

    /** The trackers `resetState` leaves behind: cleared, at the budget level. */
    function Reset(): (r: Trackers)
      ensures r.level == Some(BudgetLevel)
      ensures r.AtBudgetLevel() && r.TreemapLevelName() == None && r.lastItem == None
      ensures r.year == year && r.kind == kind && r.money == money && r.capita == capita
    {
      Cleared().(level := Some(BudgetLevel))
    }

    /** `advanceLevel(name)`: from the budget level to the agency level, which
        records the agency; from any other level back to the budget level. */
    function Advanced(name: Option<string>): (r: Trackers)
      ensures r.level == Some(AgencyLevel) || r.level == Some(BudgetLevel)
      ensures r.level == Some(AgencyLevel) <==> level == Some(BudgetLevel)
      ensures r.level == Some(AgencyLevel) ==> r.agency == name
      ensures level != Some(BudgetLevel) ==> r.agency == agency
      ensures r.(level := level, agency := agency) == this
    {
      if level == Some(BudgetLevel) then this.(level := Some(AgencyLevel), agency := name)
      else this.(level := Some(BudgetLevel))
    }

    /** The states the page can reach: never the bureau level, no bureau
        tracked, an agency and the last item tracked together exactly at the
        agency level, and chooser values the buttons set. */
    predicate Valid() {
      && bureau == None
      && level != Some(BureauLevel)
      && (level == Some(AgencyLevel) ==> agency.Some? && lastItem == agency)
      && (level != Some(AgencyLevel) ==> agency == None && lastItem == None)
      && (kind == Uitgaven || kind == Inkomsten)
      && KnownMoney(money)
      && KnownCapita(capita)
    }
  }

  /** The field initialisers of `Budget.State`. */
  function Initial(): (t: Trackers)
    ensures t.Valid() && t.AtBudgetLevel() && t.TreemapLevelName() == None
  {
    Trackers(None, None, None, None, 2015, Uitgaven, Normal, Totaal)
  }

  /** What a treemap query hands to the display: a tree, the bureau object
      `getYearlyBureau` returns (or `undefined`), or `undefined` when the type
      tracker names neither domain. */
  datatype View = Treemap(tree: Tree) | BureauObject(node: Option<Node>) | Undefined

  /** The trackers after a transition, and the data it returned or the error
      it threw. */
  datatype Outcome = Outcome(after: Trackers, view: Result<View, Failure>)

  /** `getTopLevelAgencies(year)` / `budgetReceipts(year)` on the ledger the
      trackers select. */
  function TopLevelView(l: Ledgers, t: Trackers): Result<View, Failure> {
    match SelectLedger(l, t.capita, t.money)
    case None => Err(NoLedger)
    case Some(items) => Ok(Treemap(GetTopLevelAgencies(items, t.year)))
  }

  /** `getYearlyAgency(year, name)` / `agencyReceipts(year, name)`. */
  function AgencyView(l: Ledgers, t: Trackers, name: string): Result<View, Failure> {
    match SelectLedger(l, t.capita, t.money)
    case None => Err(NoLedger)
    case Some(items) =>
      match GetYearlyAgency(items, t.year, name)
      case Ok(tree) => Ok(Treemap(tree))
      case Err(e) => Err(e)
  }

  /** `getYearlyBureau(year, agencyTracker, name)` / `bureauReceipts(..)`. No
      agency carries the name `undefined`, so an untracked agency throws. */
  function BureauView(l: Ledgers, t: Trackers, name: string): Result<View, Failure> {
    match SelectLedger(l, t.capita, t.money)
    case None => Err(NoLedger)
    case Some(items) =>
      if t.agency.None? then Err(AgencyNotFound)
      else
        match GetYearlyBureau(items, t.year, t.agency.value, name)
        case Ok(n) => Ok(BureauObject(n))
        case Err(e) => Err(e)
  }

  /** The value `resetState` returns: the top level of the expenses when the
      type is "uitgaven", of the receipts otherwise. */
  function ResetView(books: Books, t: Trackers): Result<View, Failure> {
    if t.kind == Uitgaven then TopLevelView(books.expenses, t) else TopLevelView(books.income, t)
  }

  /** `treemapExpenseData(name)` (l = expenses) and `treemapReceiptData(name)`
      (l = income): the agency or bureau view at those levels, a reset at any
      other. */
  function LevelData(books: Books, l: Ledgers, t: Trackers, name: string): Outcome {
    if t.level == Some(AgencyLevel) then Outcome(t, AgencyView(l, t, name))
    else if t.level == Some(BureauLevel) then Outcome(t, BureauView(l, t, name))
    else Outcome(t.Reset(), ResetView(books, t))
  }

  /** `treemapDataFromState(name, noAdvance)`: record the name as the last
      item, advance unless told not to, then reset when the level or the name
      is missing, and otherwise query the domain the type tracker names. The
      last item survives unless the call resets, and without advancing the
      level stays unless the call resets. */
  function TreemapData(books: Books, t: Trackers, name: Option<string>, noAdvance: bool): (r: Outcome)
    ensures r.after.lastItem == name || r.after == t.Reset()
    ensures noAdvance ==> r.after.level == t.level || r.after == t.Reset()
  {
    var named := t.(lastItem := name);
    var moved := if noAdvance then named else named.Advanced(name);
    if moved.level == None || name == None then Outcome(moved.Reset(), ResetView(books, moved))
    else if moved.kind == Uitgaven then LevelData(books, books.expenses, moved, name.value)
    else if moved.kind == Inkomsten then LevelData(books, books.income, moved, name.value)
    else Outcome(moved, Ok(Undefined))
  }

  /** The refresh every chooser button ends with: at the budget level
      `updateTreemap()`, otherwise `updateTreemap(lastItem, true)`. */
  function RefreshData(books: Books, t: Trackers): Outcome {
    if t.AtBudgetLevel() then TreemapData(books, t, None, false)
    else TreemapData(books, t, t.lastItem, true)
  }

  /** `String.prototype.toLowerCase` on the letters A-Z. */
  function Lower(s: string): (r: string)
    ensures |r| == |s|
    ensures forall k :: 0 <= k < |s| && 'A' <= s[k] <= 'Z' ==> r[k] == (s[k] as int + 32) as char
    ensures forall k :: 0 <= k < |s| && !('A' <= s[k] <= 'Z') ==> r[k] == s[k]
  {
    if s == [] then []
    else [if 'A' <= s[0] <= 'Z' then (s[0] as int + 32) as char else s[0]] + Lower(s[1..])
  }

  /** The type chooser: "uitgaven" in any case selects the expenses, any
      other label the receipts. */
  function TypeFor(text: string): (kind: string)
    ensures kind == Uitgaven <==> Lower(text) == Uitgaven
    ensures kind == Uitgaven || kind == Inkomsten
  {
    if Lower(text) == Uitgaven then Uitgaven else Inkomsten
  }

  /** The inflation chooser: the two labels set the money tracker, any other
      text leaves it. */
  function MoneyFor(text: string, current: string): (money: string)
    ensures text == "Zonder Inflatie" ==> money == InflationLabel
    ensures text == "Oorspronkelijk Bedrag" ==> money == Normal
    ensures text != "Zonder Inflatie" && text != "Oorspronkelijk Bedrag" ==> money == current
    ensures KnownMoney(current) ==> KnownMoney(money)
  {
    if text == "Zonder Inflatie" then InflationLabel
    else if text == "Oorspronkelijk Bedrag" then Normal
    else current
  }

  /** The capita chooser: the three labels set the capita tracker, any other
      text leaves it. */
  function CapitaFor(text: string, current: string): (capita: string)
    ensures text == "In Miljarden" ==> capita == Totaal
    ensures text == "Volledig Bedrag" ==> capita == Volledig
    ensures text == "Per Persoon" ==> capita == PerCapitaLabel
    ensures text != "In Miljarden" && text != "Volledig Bedrag" && text != "Per Persoon" ==> capita == current
    ensures KnownCapita(current) ==> KnownCapita(capita)
  {
    if text == "In Miljarden" then Totaal
    else if text == "Volledig Bedrag" then Volledig
    else if text == "Per Persoon" then PerCapitaLabel
    else current
  }

  /** The selection `areaGraphData(name)` passes to `getHistorical`: the name
      is an agency at the budget level, a bureau of the tracked agency at the
      agency level, and an account otherwise. */
  function AreaRows(books: Books, t: Trackers, name: Option<string>): seq<LineItem> {
    var l := if t.kind == Inkomsten then books.income else books.expenses;
    var items := match SelectLedger(l, t.capita, t.money) case Some(s) => s case None => [];
    if t.level == Some(BudgetLevel) then Rows(items, name, None, None)
    else if t.level == Some(AgencyLevel) then Rows(items, t.agency, name, None)
    else Rows(items, t.agency, t.bureau, name)
  }

  /** The user actions that change the trackers. */
  datatype Action =
    | Drill(name: string)
    | YearButton(year: Year)
    | TypeButton(typeText: string)
    | InflationButton(moneyText: string)
    | CapitaButton(capitaText: string)

  /** The trackers after one action: a drill is `updateTreemap(name)`, each
      button sets its tracker and refreshes. */
  function Step(books: Books, t: Trackers, a: Action): Trackers {
    match a
    case Drill(n) => TreemapData(books, t, Some(n), false).after
    case YearButton(y) => RefreshData(books, t.(year := y)).after
    case TypeButton(text) => RefreshData(books, t.(kind := TypeFor(text))).after
    case InflationButton(text) => RefreshData(books, t.(money := MoneyFor(text, t.money))).after
    case CapitaButton(text) => RefreshData(books, t.(capita := CapitaFor(text, t.capita))).after
  }

  function Run(books: Books, t: Trackers, acts: seq<Action>): Trackers
    decreases |acts|
  {
    if acts == [] then t else Run(books, Step(books, t, acts[0]), acts[1..])
  }

  /** A click from the budget level opens the clicked agency: the level
      becomes agency and both the agency and the last item are the name; the
      data is that agency's view for the current year. */
  lemma DrillFromBudget(books: Books, t: Trackers, name: string)
    requires t.Valid() && t.level == Some(BudgetLevel)
    ensures var r := TreemapData(books, t, Some(name), false);
      && r.after == t.(level := Some(AgencyLevel), agency := Some(name), lastItem := Some(name))
      && r.view == AgencyView(if t.kind == Uitgaven then books.expenses else books.income, t, name)
  {
  }

  /** A click at the agency level returns to the root: the trackers are reset
      and the data is the top level of the current domain. */
  lemma DrillFromAgency(books: Books, t: Trackers, name: string)
    requires t.Valid() && t.level == Some(AgencyLevel)
    ensures TreemapData(books, t, Some(name), false) == Outcome(t.Reset(), ResetView(books, t))
  {
  }

  /** The first click on a fresh page does not drill down: the level is not
      yet set, so advancing goes to the budget level and the call resets. */
  lemma DrillFromInitial(books: Books, name: string)
    ensures TreemapData(books, Initial(), Some(name), false) == Outcome(Initial().Reset(), ResetView(books, Initial()))
  {
  }

  /** Two clicks from the budget level come back to the same trackers. */
  lemma {:induction false} DrillCycle(books: Books, t: Trackers, a: string, b: string)
    requires t.Valid() && t.level == Some(BudgetLevel)
    ensures Run(books, t, [Drill(a), Drill(b)]) == t
  {
    DrillFromBudget(books, t, a);
    var t1 := Step(books, t, Drill(a));
    DrillFromAgency(books, t1, b);
    assert Step(books, t1, Drill(b)) == t;
    assert [Drill(a), Drill(b)][1..] == [Drill(b)];
    assert Run(books, t1, [Drill(b)]) == Run(books, t, []);
  }

  /** A refresh stays at the depth it was at: at the agency level it keeps
      every tracker and shows the same agency under the current year, type
      and scaling; anywhere else it resets to the top level. */
  lemma RefreshKeepsDepth(books: Books, t: Trackers)
    requires t.Valid()
    ensures t.level == Some(AgencyLevel) ==>
      RefreshData(books, t) == Outcome(t, AgencyView(if t.kind == Uitgaven then books.expenses else books.income, t, t.agency.value))
    ensures t.level != Some(AgencyLevel) ==>
      RefreshData(books, t) == Outcome(t.Reset(), ResetView(books, t))
  {
    if t.level == Some(BudgetLevel) {
      assert t.(lastItem := None).Advanced(None).Reset() == t.Reset();
    }
  }

  /** Every drill keeps the trackers in a reachable state. */
  lemma DrillKeepsValid(books: Books, t: Trackers, name: string)
    requires t.Valid()
    ensures TreemapData(books, t, Some(name), false).after.Valid()
  {
    if t.level == Some(BudgetLevel) {
      DrillFromBudget(books, t, name);
    } else if t.level == Some(AgencyLevel) {
      DrillFromAgency(books, t, name);
    }
  }

  /** Every action keeps the trackers in a reachable state. */
  lemma StepKeepsValid(books: Books, t: Trackers, a: Action)
    requires t.Valid()
    ensures Step(books, t, a).Valid()
  {
    match a
    case Drill(n) => DrillKeepsValid(books, t, n);
    case YearButton(y) => RefreshKeepsDepth(books, t.(year := y));
    case TypeButton(text) => RefreshKeepsDepth(books, t.(kind := TypeFor(text)));
    case InflationButton(text) => RefreshKeepsDepth(books, t.(money := MoneyFor(text, t.money)));
    case CapitaButton(text) => RefreshKeepsDepth(books, t.(capita := CapitaFor(text, t.capita)));
  }

  /** No sequence of actions from a reachable state leaves the reachable
      states; in particular the level never becomes "bureau". */
  lemma {:induction false} RunKeepsValid(books: Books, t: Trackers, acts: seq<Action>)
    requires t.Valid()
    ensures Run(books, t, acts).Valid()
    ensures Run(books, t, acts).level != Some(BureauLevel)
    decreases |acts|
  {
    if acts != [] {
      StepKeepsValid(books, t, acts[0]);
      RunKeepsValid(books, Step(books, t, acts[0]), acts[1..]);
    }
  }

  /** From page load, no sequence of clicks ever reaches the bureau level. */
  lemma NeverBureau(books: Books, acts: seq<Action>)
    ensures Run(books, Initial(), acts).level != Some(BureauLevel)
  {
    RunKeepsValid(books, Initial(), acts);
  }

  /** In a reachable state `treemapLevelName` is the tracked agency at the
      agency level and `false` elsewhere. */
  lemma LevelNameIsAgency(t: Trackers)
    requires t.Valid()
    ensures t.TreemapLevelName() == (if t.level == Some(AgencyLevel) then t.agency else None)
    ensures t.AtBudgetLevel() <==> t.level != Some(AgencyLevel)
  {
    match t.level
    case None =>
    case Some(l) => assert l != BureauLevel;
  }

  /** The type chooser's two buttons select their own domain. */
  lemma TypeForLabels()
    ensures TypeFor("Uitgaven") == Uitgaven && TypeFor("uitgaven") == Uitgaven
    ensures TypeFor("Inkomsten") == Inkomsten
  {
    assert Lower("Uitgaven") == Uitgaven;
  }

  /** The area chart of an agency clicked at the budget level agrees with the
      treemap of the same year, in either domain: its amount is that agency's
      node size in the selected ledger, or 0 when the year has no such agency. */
  lemma AreaMatchesTreemap(books: Books, t: Trackers, a: string, y: Year, items: seq<LineItem>)
    requires t.level == Some(BudgetLevel)
    requires SelectLedger(if t.kind == Inkomsten then books.income else books.expenses, t.capita, t.money) == Some(items)
    ensures FindByName(GetYearlyData(items, y).children, a).Some? ==>
      SumAt(AreaRows(books, t, Some(a)), y) == FindByName(GetYearlyData(items, y).children, a).value.size
    ensures FindByName(GetYearlyData(items, y).children, a).None? ==>
      SumAt(AreaRows(books, t, Some(a)), y) == 0.0
  {
    HistoricalMatchesAgency(items, y, a);
  }

  /** The tracker fields of `Budget.State`. The ledgers are page globals and
      are passed to the operations that read them. */
  class State {
    var levelTracker: Option<Level>
    var agencyTracker: Option<string>
    var bureauTracker: Option<string>
    var lastItem: Option<string>
    var yearTracker: Year
    var typeTracker: string
    var moneyTracker: string
    var capitaTracker: string

    function Snapshot(): Trackers
      reads this
    {
      Trackers(levelTracker, agencyTracker, bureauTracker, lastItem, yearTracker, typeTracker, moneyTracker, capitaTracker)
    }

    constructor ()
      ensures Snapshot() == Initial()
    {
      yearTracker := 2015;
      typeTracker := Uitgaven;
      moneyTracker := Normal;
      capitaTracker := Totaal;
      levelTracker := None;
      agencyTracker := None;
      bureauTracker := None;
      lastItem := None;
    }

    method RemoveTrackers()
      modifies this
      ensures Snapshot() == old(Snapshot()).Cleared()
    {
      lastItem := None;
      levelTracker := None;
      agencyTracker := None;
      bureauTracker := None;
    }

    method ResetState(books: Books) returns (r: Result<View, Failure>)
      modifies this
      ensures Snapshot() == old(Snapshot()).Reset()
      ensures r == ResetView(books, old(Snapshot()))
    {
      RemoveTrackers();
      if typeTracker == Uitgaven {
        levelTracker := Some(BudgetLevel);
        r := TopLevelView(books.expenses, Snapshot());
      } else {
        levelTracker := Some(BudgetLevel);
        r := TopLevelView(books.income, Snapshot());
      }
    }

    method AdvanceLevel(name: Option<string>)
      modifies this
      ensures Snapshot() == old(Snapshot()).Advanced(name)
    {
      if levelTracker == Some(BudgetLevel) {
        levelTracker := Some(AgencyLevel);
        agencyTracker := name;
      } else {
        levelTracker := Some(BudgetLevel);
      }
    }

    /** `treemapExpenseData` / `treemapReceiptData`, with `l` the domain's ledgers. */
    method TreemapLevelData(books: Books, l: Ledgers, name: string) returns (r: Result<View, Failure>)
      modifies this
      ensures Outcome(Snapshot(), r) == LevelData(books, l, old(Snapshot()), name)
    {
      if levelTracker == Some(AgencyLevel) {
        r := AgencyView(l, Snapshot(), name);
      } else if levelTracker == Some(BureauLevel) {
        r := BureauView(l, Snapshot(), name);
      } else {
        r := ResetState(books);
      }
    }

    method TreemapDataFromState(books: Books, name: Option<string>, noAdvance: bool) returns (r: Result<View, Failure>)
      modifies this
      ensures Outcome(Snapshot(), r) == TreemapData(books, old(Snapshot()), name, noAdvance)
    {
      lastItem := name;
      if !noAdvance {
        AdvanceLevel(name);
      }
      if levelTracker == None || name == None {
        r := ResetState(books);
      } else if typeTracker == Uitgaven {
        r := TreemapLevelData(books, books.expenses, name.value);
      } else if typeTracker == Inkomsten {
        r := TreemapLevelData(books, books.income, name.value);
      } else {
        r := Ok(Undefined);
      }
    }

    /** `areaGraphData(name)`: the four yearly points of the rows the current
        level and `name` select. A ledger the trackers do not select is
        filtered as an empty list. */
    method AreaGraphData(books: Books, name: Option<string>) returns (historical: seq<Point>)
      ensures |historical| == 4
      ensures forall k :: 0 <= k < 4 ==> historical[k].year == 2012 + k
      ensures forall k :: 0 <= k < 4 ==> historical[k].amount == SumAt(AreaRows(books, Snapshot(), name), 2012 + k)
    {
      var l := if typeTracker == Inkomsten then books.income else books.expenses;
      var items := match SelectLedger(l, capitaTracker, moneyTracker) case Some(s) => s case None => [];
      if levelTracker == Some(BudgetLevel) {
        historical := GetHistorical(items, name, None, None);
      } else if levelTracker == Some(AgencyLevel) {
        historical := GetHistorical(items, agencyTracker, name, None);
      } else {
        historical := GetHistorical(items, agencyTracker, bureauTracker, name);
      }
    }

    /** The refresh at the end of every chooser handler. */
    method Refresh(books: Books) returns (r: Result<View, Failure>)
      modifies this
      ensures Outcome(Snapshot(), r) == RefreshData(books, old(Snapshot()))
    {
      if Snapshot().AtBudgetLevel() {
        r := TreemapDataFromState(books, None, false);
      } else {
        r := TreemapDataFromState(books, lastItem, true);
      }
    }

    /** A year button, once the ledgers are loaded. */
    method ChooseYear(books: Books, year: Year) returns (r: Result<View, Failure>)
      modifies this
      ensures Outcome(Snapshot(), r) == RefreshData(books, old(Snapshot()).(year := year))
    {
      yearTracker := year;
      r := Refresh(books);
    }

    /** A type chooser button with label `text`. */
    method ChooseType(books: Books, text: string) returns (r: Result<View, Failure>)
      modifies this
      ensures Outcome(Snapshot(), r) == RefreshData(books, old(Snapshot()).(kind := TypeFor(text)))
    {
      typeTracker := TypeFor(text);
      r := Refresh(books);
    }

    /** An inflation chooser button with label `text`. */
    method ChooseInflation(books: Books, text: string) returns (r: Result<View, Failure>)
      modifies this
      ensures Outcome(Snapshot(), r) == RefreshData(books, old(Snapshot()).(money := MoneyFor(text, old(moneyTracker))))
    {
      moneyTracker := MoneyFor(text, moneyTracker);
      r := Refresh(books);
    }

    /** A capita chooser button with label `text`. */
    method ChooseCapita(books: Books, text: string) returns (r: Result<View, Failure>)
      modifies this
      ensures Outcome(Snapshot(), r) == RefreshData(books, old(Snapshot()).(capita := CapitaFor(text, old(capitaTracker))))
    {
      capitaTracker := CapitaFor(text, capitaTracker);
      r := Refresh(books);
    }
  }
}
