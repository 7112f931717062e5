# Rijksbegroting treemap: the budget model behind the page

`public/budget.js` draws the Dutch national budget (Rijksbegroting) as a
treemap, a list and an area chart. This project models the logic under the
drawing code:

- **Ledgers.** Two ledgers are read from CSV: expenses ("uitgaven") and
  receipts ("inkomsten"). Each row is a line item with an agency, a bureau,
  an account, a unique key, and one amount for each of the years 2012–2015.
- **Variants.** Each ledger is cached in six variants: raw, inflation
  adjusted, per capita, and per capita inflation adjusted, plus a "volledig"
  pair that shares the raw and the inflation-adjusted ledgers (no per-capita
  division).
- **Tree.** For one year, the items are grouped by agency and then by bureau,
  summed at each level, and sorted ascending by size under a root named
  `us_budget`. Lookups pick out one agency or one bureau. `getHistorical`
  sums the selected rows for each year.
- **`Budget.State`.** An object whose tracker fields say where the treemap is
  (level, agency, bureau, last item) and how amounts are shown (year, type,
  money, capita). Clicks and the chooser buttons update these fields.

## Modules

| file | module | models |
|---|---|---|
| `wrappers.dfy` | `Wrappers` | `Option` and `Result` |
| `lineitems.dfy` | `LineItems` | the `Year` type, the year columns, line items, and the two ways a query throws |
| `scaling.dfy` | `Scaling` | `adjustForInflation` and `adjustPerCapita` as one loop method, proved against a function on the ledger |
| `variants.dfy` | `Variants` | the six cached ledgers of a domain, and `currentExpenseItems` / `currentIncomeItems` |
| `nesting.dfy` | `Nesting` | one level of `d3.nest`: a group-by with keys in first-occurrence order and members in input order |
| `aggregation.dfy` | `Aggregation` | `getYearlyData`, `getTopLevelAgencies`, `getAgencyChildren`, `getYearlyAgency`, `getYearlyBureau`, `totalAmount`, and the stable `_.sortBy` |
| `history.dfy` | `History` | `getHistorical` as a loop method |
| `viewstate.dfy` | `ViewState` | the `Trackers` snapshot with the transitions as functions, and the class `State` whose methods are proved equal to them |

The `Budget.Receipts` functions are the `Budget.Expenses` functions applied
to the income ledger. Each pair is modelled once, and the caller passes the
domain's ledger.

Behaviour of the code worth knowing:

- **No bureau level.** `advanceLevel` goes from the budget level to the
  agency level, and from any other level back to the budget level. The
  treemap never reaches a bureau level, and `ViewState.NeverBureau` proves
  that.
- **Missing agency throws.** An agency that is not in the year's tree makes
  `getYearlyAgency` and `getYearlyBureau` throw a TypeError on
  `undefined.children`. There is no fallback to the root level. The model
  returns `Err(AgencyNotFound)`.
- **Missing bureau is `undefined`.** A bureau missing from a present agency
  is an `undefined` result, not an error.
- **Only agencies are sorted.** `_.sortBy` sorts the agencies ascending by
  size. The bureaus under an agency stay in the order of their first line
  item.

## Model

| member | source | states |
|---|---|---|
| LineItems.Amounts.With | public/budget.js:33-34 | overwriting one year column sets that year and leaves the other years unchanged |
| Scaling.Round | public/budget.js:34 | `Math.round` gives an integer within half a unit of its argument |
| Scaling.Adjust | public/budget.js:21-64 | `adjustForInflation` / `adjustPerCapita` build a fresh list: the clone of every item with each year column divided by that year's divisor (rounded only for inflation); the input value is not changed |
| Scaling.AdjustKeepsShape | public/budget.js:21-64 | the adjusted ledger has the input's length and order; each item is `AdjustItem` of the input item at the same position, so the per-year lemmas below apply to the ledger; names and unique key are kept, only the year columns differ |
| Scaling.BaseYearUnchanged | public/budget.js:23-34 | the 2012 inflation divisor is 1.000, so a whole 2012 amount comes out unchanged |
| Scaling.InflationRoundsToNearest | public/budget.js:21-42 | an inflation-adjusted amount is a whole number, and times its divisor it lies within half a divisor of the original |
| Scaling.PerCapitaExact | public/budget.js:45-64 | per-capita amounts are not rounded: times the population they give back the original exactly |
| Variants.DeriveLedgers | public/budget.js:72-82 | the load callback sets raw, inflation, per-capita, per-capita-of-inflation and the two "volledig" ledgers as those transforms of the loaded rows |
| Variants.SelectLedger | public/budget.js:163-209 | `currentExpenseItems` / `currentIncomeItems`: the ledger named by the capita and money trackers; its contract is stated by `Variants.SelectLedgerSpec` and `Variants.VolledigIsTotaal` |
| Variants.SelectLedgerSpec | public/budget.js:163-211 | a ledger is selected exactly when capita is totaal/per_capita/volledig and money is normal/inflation; the selected ledger applies each transform at most once (per capita after inflation) |
| Variants.VolledigIsTotaal | public/budget.js:77-81 | the load callback aliases the "volledig" pair to the raw and inflation ledgers, so the selection at public/budget.js:163-185 gives "volledig" the same ledger as "totaal" for every money value |
| Nesting.Filter | public/budget.js:446-451 | the members of one key are exactly the input leaves whose field equals the key, and no more than the input |
| Nesting.FilterOfReject | public/budget.js:446-451 | the leaves left after taking out key k hold no member of k and all members of every other key |
| Nesting.SplitTotal | public/budget.js:446-451 | splitting leaves by one key loses no amount |
| Nesting.SplitMultiset | public/budget.js:446-451 | splitting leaves by one key neither drops nor duplicates a leaf |
| Nesting.GroupBy | public/budget.js:446-451 | one level of `d3.nest().key(..).map(..)`; its contract is stated by `Nesting.GroupByKeys`, `GroupByMembers`, `GroupByTotal` and `GroupByPermutes` |
| Nesting.GroupByKeys | public/budget.js:446-451 | `d3.nest` gives one group per distinct key: the keys are distinct, and a key has a group exactly when some leaf carries it |
| Nesting.GroupByMembers | public/budget.js:446-451 | each group holds exactly the leaves with its key, in input order, and is not empty |
| Nesting.GroupByTotal | public/budget.js:446-451 | the group sums add up to the sum of all leaves |
| Nesting.GroupByPermutes | public/budget.js:446-451 | the groups' members together are a permutation of the input |
| Aggregation.InsertBySize | public/budget.js:414 | inserting a node adds exactly that node |
| Aggregation.InsertSorted | public/budget.js:414 | inserting into a list sorted by size keeps it sorted |
| Aggregation.SortBySize | public/budget.js:414 | `_.sortBy(data, d => 1 * d.size)` returns a permutation of its input, ascending by size |
| Aggregation.SortStable | public/budget.js:414 | the sort is stable: nodes of equal size keep their input order |
| Aggregation.SortTotal | public/budget.js:414 | sorting does not change the sum of the sizes |
| Aggregation.SortPick | public/budget.js:437 | dropping children before or after the sort gives the same list |
| Aggregation.SortNames | public/budget.js:414 | sorting keeps the set of names, and keeps distinct names distinct |
| Aggregation.FindByNameFound | public/budget.js:484-485 | `_.where(..)[0]` finds a node exactly when the name occurs, and the node found has that name |
| Aggregation.FindByNameUnique | public/budget.js:484-485 | among distinct names, the first match is the only node with the name |
| Aggregation.TotalAmount | public/budget.js:1151-1155 | `totalAmount`: the sum of the nodes' sizes; it is the measure `Aggregation.SortTotal`, `AgencyNodesTotal`, `YearlyDataConserves` and `AgencyChildrenTotal` conserve |
| Aggregation.AgencyChildren | public/budget.js:459-471 | `getAgencyChildren`: one bureau node per bureau group; its contract is stated by `Aggregation.AgencyChildrenTotal` and `AgencyChildrenShape` |
| Aggregation.AgencyChildrenTotal | public/budget.js:459-471 | the bureau nodes of an agency add up to the sum of its leaves |
| Aggregation.AgencyChildrenShape | public/budget.js:459-471 | an agency gets one bureau node per bureau key, each sized by exactly that bureau's leaves |
| Aggregation.AgencyNodesTotal | public/budget.js:400-413 | the agency nodes add up to the sum of all grouped leaves |
| Aggregation.TopLevelPicked | public/budget.js:424-436 | the top-level agencies are the full agency nodes with their children dropped |
| Aggregation.AgencyOfLeaves | public/budget.js:382-389 | the year's leaves include one of agency a exactly when the ledger has a line item of agency a |
| Aggregation.AgencyNodeForShape | public/budget.js:459-471 | an agency node is named after the agency; its bureaus are distinct, one per bureau of the agency, and each is sized by its own leaves; its size equals the sum of its bureaus and the sum of the agency's line items |
| Aggregation.GetYearlyData | public/budget.js:400-417 | the year's tree under `us_budget`; its contract is stated by `Aggregation.YearlyDataChildren` and `YearlyDataConserves` |
| Aggregation.GetTopLevelAgencies | public/budget.js:424-440 | the same tree without the bureau children; its contract is stated by `Aggregation.TopLevelPicked` and `TopLevelMatchesYearlyData` |
| Aggregation.YearlyDataChildren | public/budget.js:400-417 | the root is "us_budget"; its children are sorted ascending by size, have distinct names, and cover exactly the agencies of the ledger, each built from that agency's line items |
| Aggregation.YearlyDataConserves | public/budget.js:400-417 | the root's children add up to `totalAmount` of the year's line items: no item is dropped or counted twice |
| Aggregation.TopLevelMatchesYearlyData | public/budget.js:424-440 | `getTopLevelAgencies` has the names and sizes of `getYearlyData`, in the same order, without children |
| Aggregation.GetYearlyAgency | public/budget.js:473-480 | the picked bureaus of one agency, or the TypeError of a missing agency; its contract is stated by `Aggregation.YearlyAgencySpec` |
| Aggregation.YearlyAgencySpec | public/budget.js:473-480 | `getYearlyAgency` succeeds exactly for agencies of the ledger, and gives their bureaus reduced to name and size, which add up to the agency's line items |
| Aggregation.PickAllKeeps | public/budget.js:478 | `_.pick(n, 'name', 'size')` over a list keeps its length, order and total |
| Aggregation.GetYearlyBureau | public/budget.js:482-486 | one bureau node of one agency, `undefined`, or the TypeError of a missing agency; its contract is stated by `Aggregation.YearlyBureauSpec` and `AgencyThenBureau` |
| Aggregation.YearlyBureauSpec | public/budget.js:482-486 | `getYearlyBureau` throws exactly for agencies outside the ledger; otherwise it gives the bureau node built from exactly that agency's and bureau's line items, or `undefined` |
| Aggregation.AgencyThenBureau | public/budget.js:473-486 | taking a bureau listed by `getYearlyAgency` and asking `getYearlyBureau` for it gives the same name and size |
| Aggregation.TwoBureausOfOneAgency | public/budget.js:400-417 | two items of agency A, in bureaus B1 (100) and B2 (50), give one agency A of size 150 with bureaus B1 (100) and B2 (50) in that order |
| History.GetHistorical | public/budget.js:352-376 | four points for 2012..2015 in order, each the sum of that year's amounts over the rows the given names select |
| History.HistoricalMatchesAgency | public/budget.js:352-376 | an agency's historical amount for a year equals its node size in that year's tree, or 0 when the agency is absent |
| History.HistoricalMatchesBureau | public/budget.js:352-376 | a bureau's historical amount for a year equals the size of the node `getYearlyBureau` returns, or 0 when there is none |
| ViewState.Trackers.AtBudgetLevel | public/budget.js:138-144 | `atBudgetLevel`: the level is undefined or "budget"; in reachable states `ViewState.LevelNameIsAgency` states that this is exactly off the agency level |
| ViewState.Trackers.TreemapLevelName | public/budget.js:125-133 | `treemapLevelName`: bureau, else agency, else `false`; in reachable states `ViewState.LevelNameIsAgency` states that it is the agency at the agency level and `false` elsewhere |
| ViewState.Trackers.Cleared | public/budget.js:213-220 | `removeTrackers` deletes the level, agency, bureau and last item (so the level is undefined, not "budget"), and keeps year, type, money and capita |
| ViewState.Trackers.Reset | public/budget.js:149-158 | after `resetState` the level is "budget", `atBudgetLevel()` holds, `treemapLevelName()` is false, the last item is gone, and year, type, money and capita are unchanged |
| ViewState.Trackers.Advanced | public/budget.js:257-265 | `advanceLevel` gives agency or budget only; it gives agency exactly from budget, and then the agency is the name; going back to budget keeps the agency; it changes no other field |
| ViewState.Initial | public/budget.js:114-119 | the initial trackers are reachable, at the budget level, with no level name |
| ViewState.TreemapData | public/budget.js:230-244 | `treemapDataFromState` keeps the name as the last item unless it resets; with `noAdvance` the level stays unless it resets |
| ViewState.LevelData | public/budget.js:270-291 | `treemapExpenseData` / `treemapReceiptData` by level; its cases are stated by `ViewState.DrillFromBudget`, `DrillFromAgency` and `DrillFromInitial` through `TreemapData` |
| ViewState.RefreshData | public/budget.js:1178-1183 | the refresh after a chooser click; its contract is stated by `ViewState.RefreshKeepsDepth` |
| ViewState.Lower | public/budget.js:1189 | lower-casing keeps the length, maps every A–Z to its a–z letter and keeps every other character |
| ViewState.TypeFor | public/budget.js:1189 | the type chooser sets "uitgaven" exactly when the label lower-cases to "uitgaven", and "inkomsten" for any other label |
| ViewState.MoneyFor | public/budget.js:1201-1205 | "Zonder Inflatie" selects the inflation-adjusted ledgers, "Oorspronkelijk Bedrag" the unadjusted ones, any other text keeps the current value; a known value stays known |
| ViewState.CapitaFor | public/budget.js:1218-1224 | "In Miljarden" selects the totals, "Volledig Bedrag" the full amounts, "Per Persoon" the per-capita ledgers, any other text keeps the current value; a known value stays known |
| ViewState.TypeForLabels | public/budget.js:1189 | the "Uitgaven" button selects the expenses and "Inkomsten" the receipts |
| ViewState.DrillFromBudget | public/budget.js:230-272 | a click at the budget level moves to the agency level with the agency and last item set to the name, and returns that agency's view for the current year |
| ViewState.DrillFromAgency | public/budget.js:230-278 | a click at the agency level resets to the root and returns the top level of the current domain |
| ViewState.DrillFromInitial | public/budget.js:230-265 | on a fresh page, where the level is not set, a click resets rather than drills |
| ViewState.DrillCycle | public/budget.js:230-265 | two clicks from the budget level return to exactly the same trackers |
| ViewState.RefreshKeepsDepth | public/budget.js:1178-1183 | a chooser refresh at the agency level keeps every tracker and shows the same agency under the new settings; anywhere else it resets to the top level |
| ViewState.DrillKeepsValid | public/budget.js:230-265 | a click keeps the trackers reachable |
| ViewState.StepKeepsValid | public/budget.js:1164-1232 | every click or chooser button keeps the trackers reachable |
| ViewState.RunKeepsValid | public/budget.js:1164-1232 | any sequence of actions from a reachable state stays reachable and never reaches the bureau level |
| ViewState.NeverBureau | public/budget.js:247-265 | from page load, no sequence of actions sets the level to "bureau" |
| ViewState.LevelNameIsAgency | public/budget.js:125-144 | in a reachable state `treemapLevelName()` is the agency at the agency level and false elsewhere, and `atBudgetLevel()` holds exactly off the agency level |
| ViewState.AreaMatchesTreemap | public/budget.js:296-315 | in either domain, the area chart of an agency clicked at the budget level agrees with the treemap sizes of the selected ledger in each year |
| ViewState.State.constructor | public/budget.js:114-119 | the trackers start at year 2015, "uitgaven", "normal", "totaal", with no level, agency, bureau or last item |
| ViewState.State.RemoveTrackers | public/budget.js:213-220 | the new trackers are the old ones cleared |
| ViewState.State.ResetState | public/budget.js:149-158 | the new trackers are the old ones reset, and the result is the top level of the expenses for "uitgaven", of the receipts otherwise |
| ViewState.State.AdvanceLevel | public/budget.js:257-265 | the new trackers are the old ones advanced by the name |
| ViewState.State.TreemapLevelData | public/budget.js:270-291 | `treemapExpenseData` / `treemapReceiptData` return the agency view at the agency level, the bureau view at the bureau level, and reset otherwise |
| ViewState.State.TreemapDataFromState | public/budget.js:230-244 | the new trackers and the result are those of the `TreemapData` transition |
| ViewState.State.AreaGraphData | public/budget.js:296-315 | four yearly points summing the rows selected by name at the budget level, by tracked agency and name at the agency level, and by agency, bureau and name otherwise |
| ViewState.State.Refresh | public/budget.js:1178-1183 | at the budget level `updateTreemap()`, otherwise `updateTreemap(lastItem, true)` |
| ViewState.State.ChooseYear | public/budget.js:1172-1183 | sets the year, then refreshes |
| ViewState.State.ChooseType | public/budget.js:1187-1197 | sets the type the label names, then refreshes |
| ViewState.State.ChooseInflation | public/budget.js:1199-1211 | sets the money value the label names, then refreshes |
| ViewState.State.ChooseCapita | public/budget.js:1216-1230 | sets the capita value the label names, then refreshes |

## Left out

- **Rendering.** `Budget.Display` is left out: the treemap and area chart layout, SVG, tooltips, label widths, the list, and `populateYearlySummary`. So are the jQuery writes inside `advanceLevel` and `removeTrackers`. The model keeps only the tracker fields and the data handed to the display.
- **Zero-size cells.** The treemap drops cells of size 0 or less when it draws them. That happens in the display, so the model's trees are complete.
- **CSV loading.** The asynchronous `d3.csv` loads and the "loading" placeholder timer are left out. The ledgers are parameters, and `Variants.DeriveLedgers` models the callback body.
- **Year button before loading.** The guard that ignores a year click before the ledgers load is left out. `ViewState.State.ChooseYear` models the loaded case.
- **Double-click debounce.** The `graphOrUpdate` click counter and its 300 ms timer are left out. A drill is `treemapDataFromState(name)`, and an area chart is `ViewState.State.AreaGraphData`.
- **Number text and floating point.** Currency formatting, parsing of comma-grouped amount text, and the IEEE results of `parseFloat`, division and `Math.round` are not modelled. Amounts are exact reals, and `NaN` from malformed cells is not modelled.
- **The `parent` field.** The field `getAgencyChildren` writes is always `undefined`, so it is not modelled.
- **Key order of `d3.nest().map`.** The nesting is modelled with keys in first-occurrence order. JavaScript objects enumerate integer-like keys first, and that is not modelled. It matters only for agency or bureau names that are numerals.
- **Date objects.** The `Date` of each historical point is reduced to its year.
- ViewState.Lower: folds only the ASCII letters A–Z, because Unicode case mapping is not modelled.
- ViewState.State.AreaGraphData: treats an unselected ledger as empty, because that is what underscore's `_.filter` gives for `undefined`. The underscore library is not part of this model.
- ViewState.State.ChooseYear: takes a `Year` (2012–2015), because the year buttons carry the four column names. A year text outside the columns makes `getYearlyLineItem` call `replace` on `undefined` and throw a TypeError, first reached through `populateYearlySummary`.
