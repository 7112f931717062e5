/** `Budget.Expenses` (and its twin `Budget.Receipts`, the same functions
    applied to the income ledger): a ledger projected to one year, nested by
    agency and bureau, summed at each level, and sorted ascending by size
    under a root named "us_budget". */
module Aggregation {
  import opened Wrappers
  import opened LineItems
  import opened Nesting

  const RootName: string := "us_budget"

  /** A treemap node: a name, a size and, depending on the level, bureau
      nodes, line items, or no children at all. */
  datatype Node = Node(name: string, size: real, kids: Kids)

  datatype Kids = Childless | Branches(nodes: seq<Node>) | Items(leaves: seq<Leaf>)

  /** The objects handed to the treemap: a name and children, no size. */
  datatype Tree = Tree(name: string, children: seq<Node>)

  // ---------------------------------------------------------------------
  // Projection and nesting

  /** `getYearlyLineItem`: the names of a line item and its amount in year `y`. */
  function YearlyLineItem(i: LineItem, y: Year): Leaf {
    Leaf(i.agency, i.bureau, i.account, i.unique, i.amounts.At(y))
  }

  /** `getYearlyExpenses` / `yearlyReceipts`: every item of the ledger projected to year `y`. */
  function YearlyExpenses(items: seq<LineItem>, y: Year): seq<Leaf> {
    if items == [] then [] else [YearlyLineItem(items[0], y)] + YearlyExpenses(items[1..], y)
  }

  /** An agency key of the nesting with its bureau groups. */
  datatype AgencyGroup = AgencyGroup(key: string, bureaus: seq<Group>)

  /** `getNestedData` / `nestedReceipts`: group by agency, then each agency by bureau. */
  function NestedData(ls: seq<Leaf>): seq<AgencyGroup> {
    NestBureaus(GroupBy(ls, ByAgency))
  }

  function NestBureaus(gs: seq<Group>): seq<AgencyGroup> {
    if gs == [] then []
    else [AgencyGroup(gs[0].key, GroupBy(gs[0].members, ByBureau))] + NestBureaus(gs[1..])
  }

  // ---------------------------------------------------------------------
  // Nodes and sums

  /** `totalAmount`, and every `_.reduce` over node sizes: the sum of the sizes. */
  function TotalAmount(ns: seq<Node>): real {
    if ns == [] then 0.0 else ns[0].size + TotalAmount(ns[1..])
  }

  /** One entry of `getAgencyChildren`: a bureau, sized by the sum of its line items. */
  function BureauNode(g: Group): Node {
    Node(g.key, LeafTotal(g.members), Items(g.members))
  }

  /** `getAgencyChildren` / `agencyChildren`: the bureau nodes of one agency, in nesting order. */
  function AgencyChildren(bs: seq<Group>): seq<Node> {
    if bs == [] then [] else [BureauNode(bs[0])] + AgencyChildren(bs[1..])
  }

  /** One entry of `getYearlyData`: an agency, sized by the sum of its bureaus. */
  function AgencyNode(ag: AgencyGroup): Node {
    var kids := AgencyChildren(ag.bureaus);
    Node(ag.key, TotalAmount(kids), Branches(kids))
  }

  function AgencyNodes(ags: seq<AgencyGroup>): seq<Node> {
    if ags == [] then [] else [AgencyNode(ags[0])] + AgencyNodes(ags[1..])
  }

  /** One entry of `getTopLevelAgencies`: an agency with its size and no children. */
  function TopLevelNode(ag: AgencyGroup): Node {
    Node(ag.key, TotalAmount(AgencyChildren(ag.bureaus)), Childless)
  }

  function TopLevelNodes(ags: seq<AgencyGroup>): seq<Node> {
    if ags == [] then [] else [TopLevelNode(ags[0])] + TopLevelNodes(ags[1..])
  }

  /** `_.pick(n, 'name', 'size')`. */
  function Pick(n: Node): Node {
    Node(n.name, n.size, Childless)
  }

  function PickAll(ns: seq<Node>): seq<Node> {
    if ns == [] then [] else [Pick(ns[0])] + PickAll(ns[1..])
  }

  function Names(ns: seq<Node>): seq<string> {
    if ns == [] then [] else [ns[0].name] + Names(ns[1..])
  }

  // ---------------------------------------------------------------------
  // `_.sortBy(data, d => 1 * d.size)`: a stable sort, ascending by size

  predicate SortedBySize(ns: seq<Node>) {
    forall i, j :: 0 <= i < j < |ns| ==> ns[i].size <= ns[j].size
  }

  /** Places `x` before the first node that is not smaller, so that `x` stays
      ahead of the equal-sized nodes that followed it in the input. */
  function InsertBySize(x: Node, s: seq<Node>): (r: seq<Node>)
    ensures |r| == |s| + 1
    ensures multiset(r) == multiset(s) + multiset{x}
  {
    if s == [] || x.size <= s[0].size then [x] + s
    else
      assert s == [s[0]] + s[1..];
      [s[0]] + InsertBySize(x, s[1..])
  }

  lemma {:induction false} InsertSorted(x: Node, s: seq<Node>)
    requires SortedBySize(s)
    ensures SortedBySize(InsertBySize(x, s))
  {
    if s == [] || x.size <= s[0].size {
      SortedCons(x, s);
    } else {
      SortedCons(s[0], s[1..]);
      assert s == [s[0]] + s[1..];
      InsertSorted(x, s[1..]);
      InsertBounded(x, s[1..], s[0].size);
      SortedCons(s[0], InsertBySize(x, s[1..]));
    }
  }

  lemma {:induction false} InsertBounded(x: Node, s: seq<Node>, lo: real)
    requires lo <= x.size && forall e :: e in s ==> lo <= e.size
    ensures forall e :: e in InsertBySize(x, s) ==> lo <= e.size
  {
    if s != [] && s[0].size < x.size {
      InsertBounded(x, s[1..], lo);
    }
  }

  lemma SortedCons(a: Node, t: seq<Node>)
    ensures SortedBySize([a] + t) <==> (forall e :: e in t ==> a.size <= e.size) && SortedBySize(t)
  {
    var r := [a] + t;
    if (forall e :: e in t ==> a.size <= e.size) && SortedBySize(t) {
      forall i, j | 0 <= i < j < |r| ensures r[i].size <= r[j].size {
        assert r[j] == t[j - 1];
        if i > 0 {
          assert r[i] == t[i - 1];
        }
      }
    }
    if SortedBySize(r) {
      forall e | e in t ensures a.size <= e.size {
        var k :| 0 <= k < |t| && t[k] == e;
        assert r[k + 1] == e && r[0] == a;
      }
      forall i, j | 0 <= i < j < |t| ensures t[i].size <= t[j].size {
        assert r[i + 1] == t[i] && r[j + 1] == t[j];
      }
    }
  }

  /** The sorted nodes: a permutation of the input, ascending by size. */
  function SortBySize(ns: seq<Node>): (r: seq<Node>)
    ensures |r| == |ns|
    ensures multiset(r) == multiset(ns)
    ensures SortedBySize(r)
  {
    if ns == [] then []
    else
      assert ns == [ns[0]] + ns[1..];
      var rest := SortBySize(ns[1..]);
      InsertSorted(ns[0], rest);
      InsertBySize(ns[0], rest)
  }

  /** The nodes of one size, in their order. */
  function OfSize(ns: seq<Node>, v: real): seq<Node> {
    if ns == [] then [] else (if ns[0].size == v then [ns[0]] else []) + OfSize(ns[1..], v)
  }

  // ---------------------------------------------------------------------
  // The queries

  /** `getYearlyData` / `receiptsData`: the full tree for year `y`. */
  function GetYearlyData(items: seq<LineItem>, y: Year): Tree {
    Tree(RootName, SortBySize(AgencyNodes(NestedData(YearlyExpenses(items, y)))))
  }

  /** `getTopLevelAgencies` / `budgetReceipts`: the root with childless agencies. */
  function GetTopLevelAgencies(items: seq<LineItem>, y: Year): Tree {
    Tree(RootName, SortBySize(TopLevelNodes(NestedData(YearlyExpenses(items, y)))))
  }

  /** `_.where(ns, {name: name})[0]`: the first node with that name, if any. */
  function FindByName(ns: seq<Node>, name: string): Option<Node> {
    if ns == [] then None
    else if ns[0].name == name then Some(ns[0])
    else FindByName(ns[1..], name)
  }

  /** `n.children` of an agency node; agency nodes of `getYearlyData` always
      carry bureau nodes. */
  function ChildNodes(n: Node): seq<Node> {
    if n.kids.Branches? then n.kids.nodes else []
  }

  /** `getYearlyAgency` / `agencyReceipts`: the agency's bureaus reduced to name
      and size; an agency that is not in the tree makes `w.children` throw. */
  function GetYearlyAgency(items: seq<LineItem>, y: Year, agency: string): Result<Tree, Failure> {
    match FindByName(GetYearlyData(items, y).children, agency)
    case None => Err(AgencyNotFound)
    case Some(w) => Ok(Tree(agency, PickAll(ChildNodes(w))))
  }

  /** `getYearlyBureau` / `bureauReceipts`: the bureau node under the agency,
      `undefined` when the agency has no such bureau; an agency that is not in
      the tree makes `a.children` throw. */
  function GetYearlyBureau(items: seq<LineItem>, y: Year, agency: string, bureau: string): Result<Option<Node>, Failure> {
    match FindByName(GetYearlyData(items, y).children, agency)
    case None => Err(AgencyNotFound)
    case Some(a) => Ok(FindByName(ChildNodes(a), bureau))
  }

  // ---------------------------------------------------------------------
  // Reference definitions the lemmas below are stated with

  /** Some line item of the ledger belongs to agency `a`. */
  predicate HasAgency(items: seq<LineItem>, a: string) {
    exists i :: i in items && i.agency == a
  }

  /** The node an agency gets: its leaves grouped by bureau. */
  function AgencyNodeFor(ls: seq<Leaf>, a: string): Node {
    AgencyNode(AgencyGroup(a, GroupBy(Filter(ls, ByAgency, a), ByBureau)))
  }

  /** The node a bureau of an agency gets: exactly its leaves. */
  function BureauNodeFor(ls: seq<Leaf>, a: string, b: string): Node {
    BureauNode(Group(b, Filter(Filter(ls, ByAgency, a), ByBureau, b)))
  }

  // ---------------------------------------------------------------------
  // Sorting lemmas

  lemma {:induction false} InsertStable(x: Node, s: seq<Node>, v: real)
    ensures OfSize(InsertBySize(x, s), v) == (if x.size == v then [x] else []) + OfSize(s, v)
  {
    if s == [] || x.size <= s[0].size {
      var r := [x] + s;
      assert r[1..] == s;
    } else {
      InsertStable(x, s[1..], v);
      var r := [s[0]] + InsertBySize(x, s[1..]);
      assert r[1..] == InsertBySize(x, s[1..]);
      assert OfSize(s, v) == (if s[0].size == v then [s[0]] else []) + OfSize(s[1..], v);
    }
  }

  /** The sort is stable: the nodes of each size keep their relative order. */
  lemma {:induction false} SortStable(ns: seq<Node>, v: real)
    ensures OfSize(SortBySize(ns), v) == OfSize(ns, v)
  {
    if ns != [] {
      SortStable(ns[1..], v);
      InsertStable(ns[0], SortBySize(ns[1..]), v);
    }
  }

  lemma {:induction false} InsertTotal(x: Node, s: seq<Node>)
    ensures TotalAmount(InsertBySize(x, s)) == x.size + TotalAmount(s)
  {
    if s == [] || x.size <= s[0].size {
      assert ([x] + s)[1..] == s;
    } else {
      InsertTotal(x, s[1..]);
      assert ([s[0]] + InsertBySize(x, s[1..]))[1..] == InsertBySize(x, s[1..]);
    }
  }

  /** Sorting does not change the total. */
  lemma {:induction false} SortTotal(ns: seq<Node>)
    ensures TotalAmount(SortBySize(ns)) == TotalAmount(ns)
  {
    if ns != [] {
      SortTotal(ns[1..]);
      InsertTotal(ns[0], SortBySize(ns[1..]));
    }
  }

  lemma {:induction false} InsertPick(x: Node, s: seq<Node>)
    ensures PickAll(InsertBySize(x, s)) == InsertBySize(Pick(x), PickAll(s))
  {
    if s == [] || x.size <= s[0].size {
      assert ([x] + s)[1..] == s;
    } else {
      InsertPick(x, s[1..]);
      assert ([s[0]] + InsertBySize(x, s[1..]))[1..] == InsertBySize(x, s[1..]);
    }
  }

  /** The sort only looks at sizes, so dropping children before or after it
      gives the same list. */
  lemma {:induction false} SortPick(ns: seq<Node>)
    ensures PickAll(SortBySize(ns)) == SortBySize(PickAll(ns))
  {
    if ns != [] {
      SortPick(ns[1..]);
      InsertPick(ns[0], SortBySize(ns[1..]));
      assert PickAll(ns)[1..] == PickAll(ns[1..]);
    }
  }

  lemma {:induction false} InsertNames(x: Node, s: seq<Node>)
    ensures forall a :: a in Names(InsertBySize(x, s)) <==> a == x.name || a in Names(s)
  {
    if s == [] || x.size <= s[0].size {
      assert ([x] + s)[1..] == s;
    } else {
      InsertNames(x, s[1..]);
      assert ([s[0]] + InsertBySize(x, s[1..]))[1..] == InsertBySize(x, s[1..]);
    }
  }

  lemma {:induction false} InsertDistinct(x: Node, s: seq<Node>)
    requires Distinct(Names(s)) && x.name !in Names(s)
    ensures Distinct(Names(InsertBySize(x, s)))
  {
    if s == [] || x.size <= s[0].size {
      assert ([x] + s)[1..] == s;
      DistinctCons(x.name, Names(s));
    } else {
      DistinctCons(s[0].name, Names(s[1..]));
      InsertDistinct(x, s[1..]);
      InsertNames(x, s[1..]);
      var rest := InsertBySize(x, s[1..]);
      assert ([s[0]] + rest)[1..] == rest;
      DistinctCons(s[0].name, Names(rest));
    }
  }

  lemma DistinctCons(a: string, t: seq<string>)
    ensures Distinct([a] + t) <==> a !in t && Distinct(t)
  {
    if a !in t && Distinct(t) {
      forall i, j | 0 <= i < j < |[a] + t| ensures ([a] + t)[i] != ([a] + t)[j] {
        if i > 0 {
          assert ([a] + t)[i] == t[i - 1];
        }
      }
    }
    if Distinct([a] + t) {
      forall k | 0 <= k < |t| ensures t[k] != a {
        assert ([a] + t)[0] == a;
        assert ([a] + t)[k + 1] == t[k];
      }
      forall i, j | 0 <= i < j < |t| ensures t[i] != t[j] {
        assert ([a] + t)[i + 1] == t[i];
        assert ([a] + t)[j + 1] == t[j];
      }
    }
  }

  /** Sorting keeps the set of names, and keeps them distinct. */
  lemma {:induction false} SortNames(ns: seq<Node>)
    ensures forall a :: a in Names(SortBySize(ns)) <==> a in Names(ns)
    ensures Distinct(Names(ns)) ==> Distinct(Names(SortBySize(ns)))
  {
    if ns != [] {
      SortNames(ns[1..]);
      InsertNames(ns[0], SortBySize(ns[1..]));
      DistinctCons(ns[0].name, Names(ns[1..]));
      if Distinct(Names(ns)) {
        InsertDistinct(ns[0], SortBySize(ns[1..]));
      }
    }
  }

  // ---------------------------------------------------------------------
  // Lookup lemmas

  /** The first match has the name asked for, and there is one exactly when
      the name occurs. */
  lemma {:induction false} FindByNameFound(ns: seq<Node>, a: string)
    ensures FindByName(ns, a).Some? <==> a in Names(ns)
    ensures FindByName(ns, a).Some? ==> FindByName(ns, a).value in ns && FindByName(ns, a).value.name == a
  {
    if ns != [] {
      FindByNameFound(ns[1..], a);
    }
  }

  /** With distinct names the first match is the only one. */
  lemma {:induction false} FindByNameUnique(ns: seq<Node>, n: Node)
    requires Distinct(Names(ns)) && n in ns
    ensures FindByName(ns, n.name) == Some(n)
  {
    DistinctCons(ns[0].name, Names(ns[1..]));
    if ns[0] != n {
      FindByNameUnique(ns[1..], n);
      NameIn(ns[1..], n);
    }
  }

  lemma {:induction false} NameIn(ns: seq<Node>, n: Node)
    requires n in ns
    ensures n.name in Names(ns)
  {
    if ns[0] != n {
      NameIn(ns[1..], n);
    }
  }

  // ---------------------------------------------------------------------
  // Shape of the nested nodes

  lemma {:induction false} AgencyNodesNames(gs: seq<Group>)
    ensures Names(AgencyNodes(NestBureaus(gs))) == Keys(gs)
  {
    if gs != [] {
      AgencyNodesNames(gs[1..]);
    }
  }

  lemma {:induction false} AgencyNodesShape(ls: seq<Leaf>, gs: seq<Group>)
    requires forall g :: g in gs ==> g.members == Filter(ls, ByAgency, g.key)
    ensures forall n :: n in AgencyNodes(NestBureaus(gs)) ==> n == AgencyNodeFor(ls, n.name)
  {
    if gs != [] {
      AgencyNodesShape(ls, gs[1..]);
    }
  }

  lemma {:induction false} AgencyChildrenTotal(bs: seq<Group>)
    ensures TotalAmount(AgencyChildren(bs)) == GroupsTotal(bs)
  {
    if bs != [] {
      AgencyChildrenTotal(bs[1..]);
    }
  }

  lemma {:induction false} AgencyNodesTotal(gs: seq<Group>)
    ensures TotalAmount(AgencyNodes(NestBureaus(gs))) == GroupsTotal(gs)
  {
    if gs != [] {
      AgencyNodesTotal(gs[1..]);
      AgencyChildrenTotal(GroupBy(gs[0].members, ByBureau));
      GroupByTotal(gs[0].members, ByBureau);
    }
  }

  lemma {:induction false} AgencyChildrenShape(fs: seq<Leaf>, bs: seq<Group>)
    requires forall g :: g in bs ==> g.members == Filter(fs, ByBureau, g.key)
    ensures Names(AgencyChildren(bs)) == Keys(bs)
    ensures forall c :: c in AgencyChildren(bs) ==> c == BureauNode(Group(c.name, Filter(fs, ByBureau, c.name)))
  {
    if bs != [] {
      AgencyChildrenShape(fs, bs[1..]);
    }
  }

  lemma {:induction false} TopLevelPicked(ags: seq<AgencyGroup>)
    ensures TopLevelNodes(ags) == PickAll(AgencyNodes(ags))
  {
    if ags != [] {
      TopLevelPicked(ags[1..]);
    }
  }

  lemma {:induction false} AgencyOfLeaves(items: seq<LineItem>, y: Year, a: string)
    ensures Filter(YearlyExpenses(items, y), ByAgency, a) != [] <==> HasAgency(items, a)
  {
    if items != [] {
      AgencyOfLeaves(items[1..], y, a);
      assert items == [items[0]] + items[1..];
    }
  }

  /** An agency's node: its name, its bureaus (distinct, one per bureau that
      has a line item under the agency, each sized by exactly those line
      items), and a size equal to the sum of its bureaus and to the sum of
      the agency's line items. */
  lemma AgencyNodeForShape(ls: seq<Leaf>, a: string)
    ensures var n := AgencyNodeFor(ls, a);
      var fs := Filter(ls, ByAgency, a);
      && n.name == a
      && n.kids.Branches?
      && n.size == TotalAmount(ChildNodes(n))
      && n.size == LeafTotal(fs)
      && Distinct(Names(ChildNodes(n)))
      && (forall b :: b in Names(ChildNodes(n)) <==> Filter(fs, ByBureau, b) != [])
      && (forall c :: c in ChildNodes(n) ==> c == BureauNodeFor(ls, a, c.name))
  {
    var fs := Filter(ls, ByAgency, a);
    var bs := GroupBy(fs, ByBureau);
    GroupByKeys(fs, ByBureau);
    GroupByMembers(fs, ByBureau);
    GroupByTotal(fs, ByBureau);
    AgencyChildrenTotal(bs);
    AgencyChildrenShape(fs, bs);
  }

  // ---------------------------------------------------------------------
  // Properties of the tree

  /** The root's children: sorted ascending by size, one per distinct agency
      name of the ledger, each the node built from that agency's line items. */
  lemma YearlyDataChildren(items: seq<LineItem>, y: Year)
    ensures var cs := GetYearlyData(items, y).children;
      && GetYearlyData(items, y).name == RootName
      && SortedBySize(cs)
      && Distinct(Names(cs))
      && (forall a :: a in Names(cs) <==> HasAgency(items, a))
      && (forall n :: n in cs ==> n == AgencyNodeFor(YearlyExpenses(items, y), n.name))
  {
    var ls := YearlyExpenses(items, y);
    var gs := GroupBy(ls, ByAgency);
    var unsorted := AgencyNodes(NestBureaus(gs));
    GroupByKeys(ls, ByAgency);
    GroupByMembers(ls, ByAgency);
    AgencyNodesNames(gs);
    AgencyNodesShape(ls, gs);
    SortNames(unsorted);
    forall a ensures a in Names(SortBySize(unsorted)) <==> HasAgency(items, a) {
      AgencyOfLeaves(items, y, a);
    }
    forall n | n in SortBySize(unsorted) ensures n == AgencyNodeFor(ls, n.name) {
      assert n in multiset(SortBySize(unsorted));
    }
  }

  /** Aggregation conserves the total: the root's children add up to the sum
      of all line items of the year, so no line item is dropped or counted twice. */
  lemma {:induction false} YearlyDataConserves(items: seq<LineItem>, y: Year)
    ensures TotalAmount(GetYearlyData(items, y).children) == LeafTotal(YearlyExpenses(items, y))
  {
    var ls := YearlyExpenses(items, y);
    var gs := GroupBy(ls, ByAgency);
    SortTotal(AgencyNodes(NestBureaus(gs)));
    AgencyNodesTotal(gs);
    GroupByTotal(ls, ByAgency);
  }

  /** `getTopLevelAgencies` yields the same names and sizes in the same order
      as `getYearlyData`, only without children. */
  lemma {:induction false} TopLevelMatchesYearlyData(items: seq<LineItem>, y: Year)
    ensures GetTopLevelAgencies(items, y) == Tree(RootName, PickAll(GetYearlyData(items, y).children))
  {
    var ags := NestedData(YearlyExpenses(items, y));
    TopLevelPicked(ags);
    SortPick(AgencyNodes(ags));
  }

  /** `getYearlyAgency` succeeds exactly for the agencies of the ledger, and
      then gives the agency's bureaus reduced to name and size, which add up
      to the agency's line items. */
  lemma YearlyAgencySpec(items: seq<LineItem>, y: Year, a: string)
    ensures GetYearlyAgency(items, y, a).Ok? <==> HasAgency(items, a)
    ensures HasAgency(items, a) ==>
      var ls := YearlyExpenses(items, y);
      && GetYearlyAgency(items, y, a) == Ok(Tree(a, PickAll(ChildNodes(AgencyNodeFor(ls, a)))))
      && TotalAmount(GetYearlyAgency(items, y, a).value.children) == LeafTotal(Filter(ls, ByAgency, a))
  {
    var ls := YearlyExpenses(items, y);
    var cs := GetYearlyData(items, y).children;
    YearlyDataChildren(items, y);
    FindByNameFound(cs, a);
    if HasAgency(items, a) {
      var w := FindByName(cs, a).value;
      assert w == AgencyNodeFor(ls, a);
      AgencyNodeForShape(ls, a);
      PickAllKeeps(ChildNodes(w));
    }
  }

  lemma {:induction false} PickAllKeeps(ns: seq<Node>)
    ensures |PickAll(ns)| == |ns|
    ensures forall k :: 0 <= k < |ns| ==> PickAll(ns)[k] == Pick(ns[k])
    ensures TotalAmount(PickAll(ns)) == TotalAmount(ns)
  {
    if ns != [] {
      PickAllKeeps(ns[1..]);
    }
  }

  /** `getYearlyBureau` throws exactly for agencies outside the ledger; for an
      agency of the ledger it finds the bureau node built from exactly the
      line items of that agency and bureau, or `undefined` when there are none. */
  lemma YearlyBureauSpec(items: seq<LineItem>, y: Year, a: string, b: string)
    ensures GetYearlyBureau(items, y, a, b).Err? <==> !HasAgency(items, a)
    ensures HasAgency(items, a) ==>
      var ls := YearlyExpenses(items, y);
      GetYearlyBureau(items, y, a, b) ==
        Ok(if Filter(Filter(ls, ByAgency, a), ByBureau, b) != [] then Some(BureauNodeFor(ls, a, b)) else None)
  {
    var ls := YearlyExpenses(items, y);
    var cs := GetYearlyData(items, y).children;
    YearlyDataChildren(items, y);
    FindByNameFound(cs, a);
    if HasAgency(items, a) {
      var w := FindByName(cs, a).value;
      assert w == AgencyNodeFor(ls, a);
      AgencyNodeForShape(ls, a);
      FindByNameFound(ChildNodes(w), b);
    }
  }

  /** Drilling into an agency and then into one of the bureaus it lists gives
      the node `getYearlyBureau` returns for that pair, with the same name
      and size. */
  lemma AgencyThenBureau(items: seq<LineItem>, y: Year, a: string, c: Node)
    requires GetYearlyAgency(items, y, a).Ok?
    requires c in GetYearlyAgency(items, y, a).value.children
    ensures GetYearlyBureau(items, y, a, c.name).Ok?
    ensures GetYearlyBureau(items, y, a, c.name).value.Some?
    ensures Pick(GetYearlyBureau(items, y, a, c.name).value.value) == c
  {
    var ls := YearlyExpenses(items, y);
    YearlyAgencySpec(items, y, a);
    var kids := ChildNodes(AgencyNodeFor(ls, a));
    PickAllKeeps(kids);
    var k :| 0 <= k < |PickAll(kids)| && PickAll(kids)[k] == c;
    var b := kids[k];
    AgencyNodeForShape(ls, a);
    NameIn(kids, b);
    YearlyBureauSpec(items, y, a, c.name);
  }

  /** Two line items of agency "A", in bureaus "B1" (100 in 2012) and "B2"
      (50 in 2012): the 2012 tree has the one agency "A" of size 150, whose
      bureaus keep their ledger order, B1 of size 100 before B2 of size 50. */
  lemma TwoBureausOfOneAgency()
    ensures var items := [LineItem("A", "B1", "X", "1", Amounts(100.0, 200.0, 0.0, 0.0)),
                          LineItem("A", "B2", "Y", "2", Amounts(50.0, 50.0, 0.0, 0.0))];
      var cs := GetYearlyData(items, 2012).children;
      && |cs| == 1 && cs[0].name == "A" && cs[0].size == 150.0
      && Names(ChildNodes(cs[0])) == ["B1", "B2"] && |ChildNodes(cs[0])| == 2
      && ChildNodes(cs[0])[0].size == 100.0 && ChildNodes(cs[0])[1].size == 50.0
  {
    var items := [LineItem("A", "B1", "X", "1", Amounts(100.0, 200.0, 0.0, 0.0)),
                  LineItem("A", "B2", "Y", "2", Amounts(50.0, 50.0, 0.0, 0.0))];
    var l1 := Leaf("A", "B1", "X", "1", 100.0);
    var l2 := Leaf("A", "B2", "Y", "2", 50.0);
    assert YearlyExpenses(items, 2012) == [l1, l2] by {
      assert items[1..] == [items[1]];
      assert YearlyExpenses(items[1..][1..], 2012) == [];
    }
    var bs := BureausOfScenario(l1, l2);
    assert GroupBy([l1, l2], ByAgency) == [Group("A", [l1, l2])] by {
      assert Filter([l1, l2], ByAgency, "A") == [l1, l2];
      assert [l1, l2][1..] == [l2];
      assert Reject([l2], ByAgency, "A") == [];
    }
    var g1, g2 := Group("B1", [l1]), Group("B2", [l2]);
    assert NestedData([l1, l2]) == [AgencyGroup("A", [g1, g2])] by {
      var gs := [Group("A", [l1, l2])];
      assert gs[0].members == [l1, l2] && gs[1..] == [];
      assert NestBureaus(gs) == [AgencyGroup("A", GroupBy([l1, l2], ByBureau))] + NestBureaus([]);
    }
    var n := AgencyOfTwoBureaus("A", g1, g2);
    assert AgencyNodes([AgencyGroup("A", [g1, g2])]) == [n];
    assert SortBySize([n]) == [n];
  }

  /** The node of an agency with two one-leaf bureaus. */
  lemma AgencyOfTwoBureaus(a: string, g1: Group, g2: Group) returns (n: Node)
    requires |g1.members| == 1 && |g2.members| == 1
    ensures n == AgencyNode(AgencyGroup(a, [g1, g2]))
    ensures n.name == a && n.size == g1.members[0].size + g2.members[0].size
    ensures ChildNodes(n) == [BureauNode(g1), BureauNode(g2)]
    ensures Names(ChildNodes(n)) == [g1.key, g2.key]
    ensures BureauNode(g1).size == g1.members[0].size && BureauNode(g2).size == g2.members[0].size
  {
    n := AgencyNode(AgencyGroup(a, [g1, g2]));
    assert [g1, g2][1..] == [g2] && [g2][1..] == [];
    var b1, b2 := BureauNode(g1), BureauNode(g2);
    assert AgencyChildren([g2]) == [b2] + AgencyChildren([]);
    assert AgencyChildren([g1, g2]) == [b1] + AgencyChildren([g2]);
    var kids := [b1, b2];
    assert kids[1..] == [b2] && [b2][1..] == [];
    assert g1.members[1..] == [] && g2.members[1..] == [];
    assert LeafTotal(g1.members) == g1.members[0].size + LeafTotal([]);
    assert LeafTotal(g2.members) == g2.members[0].size + LeafTotal([]);
    assert TotalAmount([b2]) == b2.size + TotalAmount([]);
    assert TotalAmount(kids) == b1.size + TotalAmount([b2]);
    assert Names([b2]) == [b2.name] + Names([]);
    assert Names(kids) == [b1.name] + Names([b2]);
    assert AgencyChildren([g1, g2]) == kids;
    assert n.size == TotalAmount(kids);
  }

  /** The bureau grouping of the two leaves above. */
  lemma BureausOfScenario(l1: Leaf, l2: Leaf) returns (bs: seq<Group>)
    requires l1.bureauName == "B1" && l2.bureauName == "B2"
    ensures bs == GroupBy([l1, l2], ByBureau) == [Group("B1", [l1]), Group("B2", [l2])]
  {
    bs := GroupBy([l1, l2], ByBureau);
    assert [l1, l2][1..] == [l2];
    assert Filter([l1, l2], ByBureau, "B1") == [l1];
    assert Reject([l2], ByBureau, "B1") == [l2];
    assert Filter([l2], ByBureau, "B2") == [l2];
    assert Reject([l2][1..], ByBureau, "B2") == [];
    assert GroupBy([l2], ByBureau) == [Group("B2", [l2])];
  }
}
