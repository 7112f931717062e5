/** The grouping `d3.nest().key(..).map(..)` performs: a list of records is
    split by a key into groups, one per distinct key in order of first
    occurrence, each group holding its members in input order. */
module Nesting {

  /** One line item projected onto a single year (`getYearlyLineItem`): its
      agency, bureau and account names, its unique key, and the year's amount. */
  datatype Leaf = Leaf(agencyName: string, bureauName: string, name: string, uniqueName: string, size: real)

  /** The key functions the nesting uses. */
  datatype Field = ByAgency | ByBureau

  function KeyOf(l: Leaf, f: Field): string {
    match f
    case ByAgency => l.agencyName
    case ByBureau => l.bureauName
  }

  /** The leaves whose key is `k`, in input order. */
  function Filter(ls: seq<Leaf>, f: Field, k: string): (r: seq<Leaf>)
    ensures |r| <= |ls|
    ensures forall x :: x in r <==> x in ls && KeyOf(x, f) == k
  {
    if ls == [] then []
    else (if KeyOf(ls[0], f) == k then [ls[0]] else []) + Filter(ls[1..], f, k)
  }

  /** The leaves whose key is not `k`, in input order. */
  function Reject(ls: seq<Leaf>, f: Field, k: string): (r: seq<Leaf>)
    ensures |r| <= |ls|
  {
    if ls == [] then []
    else (if KeyOf(ls[0], f) != k then [ls[0]] else []) + Reject(ls[1..], f, k)
  }

  /** The sum of the leaves' sizes: `_.reduce(val, (sum, num) => sum + num.size, 0)`. */
  function LeafTotal(ls: seq<Leaf>): real {
    if ls == [] then 0.0 else ls[0].size + LeafTotal(ls[1..])
  }

  /** One key of a nesting level with the leaves under it. */
  datatype Group = Group(key: string, members: seq<Leaf>)

  /** One level of `d3.nest`: the first leaf's key opens the first group, which
      takes every leaf with that key; the remaining keys are grouped from the
      leaves left over. */
  function GroupBy(ls: seq<Leaf>, f: Field): seq<Group>
    decreases |ls|
  {
    if ls == [] then []
    else
      var k := KeyOf(ls[0], f);
      [Group(k, Filter(ls, f, k))] + GroupBy(Reject(ls[1..], f, k), f)
  }

  function Keys(gs: seq<Group>): seq<string> {
    if gs == [] then [] else [gs[0].key] + Keys(gs[1..])
  }

  function Members(gs: seq<Group>): seq<Leaf> {
    if gs == [] then [] else gs[0].members + Members(gs[1..])
  }

  function GroupsTotal(gs: seq<Group>): real {
    if gs == [] then 0.0 else LeafTotal(gs[0].members) + GroupsTotal(gs[1..])
  }

  predicate Distinct(ks: seq<string>) {
    forall i, j :: 0 <= i < j < |ks| ==> ks[i] != ks[j]
  }

  lemma {:induction false} FilterOfReject(ls: seq<Leaf>, f: Field, k: string, k': string)
    ensures Filter(Reject(ls, f, k), f, k') == if k == k' then [] else Filter(ls, f, k')
  {
    if ls != [] {
      FilterOfReject(ls[1..], f, k, k');
      var head := if KeyOf(ls[0], f) != k then [ls[0]] else [];
      assert Reject(ls, f, k) == head + Reject(ls[1..], f, k);
      FilterAppend(head, Reject(ls[1..], f, k), f, k');
    }
  }

  lemma {:induction false} FilterAppend(a: seq<Leaf>, b: seq<Leaf>, f: Field, k: string)
    ensures Filter(a + b, f, k) == Filter(a, f, k) + Filter(b, f, k)
  {
    if a != [] {
      assert (a + b)[1..] == a[1..] + b;
      FilterAppend(a[1..], b, f, k);
    } else {
      assert a + b == b;
    }
  }

  lemma {:induction false} LeafTotalAppend(a: seq<Leaf>, b: seq<Leaf>)
    ensures LeafTotal(a + b) == LeafTotal(a) + LeafTotal(b)
  {
    if a != [] {
      assert (a + b)[1..] == a[1..] + b;
      LeafTotalAppend(a[1..], b);
    } else {
      assert a + b == b;
    }
  }

  /** Splitting by one key loses no amount. */
  lemma {:induction false} SplitTotal(ls: seq<Leaf>, f: Field, k: string)
    ensures LeafTotal(ls) == LeafTotal(Filter(ls, f, k)) + LeafTotal(Reject(ls, f, k))
  {
    if ls != [] {
      SplitTotal(ls[1..], f, k);
      var x := ls[0];
      if KeyOf(x, f) == k {
        var rest := Filter(ls[1..], f, k);
        assert Filter(ls, f, k) == [x] + rest;
        assert ([x] + rest)[1..] == rest;
        assert Reject(ls, f, k) == Reject(ls[1..], f, k);
      } else {
        var rest := Reject(ls[1..], f, k);
        assert Reject(ls, f, k) == [x] + rest;
        assert ([x] + rest)[1..] == rest;
        assert Filter(ls, f, k) == Filter(ls[1..], f, k);
      }
    }
  }

  /** Splitting by one key neither drops nor duplicates a leaf. */
  lemma {:induction false} SplitMultiset(ls: seq<Leaf>, f: Field, k: string)
    ensures multiset(ls) == multiset(Filter(ls, f, k)) + multiset(Reject(ls, f, k))
  {
    if ls != [] {
      SplitMultiset(ls[1..], f, k);
      var x := ls[0];
      assert ls == [x] + ls[1..];
      if KeyOf(x, f) == k {
        assert Filter(ls, f, k) == [x] + Filter(ls[1..], f, k);
        assert Reject(ls, f, k) == Reject(ls[1..], f, k);
      } else {
        assert Filter(ls, f, k) == Filter(ls[1..], f, k);
        assert Reject(ls, f, k) == [x] + Reject(ls[1..], f, k);
      }
    }
  }

  /** The groups carry distinct keys, and a key has a group exactly when some
      leaf carries it. */
  lemma {:induction false} GroupByKeys(ls: seq<Leaf>, f: Field)
    ensures Distinct(Keys(GroupBy(ls, f)))
    ensures forall k :: k in Keys(GroupBy(ls, f)) <==> Filter(ls, f, k) != []
    decreases |ls|
  {
    if ls != [] {
      var k0 := KeyOf(ls[0], f);
      var rest := Reject(ls[1..], f, k0);
      GroupByKeys(rest, f);
      var tail := GroupBy(rest, f);
      assert GroupBy(ls, f) == [Group(k0, Filter(ls, f, k0))] + tail;
      assert Keys(GroupBy(ls, f)) == [k0] + Keys(tail);
      FilterOfReject(ls[1..], f, k0, k0);
      assert k0 !in Keys(tail);
      forall k
        ensures k in Keys(GroupBy(ls, f)) <==> Filter(ls, f, k) != []
      {
        FilterOfReject(ls[1..], f, k0, k);
      }
    }
  }

  /** Every group holds exactly the leaves with its key, in input order, and
      is not empty. */
  lemma {:induction false} GroupByMembers(ls: seq<Leaf>, f: Field)
    ensures forall g :: g in GroupBy(ls, f) ==> g.members == Filter(ls, f, g.key) && g.members != []
    decreases |ls|
  {
    if ls != [] {
      var k0 := KeyOf(ls[0], f);
      var rest := Reject(ls[1..], f, k0);
      GroupByMembers(rest, f);
      var tail := GroupBy(rest, f);
      assert GroupBy(ls, f) == [Group(k0, Filter(ls, f, k0))] + tail;
      forall g | g in tail
        ensures g.members == Filter(ls, f, g.key)
      {
        FilterOfReject(ls[1..], f, k0, g.key);
      }
    }
  }

  /** Grouping conserves the total: the group sums add up to the sum of all leaves. */
  lemma {:induction false} GroupByTotal(ls: seq<Leaf>, f: Field)
    ensures GroupsTotal(GroupBy(ls, f)) == LeafTotal(ls)
    decreases |ls|
  {
    if ls != [] {
      var k0 := KeyOf(ls[0], f);
      var rest := Reject(ls[1..], f, k0);
      GroupByTotal(rest, f);
      var tail := GroupBy(rest, f);
      assert GroupBy(ls, f) == [Group(k0, Filter(ls, f, k0))] + tail;
      assert ([Group(k0, Filter(ls, f, k0))] + tail)[1..] == tail;
      SplitTotal(ls, f, k0);
      assert Reject(ls, f, k0) == rest;
    }
  }

  /** Grouping neither drops nor duplicates a leaf: the groups' members
      together are a permutation of the input. */
  lemma {:induction false} GroupByPermutes(ls: seq<Leaf>, f: Field)
    ensures multiset(Members(GroupBy(ls, f))) == multiset(ls)
    decreases |ls|
  {
    if ls != [] {
      var k0 := KeyOf(ls[0], f);
      var rest := Reject(ls[1..], f, k0);
      GroupByPermutes(rest, f);
      var tail := GroupBy(rest, f);
      assert GroupBy(ls, f) == [Group(k0, Filter(ls, f, k0))] + tail;
      assert ([Group(k0, Filter(ls, f, k0))] + tail)[1..] == tail;
      SplitMultiset(ls, f, k0);
      assert Reject(ls, f, k0) == rest;
    }
  }
}
