/**
 * What the country statistics reader computes, as functions: the group key of a
 * customer, the per-country accumulator (CountryAggregation), the map the aggregation
 * loop builds, and what the emitted statistics add up to.
 */
module Aggregation {
  import opened Wrappers
  import opened Domain

  /** The group of customers whose country is null. */
  const Unknown: string := "UNKNOWN"

  /** The key a customer is grouped under: its country verbatim, blank or not, and
      UNKNOWN only when the country is null. */
  function GroupKey(c: Customer): string
  {
    if c.country.Some? then c.country.value else Unknown
  }

  /** CountryAggregation: one country's customer count and revenue total so far. */
  datatype CountryAggregation = CountryAggregation(country: string, count: int, totalRevenue: real)

  /** A fresh accumulator, as computeIfAbsent creates it. */
  function NewAggregation(country: string): CountryAggregation
  {
    CountryAggregation(country, 0, 0.0)
  }

  /** addCustomer: one more customer, and the amount added to the total unless null. */
  function AddCustomer(a: CountryAggregation, purchaseAmount: Option<real>): (r: CountryAggregation)
    ensures r.country == a.country && r.count == a.count + 1
    ensures purchaseAmount.None? ==> r.totalRevenue == a.totalRevenue
    ensures purchaseAmount.Some? ==> r.totalRevenue == a.totalRevenue + purchaseAmount.value
  {
    a.(count := a.count + 1, totalRevenue := a.totalRevenue + purchaseAmount.GetOr(0.0))
  }

  /** toStatistics: the figures of one country, the average being the total per
      customer, or 0 for an empty group. */
  function ToStatistics(a: CountryAggregation): (s: CountryStatistics)
    ensures s.country == Some(a.country)
    ensures s.customerCount == a.count && s.totalRevenue == Some(a.totalRevenue)
    ensures s.averagePurchaseAmount.Some?
    ensures a.count > 0 ==> s.averagePurchaseAmount.value * a.count as real == a.totalRevenue
    ensures a.count <= 0 ==> s.averagePurchaseAmount.value == 0.0
  {
    var average := if a.count > 0 then a.totalRevenue / a.count as real else 0.0;
    CountryStatistics(Some(a.country), a.count, Some(a.totalRevenue), Some(average))
  }

  /** One turn of the aggregation loop: look up or create the customer's group, then
      add the customer to it. */
  function AddTo(m: map<string, CountryAggregation>, c: Customer): map<string, CountryAggregation>
  {
    var key := GroupKey(c);
    var a := if key in m then m[key] else NewAggregation(key);
    m[key := AddCustomer(a, c.purchaseAmount)]
  }

  /** One turn of the loop touches only the customer's group: an existing group gains
      the customer, a missing one is created holding just this customer, and every
      other group is as it was. */
  lemma AddToUpdatesOneGroup(m: map<string, CountryAggregation>, c: Customer)
    ensures AddTo(m, c).Keys == m.Keys + {GroupKey(c)}
    ensures forall k :: k in m && k != GroupKey(c) ==> AddTo(m, c)[k] == m[k]
    ensures GroupKey(c) in m ==> AddTo(m, c)[GroupKey(c)] == AddCustomer(m[GroupKey(c)], c.purchaseAmount)
    ensures GroupKey(c) !in m ==>
      && AddTo(m, c)[GroupKey(c)].country == GroupKey(c)
      && AddTo(m, c)[GroupKey(c)].count == 1
      && AddTo(m, c)[GroupKey(c)].totalRevenue == c.purchaseAmount.GetOr(0.0)
  {
  }

  /** The map the aggregation loop holds after consuming cs, in order. */
  function Aggregate(cs: seq<Customer>): (m: map<string, CountryAggregation>)
    decreases |cs|
  {
    if cs == [] then map[] else AddTo(Aggregate(cs[..|cs| - 1]), cs[|cs| - 1])
  }

  // Reference definitions, independent of the loop.

  /** The customers of cs whose key is in keys, in their order. */
  function InGroups(cs: seq<Customer>, keys: set<string>): seq<Customer>
  {
    if cs == [] then []
    else (if GroupKey(cs[0]) in keys then [cs[0]] else []) + InGroups(cs[1..], keys)
  }

  /** The customers of cs in the group of `key`. */
  function Members(cs: seq<Customer>, key: string): seq<Customer>
  {
    InGroups(cs, {key})
  }

  /** The sum of the non-null purchase amounts of cs. */
  function Revenue(cs: seq<Customer>): real
  {
    if cs == [] then 0.0 else cs[0].purchaseAmount.GetOr(0.0) + Revenue(cs[1..])
  }

  /** The keys that occur in cs. */
  function KeysOf(cs: seq<Customer>): set<string>
  {
    set c | c in cs :: GroupKey(c)
  }

  /** The sum of the customer counts of a list of statistics. */
  function SumCounts(stats: seq<CountryStatistics>): int
  {
    if stats == [] then 0 else stats[0].customerCount + SumCounts(stats[1..])
  }

  /** The non-null countries named in a list of statistics. */
  function Countries(stats: seq<CountryStatistics>): set<string>
  {
    set s | s in stats && s.country.Some? :: s.country.value
  }

  /** Each element of stats is the statistic of a group of m, no group twice. */
  ghost predicate DistinctGroupsOf(stats: seq<CountryStatistics>, m: map<string, CountryAggregation>)
  {
    && (forall i :: 0 <= i < |stats| ==>
          stats[i].country.Some? && stats[i].country.value in m &&
          stats[i] == ToStatistics(m[stats[i].country.value]))
    && (forall i, j :: 0 <= i < j < |stats| ==> stats[i].country != stats[j].country)
  }

  /** stats lists the statistic of every group of m exactly once, in some order. */
  ghost predicate Enumerates(stats: seq<CountryStatistics>, m: map<string, CountryAggregation>)
  {
    DistinctGroupsOf(stats, m) && Countries(stats) == m.Keys
  }

  lemma {:induction false} InGroupsAppend(a: seq<Customer>, b: seq<Customer>, keys: set<string>)
    ensures InGroups(a + b, keys) == InGroups(a, keys) + InGroups(b, keys)
  {
    if a == [] {
      assert a + b == b;
    } else {
      var head := if GroupKey(a[0]) in keys then [a[0]] else [];
      assert (a + b)[0] == a[0];
      assert (a + b)[1..] == a[1..] + b;
      assert InGroups(a + b, keys) == head + InGroups(a[1..] + b, keys);
      InGroupsAppend(a[1..], b, keys);
      assert head + (InGroups(a[1..], keys) + InGroups(b, keys))
          == (head + InGroups(a[1..], keys)) + InGroups(b, keys);
    }
  }

  lemma {:induction false} RevenueAppend(a: seq<Customer>, b: seq<Customer>)
    ensures Revenue(a + b) == Revenue(a) + Revenue(b)
  {
    if a == [] {
      assert a + b == b;
    } else {
      assert (a + b)[0] == a[0];
      assert (a + b)[1..] == a[1..] + b;
      RevenueAppend(a[1..], b);
    }
  }

  /** The aggregation map is the grouping of the drained customers by key: one entry per
      key that occurs, holding that key, the number of its customers (at least one) and
      the sum of their non-null amounts. */
  lemma {:induction false} AggregateIsGrouping(cs: seq<Customer>)
    ensures Aggregate(cs).Keys == KeysOf(cs)
    ensures forall k :: k in Aggregate(cs) ==>
      && Aggregate(cs)[k].country == k
      && Aggregate(cs)[k].count == |Members(cs, k)|
      && Aggregate(cs)[k].totalRevenue == Revenue(Members(cs, k))
      && Aggregate(cs)[k].count >= 1
    decreases |cs|
  {
    if cs != [] {
      var init, c := cs[..|cs| - 1], cs[|cs| - 1];
      assert cs == init + [c];
      AggregateIsGrouping(init);
      var m := Aggregate(init);
      assert Aggregate(cs) == AddTo(m, c);
      assert KeysOf(cs) == KeysOf(init) + {GroupKey(c)};
      forall k | k in AddTo(m, c)
        ensures AddTo(m, c)[k].country == k
        ensures AddTo(m, c)[k].count == |Members(cs, k)|
        ensures AddTo(m, c)[k].totalRevenue == Revenue(Members(cs, k))
        ensures AddTo(m, c)[k].count >= 1
      {
        GroupingStep(init, c, k);
      }
    }
  }

  /** The induction step of AggregateIsGrouping for one key. */
  lemma {:induction false} GroupingStep(init: seq<Customer>, c: Customer, k: string)
    requires Aggregate(init).Keys == KeysOf(init)
    requires k in Aggregate(init) ==>
      && Aggregate(init)[k].country == k
      && Aggregate(init)[k].count == |Members(init, k)|
      && Aggregate(init)[k].totalRevenue == Revenue(Members(init, k))
      && Aggregate(init)[k].count >= 1
    requires k in AddTo(Aggregate(init), c)
    ensures AddTo(Aggregate(init), c)[k].country == k
    ensures AddTo(Aggregate(init), c)[k].count == |Members(init + [c], k)|
    ensures AddTo(Aggregate(init), c)[k].totalRevenue == Revenue(Members(init + [c], k))
    ensures AddTo(Aggregate(init), c)[k].count >= 1
  {
    var m := Aggregate(init);
    InGroupsAppend(init, [c], {k});
    assert Members(init + [c], k) == Members(init, k) + Members([c], k);
    RevenueAppend(Members(init, k), Members([c], k));
    if k == GroupKey(c) {
      assert Members([c], k) == [c];
      if k !in m {
        assert Members(init, k) == [] by { NoMembersOutsideKeys(init, k); }
      }
    } else {
      assert Members([c], k) == [];
      assert Members(init + [c], k) == Members(init, k);
      assert AddTo(m, c)[k] == m[k];
    }
  }

  /** A key that does not occur has no members. */
  lemma {:induction false} NoMembersOutsideKeys(cs: seq<Customer>, k: string)
    requires k !in KeysOf(cs)
    ensures Members(cs, k) == []
  {
    if cs != [] {
      assert KeysOf(cs[1..]) <= KeysOf(cs);
      NoMembersOutsideKeys(cs[1..], k);
    }
  }

  /** Splitting off one key splits the selected customers. */
  lemma {:induction false} InGroupsSplit(cs: seq<Customer>, k: string, keys: set<string>)
    requires k !in keys
    ensures |InGroups(cs, {k} + keys)| == |Members(cs, k)| + |InGroups(cs, keys)|
  {
    if cs != [] {
      InGroupsSplit(cs[1..], k, keys);
    }
  }

  /** Selecting by every key that occurs selects everything. */
  lemma {:induction false} InGroupsAll(cs: seq<Customer>, keys: set<string>)
    requires KeysOf(cs) <= keys
    ensures InGroups(cs, keys) == cs
  {
    if cs != [] {
      assert KeysOf(cs[1..]) <= KeysOf(cs);
      InGroupsAll(cs[1..], keys);
    }
  }

  /** Selecting by no key selects nothing. */
  lemma {:induction false} InGroupsEmpty(cs: seq<Customer>)
    ensures InGroups(cs, {}) == []
  {
    if cs != [] {
      InGroupsEmpty(cs[1..]);
    }
  }

  /** Distinct statistics of groups count the customers of exactly those groups. */
  lemma {:induction false} SumCountsOfGroups(stats: seq<CountryStatistics>, cs: seq<Customer>)
    requires DistinctGroupsOf(stats, Aggregate(cs))
    ensures SumCounts(stats) == |InGroups(cs, Countries(stats))|
    ensures |Countries(stats)| == |stats|
  {
    if stats == [] {
      assert Countries(stats) == {};
      InGroupsEmpty(cs);
    } else {
      var rest := stats[1..];
      var k := stats[0].country.value;
      assert DistinctGroupsOf(rest, Aggregate(cs));
      SumCountsOfGroups(rest, cs);
      assert Countries(stats) == {k} + Countries(rest) by {
        forall s | s in stats
          ensures s in rest || s == stats[0]
        {
        }
      }
      assert k !in Countries(rest);
      assert stats[0].customerCount == |Members(cs, k)| by { GroupCountIsMembers(cs, k); }
      InGroupsSplit(cs, k, Countries(rest));
    }
  }

  /** The count of one group is the number of its members. */
  lemma GroupCountIsMembers(cs: seq<Customer>, k: string)
    requires k in Aggregate(cs)
    ensures Aggregate(cs)[k].count == |Members(cs, k)|
  {
    AggregateIsGrouping(cs);
  }

  /** The emitted statistics account for every drained customer exactly once: their
      counts sum to the number of customers, there is one per distinct key, and each
      counts at least one customer. */
  lemma {:induction false} EnumerationAccountsForAll(stats: seq<CountryStatistics>, cs: seq<Customer>)
    requires Enumerates(stats, Aggregate(cs))
    ensures SumCounts(stats) == |cs|
    ensures |stats| == |KeysOf(cs)|
    ensures forall i :: 0 <= i < |stats| ==> stats[i].customerCount >= 1
  {
    AggregateIsGrouping(cs);
    SumCountsOfGroups(stats, cs);
    InGroupsAll(cs, Countries(stats));
  }

  /** Null countries share the single UNKNOWN group, together with any customer whose
      country is literally UNKNOWN; blank countries keep groups of their own. */
  lemma GroupKeyFallback(c: Customer, d: Customer)
    ensures c.country.None? ==> GroupKey(c) == Unknown
    ensures c.country.None? && d.country.None? ==> GroupKey(c) == GroupKey(d)
    ensures c.country.None? && d.country == Some(Unknown) ==> GroupKey(c) == GroupKey(d)
    ensures c.country.None? && d.country == Some("") ==> GroupKey(c) != GroupKey(d)
    ensures c.country.Some? ==> GroupKey(c) == c.country.value
  {
  }
}
