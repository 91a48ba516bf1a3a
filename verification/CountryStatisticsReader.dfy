/**
 * The country statistics reader: on its first read it drains the customer cursor,
 * groups the customers by country, turns each group into a CountryStatistics, and from
 * then on hands those out one per read, answering null once they are all out.
 */
module StatisticsReader {
  import opened Wrappers
  import opened Domain
  import opened Aggregation

  class CountryStatisticsReader {
    /** The rows the opened customer cursor yields, in order. */
    const upstream: seq<Customer>
    /** How many rows the cursor has handed out. */
    var cursor: nat
    /** Whether the statistics iterator exists, i.e. aggregation has run. */
    var aggregated: bool
    /** The statistics, in the order the map's values were visited. */
    var statisticsList: seq<CountryStatistics>
    /** The iterator's position in statisticsList. */
    var position: nat

    /** Everything read() has returned so far. */
    ghost var emitted: seq<CountryStatistics>
    /** How many times the cursor has been drained. */
    ghost var drains: nat

    ghost predicate Valid()
      reads this
    {
      && cursor <= |upstream|
      && position <= |statisticsList|
      && emitted == statisticsList[..position]
      && (!aggregated ==> cursor == 0 && drains == 0 && statisticsList == [])
      && (aggregated ==>
            cursor == |upstream| && drains == 1 &&
            Enumerates(statisticsList, Aggregate(upstream)))
    }

    /** Not yet aggregated: nothing read from the cursor. */
    ghost predicate NotAggregated()
      reads this
    {
      !aggregated
    }

    /** Every statistic has been handed out. */
    ghost predicate Exhausted()
      reads this
    {
      aggregated && position == |statisticsList|
    }

    /** A reader over an opened cursor yielding `rows`. */
    constructor (rows: seq<Customer>)
      ensures Valid() && NotAggregated()
      ensures upstream == rows && emitted == []
    {
      upstream := rows;
      cursor := 0;
      aggregated := false;
      statisticsList := [];
      position := 0;
      emitted := [];
      drains := 0;
    }

    /** read(): aggregate on the first call only, then return the next statistic, or
        None (null) once all have been returned. */
    method Read() returns (r: Option<CountryStatistics>)
      requires Valid()
      modifies this
      ensures Valid() && aggregated && drains == 1
      ensures old(aggregated) ==> cursor == old(cursor) && statisticsList == old(statisticsList)
      ensures r.None? <==> |old(emitted)| == |statisticsList|
      ensures r.Some? ==> emitted == old(emitted) + [r.value]
      ensures r.None? ==> emitted == old(emitted) && Exhausted()
      ensures Exhausted() ==> Enumerates(emitted, Aggregate(upstream)) && SumCounts(emitted) == |upstream|
    {
      if !aggregated {
        AggregateData();
      }
      if position < |statisticsList| {
        r := Some(statisticsList[position]);
        position := position + 1;
        emitted := emitted + [r.value];
        assert emitted == statisticsList[..position];
      } else {
        r := None;
      }
      if position == |statisticsList| {
        assert emitted == statisticsList;
        EnumerationAccountsForAll(statisticsList, upstream);
      }
    }

    /** aggregateData(): drain the cursor into a map from group key to accumulator,
        then list the accumulators' statistics, visiting the keys in an unspecified
        order. */
    method AggregateData()
      requires Valid() && !aggregated
      modifies this
      ensures Valid() && aggregated && position == 0 && emitted == []
      ensures cursor == |upstream| && drains == 1
      ensures Enumerates(statisticsList, Aggregate(upstream))
    {
      var aggregations: map<string, CountryAggregation> := map[];
      var customerCount := 0;
      while cursor < |upstream|
        invariant cursor <= |upstream|
        invariant customerCount == cursor
        invariant aggregations == Aggregate(upstream[..cursor])
        invariant position == 0 && emitted == [] && drains == 0
      {
        var customer := upstream[cursor];
        cursor := cursor + 1;
        customerCount := customerCount + 1;
        var country := if customer.country.Some? then customer.country.value else Unknown;
        var aggregation := if country in aggregations then aggregations[country] else NewAggregation(country);
        aggregations := aggregations[country := AddCustomer(aggregation, customer.purchaseAmount)];
        assert upstream[..cursor][..cursor - 1] == upstream[..cursor - 1];
      }
      assert upstream[..cursor] == upstream;
      AggregateIsGrouping(upstream);
      var list := ListStatistics(aggregations);
      statisticsList := list;
      position := 0;
      aggregated := true;
      drains := drains + 1;
    }
  }

  /** The loop over the map's values: one statistic per group, visiting the keys in an
      unspecified order, as a HashMap does. */
  method ListStatistics(aggregations: map<string, CountryAggregation>) returns (list: seq<CountryStatistics>)
    requires forall k :: k in aggregations ==> aggregations[k].country == k
    ensures Enumerates(list, aggregations)
  {
    list := [];
    var pending := aggregations.Keys;
    while pending != {}
      invariant pending <= aggregations.Keys
      invariant DistinctGroupsOf(list, aggregations)
      invariant Countries(list) == aggregations.Keys - pending
      decreases |pending|
    {
      var key :| key in pending;
      AddGroup(list, aggregations, key);
      list := list + [ToStatistics(aggregations[key])];
      pending := pending - {key};
    }
  }

  /** Listing one more group, not listed yet, keeps the list free of repeats. */
  lemma AddGroup(list: seq<CountryStatistics>, m: map<string, CountryAggregation>, key: string)
    requires DistinctGroupsOf(list, m)
    requires key in m && m[key].country == key && key !in Countries(list)
    ensures DistinctGroupsOf(list + [ToStatistics(m[key])], m)
    ensures Countries(list + [ToStatistics(m[key])]) == Countries(list) + {key}
  {
    var extended := list + [ToStatistics(m[key])];
    forall i | 0 <= i < |list|
      ensures extended[i].country != Some(key)
    {
      assert list[i] in list;
    }
  }
}
