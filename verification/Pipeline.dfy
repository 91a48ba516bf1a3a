/**
 * The one piece of engine behaviour the processors rely on: a null result means the
 * item is not written. Enough to state the import scenario and what the country report
 * step writes.
 */
module Pipeline {
  import opened Wrappers
  import opened Ascii
  import opened Domain
  import opened CustomerProcessing
  import opened StatisticsProcessing
  import opened PersonProcessing
  import opened Aggregation

  /** The items a step writes: each item's processed result, in order, nulls left out. */
  function Written<T>(items: seq<T>, process: T -> Option<T>): seq<T>
  {
    if items == [] then []
    else (if process(items[0]).Some? then [process(items[0]).value] else []) + Written(items[1..], process)
  }

  /** How many items the processor turned into null. */
  function Dropped<T>(items: seq<T>, process: T -> Option<T>): nat
  {
    if items == [] then 0 else (if process(items[0]).None? then 1 else 0) + Dropped(items[1..], process)
  }

  /** Every item is either written or dropped, never both. */
  lemma {:induction false} WrittenPlusDropped<T>(items: seq<T>, process: T -> Option<T>)
    ensures |Written(items, process)| + Dropped(items, process) == |items|
  {
    if items != [] {
      WrittenPlusDropped(items[1..], process);
    }
  }

  /** Only processed results are written: each written item is the non-null result of
      processing some input item. */
  lemma {:induction false} WrittenAreResults<T>(items: seq<T>, process: T -> Option<T>)
    ensures forall x :: x in Written(items, process) ==>
      exists i :: 0 <= i < |items| && process(items[i]) == Some(x)
  {
    if items != [] {
      WrittenAreResults(items[1..], process);
      forall x | x in Written(items, process)
        ensures exists i :: 0 <= i < |items| && process(items[i]) == Some(x)
      {
        if x in Written(items[1..], process) {
          var i :| 0 <= i < |items[1..]| && process(items[1..][i]) == Some(x);
          assert process(items[i + 1]) == Some(x);
        } else {
          assert process(items[0]) == Some(x);
        }
      }
    }
  }

  /** A processor that never returns null writes every item's result, in order. */
  lemma {:induction false} NothingDroppedWritesAll<T>(items: seq<T>, process: T -> Option<T>)
    requires forall i :: 0 <= i < |items| ==> process(items[i]).Some?
    ensures |Written(items, process)| == |items|
    ensures forall i :: 0 <= i < |items| ==> Written(items, process)[i] == process(items[i]).value
  {
    if items != [] {
      NothingDroppedWritesAll(items[1..], process);
    }
  }

  /** The person job writes every person, upper-cased. */
  lemma AllPeopleWritten(people: seq<Person>)
    ensures |Written(people, ProcessPerson)| == |people|
    ensures forall i :: 0 <= i < |people| ==> Written(people, ProcessPerson)[i] == ProcessPerson(people[i]).value
  {
    NothingDroppedWritesAll(people, ProcessPerson);
  }

  /** Processing two runs of items one after the other writes the two outputs in turn. */
  lemma {:induction false} WrittenAppend<T>(a: seq<T>, b: seq<T>, process: T -> Option<T>)
    ensures Written(a + b, process) == Written(a, process) + Written(b, process)
  {
    if a == [] {
      assert a + b == b;
    } else {
      var head := if process(a[0]).Some? then [process(a[0]).value] else [];
      assert (a + b)[0] == a[0];
      assert (a + b)[1..] == a[1..] + b;
      assert Written(a + b, process) == head + Written(a[1..] + b, process);
      WrittenAppend(a[1..], b, process);
      assert head + (Written(a[1..], process) + Written(b, process))
          == (head + Written(a[1..], process)) + Written(b, process);
    }
  }

  /** A first name that trims and lower-cases to "alex" is written as "Alex". */
  lemma CapitalizesToAlex(name: string)
    requires Lower(Trim(name)) == "alex"
    ensures Capitalize(Some(name)) == "Alex"
  {
    var t := Trim(name);
    var first := Capitalize(Some(name));
    assert |t| == 4;
    assert LowerChar(t[0]) == Lower(t)[0] == 'a';
    assert first[0] == 'A';
    forall i | 1 <= i < 4
      ensures first[i] == "Alex"[i]
    {
      assert first[i] == LowerChar(t[i]) == Lower(t)[i];
    }
  }

  /** A run of rows that all have an '@' in the email and a positive amount is
      written in full. */
  lemma ValidRowsWritten(rows: seq<Customer>, lo: nat, hi: nat)
    requires lo <= hi <= |rows|
    requires forall i :: lo <= i < hi ==>
      rows[i].email.Some? && '@' in rows[i].email.value &&
      rows[i].purchaseAmount.Some? && rows[i].purchaseAmount.value > 0.0
    ensures |Written(rows[lo..hi], ProcessCustomer)| == hi - lo
    ensures lo < hi ==> Written(rows[lo..hi], ProcessCustomer)[0] == ProcessCustomer(rows[lo]).value
  {
    NothingDroppedWritesAll(rows[lo..hi], ProcessCustomer);
  }

  /** A dropped item between two runs leaves just the two runs' output. */
  lemma WrittenSkipsDropped<T>(a: seq<T>, x: T, b: seq<T>, process: T -> Option<T>)
    requires process(x).None?
    ensures Written(a + [x] + b, process) == Written(a, process) + Written(b, process)
  {
    WrittenAppend(a, [x] + b, process);
    assert a + [x] + b == a + ([x] + b);
    assert ([x] + b)[0] == x && ([x] + b)[1..] == b;
  }

  /** Rows 7 and 9 of the import are rejected, so what is written is what the
      three runs around them write. */
  lemma SkipRejected(rows: seq<Customer>)
    requires |rows| == 15
    requires ProcessCustomer(rows[6]).None? && ProcessCustomer(rows[8]).None?
    ensures Written(rows, ProcessCustomer) ==
      Written(rows[0..6], ProcessCustomer) + Written(rows[7..8], ProcessCustomer) + Written(rows[9..15], ProcessCustomer)
  {
    var tail := rows[7..15];
    assert tail == rows[7..8] + [rows[8]] + rows[9..15];
    WrittenSkipsDropped(rows[7..8], rows[8], rows[9..15], ProcessCustomer);
    assert rows == rows[0..6] + [rows[6]] + tail;
    WrittenSkipsDropped(rows[0..6], rows[6], tail, ProcessCustomer);
  }

  /** The import test: 15 rows, row 7 with an email lacking '@' and row 9 with a
      negative amount, the rest valid, gives 13 written customers; the first, id 1, is
      written with first name "Alex" and country "SOUTH AFRICA". */
  lemma ImportScenario(rows: seq<Customer>)
    requires |rows| == 15
    requires rows[6].email.Some? && '@' !in rows[6].email.value
    requires rows[8].purchaseAmount.Some? && rows[8].purchaseAmount.value < 0.0
    requires forall i :: 0 <= i < 15 && i != 6 && i != 8 ==>
      rows[i].email.Some? && '@' in rows[i].email.value &&
      rows[i].purchaseAmount.Some? && rows[i].purchaseAmount.value > 0.0
    requires rows[0].id == Some(1)
    requires rows[0].firstName.Some? && Lower(Trim(rows[0].firstName.value)) == "alex"
    requires rows[0].country.Some? && Upper(rows[0].country.value) == "SOUTH AFRICA"
    ensures |Written(rows, ProcessCustomer)| == 13
    ensures Written(rows, ProcessCustomer)[0].id == Some(1)
    ensures Written(rows, ProcessCustomer)[0].firstName == Some("Alex")
    ensures Written(rows, ProcessCustomer)[0].country == Some("SOUTH AFRICA")
  {
    SkipRejected(rows);
    ValidRowsWritten(rows, 0, 6);
    ValidRowsWritten(rows, 7, 8);
    ValidRowsWritten(rows, 9, 15);
    assert Written(rows, ProcessCustomer)[0] == ProcessCustomer(rows[0]).value;
    CapitalizesToAlex(rows[0].firstName.value);
  }

  /** The country report step: whatever customers the reader drains, its statistics
      count each customer once, one statistic per country, and the statistics processor
      filters none of them, because every group holds at least one customer. */
  lemma ReportStepKeepsEveryCountry(cs: seq<Customer>, stats: seq<CountryStatistics>)
    requires Enumerates(stats, Aggregate(cs))
    ensures SumCounts(stats) == |cs|
    ensures |stats| == |KeysOf(cs)|
    ensures |Written(stats, ProcessStatistics)| == |stats|
  {
    EnumerationAccountsForAll(stats, cs);
    NothingDroppedWritesAll(stats, ProcessStatistics);
  }
}
