# Spring Batch demo: processors, aggregation reader and chunk listeners in Dafny

This project models the plug-ins of a Spring Batch demonstration application. The batch
engine itself is library code. The plug-ins are:

- **Customer import.** `CustomerProcessor` rejects a customer whose email is missing or
  lacks `@`, or whose purchase amount is missing or not positive. For a kept customer it
  capitalises both names and upper-cases the country, which becomes `UNKNOWN` when null.
  The change is made in place on the same object.
- **Country report.** `CountryStatisticsReader` drains the stored customers on its
  first `read()` and groups them by country. The group key is `UNKNOWN` when the country
  is null. For each group it keeps a count and a revenue total. It turns each group into
  a `CountryStatistics`, then hands these out one per `read()` until it answers null.
  `CountryStatisticsProcessor` drops groups with fewer than one customer and rounds both
  money figures to cents. It names a null or blank country `UNKNOWN`.
- **Introductory job.** `PersonProcessor` builds a new person whose names are upper-cased.
  A null name becomes the empty string.
- **Chunk listeners.** Two `ChunkLoggingListener`s number chunks through a
  `chunk-count` entry in the step's execution context. The one for the report job also
  stores the step's cumulative read, write and skip counts under three `prev-` keys. It
  uses them to report each chunk's own counts.

The modules follow the program's structure:

- Records and processors:
  - `Domain`: the records, plus the mutable objects that the processors update.
  - `Ascii`: Java's case mapping, `trim` and `isBlank`, restricted to ASCII.
  - `CustomerProcessing`, `StatisticsProcessing` and `PersonProcessing`: the three
    processors.
- Country report:
  - `Aggregation`: the grouping fold and its reference definitions.
  - `StatisticsReader`: the reader class.
- Chunk listeners:
  - `StepContext`: the step's counters and execution context.
  - `ChunkCounting`: the counter both listeners share.
  - `ChunkLogging` and `AdvancedChunkLogging`: the two listeners.
- `Pipeline`: the one engine rule the processors rely on, that a null result is not
  written. It is used to state the import scenario and what the country report step
  writes.

The customer and statistics processors update their argument in place, so each is given
twice:

- as a function on record values, about which the properties are proved;
- as a method on the mutable object, proved to perform exactly that function in place
  and to return the same object, or null.

The person processor builds a fresh object and never touches its input. It is given
only as a function, `PersonProcessing.ProcessPerson`.

The reader's `HashMap` iteration order is unspecified. `ListStatistics` therefore picks
the next key with `:|`, and every property of its output is stated over the set of
groups, never over their order.

## Model

Source paths are relative to the repository root. Every path below begins with
`src/main/java/com/dariel/batchdemo/` or `src/test/java/com/dariel/batchdemo/`.

| member | source | states |
|---|---|---|
| Ascii.Trim | src/main/java/com/dariel/batchdemo/processing/CustomerProcessor.java:57 | The trimmed string is no longer than the input. It is empty, or it starts and ends above U+0020. It is empty when every character is at or below U+0020. An input that already starts and ends above U+0020 is returned unchanged. In every case the result is a slice of the input, and every character cut from either end is at or below U+0020. |
| Ascii.BlankTrimsToEmpty | src/main/java/com/dariel/batchdemo/processing/CustomerProcessor.java:54-57 | A blank string, in `Character.isWhitespace`'s sense, trims to the empty string. The converse fails: see Findings. |
| Ascii.UpperIdempotent | src/main/java/com/dariel/batchdemo/processing/CustomerProcessor.java:40 | Upper-casing twice is upper-casing once, and the result holds no lower-case letter. |
| Ascii.CaseIdempotent | src/main/java/com/dariel/batchdemo/processing/CustomerProcessor.java:57-58 | Applying a one-character case mapping twice is applying it once. |
| Ascii.CaseKeepsVisible | src/main/java/com/dariel/batchdemo/processing/CustomerProcessor.java:57-58 | Case mapping keeps a character that is above U+0020 above U+0020. |
| Ascii.VisibleHeadNotBlank | src/main/java/com/dariel/batchdemo/processing/CustomerProcessor.java:54 | A string that starts above U+0020 is not blank. |
| CustomerProcessing.CapitalizeAsWrittenThrows | src/main/java/com/dariel/batchdemo/processing/CustomerProcessor.java:53-59 | The string "\u0000" is not blank, yet `capitalize` as written fails on it. The corrected helper maps it to UNKNOWN. |
| CustomerProcessing.CapitalizeAsWritten | src/main/java/com/dariel/batchdemo/processing/CustomerProcessor.java:53-59 | `capitalize` exactly as written. It fails (None) exactly when the value is non-null, not blank, and trims to nothing. A null or blank value gives UNKNOWN. |
| CustomerProcessing.ProcessCustomerAsWritten | src/main/java/com/dariel/batchdemo/processing/CustomerProcessor.java:21-59 | `process` exactly as written. It fails exactly when the customer passes validation and `capitalize` as written fails on either name. It returns null exactly when validation rejects. |
| CustomerProcessing.ProcessCustomerAgreesWithAsWritten | src/main/java/com/dariel/batchdemo/processing/CustomerProcessor.java:21-59 | Wherever `process` as written returns, it returns what the corrected `ProcessCustomer` returns. |
| CustomerProcessing.ProcessCustomerAsWrittenFails | src/main/java/com/dariel/batchdemo/processing/CustomerProcessor.java:35-58 | A valid customer whose first name is U+0000 makes `process` as written fail. The corrected model writes the customer with first name UNKNOWN. |
| CustomerProcessing.CapitalizeAgreesWithAsWritten | src/main/java/com/dariel/batchdemo/processing/CustomerProcessor.java:53-59 | On every input where `capitalize` as written returns, the corrected helper returns the same string. |
| CustomerProcessing.Capitalize | src/main/java/com/dariel/batchdemo/processing/CustomerProcessor.java:53-59 | A null or blank value gives UNKNOWN, and so does a value that is not blank but trims to nothing (the corrected case, see Findings). Otherwise the result has the trimmed value's length, its first character is that character upper-cased, and every later character is lower-cased. |
| CustomerProcessing.CapitalizeTrimmed | src/main/java/com/dariel/batchdemo/processing/CustomerProcessor.java:57-58 | For a non-empty trimmed word, the length is kept, the first character is upper-cased and the rest are lower-cased. |
| CustomerProcessing.CapitalizeIdempotent | src/main/java/com/dariel/batchdemo/processing/CustomerProcessor.java:53-59 | Capitalising a name that was capitalised from a non-empty trimmed value changes nothing. |
| CustomerProcessing.CapitalizedIsTrimmed | src/main/java/com/dariel/batchdemo/processing/CustomerProcessor.java:57-58 | A capitalised trimmed word is already trimmed and is not blank. |
| CustomerProcessing.CapitalizeTrimmedIdempotent | src/main/java/com/dariel/batchdemo/processing/CustomerProcessor.java:57-58 | Capitalising a capitalised word gives the same word. |
| CustomerProcessing.CapitalizeFallbackChanges | src/main/java/com/dariel/batchdemo/processing/CustomerProcessor.java:54-58 | Null gives UNKNOWN. The fallback is not stable: a second pass turns UNKNOWN into "Unknown". |
| CustomerProcessing.ProcessCustomer | src/main/java/com/dariel/batchdemo/processing/CustomerProcessor.java:21-47 | The result is null exactly when the email is null or lacks '@', or the amount is null or ≤ 0. A kept customer keeps its id, email and amount. Its names are capitalised. Its country is upper-cased, or UNKNOWN when null, so a blank country is upper-cased rather than replaced. |
| CustomerProcessing.Process | src/main/java/com/dariel/batchdemo/processing/CustomerProcessor.java:21-47 | Returns null exactly when `ProcessCustomer` rejects, and then leaves the object untouched. Otherwise it returns the same object, now holding `ProcessCustomer`'s result. |
| CustomerProcessing.ReprocessWritten | src/main/java/com/dariel/batchdemo/processing/CustomerProcessor.java:21-59 | A written customer passes validation again. A second pass keeps its country and every name that did not fall back to UNKNOWN. |
| CustomerProcessing.UpperOfUnknown | src/main/java/com/dariel/batchdemo/processing/CustomerProcessor.java:39-43 | Upper-casing the fallback country UNKNOWN leaves it unchanged. |
| StatisticsProcessing.Round | src/main/java/com/dariel/batchdemo/advanced/processing/CountryStatisticsProcessor.java:51-54 | The result is a whole number of cents. It lies within half a cent of the value: less than half a cent below, at most half a cent above. |
| StatisticsProcessing.RoundUnique | src/main/java/com/dariel/batchdemo/advanced/processing/CountryStatisticsProcessor.java:51-54 | Those two properties determine the rounded value, with ties going up. |
| StatisticsProcessing.RoundIdempotent | src/main/java/com/dariel/batchdemo/advanced/processing/CountryStatisticsProcessor.java:51-54 | Rounding a rounded amount changes nothing. |
| StatisticsProcessing.RoundExamples | src/test/java/com/dariel/batchdemo/processing/CountryStatisticsProcessorTest.java:34-35 | 1234.56789, 123.456789, 99.999 and 33.333 round to 1234.57, 123.46, 100.0 and 33.33. |
| StatisticsProcessing.ProcessStatistics | src/main/java/com/dariel/batchdemo/advanced/processing/CountryStatisticsProcessor.java:19-45 | The result is null exactly when the customer count is below 1. A kept statistic keeps its count. Each money figure stays null when null and is otherwise rounded to cents. A null or blank country becomes UNKNOWN; any other country is kept. |
| StatisticsProcessing.Process | src/main/java/com/dariel/batchdemo/advanced/processing/CountryStatisticsProcessor.java:25-45 | Returns null exactly when `ProcessStatistics` filters, and then leaves the object untouched. Otherwise it returns the same object, now holding `ProcessStatistics`' result. |
| StatisticsProcessing.ProcessStatisticsIdempotent | src/main/java/com/dariel/batchdemo/advanced/processing/CountryStatisticsProcessor.java:25-54 | A processed statistic passes through the processor unchanged. |
| StatisticsProcessing.ProcessorTestCases | src/test/java/com/dariel/batchdemo/processing/CountryStatisticsProcessorTest.java:22-87 | The five unit-test cases: normal rounding, the filtered zero count, a null country, a blank country, and rounding up to 100.0. |
| PersonProcessing.ProcessPerson | src/main/java/com/dariel/batchdemo/basics/processing/PersonProcessor.java:21-32 | The result is never null and both its names are set. A null name becomes "". A non-null name keeps its length and is upper-cased character by character. The input is a value and is not changed. |
| PersonProcessing.ProcessPersonIdempotent | src/main/java/com/dariel/batchdemo/basics/processing/PersonProcessor.java:24-27 | Processing a processed person gives the same person. |
| PersonProcessing.ProcessPersonNoLowerCase | src/main/java/com/dariel/batchdemo/basics/processing/PersonProcessor.java:24-27 | No lower-case letter is left in a processed name. |
| Aggregation.AddToUpdatesOneGroup | src/main/java/com/dariel/batchdemo/advanced/processing/CountryStatisticsReader.java:113-119 | One turn of the loop (`AddTo`) touches only the customer's group. An existing group gains the customer. A missing group is created holding just this customer: count 1, total its amount or 0. Every other group is as it was. |
| Aggregation.AddCustomer | src/main/java/com/dariel/batchdemo/advanced/processing/CountryStatisticsReader.java:145-150 | The count rises by exactly one and the country is kept. The total grows by the amount when it is non-null and is unchanged when the amount is null. |
| Aggregation.ToStatistics | src/main/java/com/dariel/batchdemo/advanced/processing/CountryStatisticsReader.java:152-155 | The statistic carries the group's country, count and total. When the count is positive, average × count equals the total; otherwise the average is 0. |
| Aggregation.AggregateIsGrouping | src/main/java/com/dariel/batchdemo/advanced/processing/CountryStatisticsReader.java:109-119 | About `Aggregate`, the map the loop holds. After the loop drains a list of customers, the map has one entry per group key that occurs in the list. Entry k holds key k, the number of customers with key k (at least one), and the sum of their non-null amounts. |
| Aggregation.GroupKeyFallback | src/main/java/com/dariel/batchdemo/advanced/processing/CountryStatisticsReader.java:115 | About `GroupKey`. A null country is keyed UNKNOWN. All null countries share one group, and it also takes a literal "UNKNOWN". A non-null country, blank or empty included, is its own key. |
| Aggregation.InGroupsAppend | src/main/java/com/dariel/batchdemo/advanced/processing/CountryStatisticsReader.java:113-118 | Selecting groups from a concatenation is concatenating the selections. |
| Aggregation.RevenueAppend | src/main/java/com/dariel/batchdemo/advanced/processing/CountryStatisticsReader.java:145-150 | The revenue of a concatenation is the sum of the revenues. |
| Aggregation.NoMembersOutsideKeys | src/main/java/com/dariel/batchdemo/advanced/processing/CountryStatisticsReader.java:117 | A key that does not occur has no members. |
| Aggregation.InGroupsSplit | src/main/java/com/dariel/batchdemo/advanced/processing/CountryStatisticsReader.java:117 | Adding one more key to a selection adds exactly that key's members. |
| Aggregation.InGroupsAll | src/main/java/com/dariel/batchdemo/advanced/processing/CountryStatisticsReader.java:115 | Selecting by every key that occurs selects every customer. |
| Aggregation.InGroupsEmpty | src/main/java/com/dariel/batchdemo/advanced/processing/CountryStatisticsReader.java:126-128 | Selecting by no key selects nothing. |
| Aggregation.SumCountsOfGroups | src/main/java/com/dariel/batchdemo/advanced/processing/CountryStatisticsReader.java:126-128 | Statistics of distinct groups count exactly the customers of those groups, and no country appears twice. |
| Aggregation.EnumerationAccountsForAll | src/main/java/com/dariel/batchdemo/advanced/processing/CountryStatisticsReader.java:111-128 | Suppose a list holds each group's statistic exactly once. Then the counts sum to the number of drained customers, there is one statistic per distinct key, and every count is at least 1. |
| StatisticsReader.CountryStatisticsReader.constructor | src/main/java/com/dariel/batchdemo/advanced/processing/CountryStatisticsReader.java:42-44 | A new reader over an opened cursor has drained nothing and emitted nothing. |
| StatisticsReader.CountryStatisticsReader.Read | src/main/java/com/dariel/batchdemo/advanced/processing/CountryStatisticsReader.java:47-57 | The cursor is drained on the first call only, and later calls keep the cursor and the list. Each statistic is returned once, in list order. A call returns null exactly when everything has already been returned, so every later call is null too. Once everything is out, the returned statistics list each group exactly once, and their counts sum to the number of customers. |
| StatisticsReader.CountryStatisticsReader.AggregateData | src/main/java/com/dariel/batchdemo/advanced/processing/CountryStatisticsReader.java:105-131 | The loop drains the whole cursor once into the grouping map. The list then holds each group's statistic exactly once, and the iterator starts at its head. |
| StatisticsReader.ListStatistics | src/main/java/com/dariel/batchdemo/advanced/processing/CountryStatisticsReader.java:125-128 | Whatever order the keys are visited in, the list holds the statistic of every group exactly once. |
| StatisticsReader.AddGroup | src/main/java/com/dariel/batchdemo/advanced/processing/CountryStatisticsReader.java:126-127 | Appending a group not yet listed keeps the list free of repeats and adds exactly that key. |
| StepContext.IncrementInt | src/main/java/com/dariel/batchdemo/advanced/monitoring/ChunkLoggingListener.java:62-63 | Java's int `+ 1`: exact below the int maximum, wrapping from the maximum to the minimum, and always within int range. |
| StepContext.ExecutionContext.Put | src/main/java/com/dariel/batchdemo/advanced/monitoring/ChunkLoggingListener.java:49-51 | `putInt`/`putLong` set one key and leave every other key as it was. |
| ChunkCounting.CurrentChunkCounter | src/main/java/com/dariel/batchdemo/advanced/monitoring/ChunkLoggingListener.java:66-70 | The stored `chunk-count`, or 0 when the key is missing. The same code is at monitoring/ChunkLoggingListener.java lines 43-47. |
| ChunkCounting.AdvanceChunkCounter | src/main/java/com/dariel/batchdemo/monitoring/ChunkLoggingListener.java:37-47 | `chunk-count` is now present. It holds the old count plus one in Java int arithmetic: exactly one more below the int maximum, the int minimum after the maximum, and 1 when the key was missing. Every other key is unchanged. |
| ChunkCounting.NextChunkCounter | src/main/java/com/dariel/batchdemo/advanced/monitoring/ChunkLoggingListener.java:60-70 | The execution context is advanced as `AdvanceChunkCounter` says, and the new count is returned. |
| ChunkCounting.Cycles | src/main/java/com/dariel/batchdemo/advanced/config/BatchJobConfig.java:199-204 | The usual hook sequence of a step with the listener registered has two hooks per chunk. This call order is the engine's; the listener code does not contain it. |
| ChunkCounting.CyclesAlternate | src/main/java/com/dariel/batchdemo/advanced/config/BatchJobConfig.java:199-204 | In that sequence, chunk i is opened by beforeChunk at position 2i and closed at 2i+1 by afterChunk with the counts after chunk i. |
| ChunkLogging.BeforeChunk | src/main/java/com/dariel/batchdemo/monitoring/ChunkLoggingListener.java:14-18 | Raises `chunk-count` and numbers the chunk with the new value, so the first chunk is 1. |
| ChunkLogging.AfterChunk | src/main/java/com/dariel/batchdemo/monitoring/ChunkLoggingListener.java:20-29 | Logs the step name, the current chunk number and the cumulative counts. It writes nothing. |
| ChunkLogging.AfterChunkError | src/main/java/com/dariel/batchdemo/monitoring/ChunkLoggingListener.java:31-35 | Warns with the step name and the current chunk number, and writes nothing. |
| ChunkLogging.ReplayCountsChunks | src/main/java/com/dariel/batchdemo/monitoring/ChunkLoggingListener.java:12-47 | Over any sequence of hook calls that stays below the int maximum, `chunk-count` rises by exactly the number of beforeChunk calls, and no other key is added, removed or changed. |
| ChunkLogging.ReplayKeepsOtherKeys | src/main/java/com/dariel/batchdemo/monitoring/ChunkLoggingListener.java:37-41 | Over any sequence of hook calls, whatever the stored count, no key but `chunk-count` is added, removed or changed. |
| AdvancedChunkLogging.PreviousCounts | src/main/java/com/dariel/batchdemo/advanced/monitoring/ChunkLoggingListener.java:36-38 | Each of the three previous counts is the value stored under its `prev-` key, or 0 when the key is missing. |
| AdvancedChunkLogging.RememberCounts | src/main/java/com/dariel/batchdemo/advanced/monitoring/ChunkLoggingListener.java:49-51 | The three `prev-` keys now hold the cumulative counts. `chunk-count` and every other key are as before. |
| AdvancedChunkLogging.BeforeChunk | src/main/java/com/dariel/batchdemo/advanced/monitoring/ChunkLoggingListener.java:18-22 | Raises `chunk-count` and numbers the chunk with the new value. |
| AdvancedChunkLogging.AfterChunk | src/main/java/com/dariel/batchdemo/advanced/monitoring/ChunkLoggingListener.java:24-52 | The report has the current chunk number, and its delta is the cumulative counts minus the stored previous counts (0 where missing). The context then holds the cumulative counts under the `prev-` keys. The step's counters are not written. |
| AdvancedChunkLogging.AfterChunkError | src/main/java/com/dariel/batchdemo/advanced/monitoring/ChunkLoggingListener.java:54-58 | Reports the current chunk number and writes nothing. |
| AdvancedChunkLogging.DeltasTelescope | src/main/java/com/dariel/batchdemo/advanced/monitoring/ChunkLoggingListener.java:36-51 | Take any sequence of hook calls, with any beforeChunk and afterChunkError calls between them. The reported deltas sum to the last cumulative counts minus the counts stored at the start. From a fresh context, that is the final cumulative counts. |
| AdvancedChunkLogging.ReplayWritesOnlyScratchKeys | src/main/java/com/dariel/batchdemo/advanced/monitoring/ChunkLoggingListener.java:13-16 | Over any sequence of hook calls, only the four scratch keys are written. |
| AdvancedChunkLogging.CyclesReports | src/main/java/com/dariel/batchdemo/advanced/monitoring/ChunkLoggingListener.java:18-70 | In the usual run there is one report per chunk, and chunks are numbered on from the stored count. The first delta is measured from the stored counts; every later delta is the difference of consecutive snapshots. |
| AdvancedChunkLogging.OneCycle | src/main/java/com/dariel/batchdemo/advanced/monitoring/ChunkLoggingListener.java:18-52 | One beforeChunk/afterChunk pair gives one report, numbered one past the stored count, and leaves the counter raised by one. |
| Pipeline.WrittenAreResults | src/main/java/com/dariel/batchdemo/config/BatchJobConfig.java:112-114 | About `Written`, what a step writes. Every written item is the non-null result of processing some input item. |
| Pipeline.WrittenPlusDropped | src/main/java/com/dariel/batchdemo/processing/CustomerProcessor.java:24-31 | Every item is either written or dropped, never both. |
| Pipeline.NothingDroppedWritesAll | src/main/java/com/dariel/batchdemo/basics/processing/PersonProcessor.java:31 | A processor that never returns null writes every item's result, in order. |
| Pipeline.AllPeopleWritten | src/main/java/com/dariel/batchdemo/basics/processing/PersonProcessor.java:20-32 | The person job writes every person, upper-cased, in order. |
| Pipeline.WrittenAppend | src/main/java/com/dariel/batchdemo/processing/CustomerProcessor.java:24-31 | Processing two runs of items in turn writes the two outputs in turn. |
| Pipeline.ValidRowsWritten | src/main/java/com/dariel/batchdemo/processing/CustomerProcessor.java:24-31 | A run of rows, each with '@' in its email and a positive amount, is written in full. |
| Pipeline.SkipRejected | src/test/java/com/dariel/batchdemo/SpringBatchDemoApplicationTests.java:40-41 | With rows 7 and 9 rejected, the output is the output of the three runs around them. |
| Pipeline.CapitalizesToAlex | src/test/java/com/dariel/batchdemo/SpringBatchDemoApplicationTests.java:47-49 | A first name that trims and lower-cases to "alex" is written as "Alex". |
| Pipeline.ImportScenario | src/test/java/com/dariel/batchdemo/SpringBatchDemoApplicationTests.java:40-53 | Take 15 rows where row 7's email lacks '@', row 9's amount is negative, and the rest are valid. Then 13 customers are written, and the first, id 1, has first name "Alex" and country "SOUTH AFRICA". |
| Pipeline.ReportStepKeepsEveryCountry | src/main/java/com/dariel/batchdemo/advanced/processing/CountryStatisticsProcessor.java:27-29 | For any list of drained customers, the reader's statistics count each customer once, one statistic per country. The statistics processor filters none of them, because each count is at least 1. |

## Left out

- Spring wiring, job launching and the chunk engine are library code and are not modelled. This covers the read–process–write loop, transactions, chunk sizes and how the engine advances its counters. The step's counters are inputs to the listeners.
- The reader's `open`, `update` and `close` are JDBC cursor plumbing. The cursor is a fixed sequence of customers given to the constructor. Its SQL `ORDER BY country` does not matter, because every property is stated over the groups.
- A failure of the upstream cursor part-way through `aggregateData` is not modelled. The JDBC row mapper's `getDouble` turns a null amount into 0.0. The model keeps amounts optional, so it covers both.
- Amounts are Java `double` and are modelled as exact reals. `round` is modelled as floor(v·100 + ½)/100, so no double rounding error is captured. Likewise, the `long` counts and totals do not overflow in the model.
- `toUpperCase`, `toLowerCase` and `isBlank` are Unicode- and locale-aware. They are modelled over ASCII letters. `isBlank` uses `Character.isWhitespace`'s code points below U+0080, and `trim` strips everything at or below U+0020.
- CustomerProcessing.Process: performs CustomerProcessing.ProcessCustomer in place, so it too follows the corrected `capitalize`, as the next line says.
- CustomerProcessing.ProcessCustomer: models `process` with the corrected `capitalize`. On a valid customer with a name that is not blank but trims to nothing (for example "\u0000"), the Java `process` throws, and no skip policy is configured, so the step fails. The model instead writes the customer with that name set to UNKNOWN. `process` exactly as written is CustomerProcessing.ProcessCustomerAsWritten. It is proved to agree with `ProcessCustomer` wherever it returns.
- Aggregation.CountryAggregation is a value replaced in the map at each step, not an object updated in place. No aggregation object is shared, so no aliasing is lost.
- Domain.CountryStatistics has an `int` customer count, not a nullable `Long`. The Java processor would fail with a null pointer exception on a null count, and the reader never produces one.
- The execution context holds one map from keys to integers. The Java context distinguishes `putInt` on `chunk-count` from `putLong` on the `prev-` keys. Only `chunk-count` is given int wrap-around, through StepContext.IncrementInt.
- Console and log output is not modelled. The listeners return the figures they would print, as ChunkLogging.ChunkLog and AdvancedChunkLogging.ChunkReport.
- The report job reads `advanced.domain.Customer` and the `advanced.processing.CustomerProcessor`, which are not part of this model. The shown `processing.CustomerProcessor` and `domain.Customer` are modelled.
- The input CSV file is not part of this model. The import scenario is therefore stated for any 15 rows with the properties the test describes.
- Grouping follows the code: only a null country goes under UNKNOWN, and a blank country keeps a group of its own (Aggregation.GroupKeyFallback). A country spelled "UNKNOWN" shares the null group.

## Findings

| source | as written | input that shows it | evidently intended | confidence | as-written member | corrected member |
|---|---|---|---|---|---|---|
| src/main/java/com/dariel/batchdemo/processing/CustomerProcessor.java:54-58 | `capitalize` guards with `isBlank` (Character.isWhitespace), then trims with `trim` (every char ≤ U+0020) and takes `charAt(0)` | a first or last name of "\u0000" (or any non-empty run of control characters outside isWhitespace): not blank, trims to "", so `charAt(0)` throws StringIndexOutOfBoundsException | a name with no visible character falls back to UNKNOWN like a blank one | not executed | CustomerProcessing.CapitalizeAsWrittenThrows | CustomerProcessing.Capitalize |
