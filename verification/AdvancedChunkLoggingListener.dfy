/**
 * The chunk logging listener of the country statistics job: it numbers chunks through
 * the shared chunk counter and reports what each chunk read, wrote and skipped, as the
 * difference between the step's cumulative counts and the counts it stored under three
 * "prev-" keys at the end of the previous chunk.
 */
module AdvancedChunkLogging {
  import opened StepContext
  import opened ChunkCounting

  const PrevReadCountKey: string := "prev-read-count"
  const PrevWrittenCountKey: string := "prev-written-count"
  const PrevSkippedCountKey: string := "prev-skipped-count"

  /** The four keys this listener writes. */
  const ScratchKeys: set<string> :=
    {ChunkCountKey, PrevReadCountKey, PrevWrittenCountKey, PrevSkippedCountKey}

  /** The figures of the "Chunk #n completed" line. */
  datatype ChunkReport = ChunkReport(chunkNumber: int, delta: Counts)

  /** The counts stored at the end of the previous chunk, each 0 while missing. */
  function PreviousCounts(entries: map<string, int>): (prev: Counts)
    ensures PrevReadCountKey in entries ==> prev.read == entries[PrevReadCountKey]
    ensures PrevWrittenCountKey in entries ==> prev.written == entries[PrevWrittenCountKey]
    ensures PrevSkippedCountKey in entries ==> prev.skipped == entries[PrevSkippedCountKey]
    ensures PrevReadCountKey !in entries ==> prev.read == 0
    ensures PrevWrittenCountKey !in entries ==> prev.written == 0
    ensures PrevSkippedCountKey !in entries ==> prev.skipped == 0
  {
    Counts(
      Lookup(entries, PrevReadCountKey, 0),
      Lookup(entries, PrevWrittenCountKey, 0),
      Lookup(entries, PrevSkippedCountKey, 0))
  }

  /** The scratch entries after afterChunk has stored the cumulative counts: the three
      prev- keys hold them, every other key is as it was. */
  function RememberCounts(entries: map<string, int>, cumulative: Counts): (after: map<string, int>)
    ensures PreviousCounts(after) == cumulative
    ensures CurrentChunkCounter(after) == CurrentChunkCounter(entries)
    ensures after.Keys == entries.Keys + {PrevReadCountKey, PrevWrittenCountKey, PrevSkippedCountKey}
    ensures forall k :: k in entries && k !in ScratchKeys ==> after[k] == entries[k]
  {
    entries[PrevReadCountKey := cumulative.read]
           [PrevWrittenCountKey := cumulative.written]
           [PrevSkippedCountKey := cumulative.skipped]
  }

  /** beforeChunk: raise the chunk counter; the new value numbers the chunk. */
  method BeforeChunk(step: StepExecution) returns (chunkNumber: int)
    modifies step.executionContext
    ensures step.executionContext.entries == AdvanceChunkCounter(old(step.executionContext.entries))
    ensures chunkNumber == CurrentChunkCounter(step.executionContext.entries)
  {
    chunkNumber := NextChunkCounter(step);
  }

  /** afterChunk: report the chunk's own counts, then store the cumulative counts for
      the next chunk. The step's counters are only read. */
  method AfterChunk(step: StepExecution) returns (report: ChunkReport)
    modifies step.executionContext
    ensures report.chunkNumber == CurrentChunkCounter(old(step.executionContext.entries))
    ensures report.delta == step.CumulativeCounts().Minus(PreviousCounts(old(step.executionContext.entries)))
    ensures step.executionContext.entries ==
      RememberCounts(old(step.executionContext.entries), step.CumulativeCounts())
  {
    var chunkNumber := CurrentChunkCounter(step.executionContext.entries);
    var executionContext := step.executionContext;

    var currentRead := step.readCount;
    var currentWritten := step.writeCount;
    var currentSkipped := step.skipCount;

    var prevRead := Lookup(executionContext.entries, PrevReadCountKey, 0);
    var prevWritten := Lookup(executionContext.entries, PrevWrittenCountKey, 0);
    var prevSkipped := Lookup(executionContext.entries, PrevSkippedCountKey, 0);

    var chunkRead := currentRead - prevRead;
    var chunkWritten := currentWritten - prevWritten;
    var chunkSkipped := currentSkipped - prevSkipped;
    report := ChunkReport(chunkNumber, Counts(chunkRead, chunkWritten, chunkSkipped));

    executionContext.Put(PrevReadCountKey, currentRead);
    executionContext.Put(PrevWrittenCountKey, currentWritten);
    executionContext.Put(PrevSkippedCountKey, currentSkipped);
  }

  /** afterChunkError: read the number of the failed chunk; nothing is written. */
  method AfterChunkError(step: StepExecution) returns (chunkNumber: int)
    ensures chunkNumber == CurrentChunkCounter(step.executionContext.entries)
  {
    chunkNumber := CurrentChunkCounter(step.executionContext.entries);
  }

  /** The scratch entries after one hook call. */
  function Step(entries: map<string, int>, hook: Hook): map<string, int>
  {
    match hook
    case Before => AdvanceChunkCounter(entries)
    case After(cumulative) => RememberCounts(entries, cumulative)
    case Error => entries
  }

  /** The scratch entries after a sequence of hook calls. */
  function Replay(entries: map<string, int>, hooks: seq<Hook>): map<string, int>
    decreases |hooks|
  {
    if hooks == [] then entries else Replay(Step(entries, hooks[0]), hooks[1..])
  }

  /** The reports afterChunk prints over a sequence of hook calls. */
  function Reports(entries: map<string, int>, hooks: seq<Hook>): seq<ChunkReport>
    decreases |hooks|
  {
    if hooks == [] then []
    else
      (if hooks[0].After?
       then [ChunkReport(CurrentChunkCounter(entries), hooks[0].cumulative.Minus(PreviousCounts(entries)))]
       else [])
      + Reports(Step(entries, hooks[0]), hooks[1..])
  }

  /** The cumulative counts of the last afterChunk call in hooks, or `initial` when
      there is none. */
  function LastCumulative(hooks: seq<Hook>, initial: Counts): Counts
    decreases |hooks|
  {
    if hooks == [] then initial
    else LastCumulative(hooks[1..], if hooks[0].After? then hooks[0].cumulative else initial)
  }

  /** The sum of reported deltas. */
  function SumDeltas(reports: seq<ChunkReport>): Counts
  {
    if reports == [] then Counts(0, 0, 0) else reports[0].delta.Plus(SumDeltas(reports[1..]))
  }

  /** The reported deltas telescope: summed over any sequence of hook calls they equal
      the last cumulative counts minus the counts stored at the start, whatever
      beforeChunk and afterChunkError calls come in between. */
  lemma {:induction false} DeltasTelescope(entries: map<string, int>, hooks: seq<Hook>)
    ensures SumDeltas(Reports(entries, hooks)) ==
      LastCumulative(hooks, PreviousCounts(entries)).Minus(PreviousCounts(entries))
    decreases |hooks|
  {
    if hooks != [] {
      var next := Step(entries, hooks[0]);
      DeltasTelescope(next, hooks[1..]);
      match hooks[0]
      case Before =>
        assert ChunkCountKey != PrevReadCountKey && ChunkCountKey != PrevWrittenCountKey
          && ChunkCountKey != PrevSkippedCountKey;
        assert PreviousCounts(next) == PreviousCounts(entries);
        assert Reports(entries, hooks) == Reports(next, hooks[1..]);
        assert LastCumulative(hooks, PreviousCounts(entries)) ==
          LastCumulative(hooks[1..], PreviousCounts(entries));
      case After(cumulative) =>
        assert PreviousCounts(next) == cumulative;
      case Error =>
        assert Reports(entries, hooks) == Reports(next, hooks[1..]);
    }
  }

  /** Over any sequence of hook calls the listener writes only its four scratch keys. */
  lemma {:induction false} ReplayWritesOnlyScratchKeys(entries: map<string, int>, hooks: seq<Hook>)
    ensures forall k :: k !in ScratchKeys ==>
      (k in Replay(entries, hooks) <==> k in entries) &&
      (k in entries ==> Replay(entries, hooks)[k] == entries[k])
    decreases |hooks|
  {
    if hooks != [] {
      ReplayWritesOnlyScratchKeys(Step(entries, hooks[0]), hooks[1..]);
    }
  }

  /** In the usual run, one afterChunk per chunk, the chunks are numbered on from the
      stored count and each report's delta is that chunk's own counts. */
  lemma {:induction false} CyclesReports(entries: map<string, int>, snapshots: seq<Counts>)
    requires 0 <= CurrentChunkCounter(entries)
    requires CurrentChunkCounter(entries) + |snapshots| <= IntMax
    ensures |Reports(entries, Cycles(snapshots))| == |snapshots|
    ensures forall i :: 0 <= i < |snapshots| ==>
      Reports(entries, Cycles(snapshots))[i].chunkNumber == CurrentChunkCounter(entries) + i + 1
    ensures forall i :: 0 < i < |snapshots| ==>
      Reports(entries, Cycles(snapshots))[i].delta == snapshots[i].Minus(snapshots[i - 1])
    ensures snapshots != [] ==>
      Reports(entries, Cycles(snapshots))[0].delta == snapshots[0].Minus(PreviousCounts(entries))
    decreases |snapshots|
  {
    if snapshots != [] {
      var ended := RememberCounts(AdvanceChunkCounter(entries), snapshots[0]);
      OneCycle(entries, snapshots[0], Cycles(snapshots[1..]));
      CyclesReports(ended, snapshots[1..]);
      var reports := Reports(entries, Cycles(snapshots));
      var later := Reports(ended, Cycles(snapshots[1..]));
      assert reports[1..] == later;
      forall i | 0 < i < |snapshots|
        ensures reports[i].chunkNumber == CurrentChunkCounter(entries) + i + 1
        ensures reports[i].delta == snapshots[i].Minus(snapshots[i - 1])
      {
        assert reports[i] == later[i - 1];
        if i > 1 {
          assert snapshots[1..][i - 1] == snapshots[i] && snapshots[1..][i - 2] == snapshots[i - 1];
        }
      }
    }
  }

  /** One beforeChunk/afterChunk pair: one report, numbered one past the stored count,
      and the cumulative counts stored for the next chunk. */
  lemma OneCycle(entries: map<string, int>, snapshot: Counts, rest: seq<Hook>)
    requires 0 <= CurrentChunkCounter(entries) < IntMax
    ensures Reports(entries, [Before, After(snapshot)] + rest) ==
      [ChunkReport(CurrentChunkCounter(entries) + 1, snapshot.Minus(PreviousCounts(entries)))]
      + Reports(RememberCounts(AdvanceChunkCounter(entries), snapshot), rest)
    ensures CurrentChunkCounter(RememberCounts(AdvanceChunkCounter(entries), snapshot)) ==
      CurrentChunkCounter(entries) + 1
  {
    var hooks := [Before, After(snapshot)] + rest;
    var started := AdvanceChunkCounter(entries);
    assert hooks[1..] == [After(snapshot)] + rest;
    assert ([After(snapshot)] + rest)[1..] == rest;
    assert PreviousCounts(started) == PreviousCounts(entries);
  }
}
