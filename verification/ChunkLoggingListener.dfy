/**
 * The chunk logging listener of the customer import job: it numbers chunks through
 * the shared chunk counter and logs the step's cumulative counts; beforeChunk is its
 * only hook that writes.
 */
module ChunkLogging {
  import opened StepContext
  import opened ChunkCounting

  /** The figures of the "Completed chunk" log line. */
  datatype ChunkLog = ChunkLog(stepName: string, chunkNumber: int, cumulative: Counts)

  /** beforeChunk: raise the chunk counter; the new value numbers the chunk. */
  method BeforeChunk(step: StepExecution) returns (chunkNumber: int)
    modifies step.executionContext
    ensures step.executionContext.entries == AdvanceChunkCounter(old(step.executionContext.entries))
    ensures chunkNumber == CurrentChunkCounter(step.executionContext.entries)
  {
    chunkNumber := NextChunkCounter(step);
  }

  /** afterChunk: read the chunk number and the cumulative counts; nothing is written. */
  method AfterChunk(step: StepExecution) returns (log: ChunkLog)
    ensures log.stepName == step.stepName
    ensures log.chunkNumber == CurrentChunkCounter(step.executionContext.entries)
    ensures log.cumulative == step.CumulativeCounts()
  {
    var chunkNumber := CurrentChunkCounter(step.executionContext.entries);
    log := ChunkLog(step.stepName, chunkNumber, Counts(step.readCount, step.writeCount, step.skipCount));
  }

  /** afterChunkError: read the step name and the number of the failed chunk for the
      warning; nothing is written. */
  method AfterChunkError(step: StepExecution) returns (stepName: string, chunkNumber: int)
    ensures stepName == step.stepName
    ensures chunkNumber == CurrentChunkCounter(step.executionContext.entries)
  {
    stepName := step.stepName;
    chunkNumber := CurrentChunkCounter(step.executionContext.entries);
  }

  /** The scratch entries after this listener has seen hooks. */
  function Replay(entries: map<string, int>, hooks: seq<Hook>): map<string, int>
    decreases |hooks|
  {
    if hooks == [] then entries
    else Replay(if hooks[0].Before? then AdvanceChunkCounter(entries) else entries, hooks[1..])
  }

  /** Over any sequence of hook calls the listener writes only the chunk-count key, and
      the count rises by exactly the number of beforeChunk calls. */
  lemma {:induction false} ReplayCountsChunks(entries: map<string, int>, hooks: seq<Hook>)
    requires 0 <= CurrentChunkCounter(entries)
    requires CurrentChunkCounter(entries) + Befores(hooks) <= IntMax
    ensures CurrentChunkCounter(Replay(entries, hooks)) == CurrentChunkCounter(entries) + Befores(hooks)
    ensures forall k :: k != ChunkCountKey ==>
      (k in Replay(entries, hooks) <==> k in entries) &&
      (k in entries ==> Replay(entries, hooks)[k] == entries[k])
    decreases |hooks|
  {
    if hooks != [] {
      var next := if hooks[0].Before? then AdvanceChunkCounter(entries) else entries;
      ReplayCountsChunks(next, hooks[1..]);
    }
  }

  /** Whatever the stored count, even at the int limit, no key but chunk-count is added,
      removed or changed by any sequence of hook calls. */
  lemma {:induction false} ReplayKeepsOtherKeys(entries: map<string, int>, hooks: seq<Hook>)
    ensures forall k :: k != ChunkCountKey ==>
      (k in Replay(entries, hooks) <==> k in entries) &&
      (k in entries ==> Replay(entries, hooks)[k] == entries[k])
    decreases |hooks|
  {
    if hooks != [] {
      var next := if hooks[0].Before? then AdvanceChunkCounter(entries) else entries;
      ReplayKeepsOtherKeys(next, hooks[1..]);
    }
  }
}
