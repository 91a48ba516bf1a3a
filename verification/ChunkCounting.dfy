/**
 * The chunk counter both chunk logging listeners keep under the "chunk-count" key of
 * the step's execution context (their nextChunkCounter and currentChunkCounter), and
 * the order in which the engine calls the listener hooks.
 */
module ChunkCounting {
  import opened StepContext

  const ChunkCountKey: string := "chunk-count"

  /** currentChunkCounter: the stored chunk count, 0 while the key is missing. */
  function CurrentChunkCounter(entries: map<string, int>): (n: int)
    ensures ChunkCountKey !in entries ==> n == 0
    ensures ChunkCountKey in entries ==> n == entries[ChunkCountKey]
  {
    Lookup(entries, ChunkCountKey, 0)
  }

  /** The scratch entries after nextChunkCounter: the chunk count raised by one (in int
      arithmetic) and every other key as it was. */
  function AdvanceChunkCounter(entries: map<string, int>): (after: map<string, int>)
    ensures after.Keys == entries.Keys + {ChunkCountKey}
    ensures 0 <= CurrentChunkCounter(entries) < IntMax ==>
      CurrentChunkCounter(after) == CurrentChunkCounter(entries) + 1
    ensures ChunkCountKey !in entries ==> CurrentChunkCounter(after) == 1
    ensures CurrentChunkCounter(after) == IncrementInt(CurrentChunkCounter(entries))
    ensures CurrentChunkCounter(entries) == IntMax ==> CurrentChunkCounter(after) == IntMin
    ensures forall k :: k in entries && k != ChunkCountKey ==> after[k] == entries[k]
  {
    entries[ChunkCountKey := IncrementInt(CurrentChunkCounter(entries))]
  }

  /** nextChunkCounter: store the raised count and return it. */
  method NextChunkCounter(step: StepExecution) returns (chunkNumber: int)
    modifies step.executionContext
    ensures step.executionContext.entries == AdvanceChunkCounter(old(step.executionContext.entries))
    ensures chunkNumber == CurrentChunkCounter(step.executionContext.entries)
  {
    var currentValue := CurrentChunkCounter(step.executionContext.entries);
    step.executionContext.Put(ChunkCountKey, IncrementInt(currentValue));
    chunkNumber := IncrementInt(currentValue);
  }

  /** A listener hook call: beforeChunk, afterChunk with the step's cumulative counts at
      that moment, or afterChunkError. */
  datatype Hook = Before | After(cumulative: Counts) | Error

  /** How many beforeChunk calls hooks holds. */
  function Befores(hooks: seq<Hook>): nat
  {
    if hooks == [] then 0 else (if hooks[0].Before? then 1 else 0) + Befores(hooks[1..])
  }

  /** The usual run of a step: for each chunk, beforeChunk then afterChunk with the
      counts after that chunk. */
  function Cycles(snapshots: seq<Counts>): (hooks: seq<Hook>)
    ensures |hooks| == 2 * |snapshots|
  {
    if snapshots == [] then [] else [Before, After(snapshots[0])] + Cycles(snapshots[1..])
  }

  /** In the usual run, chunk i is opened by the beforeChunk at position 2i and closed
      by the afterChunk at 2i+1, which carries the counts after chunk i. */
  lemma {:induction false} CyclesAlternate(snapshots: seq<Counts>)
    ensures forall i :: 0 <= i < |snapshots| ==>
      Cycles(snapshots)[2 * i] == Before && Cycles(snapshots)[2 * i + 1] == After(snapshots[i])
  {
    if snapshots != [] {
      var rest := Cycles(snapshots[1..]);
      CyclesAlternate(snapshots[1..]);
      forall i | 0 <= i < |snapshots|
        ensures Cycles(snapshots)[2 * i] == Before && Cycles(snapshots)[2 * i + 1] == After(snapshots[i])
      {
        if i > 0 {
          assert Cycles(snapshots)[2 * i] == rest[2 * (i - 1)];
          assert Cycles(snapshots)[2 * i + 1] == rest[2 * (i - 1) + 1];
          assert snapshots[i] == snapshots[1..][i - 1];
        }
      }
    }
  }
}
