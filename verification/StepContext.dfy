/**
 * The part of a running step that the chunk listeners see: its cumulative counters,
 * owned by the batch engine, and its execution context, a string-keyed scratch area
 * the listeners may write.
 */
module StepContext {

  const IntMin: int := -0x8000_0000
  const IntMax: int := 0x7FFF_FFFF

  /** Java's int `v + 1`: exact below IntMax, wrapping from IntMax to IntMin. */
  function IncrementInt(v: int): (r: int)
    ensures IntMin <= v < IntMax ==> r == v + 1
    ensures v == IntMax ==> r == IntMin
    ensures IntMin <= r <= IntMax
  {
    (v + 1 - IntMin) % 0x1_0000_0000 + IntMin
  }

  /** getInt / getLong with a default: the stored value, or the default when the key
      is missing. */
  function Lookup(entries: map<string, int>, key: string, default: int): int
  {
    if key in entries then entries[key] else default
  }

  /** A step's cumulative read, write and skip counts. */
  datatype Counts = Counts(read: int, written: int, skipped: int)
  {
    /** Component-wise difference. */
    function Minus(other: Counts): Counts
    {
      Counts(read - other.read, written - other.written, skipped - other.skipped)
    }

    /** Component-wise sum. */
    function Plus(other: Counts): Counts
    {
      Counts(read + other.read, written + other.written, skipped + other.skipped)
    }
  }

  /** ExecutionContext: the step's key/value scratch area. */
  class ExecutionContext {
    var entries: map<string, int>

    constructor ()
      ensures entries == map[]
    {
      entries := map[];
    }

    /** putInt / putLong. */
    method Put(key: string, value: int)
      modifies this
      ensures entries == old(entries)[key := value]
    {
      entries := entries[key := value];
    }
  }

  /** StepExecution: the engine's counters and the execution context of one step. */
  class StepExecution {
    const stepName: string
    var readCount: nat
    var writeCount: nat
    var skipCount: nat
    const executionContext: ExecutionContext

    constructor (name: string, context: ExecutionContext)
      ensures stepName == name && executionContext == context
      ensures readCount == 0 && writeCount == 0 && skipCount == 0
    {
      stepName := name;
      executionContext := context;
      readCount, writeCount, skipCount := 0, 0, 0;
    }

    /** The cumulative counts now. */
    function CumulativeCounts(): Counts
      reads this
    {
      Counts(readCount, writeCount, skipCount)
    }
  }
}
