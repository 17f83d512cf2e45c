/**
 * The record shapes shared by the storage layer and the pull commands
 * (src/storage/types.ts), with the few JavaScript idioms they rely on.
 */
module Types {

  datatype Option<T> = None | Some(value: T)

  /** The outcome of a call that either returns a value or throws an error with a message. */
  datatype Result<T> = Ok(value: T) | Err(error: string)

  /**
   * One reading of the wall clock, `new Date()`: the instant (milliseconds since the
   * epoch, what `getTime()` gives) and its locale display string.
   */
  datatype Clock = Clock(now: int, display: string)

  /** JavaScript's `s || fallback` on an optional string: absent and empty both fall back. */
  function OrElse(s: Option<string>, fallback: string): string
  {
    if s.Some? && s.value != "" then s.value else fallback
  }

  /**
   * `timestamp || now` on an optional ISO timestamp read as an instant; `None` stands for an
   * absent or empty timestamp string.
   */
  function TimeOrElse(t: Option<int>, fallback: int): int
  {
    if t.Some? then t.value else fallback
  }

  /** A memory as it is kept in the local store (`MemoryData`). */
  datatype MemoryData = MemoryData(
    filename: string,
    topic: string,
    content: string,
    timestamp: int,
    createdAt: string,
    createdFrom: Option<string>)

  /** The caller's request to save a memory (`SaveMemoryOptions`). */
  datatype SaveMemoryOptions = SaveMemoryOptions(
    filename: string,
    topic: string,
    content: string,
    projectSlug: Option<string>,
    timestamp: Option<int>,
    createdFrom: Option<string>)

  /** What `saveMemory` reports (`SaveResult`). */
  datatype SaveResult = SaveResult(localPath: string, cloudSynced: bool, cloudError: Option<string>)

  /** A row of the remote `memories` table (`MemoryRecord`). */
  datatype MemoryRecord = MemoryRecord(
    id: string,
    projectId: string,
    filename: string,
    topic: string,
    content: string,
    timestamp: int,
    createdAt: string,
    createdFrom: Option<string>)

  /** The counters that sync and both pull commands keep: `{created, updated, skipped, failed, total}`. */
  datatype Stats = Stats(created: nat, updated: nat, skipped: nat, failed: nat, total: nat)
  {
    /** How many items have been given an outcome so far. */
    function Processed(): nat
    {
      created + updated + skipped + failed
    }
  }

  /** Fresh counters whose `total` has been set to the size of the work list. */
  function StartStats(total: nat): Stats
  {
    Stats(0, 0, 0, 0, total)
  }

  /** `s` ends with `suffix` (`String.prototype.endsWith`). */
  predicate EndsWith(s: string, suffix: string)
  {
    |suffix| <= |s| && s[|s| - |suffix|..] == suffix
  }
}
