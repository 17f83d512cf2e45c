/**
 * The save orchestrator (`saveMemory` in src/storage/index.ts): the local write is
 * mandatory and comes first; mirroring to the cloud is best effort and its failures are
 * reported beside a successful result, never thrown.
 */
module Storage {
  import opened Types
  import opened Local

  /** What the cloud save (`saveSupabaseMemory`) does when called: return a flag, or throw. */
  datatype CloudAnswer =
    | Returned(synced: bool)
    /** `message` is the error's `message`; `text` is `String(error)`. */
    | Threw(message: string, text: string)

  const CloudReturnedFalse := "Supabase sync returned false (check logs for details)"
  const LocalSaveFailed := "Failed to save local memory: "

  /**
   * The options both saves receive: the timestamp resolved once (the supplied one, else the
   * clock's) and the origin defaulting to the machine identity.
   */
  function Enrich(options: SaveMemoryOptions, clock: Clock, machine: string): SaveMemoryOptions
  {
    options.(timestamp := Some(TimeOrElse(options.timestamp, clock.now)),
             createdFrom := Some(OrElse(options.createdFrom, machine)))
  }

  /**
   * `saveMemory`. `remoteConfigured` is the configuration check, `machine` the configured
   * `createdFrom`, and `cloud` the behaviour of the cloud save if it is called.
   * `mirrored` is what the cloud save was called with, `None` when it was not called.
   */
  method SaveMemory(dir: MemoryDir, options: SaveMemoryOptions, remoteConfigured: bool, machine: string,
                    clock: Clock, cloud: CloudAnswer)
    returns (r: Result<SaveResult>, mirrored: Option<SaveMemoryOptions>)
    requires dir.Valid()
    modifies dir`dirExists, dir`files
    ensures dir.Valid() && dir.dirExists
    // the local write comes first; when it throws, saveMemory throws and never calls the cloud
    ensures WriteThrows(dir.refuses, options.filename) ==>
      && r == Err(LocalSaveFailed + WriteError(dir.refuses, options.filename))
      && mirrored == None
      && dir.files == old(dir.files)
    ensures !WriteThrows(dir.refuses, options.filename) ==>
      var enriched := Enrich(options, clock, machine);
      && dir.files == old(dir.files)[options.filename := Stored(enriched, clock)]
      && r.Ok? && r.value.localPath == JoinPath(dir.path, options.filename)
      // the cloud is asked exactly when it is configured, with the very options stored locally
      && mirrored == (if remoteConfigured then Some(enriched) else None)
      // synced only when configured and the cloud save returned true
      && (r.value.cloudSynced <==> remoteConfigured && cloud == Returned(true))
      && (!remoteConfigured || cloud == Returned(true) ==> r.value.cloudError == None)
      && (remoteConfigured && cloud == Returned(false) ==> r.value.cloudError == Some(CloudReturnedFalse))
      && (remoteConfigured && cloud.Threw? ==>
            r.value.cloudError == Some(if cloud.message != "" then cloud.message else cloud.text))
  {
    var timestamp := TimeOrElse(options.timestamp, clock.now);
    var enriched := options.(timestamp := Some(timestamp), createdFrom := Some(OrElse(options.createdFrom, machine)));

    // Step 1: the local save, which must succeed
    var saved := dir.SaveLocalMemory(enriched, clock);
    if saved.Err? {
      return Err(LocalSaveFailed + saved.error), None;
    }
    var localPath := saved.value;

    // Step 2: the cloud mirror, best effort
    var cloudSynced := false;
    var cloudError: Option<string> := None;
    mirrored := None;
    if remoteConfigured {
      mirrored := Some(enriched);
      match cloud {
        case Returned(ok) =>
          cloudSynced := ok;
          if !cloudSynced {
            cloudError := Some(CloudReturnedFalse);
          }
        case Threw(message, text) =>
          cloudError := Some(if message != "" then message else text);
      }
    }
    r := Ok(SaveResult(localPath, cloudSynced, cloudError));
  }

  /**
   * The timestamp is resolved once: the stored document and the cloud's copy carry the same
   * instant, the supplied one when given and the clock's otherwise; the origin is the
   * supplied one when non-empty and the machine identity otherwise.
   */
  lemma MirrorMatchesLocal(options: SaveMemoryOptions, clock: Clock, machine: string)
    ensures var enriched := Enrich(options, clock, machine);
      && Stored(enriched, clock).timestamp == enriched.timestamp
      && (options.timestamp.Some? ==> enriched.timestamp == options.timestamp)
      && (options.timestamp.None? ==> enriched.timestamp == Some(clock.now))
      && (options.createdFrom.Some? && options.createdFrom.value != "" ==> enriched.createdFrom == options.createdFrom)
      && (options.createdFrom.None? || options.createdFrom.value == "" ==> enriched.createdFrom == Some(machine))
      && enriched.filename == options.filename && enriched.topic == options.topic
      && enriched.content == options.content && enriched.projectSlug == options.projectSlug
  {
  }
}
