/**
 * The remote-to-local sync reconciler (src/storage/sync.ts). For one project it takes the
 * cloud's memories, decides per memory whether to create, update or skip the local copy,
 * writes the local store accordingly, and counts the outcomes. Sync only ever writes the
 * local store, and only under the filenames of the cloud memories it processes.
 */
module Sync {
  import opened Types
  import opened Local

  datatype Action = Create | Update | Skip

  /** `SyncDecision`: the action and the reason shown in the log. */
  datatype SyncDecision = SyncDecision(action: Action, reason: string)

  /**
   * `decideSyncAction`: create when there is no valid local memory; otherwise update when
   * overwriting or when the cloud's timestamp is strictly later; otherwise (equal or older)
   * skip.
   */
  function DecideSyncAction(cloud: MemoryRecord, local: Option<MemoryData>, overwrite: bool): (d: SyncDecision)
    ensures d.action == Create <==> local.None?
    ensures local.Some? ==> (d.action == Update <==> overwrite || cloud.timestamp > local.value.timestamp)
    ensures local.Some? && !overwrite ==> (d.action == Skip <==> cloud.timestamp <= local.value.timestamp)
  {
    if local.None? then SyncDecision(Create, "File does not exist locally")
    else if overwrite then SyncDecision(Update, "Overwrite flag is set")
    else if cloud.timestamp > local.value.timestamp then SyncDecision(Update, "Cloud version is newer")
    else SyncDecision(Skip, "Local is up-to-date or newer")
  }

  /** `SyncOptions`: the project to sync, whether to overwrite, and an optional filename filter. */
  datatype SyncOptions = SyncOptions(projectSlug: Option<string>, overwrite: bool, filename: Option<string>)

  /** The part of the configuration sync consults: is the remote configured, and its default slug. */
  datatype SyncConfig = SyncConfig(remoteConfigured: bool, defaultSlug: Option<string>)

  /**
   * What the remote answers: either one of its calls throws, or it holds the memories of each
   * project by slug (`getProjectBySlug` finds the slug, `getProjectMemories` returns its list).
   */
  datatype Remote = Unreachable(error: string) | Reachable(projects: map<string, seq<MemoryRecord>>)

  /** The message of a `SyncResult`, by case; its exact wording is not modelled. */
  datatype SyncMessage =
    | NotConfigured
    | ProjectNotFound(slug: string)
    | NoMemories
    | NoMatch(filter: string)
    | Completed
    | Failed(error: string)

  datatype SyncResult = SyncResult(
    success: bool,
    message: SyncMessage,
    stats: Stats,
    memoryDir: string,
    projectSlug: string)

  /** The project slug in effect: the option, else the configured default, else `"default"`. */
  function ResolveSlug(options: SyncOptions, config: SyncConfig): string
  {
    OrElse(options.projectSlug, OrElse(config.defaultSlug, "default"))
  }

  /** The cloud memories whose filename is exactly `name`, in their original order. */
  function KeepNamed(recs: seq<MemoryRecord>, name: string): (kept: seq<MemoryRecord>)
    ensures |kept| <= |recs|
    ensures forall r :: r in kept <==> r in recs && r.filename == name
    ensures forall r :: multiset(kept)[r] == if r.filename == name then multiset(recs)[r] else 0
  {
    if recs == [] then []
    else
      assert recs == [recs[0]] + recs[1..];
      (if recs[0].filename == name then [recs[0]] else []) + KeepNamed(recs[1..], name)
  }

  /** The working set: the memories matching a non-empty filename filter, else all of them. */
  function Working(recs: seq<MemoryRecord>, filter: Option<string>): seq<MemoryRecord>
  {
    if filter.Some? && filter.value != "" then KeepNamed(recs, filter.value) else recs
  }

  /** What a created or updated memory is written with: the cloud's fields, origin defaulting to "cloud-sync". */
  function CloudCopy(rec: MemoryRecord): SaveMemoryOptions
  {
    SaveMemoryOptions(
      rec.filename, rec.topic, rec.content, None, Some(rec.timestamp),
      Some(OrElse(rec.createdFrom, "cloud-sync")))
  }

  /** What one run holds fixed: the overwrite flag, the names the store refuses, the clock. */
  datatype SyncEnv = SyncEnv(overwrite: bool, refuses: map<string, string>, clock: Clock)

  /** The state the reconciliation loop carries: the local store and the counters. */
  datatype Pass = Pass(dirExists: bool, files: map<string, StoredFile>, stats: Stats)

  /**
   * One iteration of the loop: read the local memory as it is now (after earlier
   * iterations' writes), decide, then skip, or write and count the decision, or count a
   * failed write.
   */
  function Step(p: Pass, rec: MemoryRecord, env: SyncEnv): Pass
  {
    var decision := DecideSyncAction(rec, ReadLocalMemory(p.files, rec.filename), env.overwrite);
    if decision.action == Skip then
      p.(stats := p.stats.(skipped := p.stats.skipped + 1))
    else if WriteThrows(env.refuses, rec.filename) then
      Pass(true, p.files, p.stats.(failed := p.stats.failed + 1))
    else
      Pass(true, p.files[rec.filename := Stored(CloudCopy(rec), env.clock)],
        if decision.action == Create then p.stats.(created := p.stats.created + 1)
        else p.stats.(updated := p.stats.updated + 1))
  }

  /** The loop over `recs`, in order, from `start`. */
  function Reconcile(start: Pass, recs: seq<MemoryRecord>, env: SyncEnv): Pass
    decreases |recs|
  {
    if recs == [] then start
    else Step(Reconcile(start, recs[..|recs| - 1], env), recs[|recs| - 1], env)
  }

  /** The body of the reconciliation loop: decide, write when needed, count. */
  method SyncOne(dir: MemoryDir, rec: MemoryRecord, overwrite: bool, clock: Clock, stats0: Stats, ghost env: SyncEnv)
    returns (stats: Stats)
    requires dir.Valid()
    requires env == SyncEnv(overwrite, dir.refuses, clock)
    modifies dir`dirExists, dir`files
    ensures dir.Valid()
    ensures Pass(dir.dirExists, dir.files, stats) == Step(Pass(old(dir.dirExists), old(dir.files), stats0), rec, env)
  {
    stats := stats0;
    var local := ReadLocalMemory(dir.files, rec.filename);
    var decision := DecideSyncAction(rec, local, overwrite);
    if decision.action == Skip {
      stats := stats.(skipped := stats.skipped + 1);
    } else {
      var saved := dir.SaveLocalMemory(CloudCopy(rec), clock);
      if saved.Err? {
        stats := stats.(failed := stats.failed + 1);
      } else if decision.action == Create {
        stats := stats.(created := stats.created + 1);
      } else {
        stats := stats.(updated := stats.updated + 1);
      }
    }
  }

  /**
   * `syncFromCloud`. Without a configured remote, an unreachable remote or an unknown
   * project it returns `success = false` with zero counters and writes nothing. Otherwise it
   * reconciles the working set, with `total` its size, and `success` iff nothing failed.
   */
  method SyncFromCloud(dir: MemoryDir, config: SyncConfig, options: SyncOptions, remote: Remote, clock: Clock)
    returns (r: SyncResult)
    requires dir.Valid()
    modifies dir`dirExists, dir`files
    ensures dir.Valid()
    ensures r.projectSlug == ResolveSlug(options, config) && r.memoryDir == dir.path
    ensures !config.remoteConfigured ==>
      && r == SyncResult(false, NotConfigured, StartStats(0), dir.path, ResolveSlug(options, config))
      && dir.files == old(dir.files) && dir.dirExists == old(dir.dirExists)
    ensures config.remoteConfigured && remote.Unreachable? ==>
      && r == SyncResult(false, Failed(remote.error), StartStats(0), dir.path, ResolveSlug(options, config))
      && dir.files == old(dir.files) && dir.dirExists == old(dir.dirExists)
    ensures config.remoteConfigured && remote.Reachable? && ResolveSlug(options, config) !in remote.projects ==>
      && r == SyncResult(false, ProjectNotFound(ResolveSlug(options, config)), StartStats(0), dir.path,
                         ResolveSlug(options, config))
      && dir.files == old(dir.files) && dir.dirExists == old(dir.dirExists)
    ensures config.remoteConfigured && remote.Reachable? && ResolveSlug(options, config) in remote.projects ==>
      var recs := remote.projects[ResolveSlug(options, config)];
      var work := Working(recs, options.filename);
      var run := Reconcile(Pass(old(dir.dirExists), old(dir.files), StartStats(|work|)), work,
                           SyncEnv(options.overwrite, dir.refuses, clock));
      && dir.files == run.files && dir.dirExists == run.dirExists
      && r.stats == run.stats && r.success == (run.stats.failed == 0)
      && r.message == (if recs == [] then NoMemories
                       else if work == [] then NoMatch(options.filename.value)
                       else Completed)
  {
    var slug := ResolveSlug(options, config);
    if !config.remoteConfigured {
      return SyncResult(false, NotConfigured, StartStats(0), dir.path, slug);
    }
    if remote.Unreachable? {
      return SyncResult(false, Failed(remote.error), StartStats(0), dir.path, slug);
    }
    if slug !in remote.projects {
      return SyncResult(false, ProjectNotFound(slug), StartStats(0), dir.path, slug);
    }
    var recs := remote.projects[slug];
    if recs == [] {
      return SyncResult(true, NoMemories, StartStats(0), dir.path, slug);
    }
    var work := Working(recs, options.filename);
    var stats := StartStats(|work|);
    if work == [] {
      return SyncResult(true, NoMatch(options.filename.value), stats, dir.path, slug);
    }
    ghost var env := SyncEnv(options.overwrite, dir.refuses, clock);
    ghost var start := Pass(dir.dirExists, dir.files, stats);
    var i := 0;
    while i < |work|
      invariant 0 <= i <= |work|
      invariant dir.Valid()
      invariant Pass(dir.dirExists, dir.files, stats) == Reconcile(start, work[..i], env)
    {
      stats := SyncOne(dir, work[i], options.overwrite, clock, stats, env);
      assert work[..i + 1][..i] == work[..i];
      i := i + 1;
    }
    assert work[..|work|] == work;
    r := SyncResult(stats.failed == 0, Completed, stats, dir.path, slug);
  }

  // ---------------------------------------------------------------------------------------
  // Properties of one run

  /** Processing one more memory is one more step after the others. */
  lemma ReconcileSnoc(start: Pass, recs: seq<MemoryRecord>, rec: MemoryRecord, env: SyncEnv)
    ensures Reconcile(start, recs + [rec], env) == Step(Reconcile(start, recs, env), rec, env)
  {
    assert (recs + [rec])[..|recs|] == recs;
  }

  /**
   * Every processed memory moves exactly one of created/updated/skipped/failed, and `total`
   * is left alone: from zero counters, their sum equals the size of the working set.
   */
  lemma {:induction false} ReconcileCounts(start: Pass, recs: seq<MemoryRecord>, env: SyncEnv)
    ensures Reconcile(start, recs, env).stats.Processed() == start.stats.Processed() + |recs|
    ensures Reconcile(start, recs, env).stats.total == start.stats.total
  {
    if recs != [] {
      ReconcileCounts(start, recs[..|recs| - 1], env);
    }
  }

  /**
   * Sync never touches a filename outside its working set: a local-only memory stays
   * exactly as it was, present or absent.
   */
  lemma {:induction false} ReconcileLeavesKey(start: Pass, recs: seq<MemoryRecord>, env: SyncEnv, key: string)
    requires forall i :: 0 <= i < |recs| ==> recs[i].filename != key
    ensures var after := Reconcile(start, recs, env).files;
      (key in after <==> key in start.files) && (key in start.files ==> after[key] == start.files[key])
  {
    if recs != [] {
      ReconcileLeavesKey(start, recs[..|recs| - 1], env, key);
    }
  }

  /**
   * Sync never deletes, and whatever it changes holds a cloud memory's topic, content and
   * timestamp: a changed filename was written from a memory of the working set with that
   * filename.
   */
  lemma {:induction false} ReconcileWritesCloudCopies(start: Pass, recs: seq<MemoryRecord>, env: SyncEnv, key: string)
    ensures var after := Reconcile(start, recs, env).files;
      && (key in start.files ==> key in after)
      && (key in after && (key !in start.files || after[key] != start.files[key]) ==>
            exists i :: 0 <= i < |recs| && recs[i].filename == key &&
              after[key] == Stored(CloudCopy(recs[i]), env.clock))
  {
    if recs != [] {
      var prefix := recs[..|recs| - 1];
      ReconcileWritesCloudCopies(start, prefix, env, key);
      var before := Reconcile(start, prefix, env).files;
      var after := Reconcile(start, recs, env).files;
      if key in after && (key !in start.files || after[key] != start.files[key]) {
        if key in before && after[key] == before[key] {
          var i :| 0 <= i < |prefix| && prefix[i].filename == key && before[key] == Stored(CloudCopy(prefix[i]), env.clock);
          assert recs[i] == prefix[i];
        } else {
          assert recs[|recs| - 1].filename == key;
        }
      }
    }
  }

  /** When no write of the working set throws, nothing fails. */
  lemma {:induction false} ReconcileWithoutRefusalsSucceeds(start: Pass, recs: seq<MemoryRecord>, env: SyncEnv)
    requires forall i :: 0 <= i < |recs| ==> !WriteThrows(env.refuses, recs[i].filename)
    ensures Reconcile(start, recs, env).stats.failed == start.stats.failed
  {
    if recs != [] {
      ReconcileWithoutRefusalsSucceeds(start, recs[..|recs| - 1], env);
    }
  }

  /**
   * With a filename filter, only that filename can change locally, however many cloud
   * rows carry it.
   */
  lemma FilteredSyncTouchesOnlyFilter(start: Pass, recs: seq<MemoryRecord>, name: string, env: SyncEnv, key: string)
    requires key != name
    ensures var after := Reconcile(start, KeepNamed(recs, name), env).files;
      (key in after <==> key in start.files) && (key in start.files ==> after[key] == start.files[key])
  {
    var kept := KeepNamed(recs, name);
    forall i | 0 <= i < |kept| ensures kept[i].filename != key {
      assert kept[i] in kept;
    }
    ReconcileLeavesKey(start, kept, env, key);
  }

  // ---------------------------------------------------------------------------------------
  // Scenarios across runs

  /** Every memory of `recs` reads back locally, at least as new as the cloud's copy. */
  ghost predicate Settled(files: map<string, StoredFile>, recs: seq<MemoryRecord>)
  {
    forall i :: 0 <= i < |recs| ==>
      ReadLocalMemory(files, recs[i].filename).Some? &&
      ReadLocalMemory(files, recs[i].filename).value.timestamp >= recs[i].timestamp
  }

  /** Every cloud memory has the fields the local reader requires. */
  ghost predicate AllComplete(recs: seq<MemoryRecord>)
  {
    forall i :: 0 <= i < |recs| ==> recs[i].filename != "" && recs[i].topic != "" && recs[i].content != ""
  }

  /**
   * After a run without overwrite, in which the store refused nothing, every memory of
   * the working set is settled: the local copy reads back and is not older.
   */
  lemma {:induction false} ReconcileSettles(start: Pass, recs: seq<MemoryRecord>, env: SyncEnv)
    requires !env.overwrite && AllComplete(recs)
    requires forall i :: 0 <= i < |recs| ==> recs[i].filename !in env.refuses
    ensures Settled(Reconcile(start, recs, env).files, recs)
  {
    if recs != [] {
      var prefix, last := recs[..|recs| - 1], recs[|recs| - 1];
      ReconcileSettles(start, prefix, env);
      var before := Reconcile(start, prefix, env).files;
      var after := Reconcile(start, recs, env).files;
      var local := ReadLocalMemory(before, last.filename);
      if local.Some? && last.timestamp <= local.value.timestamp {
        assert after == before;
        forall i | 0 <= i < |recs|
          ensures ReadLocalMemory(after, recs[i].filename).Some?
          ensures ReadLocalMemory(after, recs[i].filename).value.timestamp >= recs[i].timestamp
        {
          if i < |prefix| { assert recs[i] == prefix[i]; }
        }
      } else {
        assert after == before[last.filename := Stored(CloudCopy(last), env.clock)];
        SaveThenRead(before, CloudCopy(last), env.clock);
        forall i | 0 <= i < |recs|
          ensures ReadLocalMemory(after, recs[i].filename).Some?
          ensures ReadLocalMemory(after, recs[i].filename).value.timestamp >= recs[i].timestamp
        {
          if i < |prefix| {
            assert recs[i] == prefix[i];
            if recs[i].filename != last.filename {
              SaveLeavesOthers(true, before, CloudCopy(last), env.clock, recs[i].filename);
            }
          }
        }
      }
    }
  }

  /** A run without overwrite over settled memories skips every one and writes nothing. */
  lemma {:induction false} SettledRunSkipsAll(start: Pass, recs: seq<MemoryRecord>, env: SyncEnv)
    requires !env.overwrite && Settled(start.files, recs)
    ensures var run := Reconcile(start, recs, env);
      run.files == start.files && run.dirExists == start.dirExists &&
      run.stats == start.stats.(skipped := start.stats.skipped + |recs|)
  {
    if recs != [] {
      var prefix := recs[..|recs| - 1];
      forall i | 0 <= i < |prefix|
        ensures ReadLocalMemory(start.files, prefix[i].filename).Some?
        ensures ReadLocalMemory(start.files, prefix[i].filename).value.timestamp >= prefix[i].timestamp
      {
        assert prefix[i] == recs[i];
      }
      SettledRunSkipsAll(start, prefix, env);
    }
  }

  /**
   * Idempotence: when a run without overwrite refuses nothing and every cloud memory is
   * complete, a second run over the same working set creates and updates nothing, skips
   * everything, and leaves the store as the first run left it.
   */
  lemma SyncTwiceIsIdempotent(start: Pass, recs: seq<MemoryRecord>, env: SyncEnv)
    requires !env.overwrite && AllComplete(recs)
    requires forall i :: 0 <= i < |recs| ==> recs[i].filename !in env.refuses
    ensures var first := Reconcile(start, recs, env);
      var second := Reconcile(Pass(first.dirExists, first.files, StartStats(|recs|)), recs, env);
      second.files == first.files && second.stats == Stats(0, 0, |recs|, 0, |recs|)
  {
    var first := Reconcile(start, recs, env);
    ReconcileSettles(start, recs, env);
    SettledRunSkipsAll(Pass(first.dirExists, first.files, StartStats(|recs|)), recs, env);
  }

  /**
   * Idempotence needs complete memories: a cloud memory with empty content is written,
   * reads back as absent, and so is created again on every run.
   */
  lemma EmptyContentIsCreatedEveryRun(start: Pass, rec: MemoryRecord, env: SyncEnv)
    requires rec.content == "" && !WriteThrows(env.refuses, rec.filename)
    requires ReadLocalMemory(start.files, rec.filename) == None
    ensures var first := Reconcile(start, [rec], env);
      var second := Reconcile(Pass(first.dirExists, first.files, StartStats(1)), [rec], env);
      first.stats.created == start.stats.created + 1 &&
      ReadLocalMemory(first.files, rec.filename) == None &&
      second.stats == Stats(1, 0, 0, 0, 1)
  {
    ReconcileSnoc(start, [], rec, env);
    var first := Reconcile(start, [rec], env);
    IncompleteSaveReadsAbsent(start.files, CloudCopy(rec), env.clock);
    ReconcileSnoc(Pass(first.dirExists, first.files, StartStats(1)), [], rec, env);
  }

  /**
   * Two cloud rows with one filename (the save path inserts rather than upserts): the
   * later row is decided against the earlier row's write. With no local memory and no
   * overwrite, the first is created and the second updates only if strictly newer.
   */
  lemma DuplicateDecidedAgainstEarlierWrite(start: Pass, a: MemoryRecord, b: MemoryRecord, env: SyncEnv)
    requires a.filename == b.filename && a.filename !in env.refuses && !env.overwrite
    requires a.filename != "" && a.topic != "" && a.content != ""
    requires ReadLocalMemory(start.files, a.filename) == None
    ensures var run := Reconcile(start, [a, b], env);
      && run.stats.created == start.stats.created + 1
      && (b.timestamp > a.timestamp ==>
            run.stats.updated == start.stats.updated + 1 &&
            run.files[a.filename] == Stored(CloudCopy(b), env.clock))
      && (b.timestamp <= a.timestamp ==>
            run.stats.skipped == start.stats.skipped + 1 &&
            run.files[a.filename] == Stored(CloudCopy(a), env.clock))
  {
    ReconcileSnoc(start, [], a, env);
    ReconcileSnoc(start, [a], b, env);
    SaveThenRead(start.files, CloudCopy(a), env.clock);
  }

  /**
   * A fresh pull: when no memory of the working set reads locally, their filenames are
   * distinct and none is refused, every one is created.
   */
  lemma {:induction false} FreshSyncCreatesAll(start: Pass, recs: seq<MemoryRecord>, env: SyncEnv)
    requires forall i :: 0 <= i < |recs| ==> ReadLocalMemory(start.files, recs[i].filename) == None
    requires forall i, j :: 0 <= i < j < |recs| ==> recs[i].filename != recs[j].filename
    requires forall i :: 0 <= i < |recs| ==> !WriteThrows(env.refuses, recs[i].filename)
    ensures Reconcile(start, recs, env).stats == start.stats.(created := start.stats.created + |recs|)
  {
    if recs != [] {
      var prefix, last := recs[..|recs| - 1], recs[|recs| - 1];
      forall i | 0 <= i < |prefix|
        ensures ReadLocalMemory(start.files, prefix[i].filename) == None
        ensures !WriteThrows(env.refuses, prefix[i].filename)
      {
        assert prefix[i] == recs[i];
      }
      forall i, j | 0 <= i < j < |prefix| ensures prefix[i].filename != prefix[j].filename {
        assert prefix[i] == recs[i] && prefix[j] == recs[j];
      }
      FreshSyncCreatesAll(start, prefix, env);
      forall i | 0 <= i < |prefix| ensures prefix[i].filename != last.filename {
        assert prefix[i] == recs[i];
      }
      ReconcileLeavesKey(start, prefix, env, last.filename);
    }
  }
}
