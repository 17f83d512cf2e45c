/**
 * Pulling the bundled workflow files into a target project (`pullWorkflows` in
 * src/storage/workflows.ts): per category, per file, copy into `.workflows/<category>/`
 * unless the file already exists and overwriting is off, keeping the same counters as sync
 * plus a list of errors and a list of the files written.
 */
module Workflows {
  import opened Types

  const AllCategories: seq<string> := ["commands", "workflows", "skills"]
  const DefaultCategories: seq<string> := ["commands"]

  /** Where workflow files come from (`config.workflows.sourceType`); any other value lists locally. */
  datatype SourceType = LocalSource | SupabaseSource | GitHubSource | OtherSource

  datatype PullWorkflowsOptions = PullWorkflowsOptions(
    targetDir: Option<string>,
    category: Option<string>,
    allCategories: bool,
    filename: Option<string>,
    overwrite: bool)

  datatype WorkflowsConfig = WorkflowsConfig(targetProjectDir: Option<string>, sourceType: SourceType)

  /** Why reading a bundled workflow file throws. */
  datatype ReadFailure =
    | NotBasename(filename: string)
    | Escapes(filename: string)
    | Missing(filename: string)
    | Unreadable(filename: string, cause: string)
  {
    /** The thrown error's message. */
    function Message(): string
    {
      match this
      case NotBasename(f) => "Invalid workflow filename: " + f
      case Escapes(f) => "Invalid workflow path: " + f
      case Missing(f) => "Failed to read workflow " + f + ": ENOENT: no such file or directory"
      case Unreadable(f, cause) => "Failed to read workflow " + f + ": " + cause
    }
  }

  /** What `readLocalWorkflow` gives: the file's text, or the error it throws. */
  datatype ReadOutcome = Read(text: string) | Refused(failure: ReadFailure)

  /** Why one file of the pull fails: its read throws, or its write throws with a message. */
  datatype FileFailure = ReadThrew(failure: ReadFailure) | WriteThrew(error: string)
  {
    function Message(): string
    {
      match this
      case ReadThrew(f) => f.Message()
      case WriteThrew(e) => e
    }
  }

  /** An entry of the result's `errors`, rendered by `Message`. */
  datatype WorkflowError =
    | TargetNotConfigured
    | TargetNotFound(dir: string)
    | SupabaseNotImplemented(category: string)
    | GitHubNotImplemented(category: string)
    | InvalidFilter(requested: string)
    | ProcessFailed(category: string, filename: string, failure: FileFailure)
  {
    function Message(): string
    {
      match this
      case TargetNotConfigured => "Target directory not configured"
      case TargetNotFound(dir) => "Target directory not found: " + dir
      case SupabaseNotImplemented(c) => "Supabase source not implemented for category: " + c
      case GitHubNotImplemented(c) => "GitHub source not implemented for category: " + c
      case InvalidFilter(f) => "Invalid workflow filename: " + f
      case ProcessFailed(c, f, failure) => "Failed to process " + c + "/" + f + ": " + failure.Message()
    }
  }

  /** `PullWorkflowsResult`; an empty `errors` stands for the source's `undefined`. */
  datatype PullWorkflowsResult = PullWorkflowsResult(
    success: bool,
    targetDir: string,
    stats: Stats,
    files: seq<string>,
    errors: seq<WorkflowError>)

  // ---------------------------------------------------------------------------------------
  // File names and paths (POSIX separator)

  const Sep: char := '/'

  function StripTrailingSeps(s: string): string
    decreases |s|
  {
    if |s| > 0 && s[|s| - 1] == Sep then StripTrailingSeps(s[..|s| - 1]) else s
  }

  /** What follows the last separator. */
  function LastSegment(s: string): string
    decreases |s|
  {
    if s == [] || s[|s| - 1] == Sep then [] else LastSegment(s[..|s| - 1]) + [s[|s| - 1]]
  }

  /** `path.basename`: the last segment once trailing separators are dropped. */
  function Basename(s: string): string
  {
    LastSegment(StripTrailingSeps(s))
  }

  lemma {:induction false} LastSegmentOfPlain(s: string)
    requires Sep !in s
    ensures LastSegment(s) == s
  {
    if s != [] {
      LastSegmentOfPlain(s[..|s| - 1]);
      assert s == s[..|s| - 1] + [s[|s| - 1]];
    }
  }

  lemma {:induction false} LastSegmentIsPlain(s: string)
    ensures Sep !in LastSegment(s)
  {
    if s != [] && s[|s| - 1] != Sep {
      LastSegmentIsPlain(s[..|s| - 1]);
    }
  }

  /** A name is its own basename exactly when it contains no separator. */
  lemma BasenameIsItselfIff(s: string)
    ensures Basename(s) == s <==> Sep !in s
  {
    LastSegmentIsPlain(StripTrailingSeps(s));
    if Sep !in s {
      assert StripTrailingSeps(s) == s;
      LastSegmentOfPlain(s);
    }
  }

  /**
   * `path.resolve(dir, name)` for a name without separators, where `dir` is a normalised
   * absolute directory given by its segments.
   */
  function ResolveIn(dir: seq<string>, name: string): seq<string>
  {
    if name == "" || name == "." then dir
    else if name == ".." then (if dir == [] then [] else dir[..|dir| - 1])
    else dir + [name]
  }

  /** `p` lies strictly below `dir` (the source's `startsWith(dir + sep)`). */
  predicate StrictlyUnder(p: seq<string>, dir: seq<string>)
  {
    |p| > |dir| && p[..|dir|] == dir
  }

  // ---------------------------------------------------------------------------------------
  // The bundled source

  /** A directory entry of the bundle: its name and what reading it gives. */
  datatype SourceFile = SourceFile(name: string, text: Result<string>)

  /** The bundled `.workflows` directory: the entries of each category's sub-directory. */
  type Bundle = map<string, seq<SourceFile>>

  /** The files' names, in directory order. */
  function FileNames(entries: seq<SourceFile>): (names: seq<string>)
    ensures |names| == |entries| && forall k :: 0 <= k < |entries| ==> names[k] == entries[k].name
  {
    seq(|entries|, k requires 0 <= k < |entries| => entries[k].name)
  }

  /** The names of `entries` ending in `.md`, in order. */
  function MarkdownNames(entries: seq<SourceFile>): (names: seq<string>)
    ensures |names| <= |entries|
    ensures forall n :: n in names <==> EndsWith(n, ".md") && exists e :: e in entries && e.name == n
  {
    if entries == [] then []
    else
      assert forall e :: e in entries <==> e == entries[0] || e in entries[1..];
      (if EndsWith(entries[0].name, ".md") then [entries[0].name] else []) + MarkdownNames(entries[1..])
  }

  /** Each `.md` name is listed exactly as often as the directory holds it; no other name is. */
  lemma {:induction false} MarkdownNamesCounts(entries: seq<SourceFile>, n: string)
    ensures multiset(MarkdownNames(entries))[n] == if EndsWith(n, ".md") then multiset(FileNames(entries))[n] else 0
  {
    if entries != [] {
      MarkdownNamesCounts(entries[1..], n);
      assert FileNames(entries) == [entries[0].name] + FileNames(entries[1..]);
    }
  }

  /** `listLocalWorkflows`: the category's `.md` files; none when its directory cannot be read. */
  function ListLocalWorkflows(bundle: Bundle, category: string): (names: seq<string>)
    ensures category !in bundle ==> names == []
    ensures forall n :: n in names <==>
      category in bundle && EndsWith(n, ".md") && exists e :: e in bundle[category] && e.name == n
  {
    if category in bundle then MarkdownNames(bundle[category]) else []
  }

  /** The bundle entry a read of `name` opens: the first of that name. */
  function FindSource(entries: seq<SourceFile>, name: string): (r: Option<SourceFile>)
    ensures r.Some? ==> r.value in entries && r.value.name == name
    ensures r.None? ==> forall e :: e in entries ==> e.name != name
  {
    if entries == [] then None
    else if entries[0].name == name then Some(entries[0])
    else FindSource(entries[1..], name)
  }

  /** The file of the bundle that reads as `text`. */
  predicate ReadsAs(bundle: Bundle, category: string, filename: string, text: string)
  {
    category in bundle && FindSource(bundle[category], filename).Some? &&
    FindSource(bundle[category], filename).value.text == Ok(text)
  }

  /**
   * `readLocalWorkflow`: refuses a name that is not its own basename, then any name that
   * resolves outside the category directory, then reads the file.
   */
  function ReadLocalWorkflow(sourceRoot: seq<string>, bundle: Bundle, category: string, filename: string)
    : (r: ReadOutcome)
    ensures r.Read? ==> ReadsAs(bundle, category, filename, r.text)
    ensures filename == "" || filename == "." || filename == ".." ==> r.Refused?
  {
    var dir := sourceRoot + [category];
    if Basename(filename) != filename then Refused(NotBasename(filename))
    else if !StrictlyUnder(ResolveIn(dir, filename), dir) then Refused(Escapes(filename))
    else if category !in bundle then Refused(Missing(filename))
    else
      match FindSource(bundle[category], filename)
      case None => Refused(Missing(filename))
      case Some(SourceFile(_, Ok(text))) => Read(text)
      case Some(SourceFile(_, Err(e))) => Refused(Unreadable(filename, e))
  }

  /**
   * A read succeeds exactly for a bare name other than "", "." and "..", naming a file of
   * the category that reads; it then gives that file's text. A name with a separator is
   * refused before anything is read.
   */
  lemma ReadLocalWorkflowChecks(sourceRoot: seq<string>, bundle: Bundle, category: string, filename: string)
    ensures var r := ReadLocalWorkflow(sourceRoot, bundle, category, filename);
      && (r.Read? <==>
            && Sep !in filename && filename != "" && filename != "." && filename != ".."
            && category in bundle && FindSource(bundle[category], filename).Some?
            && FindSource(bundle[category], filename).value.text.Ok?)
      && (r.Read? ==> ReadsAs(bundle, category, filename, r.text))
      && (Sep in filename ==> r == Refused(NotBasename(filename)))
  {
    BasenameIsItselfIff(filename);
  }

  /** The filename filter's check: a non-empty basename equal to the request and free of separators. */
  predicate FilterAccepted(requested: string)
  {
    var safe := Basename(requested);
    safe != "" && safe == requested && Sep !in safe
  }

  /** The filter admits exactly the non-empty names without a separator. */
  lemma FilterAcceptedIff(requested: string)
    ensures FilterAccepted(requested) <==> requested != "" && Sep !in requested
  {
    BasenameIsItselfIff(requested);
  }

  /** The names equal to `name`, in order. */
  function KeepEqual(names: seq<string>, name: string): (kept: seq<string>)
    ensures |kept| <= |names|
    ensures forall n :: multiset(kept)[n] == if n == name then multiset(names)[n] else 0
  {
    if names == [] then []
    else
      assert names == [names[0]] + names[1..];
      (if names[0] == name then [names[0]] else []) + KeepEqual(names[1..], name)
  }

  // ---------------------------------------------------------------------------------------
  // The target project

  /** The target's `.workflows` tree: file text by (category, filename). */
  class WorkflowTarget {
    /** Target files whose write throws, with the error raised. */
    const refuses: map<(string, string), string>
    var files: map<(string, string), string>

    constructor (refuses: map<(string, string), string>, files: map<(string, string), string>)
      ensures this.refuses == refuses && this.files == files
    {
      this.refuses := refuses;
      this.files := files;
    }

    /** `writeWorkflowFile`: creates the category directory and writes the file. */
    method WriteWorkflowFile(category: string, filename: string, content: string) returns (error: Option<string>)
      modifies this`files
      ensures (category, filename) in refuses ==>
        error == Some(refuses[(category, filename)]) && files == old(files)
      ensures (category, filename) !in refuses ==>
        error == None && files == old(files)[(category, filename) := content]
    {
      if (category, filename) in refuses {
        return Some(refuses[(category, filename)]);
      }
      files := files[(category, filename) := content];
      error := None;
    }
  }

  // ---------------------------------------------------------------------------------------
  // The pull, as a specification

  /** The categories to pull: the requested one, else all three when asked, else `commands`. */
  function CategoriesToPull(options: PullWorkflowsOptions): (categories: seq<string>)
    ensures options.category.Some? && options.category.value != "" ==> categories == [options.category.value]
    ensures options.category.None? || options.category.value == "" ==>
      categories == (if options.allCategories then ["commands", "workflows", "skills"] else ["commands"])
  {
    if options.category.Some? && options.category.value != "" then [options.category.value]
    else if options.allCategories then AllCategories
    else DefaultCategories
  }

  /** What one pull holds fixed. */
  datatype PullEnv = PullEnv(
    sourceType: SourceType,
    sourceRoot: seq<string>,
    bundle: Bundle,
    filter: Option<string>,
    overwrite: bool,
    refuses: map<(string, string), string>)

  /** The loop's state: the target files, the counters, the errors and the files written. */
  datatype Acc = Acc(files: map<(string, string), string>, stats: Stats, errors: seq<WorkflowError>, processed: seq<string>)

  function Failure(a: Acc, category: string, filename: string, failure: FileFailure): Acc
  {
    a.(stats := a.stats.(failed := a.stats.failed + 1),
       errors := a.errors + [ProcessFailed(category, filename, failure)])
  }

  /** One file: skip an existing target unless overwriting; else read, write and count. */
  function PullFile(a: Acc, env: PullEnv, category: string, filename: string): Acc
  {
    var key := (category, filename);
    var existed := key in a.files;
    if existed && !env.overwrite then a.(stats := a.stats.(skipped := a.stats.skipped + 1))
    else
      match ReadLocalWorkflow(env.sourceRoot, env.bundle, category, filename)
      case Refused(failure) => Failure(a, category, filename, ReadThrew(failure))
      case Read(text) =>
        if key in env.refuses then Failure(a, category, filename, WriteThrew(env.refuses[key]))
        else Acc(a.files[key := text],
                 if existed then a.stats.(updated := a.stats.updated + 1)
                 else a.stats.(created := a.stats.created + 1),
                 a.errors,
                 a.processed + [category + "/" + filename])
  }

  /** The inner loop over one category's files, in order. */
  function PullFiles(a: Acc, env: PullEnv, category: string, names: seq<string>): Acc
    decreases |names|
  {
    if names == [] then a
    else PullFile(PullFiles(a, env, category, names[..|names| - 1]), env, category, names[|names| - 1])
  }

  /** The files of a category to process, after the filename filter. */
  function Selected(env: PullEnv, category: string): seq<string>
  {
    var listed := ListLocalWorkflows(env.bundle, category);
    if env.filter.Some? && env.filter.value != "" then KeepEqual(listed, env.filter.value) else listed
  }

  /** The error that stops a category before any file: an unimplemented source or a rejected filter. */
  function Gate(env: PullEnv, category: string): Option<WorkflowError>
  {
    if env.sourceType == SupabaseSource then Some(SupabaseNotImplemented(category))
    else if env.sourceType == GitHubSource then Some(GitHubNotImplemented(category))
    else if env.filter.Some? && env.filter.value != "" && !FilterAccepted(env.filter.value) then
      Some(InvalidFilter(env.filter.value))
    else None
  }

  /** A category that passes the gate: `total` grows by the file count and each file is pulled. */
  function PullSelected(a: Acc, env: PullEnv, category: string): Acc
  {
    var names := Selected(env, category);
    PullFiles(a.(stats := a.stats.(total := a.stats.total + |names|)), env, category, names)
  }

  /** One category: a gate error is recorded and nothing is processed; otherwise its files are pulled. */
  function PullCategory(a: Acc, env: PullEnv, category: string): Acc
  {
    match Gate(env, category)
    case Some(error) => a.(errors := a.errors + [error])
    case None => PullSelected(a, env, category)
  }

  /** The outer loop over the categories, in order. */
  function PullCategories(a: Acc, env: PullEnv, categories: seq<string>): Acc
    decreases |categories|
  {
    if categories == [] then a
    else PullCategory(PullCategories(a, env, categories[..|categories| - 1]), env, categories[|categories| - 1])
  }

  /** The target directory in effect: the option, else the configured one, else none (""). */
  function ResolveTarget(options: PullWorkflowsOptions, config: WorkflowsConfig): string
  {
    OrElse(options.targetDir, OrElse(config.targetProjectDir, ""))
  }

  /** The body of the inner loop: one file's skip, read, write and count. */
  method PullOneFile(target: WorkflowTarget, sourceRoot: seq<string>, bundle: Bundle, overwrite: bool,
                     category: string, filename: string, stats0: Stats, errors0: seq<WorkflowError>, processed0: seq<string>,
                     ghost env: PullEnv)
    returns (stats: Stats, errors: seq<WorkflowError>, processed: seq<string>)
    requires env.sourceRoot == sourceRoot && env.bundle == bundle
    requires env.overwrite == overwrite && env.refuses == target.refuses
    modifies target`files
    ensures Acc(target.files, stats, errors, processed) ==
      PullFile(Acc(old(target.files), stats0, errors0, processed0), env, category, filename)
  {
    stats, errors, processed := stats0, errors0, processed0;
    var existed := (category, filename) in target.files;
    if existed && !overwrite {
      stats := stats.(skipped := stats.skipped + 1);
      return;
    }
    var content := ReadLocalWorkflow(sourceRoot, bundle, category, filename);
    var failure: Option<FileFailure> := None;
    if content.Refused? {
      failure := Some(ReadThrew(content.failure));
    } else {
      var error := target.WriteWorkflowFile(category, filename, content.text);
      if error.Some? {
        failure := Some(WriteThrew(error.value));
      }
    }
    if failure.Some? {
      stats := stats.(failed := stats.failed + 1);
      errors := errors + [ProcessFailed(category, filename, failure.value)];
    } else {
      if existed {
        stats := stats.(updated := stats.updated + 1);
      } else {
        stats := stats.(created := stats.created + 1);
      }
      processed := processed + [category + "/" + filename];
    }
  }

  /** The inner loop: each listed file of one category, in order. */
  method PullListedFiles(target: WorkflowTarget, sourceRoot: seq<string>, bundle: Bundle, overwrite: bool,
                         category: string, names: seq<string>,
                         stats0: Stats, errors0: seq<WorkflowError>, processed0: seq<string>, ghost env: PullEnv)
    returns (stats: Stats, errors: seq<WorkflowError>, processed: seq<string>)
    requires env.sourceRoot == sourceRoot && env.bundle == bundle
    requires env.overwrite == overwrite && env.refuses == target.refuses
    modifies target`files
    ensures Acc(target.files, stats, errors, processed) ==
      PullFiles(Acc(old(target.files), stats0, errors0, processed0), env, category, names)
  {
    stats, errors, processed := stats0, errors0, processed0;
    ghost var start := Acc(target.files, stats, errors, processed);
    var j := 0;
    while j < |names|
      invariant 0 <= j <= |names|
      invariant Acc(target.files, stats, errors, processed) == PullFiles(start, env, category, names[..j])
    {
      stats, errors, processed := PullOneFile(target, sourceRoot, bundle, overwrite, category, names[j],
                                              stats, errors, processed, env);
      assert names[..j + 1][..j] == names[..j];
      j := j + 1;
    }
    assert names[..|names|] == names;
  }

  /** The body of the outer loop: one category's source check, filter, listing and files. */
  method PullOneCategory(target: WorkflowTarget, sourceType: SourceType, sourceRoot: seq<string>, bundle: Bundle,
                         filter: Option<string>, overwrite: bool, category: string,
                         stats0: Stats, errors0: seq<WorkflowError>, processed0: seq<string>, ghost env: PullEnv)
    returns (stats: Stats, errors: seq<WorkflowError>, processed: seq<string>)
    requires env == PullEnv(sourceType, sourceRoot, bundle, filter, overwrite, target.refuses)
    modifies target`files
    ensures Acc(target.files, stats, errors, processed) ==
      PullCategory(Acc(old(target.files), stats0, errors0, processed0), env, category)
  {
    stats, errors, processed := stats0, errors0, processed0;
    if sourceType == SupabaseSource {
      assert Gate(env, category) == Some(SupabaseNotImplemented(category));
      errors := errors + [SupabaseNotImplemented(category)];
      return;
    } else if sourceType == GitHubSource {
      assert Gate(env, category) == Some(GitHubNotImplemented(category));
      errors := errors + [GitHubNotImplemented(category)];
      return;
    }
    var names := ListLocalWorkflows(bundle, category);
    if filter.Some? && filter.value != "" {
      var requested := filter.value;
      if !FilterAccepted(requested) {
        assert Gate(env, category) == Some(InvalidFilter(requested));
        errors := errors + [InvalidFilter(requested)];
        return;
      }
      names := KeepEqual(names, requested);
    }
    assert Gate(env, category) == None;
    assert names == Selected(env, category);
    stats := stats.(total := stats.total + |names|);
    stats, errors, processed := PullListedFiles(target, sourceRoot, bundle, overwrite, category, names,
                                                stats, errors, processed, env);
  }

  /**
   * `pullWorkflows`. `targetExists` answers whether the target directory exists;
   * `sourceRoot` is the resolved bundle directory and `bundle` its contents.
   */
  method PullWorkflows(target: WorkflowTarget, options: PullWorkflowsOptions, config: WorkflowsConfig,
                       targetExists: bool, sourceRoot: seq<string>, bundle: Bundle)
    returns (r: PullWorkflowsResult)
    modifies target`files
    ensures ResolveTarget(options, config) == "" ==>
      r == PullWorkflowsResult(false, "", StartStats(0), [], [TargetNotConfigured]) &&
      target.files == old(target.files)
    ensures ResolveTarget(options, config) != "" && !targetExists ==>
      r == PullWorkflowsResult(false, ResolveTarget(options, config), StartStats(0), [],
                               [TargetNotFound(ResolveTarget(options, config))]) &&
      target.files == old(target.files)
    ensures ResolveTarget(options, config) != "" && targetExists ==>
      var env := PullEnv(config.sourceType, sourceRoot, bundle, options.filename, options.overwrite, target.refuses);
      var run := PullCategories(Acc(old(target.files), StartStats(0), [], []), env, CategoriesToPull(options));
      && target.files == run.files
      && r == PullWorkflowsResult(run.stats.failed == 0 && run.errors == [], ResolveTarget(options, config),
                                  run.stats, run.processed, run.errors)
  {
    var targetDir := ResolveTarget(options, config);
    if targetDir == "" {
      return PullWorkflowsResult(false, "", StartStats(0), [], [TargetNotConfigured]);
    }
    if !targetExists {
      return PullWorkflowsResult(false, targetDir, StartStats(0), [], [TargetNotFound(targetDir)]);
    }
    var categories := CategoriesToPull(options);
    ghost var env := PullEnv(config.sourceType, sourceRoot, bundle, options.filename, options.overwrite, target.refuses);
    ghost var start := Acc(target.files, StartStats(0), [], []);
    var stats := StartStats(0);
    var errors: seq<WorkflowError> := [];
    var processed: seq<string> := [];
    var i := 0;
    while i < |categories|
      invariant 0 <= i <= |categories|
      invariant Acc(target.files, stats, errors, processed) == PullCategories(start, env, categories[..i])
    {
      assert categories[..i + 1][..i] == categories[..i];
      stats, errors, processed := PullOneCategory(target, config.sourceType, sourceRoot, bundle, options.filename,
                                                  options.overwrite, categories[i], stats, errors, processed, env);
      i := i + 1;
    }
    assert categories[..|categories|] == categories;
    r := PullWorkflowsResult(stats.failed == 0 && errors == [], targetDir, stats, processed, errors);
  }

  // ---------------------------------------------------------------------------------------
  // Properties

  /** Each file moves exactly one counter, `total` stays, and each create or update records one file. */
  lemma {:induction false} PullFilesCounts(a: Acc, env: PullEnv, category: string, names: seq<string>)
    ensures var b := PullFiles(a, env, category, names);
      && b.stats.Processed() == a.stats.Processed() + |names|
      && b.stats.total == a.stats.total
      && |b.processed| - |a.processed| == (b.stats.created + b.stats.updated) - (a.stats.created + a.stats.updated)
  {
    if names != [] {
      PullFilesCounts(a, env, category, names[..|names| - 1]);
    }
  }

  /** A category keeps the counters balanced, and each create or update records one file. */
  lemma PullCategoryBalanced(a: Acc, env: PullEnv, category: string)
    requires a.stats.Processed() == a.stats.total
    ensures var b := PullCategory(a, env, category);
      b.stats.Processed() == b.stats.total &&
      |b.processed| - |a.processed| == (b.stats.created + b.stats.updated) - (a.stats.created + a.stats.updated)
  {
    var names := Selected(env, category);
    PullFilesCounts(a.(stats := a.stats.(total := a.stats.total + |names|)), env, category, names);
  }

  /** created + updated + skipped + failed == total after any pull that starts balanced. */
  lemma {:induction false} PullCategoriesBalanced(a: Acc, env: PullEnv, categories: seq<string>)
    requires a.stats.Processed() == a.stats.total
    ensures var b := PullCategories(a, env, categories);
      b.stats.Processed() == b.stats.total &&
      |b.processed| - |a.processed| == (b.stats.created + b.stats.updated) - (a.stats.created + a.stats.updated)
  {
    if categories != [] {
      var prefix := categories[..|categories| - 1];
      PullCategoriesBalanced(a, env, prefix);
      PullCategoryBalanced(PullCategories(a, env, prefix), env, categories[|categories| - 1]);
    }
  }

  /** Without overwrite, no file that existed in the target changes. */
  lemma {:induction false} PullFilesKeepsExisting(a: Acc, env: PullEnv, category: string, names: seq<string>, key: (string, string))
    requires !env.overwrite && key in a.files
    ensures var b := PullFiles(a, env, category, names).files; key in b && b[key] == a.files[key]
  {
    if names != [] {
      PullFilesKeepsExisting(a, env, category, names[..|names| - 1], key);
    }
  }

  lemma PullCategoryKeepsExisting(a: Acc, env: PullEnv, category: string, key: (string, string))
    requires !env.overwrite && key in a.files
    ensures var b := PullCategory(a, env, category).files; key in b && b[key] == a.files[key]
  {
    var names := Selected(env, category);
    PullFilesKeepsExisting(a.(stats := a.stats.(total := a.stats.total + |names|)), env, category, names, key);
  }

  lemma {:induction false} PullCategoriesKeepsExisting(a: Acc, env: PullEnv, categories: seq<string>, key: (string, string))
    requires !env.overwrite && key in a.files
    ensures var b := PullCategories(a, env, categories).files; key in b && b[key] == a.files[key]
  {
    if categories != [] {
      var prefix := categories[..|categories| - 1];
      PullCategoriesKeepsExisting(a, env, prefix, key);
      PullCategoryKeepsExisting(PullCategories(a, env, prefix), env, categories[|categories| - 1], key);
    }
  }

  /**
   * Every file the pull writes or changes holds the bundle's text for it, and lies in one of
   * the pulled categories; everything else is left as it was.
   */
  lemma PullFileWritesSource(a: Acc, env: PullEnv, category: string, filename: string, key: (string, string))
    ensures var b := PullFile(a, env, category, filename).files;
      && (key in a.files ==> key in b)
      && (key in b && (key !in a.files || b[key] != a.files[key]) ==>
            key == (category, filename) && ReadsAs(env.bundle, category, filename, b[key]))
  {
    ReadLocalWorkflowChecks(env.sourceRoot, env.bundle, category, filename);
  }

  lemma {:induction false} PullFilesWritesSource(a: Acc, env: PullEnv, category: string, names: seq<string>, key: (string, string))
    ensures var b := PullFiles(a, env, category, names).files;
      && (key in a.files ==> key in b)
      && (key in b && (key !in a.files || b[key] != a.files[key]) ==>
            key.0 == category && ReadsAs(env.bundle, key.0, key.1, b[key]))
  {
    if names != [] {
      var prefix := names[..|names| - 1];
      PullFilesWritesSource(a, env, category, prefix, key);
      var mid := PullFiles(a, env, category, prefix);
      PullFileWritesSource(mid, env, category, names[|names| - 1], key);
      var b := PullFile(mid, env, category, names[|names| - 1]).files;
      assert PullFiles(a, env, category, names).files == b;
      if key in b && (key !in a.files || b[key] != a.files[key]) {
        if key in mid.files && b[key] == mid.files[key] {
          assert key !in a.files || mid.files[key] != a.files[key];
        }
      }
    }
  }

  lemma PullCategoryWritesSource(a: Acc, env: PullEnv, category: string, key: (string, string))
    ensures var b := PullCategory(a, env, category).files;
      && (key in a.files ==> key in b)
      && (key in b && (key !in a.files || b[key] != a.files[key]) ==>
            key.0 == category && ReadsAs(env.bundle, key.0, key.1, b[key]))
  {
    var names := Selected(env, category);
    PullFilesWritesSource(a.(stats := a.stats.(total := a.stats.total + |names|)), env, category, names, key);
  }

  lemma {:induction false} PullCategoriesWritesSource(a: Acc, env: PullEnv, categories: seq<string>, key: (string, string))
    ensures var b := PullCategories(a, env, categories).files;
      && (key in a.files ==> key in b)
      && (key in b && (key !in a.files || b[key] != a.files[key]) ==>
            key.0 in categories && ReadsAs(env.bundle, key.0, key.1, b[key]))
  {
    if categories != [] {
      var prefix, last := categories[..|categories| - 1], categories[|categories| - 1];
      PullCategoriesWritesSource(a, env, prefix, key);
      var mid := PullCategories(a, env, prefix);
      PullCategoryWritesSource(mid, env, last, key);
      var b := PullCategory(mid, env, last).files;
      assert PullCategories(a, env, categories).files == b;
      if key in b && (key !in a.files || b[key] != a.files[key]) {
        if key in mid.files && b[key] == mid.files[key] {
          assert key.0 in prefix;
        }
      }
    }
  }

  /**
   * The other direction, one category's loop: a listed file that reads, whose write does not
   * throw, and whose target is absent (or overwriting is on) ends up holding the bundle's
   * text; a file the loop does not list keeps its target exactly as it was.
   */
  lemma {:induction false} PullFilesWritesListed(a: Acc, env: PullEnv, category: string, names: seq<string>,
                                                 filename: string)
    ensures var key := (category, filename);
      var read := ReadLocalWorkflow(env.sourceRoot, env.bundle, category, filename);
      var b := PullFiles(a, env, category, names).files;
      && (filename !in names ==> (key in b <==> key in a.files) && (key in a.files ==> b[key] == a.files[key]))
      && (filename in names && read.Read? && key !in env.refuses && (env.overwrite || key !in a.files) ==>
            key in b && b[key] == read.text)
  {
    if names != [] {
      var prefix, last := names[..|names| - 1], names[|names| - 1];
      var key := (category, filename);
      PullFilesWritesListed(a, env, category, prefix, filename);
      var mid := PullFiles(a, env, category, prefix);
      PullFileWritesSource(mid, env, category, last, key);
      assert filename in names <==> filename in prefix || filename == last by {
        assert names == prefix + [last];
      }
    }
  }

  /** The same for one category: it writes its selected files unless its gate stops it. */
  lemma PullCategoryWritesSelected(a: Acc, env: PullEnv, category: string, filename: string)
    ensures var key := (category, filename);
      var read := ReadLocalWorkflow(env.sourceRoot, env.bundle, category, filename);
      var b := PullCategory(a, env, category).files;
      && (Gate(env, category).Some? || filename !in Selected(env, category) ==>
            (key in b <==> key in a.files) && (key in a.files ==> b[key] == a.files[key]))
      && (Gate(env, category).None? && filename in Selected(env, category) && read.Read? && key !in env.refuses &&
          (env.overwrite || key !in a.files) ==>
            key in b && b[key] == read.text)
  {
    var names := Selected(env, category);
    PullFilesWritesListed(a.(stats := a.stats.(total := a.stats.total + |names|)), env, category, names, filename);
  }

  /**
   * The whole pull writes every file it should: a file selected in a pulled category whose
   * gate passes, that reads, whose write does not throw, and whose target was absent (or
   * overwriting is on) holds the bundle's text afterwards. A category not pulled is left as
   * it was.
   */
  lemma {:induction false} PullCategoriesWritesSelected(a: Acc, env: PullEnv, categories: seq<string>,
                                                        category: string, filename: string)
    ensures var key := (category, filename);
      var read := ReadLocalWorkflow(env.sourceRoot, env.bundle, category, filename);
      var b := PullCategories(a, env, categories).files;
      && (category !in categories ==> (key in b <==> key in a.files) && (key in a.files ==> b[key] == a.files[key]))
      && (category in categories && Gate(env, category).None? && filename in Selected(env, category) &&
          read.Read? && key !in env.refuses && (env.overwrite || key !in a.files) ==>
            key in b && b[key] == read.text)
  {
    if categories != [] {
      var prefix, last := categories[..|categories| - 1], categories[|categories| - 1];
      var key := (category, filename);
      assert category in categories <==> category in prefix || category == last by {
        assert categories == prefix + [last];
      }
      PullCategoriesWritesSelected(a, env, prefix, category, filename);
      var mid := PullCategories(a, env, prefix);
      if last == category {
        PullCategoryWritesSelected(mid, env, category, filename);
        if key in mid.files && !env.overwrite {
          PullCategoryKeepsExisting(mid, env, category, key);
        }
      } else {
        PullCategoryWritesSource(mid, env, last, key);
      }
    }
  }

  /**
   * A rejected filename filter (empty after basename, or not a bare name) records one error
   * per category and reads, writes and counts nothing.
   */
  lemma {:induction false} RejectedFilterWritesNothing(a: Acc, env: PullEnv, categories: seq<string>)
    requires env.filter.Some? && Sep in env.filter.value
    ensures var b := PullCategories(a, env, categories);
      b.files == a.files && b.stats == a.stats && b.processed == a.processed &&
      |b.errors| == |a.errors| + |categories|
  {
    FilterAcceptedIff(env.filter.value);
    if categories != [] {
      RejectedFilterWritesNothing(a, env, categories[..|categories| - 1]);
    }
  }
}
