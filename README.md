# memorize-mcp storage core, in Dafny

This project models the storage core of memorize-mcp, a tool that keeps "memories"
(topic + content documents) in a local directory of JSON files and mirrors them to a cloud
database. Five pieces of the TypeScript source are modelled:

- **the local store** (`src/storage/local.ts`). `Local.MemoryDir` is a class whose `files`
  map (filename to stored document) and `dirExists` flag are updated in place by
  `SaveLocalMemory`. Reads are functions over that map, and they validate the document:
  one that is missing, unparseable or lacks a required field reads as "no memory".
- **the sync reconciler** (`src/storage/sync.ts`). `Sync.DecideSyncAction` is the pure
  create/update/skip decision. `Sync.SyncFromCloud` is the loop that reads the local store
  (after earlier iterations' writes), decides, writes and counts. It is proved equal to the
  fold `Sync.Reconcile`, and the properties of a run and of repeated runs are lemmas about
  that fold.
- **the save orchestrator** (`saveMemory` in `src/storage/index.ts`). `Storage.SaveMemory`
  writes locally first (mandatory), then mirrors to the cloud (best effort). The cloud save
  is an oracle that returns true, returns false or throws.
- **the workflow pull** (`pullWorkflows` in `src/storage/workflows.ts`). It copies a
  bundle's markdown files, category by category, into a target project. It keeps
  create/update/skip/fail counters, an error list and the list of written files, and it
  sanitises filenames and checks path containment. The nested loops are methods proved
  equal to the folds `Workflows.PullFiles` / `Workflows.PullCategories`.
- **the CLI pull** (`src/cli/commands/pull.ts`). `Pull.ParseArgs` is the flag-driven
  argument loop, proved equal to the recursive `Pull.ParseFrom`. `Pull.PullResources`
  copies prompt and skill files into a target tree `Pull.Disk` with the same accounting.
  `Pull.CopyDirRecursive` is the recursive directory copy that writes a file only when its
  destination is absent or overwriting is on.

Other pieces are passed in as parameters:

- The cloud (`src/storage/supabase.ts`) is a parameter: `Sync.Remote` for what the
  project lookups answer, and `Storage.CloudAnswer` for what the cloud save does.
- The configuration (`src/config.ts`) is passed in as values: whether the remote is
  configured, the default slug, the machine identity and the directories.
- The wall clock is a `Types.Clock` parameter holding an integer instant and its display
  string.
- Filesystem faults are fixed per path: each store has a `refuses` map or set of the names
  whose write throws, with the error raised.

## Model

| member | source | states |
|---|---|---|
| `Local.LocalMemoryExists` | src/storage/local.ts:21-27 | a non-empty name exists exactly when the directory holds it; the empty name asks whether the directory itself exists; whatever reads as a memory exists |
| `Local.ReadLocalMemory` | src/storage/local.ts:35-65 | no file gives `None`; the result is `Some` exactly when the file parses and filename, topic, content and timestamp are all present and non-empty, and it then carries the stored fields |
| `Local.ListLocalMemories` | src/storage/local.ts:72-88 | an absent directory lists nothing; otherwise exactly the stored names ending in `.json` are listed |
| `Local.MemoryDir.EnsureDirectoryExists` | src/storage/local.ts:12-16 | afterwards the directory exists, and the files are unchanged |
| `Local.MemoryDir.SaveLocalMemory` | src/storage/local.ts:96-122 | the directory exists afterwards; an empty filename (whose path is the directory itself) fails with `EISDIR`, and a refused write returns its error, both leaving every file as it was; otherwise the result is `join(dir, filename)` and only that filename changes, to a document with the given fields, the supplied timestamp or else the clock's, and the clock's display string |
| `Local.SaveThenRead` | src/storage/local.ts:21-27 | round trip: after saving non-empty filename, topic and content, the memory exists and reads back with exactly those fields and the resolved timestamp |
| `Local.SaveLeavesOthers` | src/storage/local.ts:106-119 | a save changes neither what any other filename reads as nor whether it exists |
| `Local.IncompleteSaveReadsAbsent` | src/storage/local.ts:50-55 | a memory saved under a non-empty filename with an empty topic or content exists as a file but reads back as no memory |
| `Local.SaveThenListed` | src/storage/local.ts:78-80 | a memory saved under a `.json` name is listed afterwards |
| `Sync.DecideSyncAction` | src/storage/sync.ts:31-57 | create iff there is no local memory; with one, update iff overwrite or the cloud timestamp is strictly later; without overwrite, skip iff the cloud timestamp is not later (ties skip) |
| `Sync.KeepNamed` | src/storage/sync.ts:118-121 | the filter keeps exactly the records whose filename equals the filter, each as many times as it occurs, and no other record |
| `Sync.SyncOne` | src/storage/sync.ts:143-198 | one loop iteration: the store and counters afterwards are one `Step` of the fold (skip writes nothing; a refused write counts `failed` and changes no file; a write counts by the decision) |
| `Sync.SyncFromCloud` | src/storage/sync.ts:64-234 | no remote configured, an unreachable remote or an unknown project: `success=false`, zero counters, the resolved slug, and no local change; otherwise the store and counters are those of `Reconcile` over the working set from `total = |working set|`, `success` iff nothing failed, and an empty cloud list or an unmatched filter report those cases |
| `Sync.ReconcileCounts` | src/storage/sync.ts:142-199 | each processed record moves exactly one of created/updated/skipped/failed, and `total` is untouched, so their sum grows by the working set's size |
| `Sync.ReconcileLeavesKey` | src/storage/sync.ts:167-177 | a filename outside the working set is left exactly as it was, present or absent |
| `Sync.ReconcileWritesCloudCopies` | src/storage/sync.ts:167-177 | nothing is deleted, and every changed file holds a working-set record's topic, content and timestamp with `createdFrom` defaulting to `"cloud-sync"` |
| `Sync.ReconcileWithoutRefusalsSucceeds` | src/storage/sync.ts:190-198 | when no write in the working set is refused, `failed` does not grow, so the run reports success |
| `Sync.FilteredSyncTouchesOnlyFilter` | src/storage/sync.ts:118-121 | with a filename filter, no other filename changes locally, however many cloud rows carry the filter's name |
| `Sync.ReconcileSettles` | src/storage/sync.ts:142-199 | after a run without overwrite over complete records, with no refused write, every record reads back locally with a timestamp at least the cloud's |
| `Sync.SettledRunSkipsAll` | src/storage/sync.ts:157-165 | over settled memories, a run without overwrite skips every record and leaves the store unchanged |
| `Sync.SyncTwiceIsIdempotent` | src/storage/sync.ts:142-199 | idempotence: a second run without overwrite over the same complete, unrefused working set skips all and leaves the store as the first run left it |
| `Sync.EmptyContentIsCreatedEveryRun` | src/storage/sync.ts:145-183 | a cloud record with empty content is written, reads back as absent, and is created again on the next run |
| `Sync.DuplicateDecidedAgainstEarlierWrite` | src/storage/sync.ts:142-189 | of two rows with one filename and no local copy, the first is created and the second updates iff strictly newer, else is skipped, and the store keeps the winner |
| `Sync.FreshSyncCreatesAll` | src/storage/sync.ts:157-183 | when no record of the working set reads locally, their names are distinct and none is refused, all are created |
| `Storage.SaveMemory` | src/storage/index.ts:44-109 | an empty filename or a refused local write makes it fail with "Failed to save local memory: " and the error, without calling the cloud and with no file changed; otherwise the local file holds the enriched options, the cloud is called iff configured and with those same options, `cloudSynced` iff configured and the cloud returned true, and `cloudError` is absent, the fixed "returned false" text, or the thrown error's message (else its string form) |
| `Storage.MirrorMatchesLocal` | src/storage/index.ts:48-54 | the timestamp is resolved once (supplied, else the clock's) and the stored document carries it; `createdFrom` is the supplied non-empty one, else the machine identity; the other fields pass through |
| `Workflows.BasenameIsItselfIff` | src/storage/workflows.ts:65-66 | a name is its own `path.basename` exactly when it has no separator |
| `Workflows.MarkdownNames` | src/storage/workflows.ts:42-44 | a name is listed exactly when it ends in `.md` and some directory entry has it |
| `Workflows.MarkdownNamesCounts` | src/storage/workflows.ts:42-44 | each `.md` name is listed exactly as often as the directory holds it, and no other name at all |
| `Workflows.ListLocalWorkflows` | src/storage/workflows.ts:35-52 | an unreadable category lists nothing; otherwise a name is listed exactly when it ends in `.md` and the category's directory holds it |
| `Workflows.ReadLocalWorkflow` | src/storage/workflows.ts:58-84 | a successful read gives the text of the category's file of that name; "", "." and ".." are always refused |
| `Workflows.FindSource` | src/storage/workflows.ts:79-80 | the entry found is in the directory and has the name asked for; none is found only when no entry has that name |
| `Workflows.ReadLocalWorkflowChecks` | src/storage/workflows.ts:58-84 | a read succeeds exactly for a bare name other than "", "." and "..", naming a readable file of the category, and then gives that file's text; a name with a separator is refused as not a basename before anything is read |
| `Workflows.FilterAcceptedIff` | src/storage/workflows.ts:217-229 | the filename filter is accepted exactly when it is non-empty and has no separator |
| `Workflows.KeepEqual` | src/storage/workflows.ts:231 | each name equal to the filter is kept as often as it is listed, and no other name is kept |
| `Workflows.WorkflowTarget.WriteWorkflowFile` | src/storage/workflows.ts:113-126 | a refused write reports its error and changes nothing; otherwise exactly the (category, filename) file now holds the content |
| `Workflows.CategoriesToPull` | src/storage/workflows.ts:181-185 | an explicit category gives exactly that one; else `allCategories` gives commands, workflows, skills; else only commands |
| `Workflows.PullOneFile` | src/storage/workflows.ts:238-278 | one file is one `PullFile` step: an existing target without overwrite is skipped with no read or write; a read or write that throws counts `failed` and appends an error; otherwise the file is written, counted updated/created, and recorded as `category/filename` |
| `Workflows.PullListedFiles` | src/storage/workflows.ts:237-279 | the inner loop equals the fold `PullFiles` over the category's names |
| `Workflows.PullOneCategory` | src/storage/workflows.ts:189-279 | one category equals `PullCategory`: a supabase or github source, or a rejected filter, appends its error and processes nothing; otherwise `total` grows by the selected names and each is pulled |
| `Workflows.PullWorkflows` | src/storage/workflows.ts:135-315 | no target configured, or a missing target: `success=false`, zero counters, one error, nothing written; otherwise the target and the result are those of `PullCategories` over the selected categories, with `success` iff nothing failed and the error list is empty |
| `Workflows.PullFilesCounts` | src/storage/workflows.ts:237-279 | each file moves exactly one counter and `total` stays; each create or update records one written file |
| `Workflows.PullCategoryBalanced` | src/storage/workflows.ts:216-279 | a category keeps created+updated+skipped+failed equal to `total` |
| `Workflows.PullCategoriesBalanced` | src/storage/workflows.ts:189-280 | after any pull, created+updated+skipped+failed equals `total`, and `files` has one entry per create or update |
| `Workflows.PullFilesKeepsExisting` | src/storage/workflows.ts:246-252 | without overwrite, no existing target file changes |
| `Workflows.PullCategoryKeepsExisting` | src/storage/workflows.ts:246-252 | the same for one category |
| `Workflows.PullCategoriesKeepsExisting` | src/storage/workflows.ts:189-280 | the same for the whole pull |
| `Workflows.PullFileWritesSource` | src/storage/workflows.ts:254-258 | a file pulls nothing but its own target, which then holds the bundle's text for it; nothing is deleted |
| `Workflows.PullFilesWritesSource` | src/storage/workflows.ts:237-279 | every file a category's loop changes is in that category and holds the bundle's text |
| `Workflows.PullCategoryWritesSource` | src/storage/workflows.ts:189-279 | the same for one category, gate included |
| `Workflows.PullCategoriesWritesSource` | src/storage/workflows.ts:189-280 | every changed target file is in a pulled category and holds the bundle's text; nothing is deleted |
| `Workflows.PullFilesWritesListed` | src/storage/workflows.ts:237-279 | a listed file that reads, whose write does not throw and whose target was absent (or overwriting is on) holds the bundle's text after the loop; an unlisted file's target is unchanged |
| `Workflows.PullCategoryWritesSelected` | src/storage/workflows.ts:189-279 | the same for one category: its selected files are written unless its gate stops it, and nothing else of the category changes |
| `Workflows.PullCategoriesWritesSelected` | src/storage/workflows.ts:189-280 | the whole pull writes every file it should: a selected file of a pulled category whose gate passes, that reads and whose write does not throw, and whose target was absent or overwriting is on, holds the bundle's text; a category not pulled is unchanged |
| `Workflows.RejectedFilterWritesNothing` | src/storage/workflows.ts:217-229 | a filter holding a separator writes, counts and records nothing, and adds one error per category |
| `Pull.StepEffects` | src/cli/commands/pull.ts:276-328 | each argument's effect: `--all`/`-a`, `--prompts`/`-p`, `--skills`/`-s`, `--basic`, `--frontend`, `--target`/`-t` (consumes the next argument, else cwd), `--overwrite`/`-o`; an unknown argument changes nothing |
| `Pull.ParseArgs` | src/cli/commands/pull.ts:264-332 | the loop's result is the recursive parse `ParseFrom`; no arguments give cwd, no overwrite, prompts only and no skill group |
| `Pull.ParseFromShift` | src/cli/commands/pull.ts:275-329 | parsing from an index depends only on the arguments from that index on |
| `Pull.UnknownArgumentIgnored` | src/cli/commands/pull.ts:278-326 | a leading argument that is not a flag is ignored |
| `Pull.TargetNeedsFlag` | src/cli/commands/pull.ts:316-320 | without `--target`/`-t` the target stays the current directory |
| `Pull.OverwriteNeedsFlag` | src/cli/commands/pull.ts:322-325 | without `--overwrite`/`-o` nothing is overwritten |
| `Pull.ParseKeepsWellFormed` | src/cli/commands/pull.ts:279-314 | every step keeps the categories one of prompts, skills, or both, with skills always carrying a group |
| `Pull.ParsedOptionsWellFormed` | src/cli/commands/pull.ts:264-332 | whatever the arguments, the parsed categories are never empty and skills come with a group |
| `Pull.TargetSwallowsNextArgument` | src/cli/commands/pull.ts:316-320 | `-t -o` takes "-o" as the target; a trailing `-t` falls back to cwd |
| `Pull.SkillFlagsInteract` | src/cli/commands/pull.ts:279-304 | `--skills` keeps an earlier group, `--all` after `--skills` pulls skills only, and `--all` alone pulls both categories |
| `Pull.Child` | src/cli/commands/pull.ts:480-487 | the entry found has the name asked for; none is found only when no entry has it |
| `Pull.ReadEntry` | src/cli/commands/pull.ts:435 | reading succeeds exactly for an existing, readable file (not a directory) |
| `Pull.Without` | src/cli/commands/pull.ts:522-523 | exactly the entries not called `SKILL.md` remain |
| `Pull.SkillFolders` | src/cli/commands/pull.ts:92-123 | every folder the skill search reports lies strictly below its prefix |
| `Pull.SkillFoldersOf` | src/cli/commands/pull.ts:101-116 | a folder found in one entry is that directory, or lies below it |
| `Pull.SkillFoldersHoldSkills` | src/cli/commands/pull.ts:92-123 | every folder the skill search reports lies below its prefix and leads to a directory that holds `SKILL.md` |
| `Pull.SkillFolderOfHoldsSkills` | src/cli/commands/pull.ts:101-116 | the same for the search below one directory entry |
| `Pull.PromptFiles` | src/cli/commands/pull.ts:404-408 | a name is pulled exactly when it passes the `.md` filter and the whitelist and the directory holds it, and as often as the directory holds it |
| `Pull.Disk.WriteFile` | src/cli/commands/pull.ts:436 | a refused write reports false and changes nothing; otherwise exactly that path now holds the text |
| `Pull.CopyDirRecursive` | src/cli/commands/pull.ts:356-377 | the target and the outcome are those of `CopyEntries`: a file is copied iff its destination is absent or overwriting is on, directories are copied recursively, and the first failure abandons the rest |
| `Pull.PullOnePrompt` | src/cli/commands/pull.ts:419-455 | one prompt is one `PullPrompt` step: skip an existing target without overwrite; a failed read or write counts `failed`; else write and count updated/created |
| `Pull.PullOneSkill` | src/cli/commands/pull.ts:479-548 | one skill is one `PullSkill` step: a missing `SKILL.md` fails; skip an existing target without overwrite; else write `SKILL.md`, count it, and copy the skill's other files, ignoring a failure there |
| `Pull.PullPromptFiles` | src/cli/commands/pull.ts:419-455 | the prompts loop equals the fold `PullPrompts` |
| `Pull.PullSkillFolders` | src/cli/commands/pull.ts:479-548 | the skills loop equals the fold `PullSkills` |
| `Pull.PullPromptsCategory` | src/cli/commands/pull.ts:398-458 | an unreadable prompts directory or no whitelisted file pulls nothing; otherwise the whitelisted files are pulled |
| `Pull.PullSkillsCategory` | src/cli/commands/pull.ts:459-549 | the `basic` and `frontend` groups pull their fixed lists; `all` or no group pulls every skill folder found |
| `Pull.PullResources` | src/cli/commands/pull.ts:382-589 | the target tree and counters are those of the fold `PullAll` over the parsed categories, from zero counters |
| `Pull.PullCommand` | src/cli/commands/pull.ts:594-613 | the command pulls what its arguments parse to; with no arguments it pulls prompts only, without overwrite |
| `Pull.CopyEntriesStaysUnder` | src/cli/commands/pull.ts:356-377 | a copy only adds or replaces files, and only below its destination |
| `Pull.CopyEntryStaysUnder` | src/cli/commands/pull.ts:365-375 | the same for one entry |
| `Pull.CopyEntriesKeepsExisting` | src/cli/commands/pull.ts:371-374 | without overwrite, a copy never changes a file that was already there |
| `Pull.CopyEntryKeepsExisting` | src/cli/commands/pull.ts:368-375 | the same for one entry |
| `Pull.CopyWithoutFaultsCompletes` | src/cli/commands/pull.ts:356-377 | a copy of a readable tree into a destination where no write throws runs to the end |
| `Pull.CopyEntryWithoutFaultsCompletes` | src/cli/commands/pull.ts:364-376 | the same for one entry |
| `Pull.PullPromptsCounts` | src/cli/commands/pull.ts:419-455 | each prompt moves exactly one counter |
| `Pull.PullSkillsCounts` | src/cli/commands/pull.ts:479-548 | each skill moves exactly one counter |
| `Pull.PullAllBalanced` | src/cli/commands/pull.ts:392-550 | created+updated+skipped+failed equals the number of items the pull attempted |
| `Pull.PullSkillStaysInResources` | src/cli/commands/pull.ts:479-548 | a skill writes only below `.skills`, and removes nothing |
| `Pull.PullSkillsStayInResources` | src/cli/commands/pull.ts:479-548 | the same for the skills loop |
| `Pull.PullPromptsStayInResources` | src/cli/commands/pull.ts:419-455 | the prompts loop writes only below `.github/prompts`, and removes nothing |
| `Pull.PullAllStaysInResources` | src/cli/commands/pull.ts:397-550 | the whole pull writes only below `.github/prompts` and `.skills` of the target, and removes nothing |
| `Pull.PullSkillKeepsExisting` | src/cli/commands/pull.ts:490-536 | without overwrite, no existing file changes, the skill's extra files included |
| `Pull.PullSkillsKeepsExisting` | src/cli/commands/pull.ts:479-548 | the same for the skills loop |
| `Pull.PullPromptsKeepsExisting` | src/cli/commands/pull.ts:425-433 | without overwrite, the prompts loop changes no existing file |
| `Pull.PullAllKeepsExisting` | src/cli/commands/pull.ts:397-550 | without overwrite, the whole pull changes no file already in the target |
| `Pull.CopyEntriesWritesFile` | src/cli/commands/pull.ts:356-377 | in a readable tree with unique names, copied where no write throws, every file at any depth lands at the same relative path below the destination with its text, unless it was there already and overwriting is off |
| `Pull.CopyEntryWritesFile` | src/cli/commands/pull.ts:364-376 | the same for one entry |
| `Pull.CopyEntriesLeaves` | src/cli/commands/pull.ts:364-376 | a copy changes no path that does not start with the destination and the name of one of the copied entries |
| `Pull.CopyEntryLeaves` | src/cli/commands/pull.ts:365-375 | the same for one entry |
| `Pull.CopyEntriesWritesSource` | src/cli/commands/pull.ts:356-377 | every file a copy writes or changes holds the text of the source file at the same relative path |
| `Pull.CopyEntryWritesSource` | src/cli/commands/pull.ts:364-376 | the same for one entry |
| `Pull.PullSkillWritesSource` | src/cli/commands/pull.ts:479-548 | every file a skill writes or changes holds the package's text at the same path below `.skills`: its `SKILL.md` or one of its other files |
| `Pull.PullSkillsWritesSource` | src/cli/commands/pull.ts:479-548 | the same for the skills loop |
| `Pull.PullPromptsWritesSource` | src/cli/commands/pull.ts:419-455 | every file the prompts loop changes is `.github/prompts/<f>` for a listed `f`, and holds that prompt's text |
| `Pull.PullCategoryWritesSource` | src/cli/commands/pull.ts:398-549 | one category changes a file only to the package's text for its path, and removes nothing |
| `Pull.PullAllWritesSource` | src/cli/commands/pull.ts:397-550 | every file the whole pull changes holds the package's text for its path: a listed prompt, or the file at the same path below the package's `.skills` |
| `Pull.PullPromptsWritesListed` | src/cli/commands/pull.ts:419-455 | a listed prompt that reads, whose write does not throw and whose target was absent (or overwriting is on) holds the package's text after the loop |
| `Pull.PullSkillsWritesListed` | src/cli/commands/pull.ts:479-548 | a processed skill whose folder holds a readable `SKILL.md`, whose write does not throw and whose target was absent (or overwriting is on) has its `SKILL.md` written with the package's text, whatever other skills are pulled with it |
| `Pull.PullAllWritesPrompt` | src/cli/commands/pull.ts:397-550 | the same as `PullPromptsWritesListed` for the whole pull, once the prompts category is among those pulled |
| `Pull.PullAllWritesSkill` | src/cli/commands/pull.ts:397-550 | the same as `PullSkillsWritesListed` for the whole pull, once the skills category is among those pulled |

## Left out

- Console output, ANSI colours, the text of the result messages and the summary joins (`src/storage/sync.ts:202-209`, `src/storage/workflows.ts:283-295`, `src/cli/commands/pull.ts:552-588`) are not modelled. Sync and workflow messages are datatypes naming their case and its data. A workflow error renders to its source wording through `Message()`, but nothing is proved about that text.
- JSON serialisation is not modelled. A stored file is either unparseable or a document of string fields, where a missing string field is written "" and a missing or empty timestamp is `None`. Non-string JSON values and extra fields are not modelled.
- Dates are integers. ISO parsing and unparseable dates (NaN comparisons) are not modelled. A run reads the clock once (`Types.Clock`), although the source calls `new Date()` separately for the timestamp and for `createdAt`.
- Path handling uses POSIX separators only. `path.join` of the memory directory is `Local.JoinPath`. `path.resolve` works on normalised segments (`Workflows.ResolveIn`), and the bundle root is given already resolved. Windows separators are not modelled.
- `readdir` order is not modelled for the memory directory: `Local.ListLocalMemories` returns a set. In the bundle and in the package trees, directory order is the order of the sequence.
- `existsSync` / `fs.access` are true for directories too. The model's stores hold only files, so a directory standing where a file is expected is not modelled.
- `mkdir` never fails in the model: `ensureDirectoryExists`, `ensureDir` and the directory creation inside `copyDirRecursive` always succeed. Only file writes can throw.
- The supabase client (`src/storage/supabase.ts`) is not part of this model. `getProjectBySlug` / `getProjectMemories` are the `Sync.Remote` parameter: one error or a map from slug to records. The cloud save is the `Storage.CloudAnswer` parameter.
- Configuration (`src/config.ts`) is not part of this model: its values are parameters.
- The outer `catch` of `pullWorkflows` (`src/storage/workflows.ts:305-314`) cannot be reached in the model. Listing errors become an empty list, and every read or write fault is caught per file.
- The `"Unknown error"` message for a thrown non-`Error` value in `syncFromCloud` is not modelled. The remote's error is always a string.
- `Workflows.PullWorkflows`: the target tree is the `WorkflowTarget` of the resolved target directory, keyed by (category, filename). The `targetDir` string selects it and is not otherwise interpreted.
- `Pull.PullResources`, `Pull.PullCommand`: the target tree is the `Disk` of the parsed target directory. The parsed `targetDir` selects it and is not otherwise interpreted.
- `Pull.PullOneSkill`: the loop over a skill's other files (`src/cli/commands/pull.ts:521-538`) copies each regular file and recurses into each directory, as `copyDirRecursive` does for those two kinds. The loop uses `fs.stat`, which follows symbolic links, and skips entries of any other kind, whereas `copyDirRecursive` asks the directory entry itself and copies every non-directory. The model's trees hold only regular files and directories, so the two loops agree on them; links and special files are not modelled. It is therefore modelled as one `CopyDirRecursive` over the entries other than `SKILL.md`.
- The skill search (`getAllSkillFolders`) and the copies read the package trees as given. A sub-directory that cannot be read is not modelled; only the prompts and skills roots can be unreadable.
- `listAvailableResources` and `displayResources` (the listing `pullCommand` prints first when it has no arguments) are console output and are not modelled.
- `Sync.SyncTwiceIsIdempotent` holds only for complete cloud records. `Sync.EmptyContentIsCreatedEveryRun` shows why: a record with empty content is written but reads back as absent, so every run creates it again.
- `Sync.FilteredSyncTouchesOnlyFilter`: with duplicate cloud rows, one filename may be written several times in one run (see `Sync.DuplicateDecidedAgainstEarlierWrite`).
- Path normalisation is not modelled. `Local.JoinPath` joins the directory and the filename with one `/`, as written, whereas `path.join` normalises: `path.join("./.memories/data", "a.json")` is `.memories/data/a.json`, the names `./a.json` and `a.json` reach the same file, and `../x` leaves the directory. The store is keyed by the filename as given. `Local.SaveLeavesOthers` and `Sync.ReconcileLeavesKey` treat distinct names as distinct files, so they hold only for names that are already normalised (no `.` or `..` segment, no separator).
- `Pull.CopyEntriesWritesFile`, `Pull.CopyEntriesWritesSource` and the pull-level lemmas built on them assume that every directory holds each name at most once, as a real directory does. The model's `Entry` sequences could repeat a name, and a lookup by name then finds the first.
- `Pull.PullSkillsWritesListed`: states that a skill's `SKILL.md` is written. A skill's other files are covered by `Pull.CopyEntriesWritesFile` for the copy on its own, and by `Pull.PullSkillWritesSource` (whatever is written is the package's text), but that they are all written is not lifted through the skills loop.
