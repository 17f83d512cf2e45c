/**
 * The `pull` command (src/cli/commands/pull.ts): a flag-driven argument parser, and a pull
 * that copies the package's prompt and skill files into a target project with the same
 * skip/create/update/fail accounting as the storage layer, plus a recursive directory copy
 * that copies a file only when its destination is absent or overwriting is on.
 */
module Pull {
  import opened Types

  /** A path as its segments, relative to the directory it is resolved against. */
  type Path = seq<string>

  datatype Category = Prompts | Skills

  datatype SkillGroup = AllSkills | Basic | Frontend

  /** `PullOptions`; `skillGroup` is `None` while no group has been chosen. */
  datatype PullOptions = PullOptions(
    targetDir: string,
    overwrite: bool,
    categories: seq<Category>,
    skillGroup: Option<SkillGroup>)

  /** `SKILL_GROUPS.basic` and `SKILL_GROUPS.frontend`, as paths below the skills directory. */
  const BasicSkills: seq<Path> := [["brainstorming"], ["executing-plans"], ["writing-plan"]]
  const FrontendSkills: seq<Path> := [["front-end", "react-best-practices"], ["front-end", "web-design-guidelines"]]

  const PromptsWhitelist: seq<string> := ["save-memory.prompt.md"]
  /** Where each category lands in the target project. */
  const PromptsTarget: Path := [".github", "prompts"]
  const SkillsTarget: Path := [".skills"]
  const SkillFile: string := "SKILL.md"

  // ---------------------------------------------------------------------------------------
  // Argument parsing

  /** The parser's state: the options so far and whether a skills flag has been seen. */
  datatype ParseState = ParseState(options: PullOptions, hasSkillsFlag: bool)

  /** The defaults: the current directory, no overwrite, prompts only, no skill group. */
  function Initial(cwd: string): ParseState
  {
    ParseState(PullOptions(cwd, false, [Prompts], None), false)
  }

  predicate IsAll(arg: string) { arg == "--all" || arg == "-a" }
  predicate IsPrompts(arg: string) { arg == "--prompts" || arg == "-p" }
  predicate IsSkills(arg: string) { arg == "--skills" || arg == "-s" }
  predicate IsTarget(arg: string) { arg == "--target" || arg == "-t" }
  predicate IsOverwrite(arg: string) { arg == "--overwrite" || arg == "-o" }

  predicate IsKnownFlag(arg: string)
  {
    IsAll(arg) || IsPrompts(arg) || IsSkills(arg) || arg == "--basic" || arg == "--frontend" ||
    IsTarget(arg) || IsOverwrite(arg)
  }

  /** `args[i] || cwd`: the argument at `i` when there is one and it is non-empty. */
  function ArgOr(args: seq<string>, i: nat, cwd: string): string
  {
    if i < |args| && args[i] != "" then args[i] else cwd
  }

  /** One turn of the parsing loop at index `i`: the new state and the next index. */
  function Step(args: seq<string>, i: nat, st: ParseState, cwd: string): (ParseState, nat)
    requires i < |args|
  {
    var o := st.options;
    var arg := args[i];
    if IsAll(arg) then
      if st.hasSkillsFlag then (st.(options := o.(skillGroup := Some(AllSkills))), i + 1)
      else (st.(options := o.(categories := [Prompts, Skills], skillGroup := Some(AllSkills))), i + 1)
    else if IsPrompts(arg) then (st.(options := o.(categories := [Prompts])), i + 1)
    else if IsSkills(arg) then
      (ParseState(o.(categories := [Skills], skillGroup := if o.skillGroup.None? then Some(AllSkills) else o.skillGroup),
                  true), i + 1)
    else if arg == "--basic" then (st.(options := o.(categories := [Skills], skillGroup := Some(Basic))), i + 1)
    else if arg == "--frontend" then (st.(options := o.(categories := [Skills], skillGroup := Some(Frontend))), i + 1)
    else if IsTarget(arg) then (st.(options := o.(targetDir := ArgOr(args, i + 1, cwd))), i + 2)
    else if IsOverwrite(arg) then (st.(options := o.(overwrite := true)), i + 1)
    else (st, i + 1)
  }

  /** What each argument does to the parser's state. */
  lemma StepEffects(args: seq<string>, i: nat, st: ParseState, cwd: string)
    requires i < |args|
    ensures var next := Step(args, i, st, cwd);
      && (next.1 == if IsTarget(args[i]) then i + 2 else i + 1)
      && (next.0.options.targetDir == if IsTarget(args[i]) then ArgOr(args, i + 1, cwd) else st.options.targetDir)
      && (next.0.options.overwrite == (st.options.overwrite || IsOverwrite(args[i])))
      && (next.0.hasSkillsFlag == (st.hasSkillsFlag || IsSkills(args[i])))
      && (IsSkills(args[i]) ==>
        && next.0.options.categories == [Skills]
        && next.0.options.skillGroup == (if st.options.skillGroup.Some? then st.options.skillGroup else Some(AllSkills)))
      && (IsAll(args[i]) ==>
        && next.0.options.skillGroup == Some(AllSkills)
        && next.0.options.categories == (if st.hasSkillsFlag then st.options.categories else [Prompts, Skills]))
      && (IsPrompts(args[i]) ==>
        next.0.options.categories == [Prompts] && next.0.options.skillGroup == st.options.skillGroup)
      && (args[i] == "--basic" ==> next.0.options.categories == [Skills] && next.0.options.skillGroup == Some(Basic))
      && (args[i] == "--frontend" ==> next.0.options.categories == [Skills] && next.0.options.skillGroup == Some(Frontend))
      && (!IsKnownFlag(args[i]) ==> next.0 == st)
  {
  }

  /** The parsing loop from index `i` on. */
  function ParseFrom(args: seq<string>, i: nat, st: ParseState, cwd: string): ParseState
    decreases |args| - i
  {
    if i >= |args| then st
    else
      var next := Step(args, i, st, cwd);
      ParseFrom(args, next.1, next.0, cwd)
  }

  /** `parseArgs`, with `cwd` standing for `process.cwd()`. */
  method ParseArgs(args: seq<string>, cwd: string) returns (options: PullOptions)
    ensures options == ParseFrom(args, 0, Initial(cwd), cwd).options
    ensures args == [] ==> options == PullOptions(cwd, false, [Prompts], None)
  {
    options := PullOptions(cwd, false, [Prompts], None);
    var hasSkillsFlag := false;
    var i: nat := 0;
    while i < |args|
      invariant ParseFrom(args, i, ParseState(options, hasSkillsFlag), cwd) == ParseFrom(args, 0, Initial(cwd), cwd)
      decreases |args| - i
    {
      var arg := args[i];
      if arg == "--all" || arg == "-a" {
        if hasSkillsFlag {
          options := options.(skillGroup := Some(AllSkills));
        } else {
          options := options.(categories := [Prompts, Skills], skillGroup := Some(AllSkills));
        }
      } else if arg == "--prompts" || arg == "-p" {
        options := options.(categories := [Prompts]);
      } else if arg == "--skills" || arg == "-s" {
        hasSkillsFlag := true;
        options := options.(categories := [Skills]);
        if options.skillGroup.None? {
          options := options.(skillGroup := Some(AllSkills));
        }
      } else if arg == "--basic" {
        options := options.(categories := [Skills], skillGroup := Some(Basic));
      } else if arg == "--frontend" {
        options := options.(categories := [Skills], skillGroup := Some(Frontend));
      } else if arg == "--target" || arg == "-t" {
        i := i + 1;
        options := options.(targetDir := if i < |args| && args[i] != "" then args[i] else cwd);
      } else if arg == "--overwrite" || arg == "-o" {
        options := options.(overwrite := true);
      }
      i := i + 1;
    }
  }

  /** Parsing depends only on the arguments from the current index on. */
  lemma {:induction false} ParseFromShift(pre: seq<string>, args: seq<string>, i: nat, st: ParseState, cwd: string)
    ensures ParseFrom(pre + args, |pre| + i, st, cwd) == ParseFrom(args, i, st, cwd)
    decreases |args| - i
  {
    if i < |args| {
      assert (pre + args)[|pre| + i] == args[i];
      assert ArgOr(pre + args, |pre| + i + 1, cwd) == ArgOr(args, i + 1, cwd);
      var next := Step(args, i, st, cwd);
      assert Step(pre + args, |pre| + i, st, cwd) == (next.0, |pre| + next.1);
      ParseFromShift(pre, args, next.1, next.0, cwd);
    }
  }

  /** An argument that is not a known flag is ignored. */
  lemma UnknownArgumentIgnored(arg: string, args: seq<string>, st: ParseState, cwd: string)
    requires !IsKnownFlag(arg)
    ensures ParseFrom([arg] + args, 0, st, cwd) == ParseFrom(args, 0, st, cwd)
  {
    ParseFromShift([arg], args, 0, st, cwd);
  }

  /** Without a --target flag the target directory stays what it was. */
  lemma {:induction false} TargetNeedsFlag(args: seq<string>, i: nat, st: ParseState, cwd: string)
    requires forall k :: i <= k < |args| ==> !IsTarget(args[k])
    ensures ParseFrom(args, i, st, cwd).options.targetDir == st.options.targetDir
    decreases |args| - i
  {
    if i < |args| {
      var next := Step(args, i, st, cwd);
      TargetNeedsFlag(args, next.1, next.0, cwd);
    }
  }

  /** Without an --overwrite flag nothing is overwritten. */
  lemma {:induction false} OverwriteNeedsFlag(args: seq<string>, i: nat, st: ParseState, cwd: string)
    requires forall k :: i <= k < |args| ==> !IsOverwrite(args[k])
    ensures ParseFrom(args, i, st, cwd).options.overwrite == st.options.overwrite
    decreases |args| - i
  {
    if i < |args| {
      var next := Step(args, i, st, cwd);
      OverwriteNeedsFlag(args, next.1, next.0, cwd);
    }
  }

  /** The categories are prompts, skills or both, and skills always come with a group. */
  ghost predicate WellFormed(st: ParseState)
  {
    var o := st.options;
    (o.categories == [Prompts] || o.categories == [Skills] || o.categories == [Prompts, Skills]) &&
    (Skills in o.categories ==> o.skillGroup.Some?)
  }

  lemma {:induction false} ParseKeepsWellFormed(args: seq<string>, i: nat, st: ParseState, cwd: string)
    requires WellFormed(st)
    ensures WellFormed(ParseFrom(args, i, st, cwd))
    decreases |args| - i
  {
    if i < |args| {
      var next := Step(args, i, st, cwd);
      ParseKeepsWellFormed(args, next.1, next.0, cwd);
    }
  }

  /** Whatever the arguments, the parsed categories are never empty and skills carry a group. */
  lemma ParsedOptionsWellFormed(args: seq<string>, cwd: string)
    ensures WellFormed(ParseFrom(args, 0, Initial(cwd), cwd))
  {
    ParseKeepsWellFormed(args, 0, Initial(cwd), cwd);
  }

  /** --target swallows the argument after it, even a flag; at the very end it falls back to cwd. */
  lemma TargetSwallowsNextArgument(cwd: string)
    ensures ParseFrom(["-t", "-o"], 0, Initial(cwd), cwd).options == PullOptions("-o", false, [Prompts], None)
    ensures ParseFrom(["-o", "-t"], 0, Initial(cwd), cwd).options == PullOptions(cwd, true, [Prompts], None)
  {
    var s1 := Step(["-t", "-o"], 0, Initial(cwd), cwd);
    assert s1.1 == 2;
    var s2 := Step(["-o", "-t"], 0, Initial(cwd), cwd);
    var s3 := Step(["-o", "-t"], 1, s2.0, cwd);
    assert s3.1 == 3;
  }

  /**
   * The order of the skills flags: `--skills` keeps a group chosen earlier, `--all` after
   * `--skills` pulls skills only, and `--all` alone pulls both categories.
   */
  lemma SkillFlagsInteract(cwd: string)
    ensures ParseFrom(["--frontend", "-s"], 0, Initial(cwd), cwd).options.skillGroup == Some(Frontend)
    ensures ParseFrom(["-s", "-a"], 0, Initial(cwd), cwd).options.categories == [Skills]
    ensures ParseFrom(["-a"], 0, Initial(cwd), cwd).options.categories == [Prompts, Skills]
  {
    var a := Step(["--frontend", "-s"], 0, Initial(cwd), cwd);
    var b := Step(["--frontend", "-s"], 1, a.0, cwd);
    var c := Step(["-s", "-a"], 0, Initial(cwd), cwd);
    var d := Step(["-s", "-a"], 1, c.0, cwd);
    var e := Step(["-a"], 0, Initial(cwd), cwd);
  }

  // ---------------------------------------------------------------------------------------
  // The package's resource trees

  /** A directory entry: a file with what reading it gives, or a sub-directory. */
  datatype Entry =
    | FileEntry(name: string, text: Result<string>)
    | DirEntry(name: string, children: seq<Entry>)

  /** The first entry called `name`. */
  function Child(entries: seq<Entry>, name: string): (r: Option<Entry>)
    ensures r.Some? ==> r.value in entries && r.value.name == name
    ensures r.None? ==> forall e :: e in entries ==> e.name != name
  {
    if entries == [] then None
    else if entries[0].name == name then Some(entries[0])
    else Child(entries[1..], name)
  }

  /** `fs.access`: some entry is called `name`. */
  predicate HasEntry(entries: seq<Entry>, name: string)
  {
    Child(entries, name).Some?
  }

  /** `fs.readFile` of `name`: the file's text; a directory or a missing name fails. */
  function ReadEntry(entries: seq<Entry>, name: string): (r: Result<string>)
    ensures r.Ok? <==> Child(entries, name).Some? && Child(entries, name).value.FileEntry? &&
                       Child(entries, name).value.text.Ok?
  {
    match Child(entries, name)
    case None => Err("ENOENT: no such file or directory")
    case Some(FileEntry(_, text)) => text
    case Some(DirEntry(_, _)) => Err("EISDIR: illegal operation on a directory, read")
  }

  /** The entries of the directory at `path`, when it names one. */
  function FindDir(entries: seq<Entry>, path: Path): Option<seq<Entry>>
    decreases |path|
  {
    if path == [] then Some(entries)
    else
      match Child(entries, path[0])
      case Some(DirEntry(_, children)) => FindDir(children, path[1..])
      case _ => None
  }

  /** `entries` without those called `name`. */
  function Without(entries: seq<Entry>, name: string): (r: seq<Entry>)
    ensures forall e :: e in r <==> e in entries && e.name != name
  {
    if entries == [] then []
    else (if entries[0].name == name then [] else [entries[0]]) + Without(entries[1..], name)
  }

  /**
   * `getAllSkillFolders`: every directory holding a `SKILL.md`, found depth first; the
   * search does not descend into a skill folder.
   */
  function SkillFolders(entries: seq<Entry>, prefix: Path): (found: seq<Path>)
    ensures forall k :: 0 <= k < |found| ==> |found[k]| > |prefix| && found[k][..|prefix|] == prefix
    decreases entries
  {
    if entries == [] then [] else SkillFoldersOf(entries[0], prefix) + SkillFolders(entries[1..], prefix)
  }

  /** The folders found in one entry: itself when it holds a `SKILL.md`, else its sub-folders'. */
  function SkillFoldersOf(e: Entry, prefix: Path): (found: seq<Path>)
    ensures forall k :: 0 <= k < |found| ==> e.DirEntry? && |found[k]| > |prefix| && found[k][..|prefix| + 1] == prefix + [e.name]
    decreases e
  {
    match e
    case FileEntry(_, _) => []
    case DirEntry(name, children) =>
      if HasEntry(children, SkillFile) then [prefix + [name]]
      else
        var inner := SkillFolders(children, prefix + [name]);
        assert forall k :: 0 <= k < |inner| ==> inner[k][..|prefix| + 1] == prefix + [name];
        inner
  }

  /** Names are unique within every directory of the tree. */
  ghost predicate UniqueNames(entries: seq<Entry>)
    decreases entries
  {
    (forall i, j :: 0 <= i < j < |entries| ==> entries[i].name != entries[j].name) &&
    (forall k :: 0 <= k < |entries| ==> UniqueNamesOf(entries[k]))
  }

  ghost predicate UniqueNamesOf(e: Entry)
    decreases e
  {
    match e
    case FileEntry(_, _) => true
    case DirEntry(_, children) => UniqueNames(children)
  }

  /** In a directory of unique names, the entry at any index is the one found by its name. */
  lemma {:induction false} ChildOfUnique(entries: seq<Entry>, k: nat)
    requires k < |entries|
    requires forall i, j :: 0 <= i < j < |entries| ==> entries[i].name != entries[j].name
    ensures Child(entries, entries[k].name) == Some(entries[k])
  {
    if k > 0 {
      ChildOfUnique(entries[1..], k - 1);
    }
  }

  /**
   * Every folder the search reports lies below `prefix`, and the rest of its path leads to a
   * directory that holds a `SKILL.md`.
   */
  lemma {:induction false} SkillFoldersHoldSkills(entries: seq<Entry>, prefix: Path, p: Path)
    requires UniqueNames(entries)
    requires p in SkillFolders(entries, prefix)
    ensures |p| > |prefix| && p[..|prefix|] == prefix
    ensures var dir := FindDir(entries, p[|prefix|..]); dir.Some? && HasEntry(dir.value, SkillFile)
    decreases entries
  {
    var first := SkillFoldersOf(entries[0], prefix);
    if p in first {
      ChildOfUnique(entries, 0);
      assert UniqueNamesOf(entries[0]);
      SkillFolderOfHoldsSkills(entries[0], prefix, p);
    } else {
      var rest := entries[1..];
      assert forall k :: 0 <= k < |rest| ==> rest[k] == entries[k + 1];
      SkillFoldersHoldSkills(rest, prefix, p);
      var q := p[|prefix|..];
      var k :| 0 <= k < |rest| && rest[k].name == q[0] by {
        assert Child(rest, q[0]).Some?;
        var e := Child(rest, q[0]).value;
        var k :| 0 <= k < |rest| && rest[k] == e;
      }
      ChildOfUnique(entries, k + 1);
      ChildOfUnique(rest, k);
    }
  }

  lemma {:induction false} SkillFolderOfHoldsSkills(e: Entry, prefix: Path, p: Path)
    requires UniqueNamesOf(e)
    requires p in SkillFoldersOf(e, prefix)
    ensures e.DirEntry? && |p| > |prefix| && p[..|prefix|] == prefix && p[|prefix|] == e.name
    ensures var dir := FindDir(e.children, p[|prefix| + 1..]); dir.Some? && HasEntry(dir.value, SkillFile)
    decreases e
  {
    var children := e.children;
    var inner := prefix + [e.name];
    if HasEntry(children, SkillFile) {
      assert p == inner;
      assert p[|prefix| + 1..] == [];
    } else {
      SkillFoldersHoldSkills(children, inner, p);
      assert p[..|inner|] == inner;
      assert p[|inner|..] == p[|prefix| + 1..];
    }
  }

  // ---------------------------------------------------------------------------------------
  // The pull, as a specification

  /** The four counters `pullResources` keeps. */
  datatype Tally = Tally(created: nat, updated: nat, skipped: nat, failed: nat)
  {
    function Sum(): nat { created + updated + skipped + failed }
  }

  /** The target project's files, by path below the target directory, and the counters. */
  datatype PullState = PullState(files: map<Path, string>, tally: Tally)

  /** The package's `.github/prompts` and `.skills` directories; `None` when one cannot be read. */
  datatype Sources = Sources(prompts: Option<seq<Entry>>, skills: Option<seq<Entry>>)

  /** What one pull holds fixed; `refuses` are the target paths whose write throws. */
  datatype PullEnv = PullEnv(overwrite: bool, skillGroup: Option<SkillGroup>, sources: Sources, refuses: set<Path>)

  /** A copy's result: the files afterwards and whether it ran to the end without throwing. */
  datatype Copied = Copied(files: map<Path, string>, ok: bool)

  /**
   * `copyDirRecursive`'s loop: copy each file whose destination is absent, or every file
   * when overwriting, and recurse into directories; the first read or write that throws
   * abandons the rest.
   */
  function CopyEntries(files: map<Path, string>, entries: seq<Entry>, dest: Path, overwrite: bool, refuses: set<Path>)
    : Copied
    decreases entries
  {
    if entries == [] then Copied(files, true)
    else
      var first := CopyEntry(files, entries[0], dest, overwrite, refuses);
      if !first.ok then first else CopyEntries(first.files, entries[1..], dest, overwrite, refuses)
  }

  function CopyEntry(files: map<Path, string>, e: Entry, dest: Path, overwrite: bool, refuses: set<Path>): Copied
    decreases e
  {
    match e
    case DirEntry(name, children) => CopyEntries(files, children, dest + [name], overwrite, refuses)
    case FileEntry(name, text) =>
      var p := dest + [name];
      if p in files && !overwrite then Copied(files, true)
      else if text.Err? || p in refuses then Copied(files, false)
      else Copied(files[p := text.value], true)
  }

  /** The entries' names, in directory order. */
  function Names(entries: seq<Entry>): (names: seq<string>)
    ensures |names| == |entries| && forall k :: 0 <= k < |entries| ==> names[k] == entries[k].name
  {
    seq(|entries|, k requires 0 <= k < |entries| => entries[k].name)
  }

  /** The `.md` filter and `PROMPTS_WHITELIST` together. */
  predicate IsPromptFile(name: string)
  {
    (EndsWith(name, ".md") || EndsWith(name, ".prompt.md")) && name in PromptsWhitelist
  }

  /**
   * The directory's entries after the `.md` filter and `PROMPTS_WHITELIST`, in directory
   * order: a name is listed exactly when it passes both and the directory holds it.
   */
  function PromptFiles(entries: seq<Entry>): (files: seq<string>)
    ensures forall f :: f in files <==> IsPromptFile(f) && exists e :: e in entries && e.name == f
    ensures |files| <= |entries|
  {
    if entries == [] then []
    else
      assert forall e :: e in entries <==> e == entries[0] || e in entries[1..];
      var name := entries[0].name;
      (if IsPromptFile(name) then [name] else []) + PromptFiles(entries[1..])
  }

  /** A name passing both filters is listed exactly as often as the directory holds it; no other name is. */
  lemma {:induction false} PromptFilesCounts(entries: seq<Entry>, f: string)
    ensures multiset(PromptFiles(entries))[f] == if IsPromptFile(f) then multiset(Names(entries))[f] else 0
  {
    if entries != [] {
      var name := entries[0].name;
      PromptFilesCounts(entries[1..], f);
      assert Names(entries) == [name] + Names(entries[1..]);
      assert PromptFiles(entries) == (if IsPromptFile(name) then [name] else []) + PromptFiles(entries[1..]);
    }
  }

  /** The skills to process: every skill found for no group or `all`, else the group's list. */
  function SkillsToProcess(env: PullEnv): seq<Path>
  {
    match env.skillGroup
    case Some(Basic) => BasicSkills
    case Some(Frontend) => FrontendSkills
    case _ => if env.sources.skills.Some? then SkillFolders(env.sources.skills.value, []) else []
  }

  function Skip(s: PullState): PullState
  {
    s.(tally := s.tally.(skipped := s.tally.skipped + 1))
  }

  function Fail(s: PullState): PullState
  {
    s.(tally := s.tally.(failed := s.tally.failed + 1))
  }

  /** One successful write: `updated` when the target existed, `created` otherwise. */
  function Count(t: Tally, existed: bool): Tally
  {
    if existed then t.(updated := t.updated + 1) else t.(created := t.created + 1)
  }

  /** One prompt file: skip an existing target unless overwriting, else read and write it. */
  function PullPrompt(s: PullState, env: PullEnv, source: seq<Entry>, file: string): PullState
  {
    var target := PromptsTarget + [file];
    var existed := target in s.files;
    if existed && !env.overwrite then Skip(s)
    else
      match ReadEntry(source, file)
      case Err(_) => Fail(s)
      case Ok(text) => if target in env.refuses then Fail(s) else PullState(s.files[target := text], Count(s.tally, existed))
  }

  function PullPrompts(s: PullState, env: PullEnv, source: seq<Entry>, files: seq<string>): PullState
    decreases |files|
  {
    if files == [] then s
    else PullPrompt(PullPrompts(s, env, source, files[..|files| - 1]), env, source, files[|files| - 1])
  }

  /** The skill directory at `skillPath` in the package, when there is one. */
  function SkillDir(skills: Option<seq<Entry>>, skillPath: Path): Option<seq<Entry>>
  {
    if skills.None? then None else FindDir(skills.value, skillPath)
  }

  /**
   * One skill: a missing `SKILL.md` fails; an existing target is skipped unless overwriting;
   * otherwise `SKILL.md` is written and counted, and the skill's other files are then copied
   * with any error in that copy ignored.
   */
  function PullSkill(s: PullState, env: PullEnv, skillPath: Path): PullState
  {
    match SkillDir(env.sources.skills, skillPath)
    case None => Fail(s)
    case Some(source) =>
      if !HasEntry(source, SkillFile) then Fail(s)
      else
        var targetDir := SkillsTarget + skillPath;
        var target := targetDir + [SkillFile];
        var existed := target in s.files;
        if existed && !env.overwrite then Skip(s)
        else
          match ReadEntry(source, SkillFile)
          case Err(_) => Fail(s)
          case Ok(text) =>
            if target in env.refuses then Fail(s)
            else
              var extras := CopyEntries(s.files[target := text], Without(source, SkillFile), targetDir,
                                        env.overwrite, env.refuses);
              PullState(extras.files, Count(s.tally, existed))
  }

  function PullSkills(s: PullState, env: PullEnv, skills: seq<Path>): PullState
    decreases |skills|
  {
    if skills == [] then s
    else PullSkill(PullSkills(s, env, skills[..|skills| - 1]), env, skills[|skills| - 1])
  }

  /** One category; an unreadable prompts directory or an empty list pulls nothing. */
  function PullCategory(s: PullState, env: PullEnv, category: Category): PullState
  {
    match category
    case Prompts =>
      if env.sources.prompts.None? then s
      else PullPrompts(s, env, env.sources.prompts.value, PromptFiles(env.sources.prompts.value))
    case Skills => PullSkills(s, env, SkillsToProcess(env))
  }

  function PullAll(s: PullState, env: PullEnv, categories: seq<Category>): PullState
    decreases |categories|
  {
    if categories == [] then s
    else PullCategory(PullAll(s, env, categories[..|categories| - 1]), env, categories[|categories| - 1])
  }

  /** How many items a category attempts. */
  function Attempted(env: PullEnv, category: Category): nat
  {
    match category
    case Prompts => if env.sources.prompts.None? then 0 else |PromptFiles(env.sources.prompts.value)|
    case Skills => |SkillsToProcess(env)|
  }

  function AttemptedAll(env: PullEnv, categories: seq<Category>): nat
    decreases |categories|
  {
    if categories == [] then 0
    else AttemptedAll(env, categories[..|categories| - 1]) + Attempted(env, categories[|categories| - 1])
  }

  // ---------------------------------------------------------------------------------------
  // The pull, as code

  /** The target project's file tree. */
  class Disk {
    /** Paths whose write throws. */
    const refuses: set<Path>
    var files: map<Path, string>

    constructor (refuses: set<Path>, files: map<Path, string>)
      ensures this.refuses == refuses && this.files == files
    {
      this.refuses := refuses;
      this.files := files;
    }

    /** `fs.writeFile` / `fs.copyFile` into `p`: false when the write throws. */
    method WriteFile(p: Path, text: string) returns (ok: bool)
      modifies this`files
      ensures ok == (p !in refuses)
      ensures files == if ok then old(files)[p := text] else old(files)
    {
      if p in refuses {
        return false;
      }
      files := files[p := text];
      ok := true;
    }
  }

  /** `copyDirRecursive` over the entries of the source directory; false when it throws. */
  method CopyDirRecursive(disk: Disk, entries: seq<Entry>, dest: Path, overwrite: bool) returns (ok: bool)
    modifies disk`files
    ensures var c := CopyEntries(old(disk.files), entries, dest, overwrite, disk.refuses);
      disk.files == c.files && ok == c.ok
    decreases entries
  {
    var i := 0;
    while i < |entries|
      invariant 0 <= i <= |entries|
      invariant CopyEntries(disk.files, entries[i..], dest, overwrite, disk.refuses) ==
                CopyEntries(old(disk.files), entries, dest, overwrite, disk.refuses)
    {
      assert entries[i..][1..] == entries[i + 1..];
      match entries[i] {
        case DirEntry(name, children) =>
          var sub := CopyDirRecursive(disk, children, dest + [name], overwrite);
          if !sub {
            return false;
          }
        case FileEntry(name, text) =>
          var destPath := dest + [name];
          var present := destPath in disk.files;
          if !present || overwrite {
            if text.Err? {
              return false;
            }
            var written := disk.WriteFile(destPath, text.value);
            if !written {
              return false;
            }
          }
      }
      i := i + 1;
    }
    return true;
  }

  /** The body of the prompts loop. */
  method PullOnePrompt(disk: Disk, overwrite: bool, source: seq<Entry>, file: string, tally0: Tally, ghost env: PullEnv)
    returns (tally: Tally)
    requires env.overwrite == overwrite && env.refuses == disk.refuses
    modifies disk`files
    ensures PullState(disk.files, tally) == PullPrompt(PullState(old(disk.files), tally0), env, source, file)
  {
    tally := tally0;
    var target := PromptsTarget + [file];
    var existed := target in disk.files;
    if existed && !overwrite {
      tally := tally.(skipped := tally.skipped + 1);
      return;
    }
    var content := ReadEntry(source, file);
    if content.Err? {
      tally := tally.(failed := tally.failed + 1);
      return;
    }
    var written := disk.WriteFile(target, content.value);
    if !written {
      tally := tally.(failed := tally.failed + 1);
      return;
    }
    if existed {
      tally := tally.(updated := tally.updated + 1);
    } else {
      tally := tally.(created := tally.created + 1);
    }
  }

  /** The body of the skills loop. */
  method PullOneSkill(disk: Disk, overwrite: bool, skills: Option<seq<Entry>>, skillPath: Path, tally0: Tally,
                      ghost env: PullEnv)
    returns (tally: Tally)
    requires env.overwrite == overwrite && env.refuses == disk.refuses && env.sources.skills == skills
    modifies disk`files
    ensures PullState(disk.files, tally) == PullSkill(PullState(old(disk.files), tally0), env, skillPath)
  {
    tally := tally0;
    var sourceDir := SkillDir(skills, skillPath);
    if sourceDir.None? || !HasEntry(sourceDir.value, SkillFile) {
      tally := tally.(failed := tally.failed + 1);
      return;
    }
    var targetDir := SkillsTarget + skillPath;
    var target := targetDir + [SkillFile];
    var existed := target in disk.files;
    if existed && !overwrite {
      tally := tally.(skipped := tally.skipped + 1);
      return;
    }
    var content := ReadEntry(sourceDir.value, SkillFile);
    if content.Err? {
      tally := tally.(failed := tally.failed + 1);
      return;
    }
    var written := disk.WriteFile(target, content.value);
    if !written {
      tally := tally.(failed := tally.failed + 1);
      return;
    }
    if existed {
      tally := tally.(updated := tally.updated + 1);
    } else {
      tally := tally.(created := tally.created + 1);
    }
    // the skill's other files; a failure here is ignored
    var _ := CopyDirRecursive(disk, Without(sourceDir.value, SkillFile), targetDir, overwrite);
  }

  /** The prompts loop over the whitelisted files. */
  method PullPromptFiles(disk: Disk, overwrite: bool, source: seq<Entry>, files: seq<string>, tally0: Tally,
                         ghost env: PullEnv)
    returns (tally: Tally)
    requires env.overwrite == overwrite && env.refuses == disk.refuses
    modifies disk`files
    ensures PullState(disk.files, tally) == PullPrompts(PullState(old(disk.files), tally0), env, source, files)
  {
    tally := tally0;
    ghost var start := PullState(disk.files, tally);
    var i := 0;
    while i < |files|
      invariant 0 <= i <= |files|
      invariant PullState(disk.files, tally) == PullPrompts(start, env, source, files[..i])
    {
      tally := PullOnePrompt(disk, overwrite, source, files[i], tally, env);
      assert files[..i + 1][..i] == files[..i];
      i := i + 1;
    }
    assert files[..|files|] == files;
  }

  /** The skills loop over the skills to process. */
  method PullSkillFolders(disk: Disk, overwrite: bool, skills: Option<seq<Entry>>, toProcess: seq<Path>, tally0: Tally,
                          ghost env: PullEnv)
    returns (tally: Tally)
    requires env.overwrite == overwrite && env.refuses == disk.refuses && env.sources.skills == skills
    modifies disk`files
    ensures PullState(disk.files, tally) == PullSkills(PullState(old(disk.files), tally0), env, toProcess)
  {
    tally := tally0;
    ghost var start := PullState(disk.files, tally);
    var i := 0;
    while i < |toProcess|
      invariant 0 <= i <= |toProcess|
      invariant PullState(disk.files, tally) == PullSkills(start, env, toProcess[..i])
    {
      tally := PullOneSkill(disk, overwrite, skills, toProcess[i], tally, env);
      assert toProcess[..i + 1][..i] == toProcess[..i];
      i := i + 1;
    }
    assert toProcess[..|toProcess|] == toProcess;
  }

  /** The prompts category: the whitelisted `.md` files, when the directory can be read. */
  method PullPromptsCategory(disk: Disk, options: PullOptions, sources: Sources, tally0: Tally, ghost env: PullEnv)
    returns (tally: Tally)
    requires env == PullEnv(options.overwrite, options.skillGroup, sources, disk.refuses)
    modifies disk`files
    ensures PullState(disk.files, tally) == PullCategory(PullState(old(disk.files), tally0), env, Prompts)
  {
    tally := tally0;
    if sources.prompts.Some? {
      var files := PromptFiles(sources.prompts.value);
      if |files| > 0 {
        tally := PullPromptFiles(disk, options.overwrite, sources.prompts.value, files, tally, env);
      }
    }
  }

  /** The skills category: the group's skills, or every skill found. */
  method PullSkillsCategory(disk: Disk, options: PullOptions, sources: Sources, tally0: Tally, ghost env: PullEnv)
    returns (tally: Tally)
    requires env == PullEnv(options.overwrite, options.skillGroup, sources, disk.refuses)
    modifies disk`files
    ensures PullState(disk.files, tally) == PullCategory(PullState(old(disk.files), tally0), env, Skills)
  {
    tally := tally0;
    var toProcess: seq<Path>;
    if options.skillGroup == Some(Basic) {
      toProcess := BasicSkills;
    } else if options.skillGroup == Some(Frontend) {
      toProcess := FrontendSkills;
    } else if sources.skills.Some? {
      toProcess := SkillFolders(sources.skills.value, []);
    } else {
      toProcess := [];
    }
    assert toProcess == SkillsToProcess(env);
    if |toProcess| > 0 {
      tally := PullSkillFolders(disk, options.overwrite, sources.skills, toProcess, tally, env);
    } else {
      assert PullSkills(PullState(disk.files, tally), env, toProcess) == PullState(disk.files, tally);
    }
  }

  /**
   * `pullResources` on the target directory's tree. Returns the counters its summary prints;
   * `sources` is the package's content.
   */
  method PullResources(disk: Disk, options: PullOptions, sources: Sources) returns (tally: Tally)
    modifies disk`files
    ensures var env := PullEnv(options.overwrite, options.skillGroup, sources, disk.refuses);
      PullState(disk.files, tally) == PullAll(PullState(old(disk.files), Tally(0, 0, 0, 0)), env, options.categories)
  {
    ghost var env := PullEnv(options.overwrite, options.skillGroup, sources, disk.refuses);
    ghost var start := PullState(disk.files, Tally(0, 0, 0, 0));
    tally := Tally(0, 0, 0, 0);
    var i := 0;
    while i < |options.categories|
      invariant 0 <= i <= |options.categories|
      invariant PullState(disk.files, tally) == PullAll(start, env, options.categories[..i])
    {
      assert options.categories[..i + 1][..i] == options.categories[..i];
      if options.categories[i] == Prompts {
        tally := PullPromptsCategory(disk, options, sources, tally, env);
      } else {
        tally := PullSkillsCategory(disk, options, sources, tally, env);
      }
      i := i + 1;
    }
    assert options.categories[..|options.categories|] == options.categories;
  }

  /**
   * `pullCommand`: parse the arguments and pull; with no arguments the defaults (prompts
   * only) are pulled after the resource listing is shown. `disk` is the tree of the parsed
   * target directory.
   */
  method PullCommand(disk: Disk, args: seq<string>, cwd: string, sources: Sources) returns (tally: Tally)
    modifies disk`files
    ensures var options := ParseFrom(args, 0, Initial(cwd), cwd).options;
      var env := PullEnv(options.overwrite, options.skillGroup, sources, disk.refuses);
      PullState(disk.files, tally) == PullAll(PullState(old(disk.files), Tally(0, 0, 0, 0)), env, options.categories)
    ensures args == [] ==>
      PullState(disk.files, tally) ==
        PullAll(PullState(old(disk.files), Tally(0, 0, 0, 0)), PullEnv(false, None, sources, disk.refuses), [Prompts])
  {
    var options: PullOptions;
    if |args| == 0 {
      options := ParseArgs([], cwd);
    } else {
      options := ParseArgs(args, cwd);
    }
    tally := PullResources(disk, options, sources);
  }

  // ---------------------------------------------------------------------------------------
  // Properties

  /** A copy only adds or replaces files, and only below its destination. */
  lemma {:induction false} CopyEntriesStaysUnder(files: map<Path, string>, entries: seq<Entry>, dest: Path,
                                                 overwrite: bool, refuses: set<Path>, p: Path)
    ensures var c := CopyEntries(files, entries, dest, overwrite, refuses).files;
      && (p in files ==> p in c)
      && (p in c && (p !in files || c[p] != files[p]) ==> |p| > |dest| && p[..|dest|] == dest)
    decreases entries
  {
    if entries != [] {
      CopyEntryStaysUnder(files, entries[0], dest, overwrite, refuses, p);
      var first := CopyEntry(files, entries[0], dest, overwrite, refuses);
      if first.ok {
        CopyEntriesStaysUnder(first.files, entries[1..], dest, overwrite, refuses, p);
      }
    }
  }

  lemma {:induction false} CopyEntryStaysUnder(files: map<Path, string>, e: Entry, dest: Path,
                                               overwrite: bool, refuses: set<Path>, p: Path)
    ensures var c := CopyEntry(files, e, dest, overwrite, refuses).files;
      && (p in files ==> p in c)
      && (p in c && (p !in files || c[p] != files[p]) ==> |p| > |dest| && p[..|dest|] == dest)
    decreases e
  {
    match e
    case FileEntry(_, _) =>
    case DirEntry(name, children) =>
      CopyEntriesStaysUnder(files, children, dest + [name], overwrite, refuses, p);
      var c := CopyEntry(files, e, dest, overwrite, refuses).files;
      if p in c && (p !in files || c[p] != files[p]) {
        assert p[..|dest|] == (p[..|dest| + 1])[..|dest|];
      }
  }

  /** Without overwrite, a copy never changes a file that was already there. */
  lemma {:induction false} CopyEntriesKeepsExisting(files: map<Path, string>, entries: seq<Entry>, dest: Path,
                                                    refuses: set<Path>, p: Path)
    requires p in files
    ensures var c := CopyEntries(files, entries, dest, false, refuses).files; p in c && c[p] == files[p]
    decreases entries
  {
    if entries != [] {
      CopyEntryKeepsExisting(files, entries[0], dest, refuses, p);
      var first := CopyEntry(files, entries[0], dest, false, refuses);
      if first.ok {
        CopyEntriesKeepsExisting(first.files, entries[1..], dest, refuses, p);
      }
    }
  }

  lemma {:induction false} CopyEntryKeepsExisting(files: map<Path, string>, e: Entry, dest: Path,
                                                  refuses: set<Path>, p: Path)
    requires p in files
    ensures var c := CopyEntry(files, e, dest, false, refuses).files; p in c && c[p] == files[p]
    decreases e
  {
    match e
    case FileEntry(_, _) =>
    case DirEntry(name, children) =>
      CopyEntriesKeepsExisting(files, children, dest + [name], refuses, p);
  }

  /** A tree whose every file reads. */
  ghost predicate Readable(entries: seq<Entry>)
    decreases entries
  {
    forall k :: 0 <= k < |entries| ==> ReadableEntry(entries[k])
  }

  ghost predicate ReadableEntry(e: Entry)
    decreases e
  {
    match e
    case FileEntry(_, text) => text.Ok?
    case DirEntry(_, children) => Readable(children)
  }

  /** A copy of a readable tree into a destination where no write throws runs to the end. */
  lemma {:induction false} CopyWithoutFaultsCompletes(files: map<Path, string>, entries: seq<Entry>, dest: Path,
                                                      overwrite: bool, refuses: set<Path>)
    requires Readable(entries)
    requires forall p :: p in refuses ==> !(|p| > |dest| && p[..|dest|] == dest)
    ensures CopyEntries(files, entries, dest, overwrite, refuses).ok
    decreases entries
  {
    if entries != [] {
      assert ReadableEntry(entries[0]);
      CopyEntryWithoutFaultsCompletes(files, entries[0], dest, overwrite, refuses);
      var first := CopyEntry(files, entries[0], dest, overwrite, refuses);
      assert forall k :: 0 <= k < |entries[1..]| ==> entries[1..][k] == entries[k + 1];
      CopyWithoutFaultsCompletes(first.files, entries[1..], dest, overwrite, refuses);
    }
  }

  lemma {:induction false} CopyEntryWithoutFaultsCompletes(files: map<Path, string>, e: Entry, dest: Path,
                                                           overwrite: bool, refuses: set<Path>)
    requires ReadableEntry(e)
    requires forall p :: p in refuses ==> !(|p| > |dest| && p[..|dest|] == dest)
    ensures CopyEntry(files, e, dest, overwrite, refuses).ok
    decreases e
  {
    match e
    case FileEntry(name, _) =>
      var p := dest + [name];
      assert p[..|dest|] == dest;
    case DirEntry(name, children) =>
      var inner := dest + [name];
      forall p | p in refuses
        ensures !(|p| > |inner| && p[..|inner|] == inner)
      {
      }
      CopyWithoutFaultsCompletes(files, children, inner, overwrite, refuses);
  }

  /** What reading the file at `rel` below `entries` gives, found by name level by level. */
  function FileAt(entries: seq<Entry>, rel: Path): Option<Result<string>>
    decreases |rel|, 1
  {
    if rel == [] then None
    else
      match Child(entries, rel[0])
      case None => None
      case Some(e) => FileIn(e, rel[1..])
  }

  /** The same, below one entry: `rest` is the path left after the entry's own name. */
  function FileIn(e: Entry, rest: Path): Option<Result<string>>
    decreases |rest|, 2
  {
    match e
    case FileEntry(_, text) => if rest == [] then Some(text) else None
    case DirEntry(_, children) => FileAt(children, rest)
  }

  /** Copying one entry changes nothing outside that entry's own destination. */
  lemma CopyEntryLeaves(files: map<Path, string>, e: Entry, dest: Path, overwrite: bool, refuses: set<Path>, p: Path)
    requires !(|p| > |dest| && p[..|dest| + 1] == dest + [e.name])
    ensures var c := CopyEntry(files, e, dest, overwrite, refuses).files;
      (p in c <==> p in files) && (p in files ==> c[p] == files[p])
  {
    match e
    case FileEntry(_, _) =>
    case DirEntry(name, children) =>
      CopyEntriesStaysUnder(files, children, dest + [name], overwrite, refuses, p);
  }

  /** Copying a directory changes nothing whose path does not start with one of its names. */
  lemma {:induction false} CopyEntriesLeaves(files: map<Path, string>, entries: seq<Entry>, dest: Path,
                                             overwrite: bool, refuses: set<Path>, p: Path)
    requires forall k :: 0 <= k < |entries| ==> !(|p| > |dest| && p[..|dest| + 1] == dest + [entries[k].name])
    ensures var c := CopyEntries(files, entries, dest, overwrite, refuses).files;
      (p in c <==> p in files) && (p in files ==> c[p] == files[p])
    decreases entries
  {
    if entries != [] {
      CopyEntryLeaves(files, entries[0], dest, overwrite, refuses, p);
      var first := CopyEntry(files, entries[0], dest, overwrite, refuses);
      if first.ok {
        assert forall k :: 0 <= k < |entries[1..]| ==> entries[1..][k] == entries[k + 1];
        CopyEntriesLeaves(first.files, entries[1..], dest, overwrite, refuses, p);
      }
    }
  }

  /**
   * The other half of `copyDirRecursive`: in a readable tree with unique names copied where
   * no write throws, every file, however deep, lands at the same relative path below the
   * destination with its text, unless the destination already held it and overwriting is off.
   */
  lemma {:induction false} CopyEntriesWritesFile(files: map<Path, string>, entries: seq<Entry>, dest: Path,
                                                 overwrite: bool, refuses: set<Path>, rel: Path, t: string)
    requires Readable(entries) && UniqueNames(entries)
    requires forall p :: p in refuses ==> !(|p| > |dest| && p[..|dest|] == dest)
    requires FileAt(entries, rel) == Some(Ok(t))
    requires overwrite || dest + rel !in files
    ensures var c := CopyEntries(files, entries, dest, overwrite, refuses).files; dest + rel in c && c[dest + rel] == t
    decreases entries
  {
    var p := dest + rel;
    var e := entries[0];
    var rest := entries[1..];
    assert forall k :: 0 <= k < |rest| ==> rest[k] == entries[k + 1];
    assert ReadableEntry(e) && UniqueNamesOf(e);
    assert Readable(rest) && UniqueNames(rest);
    CopyEntryWithoutFaultsCompletes(files, e, dest, overwrite, refuses);
    var first := CopyEntry(files, e, dest, overwrite, refuses);
    assert rel != [] && p[..|dest| + 1] == dest + [rel[0]];
    if e.name == rel[0] {
      assert p == dest + [e.name] + rel[1..];
      CopyEntryWritesFile(files, e, dest, overwrite, refuses, rel[1..], t);
      forall k | 0 <= k < |rest|
        ensures !(|p| > |dest| && p[..|dest| + 1] == dest + [rest[k].name])
      {
        assert entries[0].name != entries[k + 1].name;
        assert (dest + [rest[k].name])[|dest|] == rest[k].name;
      }
      CopyEntriesLeaves(first.files, rest, dest, overwrite, refuses, p);
    } else {
      assert (dest + [e.name])[|dest|] == e.name;
      CopyEntryLeaves(files, e, dest, overwrite, refuses, p);
      CopyEntriesWritesFile(first.files, rest, dest, overwrite, refuses, rel, t);
    }
  }

  lemma {:induction false} CopyEntryWritesFile(files: map<Path, string>, e: Entry, dest: Path,
                                               overwrite: bool, refuses: set<Path>, rest: Path, t: string)
    requires ReadableEntry(e) && UniqueNamesOf(e)
    requires forall p :: p in refuses ==> !(|p| > |dest| && p[..|dest|] == dest)
    requires FileIn(e, rest) == Some(Ok(t))
    requires overwrite || dest + [e.name] + rest !in files
    ensures var c := CopyEntry(files, e, dest, overwrite, refuses).files;
      dest + [e.name] + rest in c && c[dest + [e.name] + rest] == t
    decreases e
  {
    match e
    case FileEntry(name, _) =>
      assert rest == [];
      assert dest + [name] + rest == dest + [name];
      assert (dest + [name])[..|dest|] == dest;
    case DirEntry(name, children) =>
      var inner := dest + [name];
      forall p | p in refuses
        ensures !(|p| > |inner| && p[..|inner|] == inner)
      {
      }
      CopyEntriesWritesFile(files, children, inner, overwrite, refuses, rest, t);
  }

  /**
   * Every file a copy writes holds the text of the source file at the same path relative to
   * the destination, in a tree with unique names.
   */
  lemma {:induction false} CopyEntriesWritesSource(files: map<Path, string>, entries: seq<Entry>, dest: Path,
                                                   overwrite: bool, refuses: set<Path>, p: Path)
    requires UniqueNames(entries)
    ensures var c := CopyEntries(files, entries, dest, overwrite, refuses).files;
      p in c && (p !in files || c[p] != files[p]) ==>
        |p| > |dest| && p[..|dest|] == dest && FileAt(entries, p[|dest|..]) == Some(Ok(c[p]))
    decreases entries
  {
    var c := CopyEntries(files, entries, dest, overwrite, refuses).files;
    if entries != [] && p in c && (p !in files || c[p] != files[p]) {
      var e, rest := entries[0], entries[1..];
      assert forall k :: 0 <= k < |rest| ==> rest[k] == entries[k + 1];
      assert UniqueNamesOf(e) && UniqueNames(rest);
      var first := CopyEntry(files, e, dest, overwrite, refuses);
      CopyEntryWritesSource(files, e, dest, overwrite, refuses, p);
      if first.ok && (p !in first.files || c[p] != first.files[p]) {
        CopyEntriesWritesSource(first.files, rest, dest, overwrite, refuses, p);
        var rel := p[|dest|..];
        var k :| 0 <= k < |rest| && rest[k] == Child(rest, rel[0]).value;
        assert entries[0].name != entries[k + 1].name;
      } else {
        var rel := p[|dest|..];
        assert rel[0] == e.name && rel[1..] == p[|dest| + 1..];
        ChildOfUnique(entries, 0);
      }
    }
  }

  lemma {:induction false} CopyEntryWritesSource(files: map<Path, string>, e: Entry, dest: Path,
                                                 overwrite: bool, refuses: set<Path>, p: Path)
    requires UniqueNamesOf(e)
    ensures var c := CopyEntry(files, e, dest, overwrite, refuses).files;
      p in c && (p !in files || c[p] != files[p]) ==>
        |p| > |dest| && p[..|dest| + 1] == dest + [e.name] && FileIn(e, p[|dest| + 1..]) == Some(Ok(c[p]))
    decreases e
  {
    match e
    case FileEntry(name, _) =>
      assert (dest + [name])[|dest| + 1..] == [];
    case DirEntry(name, children) =>
      CopyEntriesWritesSource(files, children, dest + [name], overwrite, refuses, p);
  }

  /** A file below a directory found by `path` is the file at the joined path from the root. */
  lemma {:induction false} FindDirFileAt(entries: seq<Entry>, path: Path, rel: Path)
    requires FindDir(entries, path).Some? && rel != []
    ensures FileAt(entries, path + rel) == FileAt(FindDir(entries, path).value, rel)
    decreases |path|
  {
    if path == [] {
      assert path + rel == rel;
    } else {
      var e := Child(entries, path[0]).value;
      assert (path + rel)[0] == path[0] && (path + rel)[1..] == path[1..] + rel;
      FindDirFileAt(e.children, path[1..], rel);
      assert FileAt(entries, path + rel) == FileIn(e, path[1..] + rel);
    }
  }

  /** A directory found in a tree with unique names has unique names itself. */
  lemma {:induction false} FindDirUnique(entries: seq<Entry>, path: Path)
    requires UniqueNames(entries) && FindDir(entries, path).Some?
    ensures UniqueNames(FindDir(entries, path).value)
    decreases |path|
  {
    if path != [] {
      var e := Child(entries, path[0]).value;
      var k :| 0 <= k < |entries| && entries[k] == e;
      assert UniqueNamesOf(entries[k]);
      FindDirUnique(e.children, path[1..]);
    }
  }

  /** Leaving out the entries called `name` keeps every other name's entry. */
  lemma {:induction false} WithoutChild(entries: seq<Entry>, name: string, other: string)
    requires other != name
    ensures Child(Without(entries, name), other) == Child(entries, other)
    decreases entries
  {
    if entries != [] {
      WithoutChild(entries[1..], name, other);
      var w := Without(entries, name);
      if entries[0].name != name {
        assert w == [entries[0]] + Without(entries[1..], name);
        assert w[0] == entries[0] && w[1..] == Without(entries[1..], name);
      } else {
        assert w == Without(entries[1..], name);
      }
    }
  }

  lemma WithoutUnique(entries: seq<Entry>, name: string)
    requires UniqueNames(entries)
    ensures UniqueNames(Without(entries, name))
  {
    var w := Without(entries, name);
    assert DistinctNames(entries);
    WithoutDistinct(entries, name);
    assert DistinctNames(w);
    forall k | 0 <= k < |w|
      ensures UniqueNamesOf(w[k])
    {
      assert w[k] in entries;
      var j :| 0 <= j < |entries| && entries[j] == w[k];
    }
  }

  /** No two entries share a name. */
  predicate DistinctNames(entries: seq<Entry>)
  {
    forall i, j :: 0 <= i < j < |entries| ==> entries[i].name != entries[j].name
  }

  /** No entry is called `other`. */
  predicate Avoids(entries: seq<Entry>, other: string)
  {
    forall k :: 0 <= k < |entries| ==> entries[k].name != other
  }

  /** Leaving entries out adds no name. */
  lemma {:induction false} WithoutAvoids(entries: seq<Entry>, name: string, other: string)
    requires Avoids(entries, other)
    ensures Avoids(Without(entries, name), other)
    decreases entries
  {
    if entries != [] {
      WithoutAvoids(entries[1..], name, other);
      var r := Without(entries[1..], name);
      if entries[0].name != name {
        assert Without(entries, name) == [entries[0]] + r;
      } else {
        assert Without(entries, name) == r;
      }
    }
  }

  /** An entry put in front of distinct names that avoid its own keeps them distinct. */
  lemma ConsDistinct(x: Entry, r: seq<Entry>)
    requires DistinctNames(r) && Avoids(r, x.name)
    ensures DistinctNames([x] + r)
  {
    var w := [x] + r;
    forall i, j | 0 <= i < j < |w|
      ensures w[i].name != w[j].name
    {
      assert w[j] == r[j - 1];
      if i > 0 {
        assert w[i] == r[i - 1];
      }
    }
  }

  /** Leaving entries out keeps the names of the rest distinct. */
  lemma {:induction false} WithoutDistinct(entries: seq<Entry>, name: string)
    requires DistinctNames(entries)
    ensures DistinctNames(Without(entries, name))
    decreases entries
  {
    if entries != [] {
      var rest := entries[1..];
      assert forall k :: 0 <= k < |rest| ==> rest[k] == entries[k + 1];
      WithoutDistinct(rest, name);
      var r := Without(rest, name);
      if entries[0].name != name {
        WithoutAvoids(rest, name, entries[0].name);
        ConsDistinct(entries[0], r);
        assert Without(entries, name) == [entries[0]] + r;
      } else {
        assert Without(entries, name) == r;
      }
    }
  }

  /** A file found after leaving out `name` is the same file in the full directory. */
  lemma WithoutFileAt(entries: seq<Entry>, name: string, rel: Path)
    requires FileAt(Without(entries, name), rel).Some?
    ensures FileAt(entries, rel) == FileAt(Without(entries, name), rel)
  {
    assert rel[0] != name;
    WithoutChild(entries, name, rel[0]);
  }

  /** A path below `head + mid` is `head` followed by `mid` and the rest. */
  lemma SplitPath(p: Path, head: Path, mid: Path)
    requires |p| > |head + mid| && p[..|head + mid|] == head + mid
    ensures |p| > |head| && p[..|head|] == head && p[|head|..] == mid + p[|head + mid|..]
  {
    assert p == (head + mid) + p[|head + mid|..];
  }

  /** A skill's other files, copied below its target, hold the package's text at the same path below `.skills`. */
  lemma SkillExtrasWriteSource(root: seq<Entry>, skillPath: Path, files: map<Path, string>, overwrite: bool,
                               refuses: set<Path>, p: Path)
    requires UniqueNames(root) && FindDir(root, skillPath).Some?
    ensures var c := CopyEntries(files, Without(FindDir(root, skillPath).value, SkillFile), SkillsTarget + skillPath,
                                 overwrite, refuses).files;
      p in c && (p !in files || c[p] != files[p]) ==>
        |p| > 1 && p[..1] == SkillsTarget && FileAt(root, p[1..]) == Some(Ok(c[p]))
  {
    var d := FindDir(root, skillPath).value;
    var targetDir := SkillsTarget + skillPath;
    var c := CopyEntries(files, Without(d, SkillFile), targetDir, overwrite, refuses).files;
    FindDirUnique(root, skillPath);
    WithoutUnique(d, SkillFile);
    CopyEntriesWritesSource(files, Without(d, SkillFile), targetDir, overwrite, refuses, p);
    if p in c && (p !in files || c[p] != files[p]) {
      var rel := p[|targetDir|..];
      WithoutFileAt(d, SkillFile, rel);
      FindDirFileAt(root, skillPath, rel);
      SplitPath(p, SkillsTarget, skillPath);
    }
  }

  /**
   * Every file a skill's pull writes or changes holds the package's text at the same path
   * below `.skills`: the skill's `SKILL.md` or one of its other files, at any depth.
   */
  lemma PullSkillWritesSource(s: PullState, env: PullEnv, skillPath: Path, p: Path)
    requires env.sources.skills.Some? ==> UniqueNames(env.sources.skills.value)
    ensures var b := PullSkill(s, env, skillPath).files;
      p in b && (p !in s.files || b[p] != s.files[p]) ==>
        env.sources.skills.Some? && |p| > 1 && p[..1] == SkillsTarget &&
        FileAt(env.sources.skills.value, p[1..]) == Some(Ok(b[p]))
  {
    var source := SkillDir(env.sources.skills, skillPath);
    if source.Some? && HasEntry(source.value, SkillFile) {
      var root, d := env.sources.skills.value, source.value;
      var targetDir := SkillsTarget + skillPath;
      var target := targetDir + [SkillFile];
      var text := ReadEntry(d, SkillFile);
      if (target !in s.files || env.overwrite) && text.Ok? && target !in env.refuses {
        var written := s.files[target := text.value];
        SkillExtrasWriteSource(root, skillPath, written, env.overwrite, env.refuses, p);
        if p == target {
          FindDirFileAt(root, skillPath, [SkillFile]);
          assert p[1..] == skillPath + [SkillFile];
        }
      }
    }
  }

  lemma {:induction false} PullSkillsWritesSource(s: PullState, env: PullEnv, skills: seq<Path>, p: Path)
    requires env.sources.skills.Some? ==> UniqueNames(env.sources.skills.value)
    ensures var b := PullSkills(s, env, skills).files;
      p in b && (p !in s.files || b[p] != s.files[p]) ==>
        env.sources.skills.Some? && |p| > 1 && p[..1] == SkillsTarget &&
        FileAt(env.sources.skills.value, p[1..]) == Some(Ok(b[p]))
    decreases |skills|
  {
    if skills != [] {
      var prefix := skills[..|skills| - 1];
      PullSkillsWritesSource(s, env, prefix, p);
      var mid := PullSkills(s, env, prefix);
      PullSkillWritesSource(mid, env, skills[|skills| - 1], p);
      PullSkillStaysInResources(mid, env, skills[|skills| - 1], p);
    }
  }

  /** Every prompt file the pull writes or changes holds the text of a listed prompt. */
  lemma {:induction false} PullPromptsWritesSource(s: PullState, env: PullEnv, source: seq<Entry>, files: seq<string>,
                                                   p: Path)
    ensures var b := PullPrompts(s, env, source, files).files;
      p in b && (p !in s.files || b[p] != s.files[p]) ==>
        |p| == 3 && p[..2] == PromptsTarget && p[2] in files && ReadEntry(source, p[2]) == Ok(b[p])
    decreases |files|
  {
    if files != [] {
      var prefix, last := files[..|files| - 1], files[|files| - 1];
      PullPromptsWritesSource(s, env, source, prefix, p);
      PullPromptWritesSource(PullPrompts(s, env, source, prefix), env, source, last, p);
      assert files == prefix + [last];
      var target := PromptsTarget + [last];
      assert target[..2] == PromptsTarget && target[2] == last;
    }
  }

  /** One prompt changes only its own target, to the prompt's text, and removes nothing. */
  lemma PullPromptWritesSource(s: PullState, env: PullEnv, source: seq<Entry>, file: string, p: Path)
    ensures var b := PullPrompt(s, env, source, file).files;
      && (p in s.files ==> p in b)
      && (p in b && (p !in s.files || b[p] != s.files[p]) ==> p == PromptsTarget + [file] && ReadEntry(source, file) == Ok(b[p]))
  {
  }

  /** The package's text for a target path: a listed prompt, or the file at that path below `.skills`. */
  ghost predicate FromPackage(env: PullEnv, p: Path, text: string)
  {
    || (|p| == 3 && p[..2] == PromptsTarget && env.sources.prompts.Some? &&
        p[2] in PromptFiles(env.sources.prompts.value) && ReadEntry(env.sources.prompts.value, p[2]) == Ok(text))
    || (|p| > 1 && p[..1] == SkillsTarget && env.sources.skills.Some? &&
        FileAt(env.sources.skills.value, p[1..]) == Some(Ok(text)))
  }

  /** Every file the whole pull writes or changes holds the package's text for its path. */
  lemma {:induction false} PullAllWritesSource(s: PullState, env: PullEnv, categories: seq<Category>, p: Path)
    requires env.sources.skills.Some? ==> UniqueNames(env.sources.skills.value)
    ensures var b := PullAll(s, env, categories).files;
      p in b && (p !in s.files || b[p] != s.files[p]) ==> FromPackage(env, p, b[p])
    decreases |categories|
  {
    if categories != [] {
      var prefix := categories[..|categories| - 1];
      PullAllWritesSource(s, env, prefix, p);
      var mid := PullAll(s, env, prefix);
      match categories[|categories| - 1]
      case Prompts =>
        if env.sources.prompts.Some? {
          var source := env.sources.prompts.value;
          PullPromptsWritesSource(mid, env, source, PromptFiles(source), p);
          PullPromptsStayInResources(mid, env, source, PromptFiles(source), p);
        }
      case Skills =>
        PullSkillsWritesSource(mid, env, SkillsToProcess(env), p);
        PullSkillsStayInResources(mid, env, SkillsToProcess(env), p);
    }
  }

  /**
   * The prompts loop writes every listed prompt it should: one that reads, whose write does
   * not throw and whose target was absent (or overwriting is on) holds the package's text.
   */
  lemma {:induction false} PullPromptsWritesListed(s: PullState, env: PullEnv, source: seq<Entry>, files: seq<string>,
                                                   f: string)
    ensures var target := PromptsTarget + [f]; var b := PullPrompts(s, env, source, files).files;
      f in files && ReadEntry(source, f).Ok? && target !in env.refuses && (env.overwrite || target !in s.files) ==>
        target in b && b[target] == ReadEntry(source, f).value
    decreases |files|
  {
    var target := PromptsTarget + [f];
    if f in files && ReadEntry(source, f).Ok? && target !in env.refuses && (env.overwrite || target !in s.files) {
      var prefix, last := files[..|files| - 1], files[|files| - 1];
      assert files == prefix + [last];
      var mid := PullPrompts(s, env, source, prefix);
      PullPromptsStayInResources(mid, env, source, [last], target);
      assert PullPrompts(mid, env, source, [last]) == PullPrompt(mid, env, source, last);
      if f in prefix {
        PullPromptsWritesListed(s, env, source, prefix, f);
        PullPromptsWritesSource(mid, env, source, [last], target);
      } else {
        PullPromptsWritesSource(s, env, source, prefix, target);
      }
    }
  }

  /**
   * The skills loop writes the `SKILL.md` of every skill it should: one whose folder holds a
   * readable `SKILL.md`, whose write does not throw and whose target was absent (or
   * overwriting is on) holds the package's text, whatever other skills are pulled with it.
   */
  lemma {:induction false} PullSkillsWritesListed(s: PullState, env: PullEnv, skills: seq<Path>, q: Path)
    requires env.sources.skills.Some? ==> UniqueNames(env.sources.skills.value)
    ensures var target := SkillsTarget + q + [SkillFile]; var dir := SkillDir(env.sources.skills, q);
      var b := PullSkills(s, env, skills).files;
      q in skills && dir.Some? && ReadEntry(dir.value, SkillFile).Ok? && target !in env.refuses &&
      (env.overwrite || target !in s.files) ==>
        target in b && b[target] == ReadEntry(dir.value, SkillFile).value
    decreases |skills|
  {
    var target := SkillsTarget + q + [SkillFile];
    var dir := SkillDir(env.sources.skills, q);
    if q in skills && dir.Some? && ReadEntry(dir.value, SkillFile).Ok? && target !in env.refuses &&
       (env.overwrite || target !in s.files) {
      var t := ReadEntry(dir.value, SkillFile).value;
      var prefix, last := skills[..|skills| - 1], skills[|skills| - 1];
      assert skills == prefix + [last];
      var mid := PullSkills(s, env, prefix);
      FindDirFileAt(env.sources.skills.value, q, [SkillFile]);
      assert target[1..] == q + [SkillFile];
      PullSkillWritesSource(mid, env, last, target);
      PullSkillStaysInResources(mid, env, last, target);
      if q in prefix {
        PullSkillsWritesListed(s, env, prefix, q);
      } else {
        PullSkillsWritesSource(s, env, prefix, target);
        if target !in mid.files || env.overwrite {
          var d := dir.value;
          var w := Without(d, SkillFile);
          var written := mid.files[target := t];
          assert Child(w, SkillFile).None?;
          assert target[|SkillsTarget + q|..] == [SkillFile];
          FindDirUnique(env.sources.skills.value, q);
          WithoutUnique(d, SkillFile);
          CopyEntriesWritesSource(written, w, SkillsTarget + q, env.overwrite, env.refuses, target);
          CopyEntriesStaysUnder(written, w, SkillsTarget + q, env.overwrite, env.refuses, target);
        }
      }
    }
  }

  /** The package's text for a prompt's target is that prompt's text. */
  lemma FromPackagePrompt(env: PullEnv, f: string, text: string)
    requires FromPackage(env, PromptsTarget + [f], text)
    ensures env.sources.prompts.Some? && ReadEntry(env.sources.prompts.value, f) == Ok(text)
  {
    var target := PromptsTarget + [f];
    assert target[..1] != SkillsTarget by {
      assert target[..1][0] == ".github";
    }
    assert target[..2] == PromptsTarget && target[2] == f;
  }

  /** The package's text for a skill's `SKILL.md` target is that file's text. */
  lemma FromPackageSkill(env: PullEnv, q: Path, text: string)
    requires FromPackage(env, SkillsTarget + q + [SkillFile], text)
    ensures env.sources.skills.Some? && FileAt(env.sources.skills.value, q + [SkillFile]) == Some(Ok(text))
  {
    var target := SkillsTarget + q + [SkillFile];
    assert target[0] == ".skills" && target[1..] == q + [SkillFile];
    assert |target| == 3 ==> target[..2] != PromptsTarget by {
      assert target[..2][0] == target[0];
    }
  }

  /** One category changes a file only to the package's text for it, and removes nothing. */
  lemma PullCategoryWritesSource(s: PullState, env: PullEnv, category: Category, p: Path)
    requires env.sources.skills.Some? ==> UniqueNames(env.sources.skills.value)
    ensures var b := PullCategory(s, env, category).files;
      (p in s.files ==> p in b) && (p in b && (p !in s.files || b[p] != s.files[p]) ==> FromPackage(env, p, b[p]))
  {
    assert PullAll(s, env, [category]) == PullCategory(s, env, category);
    PullAllWritesSource(s, env, [category], p);
    PullAllStaysInResources(s, env, [category], p);
  }

  /** The prompts category, run after other categories that left a prompt's target alone or wrote its text. */
  lemma PullPromptsAfterWritesPrompt(s: PullState, mid: PullState, env: PullEnv, f: string, t: string)
    requires var target := PromptsTarget + [f]; var source := env.sources.prompts;
      && source.Some? && f in PromptFiles(source.value) && ReadEntry(source.value, f) == Ok(t)
      && target !in env.refuses && (env.overwrite || target !in s.files)
      && (target in s.files ==> target in mid.files)
      && (target in mid.files && (target !in s.files || mid.files[target] != s.files[target]) ==> mid.files[target] == t)
    ensures var target := PromptsTarget + [f]; var b := PullCategory(mid, env, Prompts).files;
      target in b && b[target] == t
  {
    var target := PromptsTarget + [f];
    var source := env.sources.prompts.value;
    if target in mid.files && !env.overwrite {
      PullPromptsKeepsExisting(mid, env, source, PromptFiles(source), target);
    } else {
      PullPromptsWritesListed(mid, env, source, PromptFiles(source), f);
    }
  }

  /**
   * The whole pull writes every prompt it should: a listed prompt that reads, whose write
   * does not throw and whose target was absent (or overwriting is on) holds the package's
   * text once the prompts category has been pulled, whatever is pulled besides.
   */
  lemma {:induction false} PullAllWritesPrompt(s: PullState, env: PullEnv, categories: seq<Category>, f: string)
    requires env.sources.skills.Some? ==> UniqueNames(env.sources.skills.value)
    ensures var target := PromptsTarget + [f]; var source := env.sources.prompts;
      var b := PullAll(s, env, categories).files;
      Prompts in categories && source.Some? && f in PromptFiles(source.value) && ReadEntry(source.value, f).Ok? &&
      target !in env.refuses && (env.overwrite || target !in s.files) ==>
        target in b && b[target] == ReadEntry(source.value, f).value
    decreases |categories|
  {
    var target := PromptsTarget + [f];
    var source := env.sources.prompts;
    if Prompts in categories && source.Some? && f in PromptFiles(source.value) && ReadEntry(source.value, f).Ok? &&
       target !in env.refuses && (env.overwrite || target !in s.files) {
      var prefix, last := categories[..|categories| - 1], categories[|categories| - 1];
      assert categories == prefix + [last];
      var mid := PullAll(s, env, prefix);
      var b := PullCategory(mid, env, last).files;
      PullCategoryWritesSource(mid, env, last, target);
      if target in b && (target !in mid.files || b[target] != mid.files[target]) {
        FromPackagePrompt(env, f, b[target]);
      }
      if Prompts in prefix {
        PullAllWritesPrompt(s, env, prefix, f);
      } else {
        PullAllWritesSource(s, env, prefix, target);
        PullAllStaysInResources(s, env, prefix, target);
        if target in mid.files && (target !in s.files || mid.files[target] != s.files[target]) {
          FromPackagePrompt(env, f, mid.files[target]);
        }
        PullPromptsAfterWritesPrompt(s, mid, env, f, ReadEntry(source.value, f).value);
      }
    }
  }

  /** The skills category, run after other categories that left a skill's target alone or wrote its text. */
  lemma PullSkillsAfterWritesSkill(s: PullState, mid: PullState, env: PullEnv, q: Path, t: string)
    requires env.sources.skills.Some? ==> UniqueNames(env.sources.skills.value)
    requires var target := SkillsTarget + q + [SkillFile]; var dir := SkillDir(env.sources.skills, q);
      && q in SkillsToProcess(env) && dir.Some? && ReadEntry(dir.value, SkillFile) == Ok(t)
      && target !in env.refuses && (env.overwrite || target !in s.files)
      && (target in s.files ==> target in mid.files)
      && (target in mid.files && (target !in s.files || mid.files[target] != s.files[target]) ==> mid.files[target] == t)
    ensures var target := SkillsTarget + q + [SkillFile]; var b := PullCategory(mid, env, Skills).files;
      target in b && b[target] == t
  {
    var target := SkillsTarget + q + [SkillFile];
    if target in mid.files && !env.overwrite {
      PullSkillsKeepsExisting(mid, env, SkillsToProcess(env), target);
    } else {
      PullSkillsWritesListed(mid, env, SkillsToProcess(env), q);
    }
  }

  /**
   * The whole pull writes the `SKILL.md` of every skill it should: a skill it processes whose
   * folder holds a readable `SKILL.md`, whose write does not throw and whose target was absent
   * (or overwriting is on) holds the package's text once the skills category has been pulled.
   */
  lemma {:induction false} PullAllWritesSkill(s: PullState, env: PullEnv, categories: seq<Category>, q: Path)
    requires env.sources.skills.Some? ==> UniqueNames(env.sources.skills.value)
    ensures var target := SkillsTarget + q + [SkillFile]; var dir := SkillDir(env.sources.skills, q);
      var b := PullAll(s, env, categories).files;
      Skills in categories && q in SkillsToProcess(env) && dir.Some? && ReadEntry(dir.value, SkillFile).Ok? &&
      target !in env.refuses && (env.overwrite || target !in s.files) ==>
        target in b && b[target] == ReadEntry(dir.value, SkillFile).value
    decreases |categories|
  {
    var target := SkillsTarget + q + [SkillFile];
    var dir := SkillDir(env.sources.skills, q);
    if Skills in categories && q in SkillsToProcess(env) && dir.Some? && ReadEntry(dir.value, SkillFile).Ok? &&
       target !in env.refuses && (env.overwrite || target !in s.files) {
      var prefix, last := categories[..|categories| - 1], categories[|categories| - 1];
      assert categories == prefix + [last];
      var mid := PullAll(s, env, prefix);
      var b := PullCategory(mid, env, last).files;
      FindDirFileAt(env.sources.skills.value, q, [SkillFile]);
      PullCategoryWritesSource(mid, env, last, target);
      if target in b && (target !in mid.files || b[target] != mid.files[target]) {
        FromPackageSkill(env, q, b[target]);
      }
      if Skills in prefix {
        PullAllWritesSkill(s, env, prefix, q);
      } else {
        PullAllWritesSource(s, env, prefix, target);
        PullAllStaysInResources(s, env, prefix, target);
        if target in mid.files && (target !in s.files || mid.files[target] != s.files[target]) {
          FromPackageSkill(env, q, mid.files[target]);
        }
        PullSkillsAfterWritesSkill(s, mid, env, q, ReadEntry(dir.value, SkillFile).value);
      }
    }
  }

  /** Every item a category attempts moves exactly one counter. */
  lemma {:induction false} PullPromptsCounts(s: PullState, env: PullEnv, source: seq<Entry>, files: seq<string>)
    ensures PullPrompts(s, env, source, files).tally.Sum() == s.tally.Sum() + |files|
    decreases |files|
  {
    if files != [] {
      PullPromptsCounts(s, env, source, files[..|files| - 1]);
    }
  }

  lemma {:induction false} PullSkillsCounts(s: PullState, env: PullEnv, skills: seq<Path>)
    ensures PullSkills(s, env, skills).tally.Sum() == s.tally.Sum() + |skills|
    decreases |skills|
  {
    if skills != [] {
      PullSkillsCounts(s, env, skills[..|skills| - 1]);
    }
  }

  /** created + updated + skipped + failed is the number of items the pull attempted. */
  lemma {:induction false} PullAllBalanced(s: PullState, env: PullEnv, categories: seq<Category>)
    ensures PullAll(s, env, categories).tally.Sum() == s.tally.Sum() + AttemptedAll(env, categories)
    decreases |categories|
  {
    if categories != [] {
      var prefix := categories[..|categories| - 1];
      PullAllBalanced(s, env, prefix);
      var mid := PullAll(s, env, prefix);
      match categories[|categories| - 1]
      case Prompts =>
        if env.sources.prompts.Some? {
          PullPromptsCounts(mid, env, env.sources.prompts.value, PromptFiles(env.sources.prompts.value));
        }
      case Skills =>
        PullSkillsCounts(mid, env, SkillsToProcess(env));
    }
  }

  /** Where a pull may write: below `.github/prompts` or `.skills` of the target. */
  predicate InResourceDirs(p: Path)
  {
    (|p| > |PromptsTarget| && p[..|PromptsTarget|] == PromptsTarget) ||
    (|p| > |SkillsTarget| && p[..|SkillsTarget|] == SkillsTarget)
  }

  /** A file the pull writes or changes lies in a resource directory; no file disappears. */
  lemma PullSkillStaysInResources(s: PullState, env: PullEnv, skillPath: Path, p: Path)
    ensures var b := PullSkill(s, env, skillPath).files;
      (p in s.files ==> p in b) && (p in b && (p !in s.files || b[p] != s.files[p]) ==> InResourceDirs(p))
  {
    var source := SkillDir(env.sources.skills, skillPath);
    if source.Some? && HasEntry(source.value, SkillFile) {
      var targetDir := SkillsTarget + skillPath;
      var target := targetDir + [SkillFile];
      var text := ReadEntry(source.value, SkillFile);
      if (target !in s.files || env.overwrite) && text.Ok? && target !in env.refuses {
        var written := s.files[target := text.value];
        CopyEntriesStaysUnder(written, Without(source.value, SkillFile), targetDir, env.overwrite, env.refuses, p);
        var b := PullSkill(s, env, skillPath).files;
        if p in b && (p !in s.files || b[p] != s.files[p]) {
          assert p[..|targetDir|][..1] == p[..1];
          assert target[..1] == SkillsTarget;
        }
      }
    }
  }

  lemma {:induction false} PullSkillsStayInResources(s: PullState, env: PullEnv, skills: seq<Path>, p: Path)
    ensures var b := PullSkills(s, env, skills).files;
      (p in s.files ==> p in b) && (p in b && (p !in s.files || b[p] != s.files[p]) ==> InResourceDirs(p))
    decreases |skills|
  {
    if skills != [] {
      PullSkillsStayInResources(s, env, skills[..|skills| - 1], p);
      PullSkillStaysInResources(PullSkills(s, env, skills[..|skills| - 1]), env, skills[|skills| - 1], p);
    }
  }

  lemma {:induction false} PullPromptsStayInResources(s: PullState, env: PullEnv, source: seq<Entry>, files: seq<string>, p: Path)
    ensures var b := PullPrompts(s, env, source, files).files;
      (p in s.files ==> p in b) && (p in b && (p !in s.files || b[p] != s.files[p]) ==> InResourceDirs(p))
    decreases |files|
  {
    if files != [] {
      PullPromptsStayInResources(s, env, source, files[..|files| - 1], p);
    }
  }

  /** The whole pull writes only below `.github/prompts` and `.skills`, and removes nothing. */
  lemma {:induction false} PullAllStaysInResources(s: PullState, env: PullEnv, categories: seq<Category>, p: Path)
    ensures var b := PullAll(s, env, categories).files;
      (p in s.files ==> p in b) && (p in b && (p !in s.files || b[p] != s.files[p]) ==> InResourceDirs(p))
    decreases |categories|
  {
    if categories != [] {
      var prefix := categories[..|categories| - 1];
      PullAllStaysInResources(s, env, prefix, p);
      var mid := PullAll(s, env, prefix);
      match categories[|categories| - 1]
      case Prompts =>
        if env.sources.prompts.Some? {
          PullPromptsStayInResources(mid, env, env.sources.prompts.value, PromptFiles(env.sources.prompts.value), p);
        }
      case Skills =>
        PullSkillsStayInResources(mid, env, SkillsToProcess(env), p);
    }
  }

  /** Without overwrite, no file already in the target changes, extra skill files included. */
  lemma PullSkillKeepsExisting(s: PullState, env: PullEnv, skillPath: Path, p: Path)
    requires !env.overwrite && p in s.files
    ensures var b := PullSkill(s, env, skillPath).files; p in b && b[p] == s.files[p]
  {
    var source := SkillDir(env.sources.skills, skillPath);
    if source.Some? && HasEntry(source.value, SkillFile) {
      var targetDir := SkillsTarget + skillPath;
      var target := targetDir + [SkillFile];
      var text := ReadEntry(source.value, SkillFile);
      if target !in s.files && text.Ok? && target !in env.refuses {
        CopyEntriesKeepsExisting(s.files[target := text.value], Without(source.value, SkillFile), targetDir, env.refuses, p);
      }
    }
  }

  lemma {:induction false} PullAllKeepsExisting(s: PullState, env: PullEnv, categories: seq<Category>, p: Path)
    requires !env.overwrite && p in s.files
    ensures var b := PullAll(s, env, categories).files; p in b && b[p] == s.files[p]
    decreases |categories|
  {
    if categories != [] {
      var prefix := categories[..|categories| - 1];
      PullAllKeepsExisting(s, env, prefix, p);
      var mid := PullAll(s, env, prefix);
      match categories[|categories| - 1]
      case Prompts =>
        if env.sources.prompts.Some? {
          PullPromptsKeepsExisting(mid, env, env.sources.prompts.value, PromptFiles(env.sources.prompts.value), p);
        }
      case Skills =>
        PullSkillsKeepsExisting(mid, env, SkillsToProcess(env), p);
    }
  }

  lemma {:induction false} PullPromptsKeepsExisting(s: PullState, env: PullEnv, source: seq<Entry>, files: seq<string>, p: Path)
    requires !env.overwrite && p in s.files
    ensures var b := PullPrompts(s, env, source, files).files; p in b && b[p] == s.files[p]
    decreases |files|
  {
    if files != [] {
      PullPromptsKeepsExisting(s, env, source, files[..|files| - 1], p);
    }
  }

  lemma {:induction false} PullSkillsKeepsExisting(s: PullState, env: PullEnv, skills: seq<Path>, p: Path)
    requires !env.overwrite && p in s.files
    ensures var b := PullSkills(s, env, skills).files; p in b && b[p] == s.files[p]
    decreases |skills|
  {
    if skills != [] {
      PullSkillsKeepsExisting(s, env, skills[..|skills| - 1], p);
      PullSkillKeepsExisting(PullSkills(s, env, skills[..|skills| - 1]), env, skills[|skills| - 1], p);
    }
  }
}
