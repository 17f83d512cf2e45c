/**
 * The local record store (src/storage/local.ts): one JSON document per memory, kept in
 * one directory under the memory's filename. Reads validate the document and answer
 * "no memory" rather than fail; the one write replaces the whole document.
 */
module Local {
  import opened Types

  /**
   * What a file of the memory directory holds. `Unparseable` is content that `JSON.parse`
   * rejects or that is not an object. In a `Document`, a string field the file lacks is
   * written "" (the reader's validation treats missing and empty alike) and `timestamp`
   * is `None` when it is missing or empty.
   */
  datatype StoredFile =
    | Unparseable
    | Document(
        filename: string,
        topic: string,
        content: string,
        timestamp: Option<int>,
        createdAt: string,
        createdFrom: Option<string>)

  /** The four fields the reader insists on are all present and non-empty. */
  predicate Complete(f: StoredFile)
  {
    f.Document? && f.filename != "" && f.topic != "" && f.content != "" && f.timestamp.Some?
  }

  /** `path.join(dir, name)` for a plain file name. */
  function JoinPath(dir: string, name: string): string
  {
    if dir == "" then name else dir + "/" + name
  }

  /** A memory file's name: it ends in `.json`. */
  predicate IsJsonName(name: string)
  {
    EndsWith(name, ".json")
  }

  /** What `writeFileSync` raises for the empty name, which joins to the directory itself. */
  const IsDirectoryError := "EISDIR: illegal operation on a directory"

  /** A write under `name` throws: the empty name is the directory; `refuses` lists the rest. */
  predicate WriteThrows(refuses: map<string, string>, name: string)
  {
    name == "" || name in refuses
  }

  /** The error a throwing write raises. */
  function WriteError(refuses: map<string, string>, name: string): string
    requires WriteThrows(refuses, name)
  {
    if name == "" then IsDirectoryError else refuses[name]
  }

  /**
   * `readLocalMemory`: the memory stored under `filename`, or `None` when there is no such
   * file, when it does not parse, or when one of the required fields is missing or empty.
   * The empty name joins to the directory itself, which does not read as a file.
   */
  function ReadLocalMemory(files: map<string, StoredFile>, filename: string): (r: Option<MemoryData>)
    ensures filename == "" || filename !in files ==> r == None
    ensures r.Some? <==> filename != "" && filename in files && Complete(files[filename])
    ensures r.Some? ==>
      var f := files[filename];
      r.value == MemoryData(f.filename, f.topic, f.content, f.timestamp.value, f.createdAt, f.createdFrom)
  {
    if filename == "" || filename !in files then None
    else
      match files[filename]
      case Unparseable => None
      case Document(name, topic, content, timestamp, createdAt, createdFrom) =>
        if name == "" || topic == "" || content == "" || timestamp.None? then None
        else Some(MemoryData(name, topic, content, timestamp.value, createdAt, createdFrom))
  }

  /**
   * `localMemoryExists`: something is stored under `filename`, valid or not; for the empty
   * name that is the directory itself. Every memory that reads exists.
   */
  function LocalMemoryExists(dirExists: bool, files: map<string, StoredFile>, filename: string): (present: bool)
    ensures filename != "" ==> (present <==> filename in files)
    ensures filename == "" ==> present == dirExists
    ensures ReadLocalMemory(files, filename).Some? ==> present
  {
    if filename == "" then dirExists else filename in files
  }

  /**
   * `listLocalMemories`: the names in the directory that end in `.json`; nothing when the
   * directory does not exist.
   */
  function ListLocalMemories(dirExists: bool, files: map<string, StoredFile>): (names: set<string>)
    ensures !dirExists ==> names == {}
    ensures forall n :: n in names <==> dirExists && n in files && IsJsonName(n)
  {
    if !dirExists then {} else set n | n in files && IsJsonName(n)
  }

  /**
   * The document `saveLocalMemory` writes: the given fields, the supplied timestamp or else
   * the clock's, and the clock's display string as `createdAt`.
   */
  function Stored(options: SaveMemoryOptions, clock: Clock): StoredFile
  {
    Document(
      options.filename,
      options.topic,
      options.content,
      Some(TimeOrElse(options.timestamp, clock.now)),
      clock.display,
      options.createdFrom)
  }

  /** The memory directory: whether it exists and the files it holds, by name. */
  class MemoryDir {
    /** The configured directory (`config.memoryDir`). */
    const path: string
    /** File names whose write the filesystem rejects, each with the error it raises. */
    const refuses: map<string, string>
    var dirExists: bool
    var files: map<string, StoredFile>

    /** A directory that does not exist holds no files. */
    ghost predicate Valid()
      reads this
    {
      !dirExists ==> files == map[]
    }

    constructor (path: string, refuses: map<string, string>, dirExists: bool, files: map<string, StoredFile>)
      requires !dirExists ==> files == map[]
      ensures Valid()
      ensures this.path == path && this.refuses == refuses
      ensures this.dirExists == dirExists && this.files == files
    {
      this.path := path;
      this.refuses := refuses;
      this.dirExists := dirExists;
      this.files := files;
    }

    /** `ensureDirectoryExists`: creates the directory when it is missing. */
    method EnsureDirectoryExists()
      requires Valid()
      modifies this`dirExists
      ensures Valid() && dirExists
    {
      if !dirExists {
        dirExists := true;
      }
    }

    /**
     * `saveLocalMemory`: creates the directory if needed, then replaces whatever was stored
     * under the filename by a document of the given fields, and returns the file's path.
     * A write the filesystem rejects throws and leaves the files as they were; so does the
     * empty name, whose path is the directory itself.
     */
    method SaveLocalMemory(options: SaveMemoryOptions, clock: Clock) returns (r: Result<string>)
      requires Valid()
      modifies this`dirExists, this`files
      ensures Valid() && dirExists
      ensures WriteThrows(refuses, options.filename) ==>
        r == Err(WriteError(refuses, options.filename)) && files == old(files)
      ensures !WriteThrows(refuses, options.filename) ==>
        r == Ok(JoinPath(path, options.filename)) &&
        files == old(files)[options.filename := Stored(options, clock)]
    {
      EnsureDirectoryExists();
      if options.filename == "" {
        return Err(IsDirectoryError);
      }
      if options.filename in refuses {
        return Err(refuses[options.filename]);
      }
      files := files[options.filename := Stored(options, clock)];
      r := Ok(JoinPath(path, options.filename));
    }
  }

  /**
   * Round trip: once a memory with a non-empty filename, topic and content is saved, it
   * exists and reads back with exactly those fields and the resolved timestamp.
   */
  lemma SaveThenRead(files: map<string, StoredFile>, options: SaveMemoryOptions, clock: Clock)
    requires options.filename != "" && options.topic != "" && options.content != ""
    ensures var after := files[options.filename := Stored(options, clock)];
      && LocalMemoryExists(true, after, options.filename)
      && ReadLocalMemory(after, options.filename) == Some(MemoryData(
           options.filename, options.topic, options.content,
           TimeOrElse(options.timestamp, clock.now), clock.display, options.createdFrom))
  {
  }

  /**
   * A save touches only its own filename: every other name reads as before and exists as
   * before, except that the directory itself (the empty name) now exists.
   */
  lemma SaveLeavesOthers(dirExists: bool, files: map<string, StoredFile>, options: SaveMemoryOptions, clock: Clock,
                         other: string)
    requires other != options.filename
    ensures ReadLocalMemory(files[options.filename := Stored(options, clock)], other) == ReadLocalMemory(files, other)
    ensures LocalMemoryExists(true, files[options.filename := Stored(options, clock)], other) ==
      (other == "" || LocalMemoryExists(dirExists, files, other))
  {
  }

  /**
   * A memory saved under a name but with an empty topic or content is stored (the file
   * exists) but reads back as no memory at all.
   */
  lemma IncompleteSaveReadsAbsent(files: map<string, StoredFile>, options: SaveMemoryOptions, clock: Clock)
    requires options.filename != "" && (options.topic == "" || options.content == "")
    ensures LocalMemoryExists(true, files[options.filename := Stored(options, clock)], options.filename)
    ensures ReadLocalMemory(files[options.filename := Stored(options, clock)], options.filename) == None
  {
  }

  /** A memory saved under a `.json` name shows up in the directory listing afterwards. */
  lemma SaveThenListed(files: map<string, StoredFile>, options: SaveMemoryOptions, clock: Clock)
    requires IsJsonName(options.filename)
    ensures options.filename in ListLocalMemories(true, files[options.filename := Stored(options, clock)])
  {
  }
}
