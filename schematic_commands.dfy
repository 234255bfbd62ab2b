/**
 * The `load`, `save`, `delete` and `list` commands over an abstract model of
 * the schematic directory and the player's session.
 *
 * The store maps each existing path to what is there. The path resolvers,
 * the format registry, the readers and writers and the platform's directory
 * listing are not part of this model: their results are parameters.
 */
module SchematicCommands {
  import opened Wrappers
  import opened SchematicFiles
  import opened SchematicOrder
  import opened SchematicText
  import opened ExceptionConverter

  /** A path as its segments, the first of which names the filesystem root ("" for "/"). */
  type Path = seq<string>

  /** File.getParentFile: the path without its last segment, or null for a root. */
  function Parent(p: Path): Option<Path> {
    if |p| <= 1 then None else Some(p[..|p| - 1])
  }

  /** File.getPath: the segments joined by "/". */
  function PathName(p: Path): string {
    Join(p, "/")
  }

  datatype Vector = Vector(x: int, y: int, z: int)
  datatype Region = Region(minimum: Vector, maximum: Vector)

  /** A clipboard: its region and origin. Its block contents are not modelled. */
  datatype Clipboard = Clipboard(region: Region, origin: Vector)

  /** An affine transform as its twelve row-major coefficients. */
  datatype Transform = Transform(coefficients: seq<real>) {
    predicate IsIdentity() {
      coefficients == IdentityCoefficients
    }
  }

  const IdentityCoefficients: seq<real> := [1.0, 0.0, 0.0, 0.0, 0.0, 1.0, 0.0, 0.0, 0.0, 0.0, 1.0, 0.0]
  const IdentityTransform: Transform := Transform(IdentityCoefficients)

  /** The world's block registry the clipboard was read or is written against. */
  datatype WorldData = WorldData(id: nat)

  /** ClipboardHolder: the clipboard, its pending transform and its world data. */
  datatype ClipboardHolder = ClipboardHolder(clipboard: Clipboard, transform: Transform, worldData: WorldData)

  /** What a file holds, as far as this model tells: opaque bytes, a complete encoding, or a partial one. */
  datatype Contents =
    | Opaque
    | Encoded(format: Format, clipboard: Clipboard, worldData: WorldData)
    | Truncated(format: Format)

  datatype FileEntry = StoredDirectory | StoredFile(lastModified: int, contents: Contents)

  /** The result of getSafeOpenFile or getSafeSaveFile: a path, or the FilenameException it throws. */
  datatype Resolution = Resolved(path: Path) | Rejected(error: WorldEditError)

  /** What opening the output stream and writing the clipboard did. */
  datatype WriteStep = Written | OpenFailed(message: string) | EncodeFailed(message: string)

  /** The platform's answers during one save: whether mkdirs succeeds, the write, and the clock. */
  datatype SaveEnvironment = SaveEnvironment(mkdirsSucceeds: bool, write: WriteStep, now: int)

  /** How a command ended: an exception it throws, or what it printed. */
  datatype Outcome =
    | Thrown(error: WorldEditError)
    | CommandFailed(exception: CommandException)
    | NotFound
    | UnknownFormat
    | IoFailure(message: string)
    | DeleteRefused
    | Done

  const DirectoryCreationMessage: string := "Ошибка при создании папки сохранения!"
  const NoSchematicDirectoryMessage: string := "Папка схем не найдена."

  /**
   * The clipboard written by `save`: with an identity transform the source
   * clipboard itself, otherwise a new clipboard over the transformed region
   * whose origin is copied from the source.
   */
  function Bake(holder: ClipboardHolder, transformedRegion: (Clipboard, Transform) -> Region): (target: Clipboard)
    ensures holder.transform.IsIdentity() ==> target == holder.clipboard
    ensures !holder.transform.IsIdentity() ==> target.region == transformedRegion(holder.clipboard, holder.transform)
    ensures target.origin == holder.clipboard.origin
  {
    if holder.transform.IsIdentity() then holder.clipboard
    else Clipboard(transformedRegion(holder.clipboard, holder.transform), holder.clipboard.origin)
  }

  /** Every ancestor of p, from the filesystem root down to p itself. */
  function Ancestors(p: Path): set<Path> {
    set i | 1 <= i <= |p| :: p[..i]
  }

  /** The store after mkdirs(dir) succeeds: every missing ancestor of dir, and dir, is a directory. */
  function CreateDirectories(files: map<Path, FileEntry>, dir: Path): (r: map<Path, FileEntry>)
    ensures r.Keys == files.Keys + Ancestors(dir)
    ensures forall q :: q in files ==> r[q] == files[q]
    ensures forall q :: q in r && q !in files ==> r[q] == StoredDirectory
    ensures |dir| >= 1 ==> dir in r && r[dir] == if dir in files then files[dir] else StoredDirectory
  {
    assert |dir| >= 1 ==> dir[..|dir|] == dir;
    files + map q | q in Ancestors(dir) && q !in files :: StoredDirectory
  }

  /** The store and session the commands act on. */
  class Workspace {
    var files: map<Path, FileEntry>
    /** The paths whose delete the filesystem refuses. */
    var undeletable: set<Path>
    /** The session's clipboard; None when the session holds none. */
    var clipboard: Option<ClipboardHolder>

    constructor (files: map<Path, FileEntry>, undeletable: set<Path>, clipboard: Option<ClipboardHolder>)
      ensures this.files == files && this.undeletable == undeletable && this.clipboard == clipboard
    {
      this.files := files;
      this.undeletable := undeletable;
      this.clipboard := clipboard;
    }

    /**
     * `load`: a missing file is reported before the format is looked up; an
     * unknown format or a failed read leaves the session alone; a successful
     * read binds a new holder of exactly the clipboard read, with no transform.
     * `read` stands for opening the file and running the format's reader.
     */
    method Load(target: Resolution, formatName: string, findByAlias: string -> Option<Format>,
                read: (Format, FileEntry) -> Result<Clipboard, string>, worldData: WorldData)
      returns (outcome: Outcome)
      modifies this`clipboard
      ensures target.Rejected? ==> outcome == Thrown(target.error) && clipboard == old(clipboard)
      ensures target.Resolved? && target.path !in files ==> outcome == NotFound && clipboard == old(clipboard)
      ensures (target.Resolved? && target.path in files && findByAlias(formatName).None?)
                ==> outcome == UnknownFormat && clipboard == old(clipboard)
      ensures target.Resolved? && target.path in files && findByAlias(formatName).Some? ==>
                match read(findByAlias(formatName).value, files[target.path])
                case Failure(message) => outcome == IoFailure(message) && clipboard == old(clipboard)
                case Success(c) => outcome == Done && clipboard == Some(ClipboardHolder(c, IdentityTransform, worldData))
      ensures outcome != Done ==> clipboard == old(clipboard)
    {
      if target.Rejected? {
        return Thrown(target.error);
      }
      var f := target.path;
      if f !in files {
        return NotFound;
      }
      var format := findByAlias(formatName);
      if format.None? {
        return UnknownFormat;
      }
      var result := read(format.value, files[f]);
      if result.Failure? {
        return IoFailure(result.error);
      }
      clipboard := Some(ClipboardHolder(result.value, IdentityTransform, worldData));
      outcome := Done;
    }

    /**
     * `save`: an unknown format returns before the session clipboard is read;
     * a missing parent directory that cannot be created throws before any file
     * is opened; otherwise the baked clipboard is written, and a write that
     * fails after opening leaves a truncated file behind.
     */
    method Save(target: Resolution, formatName: string, findByAlias: string -> Option<Format>,
                transformedRegion: (Clipboard, Transform) -> Region, env: SaveEnvironment)
      returns (outcome: Outcome)
      modifies this`files
      ensures target.Rejected? ==> outcome == Thrown(target.error) && files == old(files)
      ensures target.Resolved? && findByAlias(formatName).None? ==> outcome == UnknownFormat && files == old(files)
      ensures (target.Resolved? && findByAlias(formatName).Some? && clipboard.None?)
                ==> outcome == Thrown(EmptyClipboard) && files == old(files)
      ensures target.Resolved? && findByAlias(formatName).Some? && clipboard.Some? ==>
                var f, format, holder := target.path, findByAlias(formatName).value, clipboard.value;
                var missingParent := Parent(f).Some? && Parent(f).value !in old(files);
                if missingParent && !env.mkdirsSucceeds then
                  outcome == CommandFailed(CommandException(DirectoryCreationMessage, None)) && files == old(files)
                else
                  var prepared := if missingParent then CreateDirectories(old(files), Parent(f).value) else old(files);
                  match env.write
                  case OpenFailed(message) => outcome == IoFailure(message) && files == prepared
                  case EncodeFailed(message) =>
                    outcome == IoFailure(message) && files == prepared[f := StoredFile(env.now, Truncated(format))]
                  case Written =>
                    outcome == Done
                    && files == prepared[f := StoredFile(env.now, Encoded(format, Bake(holder, transformedRegion), holder.worldData))]
    {
      if target.Rejected? {
        return Thrown(target.error);
      }
      var f := target.path;
      var format := findByAlias(formatName);
      if format.None? {
        return UnknownFormat;
      }
      if clipboard.None? {
        return Thrown(EmptyClipboard);
      }
      var holder := clipboard.value;
      var targetClipboard := Bake(holder, transformedRegion);

      var parent := Parent(f);
      if parent.Some? && parent.value !in files {
        if !env.mkdirsSucceeds {
          return CommandFailed(CommandException(DirectoryCreationMessage, None));
        }
        files := CreateDirectories(files, parent.value);
      }

      if env.write.OpenFailed? {
        return IoFailure(env.write.message);
      }
      if env.write.EncodeFailed? {
        files := files[f := StoredFile(env.now, Truncated(format.value))];
        return IoFailure(env.write.message);
      }
      files := files[f := StoredFile(env.now, Encoded(format.value, targetClipboard, holder.worldData))];
      outcome := Done;
    }

    /**
     * `delete`: a missing file is reported and nothing changes; a refused
     * delete is reported and the file stays; otherwise exactly that path is
     * removed from the store.
     */
    method Delete(target: Resolution) returns (outcome: Outcome)
      modifies this`files
      ensures target.Rejected? ==> outcome == Thrown(target.error) && files == old(files)
      ensures target.Resolved? && target.path !in old(files) ==> outcome == NotFound && files == old(files)
      ensures (target.Resolved? && target.path in old(files) && target.path in undeletable)
                ==> outcome == DeleteRefused && files == old(files) && target.path in files
      ensures (target.Resolved? && target.path in old(files) && target.path !in undeletable)
                ==> outcome == Done && files == old(files) - {target.path} && target.path !in files
    {
      if target.Rejected? {
        return Thrown(target.error);
      }
      var f := target.path;
      if f !in files {
        return NotFound;
      }
      if f in undeletable {
        return DeleteRefused;
      }
      files := files - {f};
      outcome := Done;
    }

    /** The catalog node of a stored path, with the format that content detection reports. */
    function NodeOf(p: Path, findByFile: Path -> Option<Format>): (n: Node)
      reads this
      requires p in files && Parent(p).Some?
      ensures IsFile(n) <==> files[p].StoredFile?
      ensures files[p].StoredFile? ==> n.kind == RegularFile(files[p].lastModified, findByFile(p))
      ensures n.name == p[|p| - 1]
    {
      match files[p]
      case StoredFile(lastModified, _) => Node(p[|p| - 1], RegularFile(lastModified, findByFile(p)))
      case StoredDirectory => Node(p[|p| - 1], Directory([]))
    }

    /** dir.listFiles(File::isFile): the regular files of the listing, in listing order. */
    function RegularFilesOf(listing: seq<Path>, findByFile: Path -> Option<Format>): (nodes: seq<Node>)
      reads this
      requires forall p :: p in listing ==> p in files && Parent(p).Some?
      ensures AllFiles(nodes)
      ensures |nodes| <= |listing|
      ensures forall p :: p in listing && files[p].StoredFile? ==> NodeOf(p, findByFile) in nodes
      ensures forall n :: n in nodes ==> exists p :: p in listing && files[p].StoredFile? && n == NodeOf(p, findByFile)
    {
      if listing == [] then []
      else
        var last := listing[|listing| - 1];
        RegularFilesOf(listing[..|listing| - 1], findByFile)
        + if files[last].StoredFile? then [NodeOf(last, findByFile)] else []
    }

    /**
     * `list`: the entries of dir in the order the platform lists them (None when
     * listFiles returns null), keeps the regular files, sorts them by the key the
     * flags choose and prints the header and their listing.
     */
    method List(dir: Path, listing: Option<seq<Path>>, oldestFirst: bool, newestFirst: bool,
                findByFile: Path -> Option<Format>)
      returns (printed: Result<seq<string>, WorldEditError>, shown: seq<Node>)
      requires listing.Some? ==> dir in files && files[dir] == StoredDirectory
      requires listing.Some? ==> forall p :: p in listing.value ==> p in files && Parent(p) == Some(dir)
      requires listing.Some? ==> forall p :: p in files && Parent(p) == Some(dir) ==> p in listing.value
      ensures listing.None? ==> printed == Failure(FilenameResolution(PathName(dir), NoSchematicDirectoryMessage))
      ensures listing.Some? ==>
                && printed == Success([ListHeader, Listing("", shown)])
                && AllFiles(shown)
                && Sorted(shown, SortType(oldestFirst, newestFirst))
                && multiset(shown) == multiset(RegularFilesOf(listing.value, findByFile))
    {
      if listing.None? {
        return Failure(FilenameResolution(PathName(dir), NoSchematicDirectoryMessage)), [];
      }
      var nodes := RegularFilesOf(listing.value, findByFile);
      shown := SortedCopy(nodes, SortType(oldestFirst, newestFirst));
      var text := ListFiles("", shown);
      printed := Success([ListHeader, text]);
    }
  }

  /** The files array of `list`, sorted in place by Arrays.sort. */
  method SortedCopy(nodes: seq<Node>, sortType: int) returns (shown: seq<Node>)
    requires AllFiles(nodes)
    ensures Sorted(shown, sortType) && multiset(shown) == multiset(nodes) && AllFiles(shown)
  {
    var a := new Node[|nodes|](i requires 0 <= i < |nodes| => nodes[i]);
    assert a[..] == nodes;
    SortFiles(a, sortType);
    shown := a[..];
    assert forall k :: 0 <= k < |shown| ==> shown[k] in multiset(nodes);
  }

  /**
   * Saving and then loading the same file with a format whose reader
   * decodes what its writer encoded binds the baked clipboard to the session.
   */
  method SaveThenLoad(w: Workspace, f: Path, formatName: string, findByAlias: string -> Option<Format>,
                      transformedRegion: (Clipboard, Transform) -> Region, now: int,
                      read: (Format, FileEntry) -> Result<Clipboard, string>, worldData: WorldData)
    returns (saved: Outcome, loaded: Outcome)
    requires findByAlias(formatName).Some? && w.clipboard.Some?
    requires forall t: int, c: Clipboard, wd: WorldData ::
               read(findByAlias(formatName).value, StoredFile(t, Encoded(findByAlias(formatName).value, c, wd))) == Success(c)
    modifies w
    ensures saved == Done && loaded == Done
    ensures w.clipboard == Some(ClipboardHolder(Bake(old(w.clipboard).value, transformedRegion), IdentityTransform, worldData))
  {
    saved := w.Save(Resolved(f), formatName, findByAlias, transformedRegion, SaveEnvironment(true, Written, now));
    loaded := w.Load(Resolved(f), formatName, findByAlias, read, worldData);
  }
}
