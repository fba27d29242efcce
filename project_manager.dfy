/**
 * The JSON-backed project store: one file that holds the list of projects.
 *
 * The file system is an environment object, `JsonFile`, whose state is the
 * file's decoded content (or its absence, or text that is not JSON) plus what
 * the operating system allows; the manager reads and overwrites that state.
 */
module Store {
  import opened Wrappers
  import opened Json

  /** What the file holds: nothing, a decoded JSON document, or text that does not decode. */
  datatype Content = Missing | Holding(document: Json) | Malformed

  /** Why reading the file failed (all of them end as an empty list in `load_projects`). */
  datatype ReadError = NotFound | Unreadable | DecodeError

  /** Why construction failed: the directory could not be made, or the empty list could not be written. */
  datatype InitError = DirectoryError | CreateError

  /**
   * Why a save raised: the file could not be opened for writing, or the value
   * was written but has no length for the debug message (TypeError).
   */
  datatype WriteError = WriteFailed | NoLength

  /** Why `export_project_to_json` raised. */
  datatype ExportError =
    | NoProjects      // the loaded value is falsy: ValueError("No projects found to export")
    | KeyError        // a non-empty dictionary indexed with the integer 0
    | AttributeError  // element 0 has no `get`: it is not a dictionary

  /** The empty list the store is initialised with. */
  const EMPTY: Json := JArray([])

  /** The file system as seen through one path. */
  class JsonFile {
    var content: Content
    var directoryExists: bool
    const canCreateDirectory: bool
    const canWrite: bool
    const canRead: bool

    constructor(content: Content, directoryExists: bool, canCreateDirectory: bool, canWrite: bool, canRead: bool)
      ensures this.content == content && this.directoryExists == directoryExists
      ensures this.canCreateDirectory == canCreateDirectory && this.canWrite == canWrite && this.canRead == canRead
    {
      this.content := content;
      this.directoryExists := directoryExists;
      this.canCreateDirectory := canCreateDirectory;
      this.canWrite := canWrite;
      this.canRead := canRead;
    }

    /** `path.parent.mkdir(parents=True, exist_ok=True)`. */
    method MakeDirectory() returns (ok: bool)
      modifies this`directoryExists
      ensures ok == (old(directoryExists) || canCreateDirectory)
      ensures directoryExists == ok
    {
      ok := directoryExists || canCreateDirectory;
      directoryExists := ok;
    }

    /** Opening for writing and dumping `document`: the old content is replaced as a whole. */
    method Write(document: Json) returns (ok: bool)
      modifies this`content
      ensures ok == (directoryExists && canWrite)
      ensures content == if ok then Holding(document) else old(content)
    {
      ok := directoryExists && canWrite;
      if ok {
        content := Holding(document);
      }
    }

    /** Opening for reading and `json.load`; `Decode` is its reference definition. */
    method Read() returns (r: Result<Json, ReadError>)
      ensures r == Decode(content, canRead)
    {
      match content
      case Missing => r := Err(NotFound);
      case Malformed => r := if canRead then Err(DecodeError) else Err(Unreadable);
      case Holding(document) => r := if canRead then Ok(document) else Err(Unreadable);
    }
  }

  /** What reading a file gives back. */
  function Decode(content: Content, canRead: bool): (r: Result<Json, ReadError>)
    ensures r.Ok? <==> canRead && content.Holding?
    ensures r.Ok? ==> r.value == content.document
  {
    match content
    case Missing => Err(NotFound)
    case Malformed => if canRead then Err(DecodeError) else Err(Unreadable)
    case Holding(document) => if canRead then Ok(document) else Err(Unreadable)
  }

  /**
   * The shape normalisation of `load_projects`: a dictionary becomes its
   * `projects` member, or the empty list when it has none; anything else is kept.
   */
  function Normalise(decoded: Json): (projects: Json)
    ensures !decoded.JObject? ==> projects == decoded
    ensures decoded.JObject? && "projects" in decoded.members ==> projects == decoded.members["projects"]
    ensures decoded.JObject? && "projects" !in decoded.members ==> projects == EMPTY
  {
    if decoded.JObject? then decoded.Get("projects", EMPTY) else decoded
  }

  /**
   * What `load_projects` returns for a file: the normalised document when its
   * length can be taken for the debug message, and the empty list when reading,
   * decoding or `len` fails.
   */
  function Loaded(content: Content, canRead: bool): (projects: Json)
    ensures projects.HasLength()
    ensures Decode(content, canRead).Err? ==> projects == EMPTY
  {
    match Decode(content, canRead)
    case Err(_) => EMPTY
    case Ok(decoded) =>
      var projects := Normalise(decoded);
      if projects.HasLength() then projects else EMPTY
  }

  /** What `export_project_to_json` makes of the loaded value. */
  function Export(projects: Json): (r: Result<Json, ExportError>)
    ensures r.Ok? ==> projects.JArray? && projects.items != [] && r.value == projects.items[0] && r.value.JObject?
    ensures r == Err(NoProjects) <==> projects.Falsy()
  {
    if projects.Falsy() then Err(NoProjects)
    else match projects
      case JArray(xs) => if xs[0].JObject? then Ok(xs[0]) else Err(AttributeError)
      case JObject(_) => Err(KeyError)
      case _ => Err(AttributeError)
  }

  class ProjectManager {
    const file: JsonFile

    constructor Attach(file: JsonFile)
      ensures this.file == file
    {
      this.file := file;
    }

    /**
     * `ProjectManager(path)`: make the directory, then create the file holding
     * the empty list when it does not exist; an existing file is left as it is,
     * even when it does not decode. Either failure is raised.
     */
    static method Open(file: JsonFile) returns (r: Result<ProjectManager, InitError>)
      modifies file
      ensures r.Ok? ==> fresh(r.value) && r.value.file == file
      ensures var dirOk := old(file.directoryExists) || file.canCreateDirectory;
        && file.directoryExists == dirOk
        && (r == Err(DirectoryError) <==> !dirOk)
        && (r == Err(CreateError) <==> dirOk && old(file.content).Missing? && !file.canWrite)
        && file.content == (if dirOk && old(file.content).Missing? && file.canWrite then Holding(EMPTY) else old(file.content))
    {
      var ok := file.MakeDirectory();
      if !ok {
        return Err(DirectoryError);
      }
      if file.content.Missing? {
        ok := file.Write(EMPTY);
        if !ok {
          return Err(CreateError);
        }
      }
      var manager := new ProjectManager.Attach(file);
      return Ok(manager);
    }

    /**
     * `load_projects`, step by step: never raises, and reading leaves the file
     * as it is. `Loaded` is its reference definition, which the lemmas below use.
     */
    method LoadProjects() returns (projects: Json)
      ensures projects == Loaded(file.content, file.canRead)
    {
      var decoded := file.Read();
      if decoded.Err? {
        return EMPTY;
      }
      projects := decoded.value;
      if projects.JObject? {
        if "projects" in projects.members {
          projects := projects.members["projects"];
        } else {
          projects := EMPTY;
        }
      }
      if !projects.HasLength() {
        projects := EMPTY;
      }
    }

    /**
     * `save_projects`: the whole stored content becomes `projects`; a failed
     * open is raised, and so is the `len` of the debug message for a value that
     * has none (a number, boolean or null), after the file was rewritten.
     */
    method SaveProjects(projects: Json) returns (r: Result<(), WriteError>)
      modifies file`content
      ensures var writable := file.directoryExists && file.canWrite;
        && (r.Ok? <==> writable && projects.HasLength())
        && (r == Err(WriteFailed) <==> !writable)
        && (r == Err(NoLength) <==> writable && !projects.HasLength())
        && file.content == if writable then Holding(projects) else old(file.content)
    {
      var ok := file.Write(projects);
      if !ok {
        return Err(WriteFailed);
      }
      if !projects.HasLength() {
        return Err(NoLength);
      }
      return Ok(());
    }

    /**
     * `export_project_to_json`: the first loaded project, or the error it raises.
     * `Export` of `Loaded` is its reference definition.
     */
    method ExportProjectToJson() returns (r: Result<Json, ExportError>)
      ensures r == Export(Loaded(file.content, file.canRead))
    {
      var projects := LoadProjects();
      if projects.Falsy() {
        return Err(NoProjects);
      }
      match projects
      case JArray(xs) =>
        if xs[0].JObject? {
          r := Ok(xs[0]);
        } else {
          r := Err(AttributeError);
        }
      case JObject(_) => r := Err(KeyError);
      case _ => r := Err(AttributeError);
    }
  }

  // ---------------------------------------------------------------------------
  // Properties of the store
  // ---------------------------------------------------------------------------

  /**
   * Loading what a list file holds returns the list; a dictionary gives its
   * `projects` member when that is a string, list or dictionary, and the empty
   * list otherwise; a number, boolean or null gives the empty list.
   */
  lemma LoadedDocument(document: Json)
    ensures document.JArray? || document.JString? ==> Loaded(Holding(document), true) == document
    ensures document.JObject? && "projects" in document.members && document.members["projects"].HasLength()
            ==> Loaded(Holding(document), true) == document.members["projects"]
    ensures document.JObject? && !("projects" in document.members && document.members["projects"].HasLength())
            ==> Loaded(Holding(document), true) == EMPTY
    ensures !document.HasLength() ==> Loaded(Holding(document), true) == EMPTY
  {
  }

  /** Saving a list and loading it back gives exactly that list; loading only fails back to []. */
  lemma SaveThenLoad(xs: seq<Json>)
    ensures Loaded(Holding(JArray(xs)), true) == JArray(xs)
  {
  }

  /**
   * The documents `load_projects` hands back unchanged after a save are exactly
   * the lists and strings: a saved dictionary is always replaced by its
   * `projects` member or by [], and a saved scalar by [].
   */
  lemma {:induction false} SaveThenLoadExactly(document: Json)
    ensures Loaded(Holding(document), true) == document <==> document.JArray? || document.JString?
  {
    if document.JObject? && "projects" in document.members {
      var inner := document.members["projects"];
      assert inner in document.members.Values;
      assert inner != document;
    }
  }

  /** A file that cannot be found, read or decoded loads as the empty list, which exports as an error. */
  lemma UnreadableExportsNothing(content: Content, canRead: bool)
    requires !(canRead && content.Holding?)
    ensures Loaded(content, canRead) == EMPTY
    ensures Export(Loaded(content, canRead)) == Err(NoProjects)
  {
  }

  /** After saving a non-empty list of dictionaries, the export is its first element. */
  lemma ExportAfterSave(xs: seq<Json>)
    requires xs != [] && xs[0].JObject?
    ensures Export(Loaded(Holding(JArray(xs)), true)) == Ok(xs[0])
  {
  }
}
