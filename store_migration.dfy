// Data migrations over persisted JSON: the named stores, editing a JSON file
// in place, and editing one key of the plugin store.
module StoreMigration {
  import opened Wrappers
  import opened AppStore

  /** The stores a data migration can edit. */
  datatype Store = GeneralSettings | Auth | Presets | RecordingSettings | Hotkeys

  /** The key of each store inside the plugin store. */
  function Key(s: Store): string
  {
    match s
    case GeneralSettings => "general_settings"
    case Auth => "auth"
    case Presets => "presets"
    case RecordingSettings => "recording_settings"
    case Hotkeys => "hotkeys"
  }

  /** Each store has its own key. */
  lemma {:induction false} KeysDistinct(a: Store, b: Store)
    requires a != b
    ensures Key(a) != Key(b)
  {
    match a
    case GeneralSettings => assert Key(a)[0] == 'g';
    case Auth => assert Key(a)[0] == 'a';
    case Presets => assert Key(a)[0] == 'p';
    case RecordingSettings => assert Key(a)[0] == 'r';
    case Hotkeys => assert Key(a)[0] == 'h';
  }

  // ---------------------------------------------------------- json_edit_at

  /** Files (path to text) and directories of the file system. */
  class Disk {
    var files: map<string, string>
    var dirs: set<string>

    constructor (files: map<string, string>, dirs: set<string>)
      ensures this.files == files && this.dirs == dirs
    {
      this.files := files;
      this.dirs := dirs;
    }
  }

  /** The text read from `path`: its content, or "{}" when it cannot be read. */
  function ReadOrEmpty(files: map<string, string>, path: string): (r: string)
    ensures path !in files ==> r == "{}"
    ensures path in files ==> r == files[path]
  {
    if path in files then files[path] else "{}"
  }

  /**
   * The text `json_edit_at` is to write for `original`, or the error that
   * stops it first: parsing, then the transform, then pretty-printing.
   * Parsing and printing are foreign and given as functions.
   */
  function EditedText(original: string, parse: string -> Result<Json, string>,
                      transform: Json -> Result<Json, string>,
                      serialize: Json -> Result<string, string>): Result<string, string>
  {
    match parse(original)
    case Err(e) => Err(e)
    case Ok(v) =>
      match transform(v)
      case Err(e) => Err(e)
      case Ok(updated) => serialize(updated)
  }

  /** An unparsable file or a failing transform ends the edit with that error. */
  lemma {:induction false} EditErrorsPropagate(original: string, parse: string -> Result<Json, string>,
                            transform: Json -> Result<Json, string>, serialize: Json -> Result<string, string>)
    ensures parse(original).Err? ==> EditedText(original, parse, transform, serialize) == Err(parse(original).error)
    ensures parse(original).Ok? && transform(parse(original).value).Err? ==>
      EditedText(original, parse, transform, serialize) == Err(transform(parse(original).value).error)
  {
  }

  /**
   * `json_edit_at`: read (absent or unreadable means "{}"), parse,
   * transform, print, create the parent directories, write. Nothing is
   * written unless every step before the write succeeds; `mkdirError` and
   * `writeError` are what the file system reports, if anything.
   */
  method JsonEditAt(disk: Disk, path: string, parent: Option<string>,
                    parse: string -> Result<Json, string>,
                    transform: Json -> Result<Json, string>,
                    serialize: Json -> Result<string, string>,
                    mkdirError: Option<string>, writeError: Option<string>)
    returns (r: Result<(), string>)
    modifies disk
    ensures var text := EditedText(ReadOrEmpty(old(disk.files), path), parse, transform, serialize);
      (text.Err? ==> r == Err(text.error) && disk.files == old(disk.files) && disk.dirs == old(disk.dirs)) &&
      (text.Ok? && parent.Some? && mkdirError.Some? ==>
        r == Err("Failed to create parent dir: " + mkdirError.value) &&
        disk.files == old(disk.files) && disk.dirs == old(disk.dirs)) &&
      (text.Ok? && (parent.None? || mkdirError.None?) ==>
        disk.dirs == old(disk.dirs) + (if parent.Some? then {parent.value} else {}) &&
        (writeError.Some? ==> r == Err("Failed to write JSON file: " + writeError.value) && disk.files == old(disk.files)) &&
        (writeError.None? ==> r == Ok(()) && disk.files == old(disk.files)[path := text.value]))
  {
    var original := ReadOrEmpty(disk.files, path);
    var parsed := parse(original);
    if parsed.Err? {
      return Err(parsed.error);
    }
    var updated := transform(parsed.value);
    if updated.Err? {
      return Err(updated.error);
    }
    var serialized := serialize(updated.value);
    if serialized.Err? {
      return Err(serialized.error);
    }
    if parent.Some? {
      if mkdirError.Some? {
        return Err("Failed to create parent dir: " + mkdirError.value);
      }
      disk.dirs := disk.dirs + {parent.value};
    }
    if writeError.Some? {
      return Err("Failed to write JSON file: " + writeError.value);
    }
    disk.files := disk.files[path := serialized.value];
    return Ok(());
  }

  /** The transform of the file-edit test: the value as an object (empty if it is not one) with "x" set to 1. */
  function InsertX(v: Json): (r: Result<Json, string>)
    ensures r.Ok? && r.value.Obj? && "x" in r.value.fields && r.value.fields["x"] == Int(1)
  {
    var fields := if v.Obj? then v.fields else map[];
    Ok(Obj(fields["x" := Int(1)]))
  }

  /**
   * Editing a file that does not exist yet produces text that reads back as
   * an object holding the inserted key, given a parser that reads "{}" as
   * the empty object and reads printed values back.
   */
  lemma {:induction false} EditCreatesMissingFile(files: map<string, string>, path: string,
                                                  parse: string -> Result<Json, string>,
                                                  serialize: Json -> Result<string, string>)
    requires path !in files
    requires parse("{}") == Ok(Obj(map[]))
    requires forall v :: serialize(v).Ok? && parse(serialize(v).value) == Ok(v)
    ensures var text := EditedText(ReadOrEmpty(files, path), parse, InsertX, serialize);
      text.Ok? && parse(text.value) == Ok(Obj(map["x" := Int(1)]))
  {
    var updated := Obj(map["x" := Int(1)]);
    assert InsertX(Obj(map[])) == Ok(updated) by {
      assert map[]["x" := Int(1)] == map["x" := Int(1)];
    }
    assert serialize(updated).Ok? && parse(serialize(updated).value) == Ok(updated);
  }

  // ------------------------------------------------------------ edit_store

  /** The value `edit_store` hands to the transform: the stored value, or null when the key is absent. */
  function CurrentValue(entries: map<string, Json>, store: Store): (r: Json)
    ensures Key(store) !in entries ==> r == Null
  {
    if Key(store) in entries then entries[Key(store)] else Null
  }

  /**
   * `edit_store`: read the store's key (null when absent), transform it, set
   * it and save. A store that cannot be opened or a failing transform leaves
   * everything as it was; a failing save keeps the new value in memory only.
   */
  method EditStore(plugin: PluginStore, store: Store, transform: Json -> Result<Json, string>, saveError: Option<string>)
    returns (r: Result<(), string>)
    modifies plugin
    ensures plugin.openError.Some? ==>
      r == Err("Store not found: " + plugin.openError.value) &&
      plugin.entries == old(plugin.entries) && plugin.persisted == old(plugin.persisted)
    ensures plugin.openError.None? ==>
      var updated := transform(CurrentValue(old(plugin.entries), store));
      (updated.Err? ==>
        (r == Err(updated.error) &&
         plugin.entries == old(plugin.entries) && plugin.persisted == old(plugin.persisted))) &&
      (updated.Ok? ==>
        (plugin.entries == old(plugin.entries)[Key(store) := updated.value] &&
         (saveError.None? ==> r == Ok(()) && plugin.persisted == plugin.entries) &&
         (saveError.Some? ==>
           (r == Err("Failed to save store: " + saveError.value) && plugin.persisted == old(plugin.persisted)))))
  {
    if plugin.openError.Some? {
      return Err("Store not found: " + plugin.openError.value);
    }
    var current := plugin.Get(Key(store)).UnwrapOr(Null);
    var updated := transform(current);
    if updated.Err? {
      return Err(updated.error);
    }
    plugin.Set(Key(store), updated.value);
    var saved := plugin.Save(saveError);
    if saved.Err? {
      return Err("Failed to save store: " + saved.error);
    }
    return Ok(());
  }
}
