// The JSON values kept in the desktop app's key-value store, and the store
// itself: an in-memory map that `save` writes to disk.
module AppStore {
  import opened Wrappers
  import opened Ints

  /** A `serde_json::Value`; integers keep their exact value, floats are not modelled. */
  datatype Json =
    | Null
    | Bool(b: bool)
    | Int(i: int)
    | Float
    | Str(s: string)
    | Arr(items: seq<Json>)
    | Obj(fields: map<string, Json>)

  /** `Value::as_u64`: an integer that fits in `u64`, else nothing. */
  function AsU64(v: Json): (r: Option<nat>)
    ensures r.Some? <==> v.Int? && 0 <= v.i < U64_LIMIT
    ensures r.Some? ==> r.value == v.i
  {
    match v
    case Int(i) => if 0 <= i < U64_LIMIT then Some(i) else None
    case _ => None
  }

  /**
   * The store named "store" of the store plugin. `openError` is set when
   * opening it fails; `entries` is its in-memory content and `persisted`
   * what was last saved to disk.
   */
  class PluginStore {
    const openError: Option<string>
    var entries: map<string, Json>
    var persisted: map<string, Json>

    constructor (openError: Option<string>, entries: map<string, Json>)
      ensures this.openError == openError && this.entries == entries && this.persisted == entries
    {
      this.openError := openError;
      this.entries := entries;
      this.persisted := entries;
    }

    /** `store.get(key)`. */
    function Get(key: string): (r: Option<Json>)
      reads this
      ensures r.Some? <==> key in entries
      ensures r.Some? ==> r.value == entries[key]
    {
      if key in entries then Some(entries[key]) else None
    }

    /** `store.set(key, value)`: changes the in-memory content only. */
    method Set(key: string, value: Json)
      requires openError.None?
      modifies this`entries
      ensures entries == old(entries)[key := value]
    {
      entries := entries[key := value];
    }

    /** `store.save()`: persists the in-memory content unless the write fails with `error`. */
    method Save(error: Option<string>) returns (r: Result<(), string>)
      requires openError.None?
      modifies this`persisted
      ensures error.None? ==> r == Ok(()) && persisted == entries
      ensures error.Some? ==> r == Err(error.value) && persisted == old(persisted)
    {
      if error.Some? {
        return Err(error.value);
      }
      persisted := entries;
      return Ok(());
    }
  }
}
