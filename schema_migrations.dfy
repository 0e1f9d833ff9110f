// The desktop app's schema version: where it is stored, how it is read back
// with defaults, and the step from version 0 to version 1.
module SchemaMigrations {
  import opened Wrappers
  import opened Ints
  import opened AppStore
  import Migrator

  const SCHEMA_VERSION: u32 := 1
  const SCHEMA_VERSION_KEY: string := "schemaVersion"

  /**
   * The stored schema version: 0 when the store cannot be opened, the key
   * is absent, or its value is not an integer in `u64`; otherwise that
   * integer cut to its low 32 bits (`as u32`).
   */
  function StoredVersion(openError: Option<string>, entries: map<string, Json>): (r: u32)
  {
    if openError.Some? || SCHEMA_VERSION_KEY !in entries then 0
    else
      match AsU64(entries[SCHEMA_VERSION_KEY])
      case None => 0
      case Some(n) => TruncateToU32(n)
  }

  /** Every way of not finding a usable number reads as version 0. */
  lemma {:induction false} VersionDefaultsToZero(openError: Option<string>, entries: map<string, Json>)
    requires openError.Some? || SCHEMA_VERSION_KEY !in entries ||
             !entries[SCHEMA_VERSION_KEY].Int? || entries[SCHEMA_VERSION_KEY].i < 0
    ensures StoredVersion(openError, entries) == 0
  {
  }

  /** A stored version that fits in `u32` is read back exactly; writing a version and reading it back agree. */
  lemma {:induction false} VersionReadBack(entries: map<string, Json>, v: u32)
    ensures StoredVersion(None, entries[SCHEMA_VERSION_KEY := Int(v as int)]) == v
  {
  }

  /** A stored number beyond `u32` wraps: 2^32 reads as version 0, so the v1 migration would run again. */
  lemma {:induction false} OversizedVersionWraps(entries: map<string, Json>)
    ensures StoredVersion(None, entries[SCHEMA_VERSION_KEY := Int(U32_LIMIT)]) == 0
    ensures StoredVersion(None, entries[SCHEMA_VERSION_KEY := Int(U32_LIMIT + 1)]) == 1
  {
  }

  /** `get_schema_version` on the app's store. */
  function GetSchemaVersion(store: PluginStore): u32
    reads store
  {
    StoredVersion(store.openError, store.entries)
  }

  /**
   * `run_migrations`: nothing to do at or above version 1; from version 0
   * the project-renaming migration runs (reporting `v1Outcome`), and only
   * when it succeeds is version 1 recorded and saved. `ranV1` says whether
   * the migration was started.
   */
  method RunMigrations(store: PluginStore, v1Outcome: Result<(), string>, saveError: Option<string>)
    returns (r: Result<(), string>, ranV1: bool)
    modifies store
    ensures old(GetSchemaVersion(store)) >= SCHEMA_VERSION ==>
      r == Ok(()) && !ranV1 && store.entries == old(store.entries) && store.persisted == old(store.persisted)
    ensures old(GetSchemaVersion(store)) < SCHEMA_VERSION ==> ranV1
    ensures old(GetSchemaVersion(store)) < SCHEMA_VERSION && v1Outcome.Err? ==>
      r == v1Outcome && store.entries == old(store.entries) && store.persisted == old(store.persisted)
    ensures old(GetSchemaVersion(store)) < SCHEMA_VERSION && v1Outcome.Ok? && store.openError.Some? ==>
      r == Err("Store not found") && store.entries == old(store.entries) && store.persisted == old(store.persisted)
    ensures old(GetSchemaVersion(store)) < SCHEMA_VERSION && v1Outcome.Ok? && store.openError.None? ==>
      store.entries == old(store.entries)[SCHEMA_VERSION_KEY := Int(1)] &&
      GetSchemaVersion(store) == 1 &&
      (saveError.None? ==> r == Ok(()) && store.persisted == store.entries) &&
      (saveError.Some? ==> r == Err(saveError.value) && store.persisted == old(store.persisted))
  {
    var version := GetSchemaVersion(store);
    if version >= SCHEMA_VERSION {
      return Ok(()), false;
    }
    ranV1 := true;
    if version < 1 {
      if v1Outcome.Err? {
        return v1Outcome, ranV1;
      }
      r := SetSchemaVersion(store, 1, saveError);
      if r.Err? {
        return r, ranV1;
      }
    }
    return Ok(()), ranV1;
  }

  /** `set_schema_version`: records `version` under the schema key and saves the store. */
  method SetSchemaVersion(store: PluginStore, version: u32, saveError: Option<string>) returns (r: Result<(), string>)
    modifies store
    ensures store.openError.Some? ==>
      r == Err("Store not found") && store.entries == old(store.entries) && store.persisted == old(store.persisted)
    ensures store.openError.None? ==>
      store.entries == old(store.entries)[SCHEMA_VERSION_KEY := Int(version as int)] &&
      GetSchemaVersion(store) == version &&
      (saveError.None? ==> r == Ok(()) && store.persisted == store.entries) &&
      (saveError.Some? ==> r == Err(saveError.value) && store.persisted == old(store.persisted))
  {
    if store.openError.Some? {
      return Err("Store not found");
    }
    store.Set(SCHEMA_VERSION_KEY, Int(version as int));
    VersionReadBack(old(store.entries), version);
    r := store.Save(saveError);
  }

  /** `migrations::run`: registers nothing and reports that no migration ran. */
  function RunRegistered(fromSchema: u32): Result<nat, string>
  {
    Ok(0)
  }

  /** It answers exactly as the migration runner does with an empty registry. */
  lemma {:induction false} RunIsEmptyRunner(fromSchema: u32)
    ensures RunRegistered(fromSchema) == Migrator.Outcome(Migrator.Pending([], fromSchema))
  {
    Migrator.NothingPending([], fromSchema);
  }
}
