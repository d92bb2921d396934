/** The persisted player-stats record (utils/database.ts). The browser's
    localStorage is a string-keyed map whose values here are already classified
    by what JSON.parse makes of them; the record is read with a fallback and a
    migration, and written back as a merge of the current record and a patch. */
module Database {
  import opened Types
  import opened Characters

  /** The storage key of the stats record. */
  const DB_KEY: string := "NEON_FRACTURE_DB_V2"

  /** A parsed record as it was stored; records from before the shop have no
      inventory. */
  datatype StoredRecord = StoredRecord(
    credits: int,
    highestLevel: int,
    totalDeaths: int,
    gamesPlayed: int,
    lastLogin: string,
    inventory: Option<seq<string>>,
    equippedCharacterId: string)

  /** A stored string: the empty string (falsy), one JSON.parse rejects, or a
      parsed record. */
  datatype Entry = Blank | Corrupt | Json(record: StoredRecord)

  /** A `Partial<PlayerStats>`: the fields a save overwrites. */
  datatype StatsPatch = StatsPatch(
    credits: Option<int>,
    highestLevel: Option<int>,
    totalDeaths: Option<int>,
    gamesPlayed: Option<int>,
    lastLogin: Option<string>,
    inventory: Option<seq<string>>,
    equippedCharacterId: Option<string>)

  const NO_CHANGES: StatsPatch := StatsPatch(None, None, None, None, None, None, None)

  /** The fallback record. Its timestamp is taken once, when the module is
      loaded, so every fallback in a session carries the same `loadTime`. */
  function DefaultStats(loadTime: string): PlayerStats {
    PlayerStats(500, 0, 0, 0, loadTime, [CHARACTERS[0].id], CHARACTERS[0].id)
  }

  /** A parsed record as the game sees it: one without an inventory is given the
      starter inventory and has its equipped frame reset to the starter frame. */
  function Migrate(r: StoredRecord): PlayerStats {
    match r.inventory
    case None =>
      PlayerStats(r.credits, r.highestLevel, r.totalDeaths, r.gamesPlayed, r.lastLogin,
                  [CHARACTERS[0].id], CHARACTERS[0].id)
    case Some(inv) =>
      PlayerStats(r.credits, r.highestLevel, r.totalDeaths, r.gamesPlayed, r.lastLogin,
                  inv, r.equippedCharacterId)
  }

  /** `getDatabase` on the value stored under DB_KEY (None when the key is absent). */
  function Decode(raw: Option<Entry>, loadTime: string): PlayerStats {
    match raw
    case None => DefaultStats(loadTime)
    case Some(Blank) => DefaultStats(loadTime)
    case Some(Corrupt) => DefaultStats(loadTime)
    case Some(Json(r)) => Migrate(r)
  }

  /** JSON.stringify of a record, as JSON.parse reads it back. */
  function Encode(s: PlayerStats): Entry {
    Json(StoredRecord(s.credits, s.highestLevel, s.totalDeaths, s.gamesPlayed, s.lastLogin,
                      Some(s.inventory), s.equippedCharacterId))
  }

  function Pick<T>(o: Option<T>, d: T): T {
    if o.Some? then o.value else d
  }

  /** `{ ...current, ...patch, lastLogin: now }`. */
  function Merge(current: PlayerStats, patch: StatsPatch, now: string): PlayerStats {
    PlayerStats(
      Pick(patch.credits, current.credits),
      Pick(patch.highestLevel, current.highestLevel),
      Pick(patch.totalDeaths, current.totalDeaths),
      Pick(patch.gamesPlayed, current.gamesPlayed),
      now,
      Pick(patch.inventory, current.inventory),
      Pick(patch.equippedCharacterId, current.equippedCharacterId))
  }

  // ---------------------------------------------------------------------------
  // Properties of reading and writing.

  /** The fallback record: 500 credits, no progress, and the starter frame both
      owned and equipped. */
  lemma DefaultRecord(loadTime: string)
    ensures var d := DefaultStats(loadTime);
      && d.credits == 500 && d.highestLevel == 0 && d.totalDeaths == 0 && d.gamesPlayed == 0
      && d.inventory == ["frame_v01"] && d.equippedCharacterId == "frame_v01"
      && d.equippedCharacterId in d.inventory
      && GetCharacterById(d.equippedCharacterId) == CHARACTERS[0]
  {
    DefaultIsStandardFrame();
  }

  /** With nothing stored, or an empty string, the fallback record is read. */
  lemma MissingYieldsDefault(raw: Option<Entry>, loadTime: string)
    requires raw == None || raw == Some(Blank)
    ensures Decode(raw, loadTime) == DefaultStats(loadTime)
  {
  }

  /** A stored value JSON.parse rejects is read as the fallback record. */
  lemma CorruptYieldsDefault(loadTime: string)
    ensures Decode(Some(Corrupt), loadTime) == DefaultStats(loadTime)
  {
  }

  /** A parsed record without an inventory keeps its other fields, gets the
      starter inventory, and has its equipped frame replaced by the starter frame. */
  lemma MigrationKeepsProgress(r: StoredRecord, loadTime: string)
    requires r.inventory.None?
    ensures var s := Decode(Some(Json(r)), loadTime);
      && s.credits == r.credits && s.highestLevel == r.highestLevel
      && s.totalDeaths == r.totalDeaths && s.gamesPlayed == r.gamesPlayed
      && s.lastLogin == r.lastLogin
      && s.inventory == [CHARACTERS[0].id] && s.equippedCharacterId == CHARACTERS[0].id
  {
  }

  /** A parsed record with an inventory (even an empty one) is read unchanged:
      writing it back gives the stored value again. */
  lemma ParsedRecordKept(r: StoredRecord, loadTime: string)
    requires r.inventory.Some?
    ensures Encode(Decode(Some(Json(r)), loadTime)) == Json(r)
  {
  }

  /** Whatever is written is read back: a save followed by a read returns the
      saved record. */
  lemma RoundTrip(s: PlayerStats, loadTime: string)
    ensures Decode(Some(Encode(s)), loadTime) == s
  {
  }

  /** Every field given in the patch takes the patch's value, lastLogin becomes
      `now`, and every other field keeps the current record's value: Merge read
      field by field, as the reference for what a save writes. */
  lemma MergeFields(current: PlayerStats, patch: StatsPatch, now: string)
    ensures var u := Merge(current, patch, now);
      && u.lastLogin == now
      && (patch.credits.Some? ==> u.credits == patch.credits.value)
      && (patch.credits.None? ==> u.credits == current.credits)
      && (patch.highestLevel.Some? ==> u.highestLevel == patch.highestLevel.value)
      && (patch.highestLevel.None? ==> u.highestLevel == current.highestLevel)
      && (patch.totalDeaths.Some? ==> u.totalDeaths == patch.totalDeaths.value)
      && (patch.totalDeaths.None? ==> u.totalDeaths == current.totalDeaths)
      && (patch.gamesPlayed.Some? ==> u.gamesPlayed == patch.gamesPlayed.value)
      && (patch.gamesPlayed.None? ==> u.gamesPlayed == current.gamesPlayed)
      && (patch.inventory.Some? ==> u.inventory == patch.inventory.value)
      && (patch.inventory.None? ==> u.inventory == current.inventory)
      && (patch.equippedCharacterId.Some? ==> u.equippedCharacterId == patch.equippedCharacterId.value)
      && (patch.equippedCharacterId.None? ==> u.equippedCharacterId == current.equippedCharacterId)
  {
  }

  /** Saving the same patch twice at the same time is the same as saving it once. */
  lemma MergeIdempotent(current: PlayerStats, patch: StatsPatch, now: string)
    ensures Merge(Merge(current, patch, now), patch, now) == Merge(current, patch, now)
  {
  }

  /** An empty patch only refreshes the timestamp; a patched lastLogin is ignored. */
  lemma MergeOnlyStamps(current: PlayerStats, patch: StatsPatch, now: string)
    requires patch == NO_CHANGES.(lastLogin := patch.lastLogin)
    ensures Merge(current, patch, now) == current.(lastLogin := now)
  {
  }

  /** localStorage, holding the stats record under DB_KEY among other keys. */
  class Store {
    var storage: map<string, Entry>
    /** The time DEFAULT_STATS was built. */
    const loadTime: string

    constructor (initial: map<string, Entry>, loadTime: string)
      ensures storage == initial && this.loadTime == loadTime
    {
      storage := initial;
      this.loadTime := loadTime;
    }

    function Raw(): Option<Entry>
      reads this
    {
      if DB_KEY in storage then Some(storage[DB_KEY]) else None
    }

    /** `getDatabase()`. */
    function GetDatabase(): PlayerStats
      reads this
    {
      Decode(Raw(), loadTime)
    }

    /** `saveDatabase(patch)` at time `now`: stores and returns the merge of the
        current record and the patch, which the next read returns. */
    method SaveDatabase(patch: StatsPatch, now: string) returns (updated: PlayerStats)
      modifies this
      ensures updated == Merge(old(GetDatabase()), patch, now)
      ensures storage == old(storage)[DB_KEY := Encode(updated)]
      ensures GetDatabase() == updated
    {
      var current := GetDatabase();
      updated := Merge(current, patch, now);
      storage := storage[DB_KEY := Encode(updated)];
      RoundTrip(updated, loadTime);
    }

    /** `resetDatabase()`: stores and returns the fallback record. */
    method ResetDatabase() returns (r: PlayerStats)
      modifies this
      ensures r == DefaultStats(loadTime)
      ensures storage == old(storage)[DB_KEY := Encode(r)]
      ensures GetDatabase() == r
    {
      r := DefaultStats(loadTime);
      storage := storage[DB_KEY := Encode(r)];
      RoundTrip(r, loadTime);
    }
  }
}
