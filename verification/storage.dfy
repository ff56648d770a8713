/**
 * The key-value persistence contract of src/hooks/useLocalStorage.ts: the record
 * shapes kept in browser storage, their default values, and the hook that loads a
 * key once (falling back to a default) and then writes every update through.
 *
 * The browser storage is a map from keys to entries. JSON encoding is modelled as
 * an abstract round trip: an entry is either the encoding of a value, or some other
 * text (the empty string, or text that does not parse).
 */
module Storage {
  import opened Wrappers

  datatype Theme = Light | Dark

  /** `Settings` (lines 27-34); `sessionTimeout` is in seconds, 0 = no timeout. */
  datatype Settings = Settings(
    sensitivity: int,
    minHitInterval: int,
    theme: Theme,
    soundEnabled: bool,
    language: string,
    sessionTimeout: real)

  /** The `type` field of a score record. */
  datatype ScoreKind = Free | Timed | Target

  /** `Score` (lines 36-43); `duration` is in seconds. */
  datatype Score = Score(
    id: string,
    score: nat,
    date: string,
    duration: real,
    kind: ScoreKind,
    longestRally: nat)

  /** `Stats` (lines 45-51). */
  datatype Stats = Stats(
    totalHits: nat,
    longestRally: nat,
    totalSessions: nat,
    averageRallyLength: real,
    totalPlayTime: real)

  /** A value the program keeps under one of its keys. */
  datatype Value =
    | SettingsValue(settings: Settings)
    | ScoresValue(scores: seq<Score>)
    | StatsValue(stats: Stats)

  /** What storage holds for a key: the JSON text of a value, or any other text. */
  datatype Entry = Json(value: Value) | Text(raw: string)

  const SettingsKey: string := "rallycounter-settings"
  const ScoresKey: string := "rallycounter-scores"
  const StatsKey: string := "rallycounter-stats"

  const DefaultSettings: Settings :=
    Settings(25, 200, Light, true, "en", 3.0)
  const DefaultScores: seq<Score> := []
  const DefaultStats: Stats := Stats(0, 0, 0, 0.0, 0.0)

  /** `JSON.stringify` */
  function Encode(v: Value): Entry {
    Json(v)
  }

  /** `JSON.parse`, which fails on anything that is not an encoded value */
  function Decode(e: Entry): Option<Value> {
    match e
    case Json(v) => Some(v)
    case Text(_) => None
  }

  lemma DecodeEncode(v: Value)
    ensures Decode(Encode(v)) == Some(v)
  {
  }

  /**
   * The initial load of the hook. `readable` is false when reading storage throws
   * (storage unavailable); a missing key, an empty text and a text that does not
   * parse all give the initial value, and no error escapes.
   */
  function LoadOrDefault(entries: map<string, Entry>, readable: bool, key: string, initial: Value): (v: Value)
    ensures readable && key in entries && entries[key].Json? ==> v == entries[key].value
    ensures !readable || key !in entries || entries[key].Text? ==> v == initial
  {
    if !readable || key !in entries then initial
    else match Decode(entries[key])
      case Some(stored) => stored
      case None => initial
  }

  /** The write of `setValue`: the key now holds the encoding of `v`. */
  function Store(entries: map<string, Entry>, key: string, v: Value): (e: map<string, Entry>)
    ensures e.Keys == entries.Keys + {key}
    ensures Decode(e[key]) == Some(v)
    ensures forall k :: k in entries && k != key ==> e[k] == entries[k]
  {
    entries[key := Encode(v)]
  }

  /**
   * A value written with `setValue` is what a later load of the same key returns,
   * whatever its default; loads of every other key are unaffected.
   */
  lemma LoadAfterStore(entries: map<string, Entry>, key: string, v: Value, initial: Value, other: string, otherInitial: Value, readable: bool)
    ensures LoadOrDefault(Store(entries, key, v), true, key, initial) == v
    ensures other != key ==>
      LoadOrDefault(Store(entries, key, v), readable, other, otherInitial) == LoadOrDefault(entries, readable, other, otherInitial)
  {
  }

  /**
   * On first use, with none of the three keys stored, `useSettings`, `useHighscores`
   * and `useStats` (lines 53-79) start from their defaults: sensitivity 25, a 200 ms
   * minimum hit interval, a 3-second session timeout, no scores and all-zero stats.
   */
  lemma FirstRunDefaults(entries: map<string, Entry>, readable: bool)
    requires SettingsKey !in entries && ScoresKey !in entries && StatsKey !in entries
    ensures var s := LoadOrDefault(entries, readable, SettingsKey, SettingsValue(DefaultSettings));
      s.SettingsValue? && s.settings.sensitivity == 25 && s.settings.minHitInterval == 200 &&
      s.settings.sessionTimeout == 3.0 && s.settings.theme == Light && s.settings.soundEnabled &&
      s.settings.language == "en"
    ensures LoadOrDefault(entries, readable, ScoresKey, ScoresValue(DefaultScores)) == ScoresValue([])
    ensures var st := LoadOrDefault(entries, readable, StatsKey, StatsValue(DefaultStats));
      st.StatsValue? && st.stats.totalHits == 0 && st.stats.longestRally == 0 &&
      st.stats.totalSessions == 0 && st.stats.averageRallyLength == 0.0 && st.stats.totalPlayTime == 0.0
  {
  }

  /** `window.localStorage`: one map shared by all keys. */
  class LocalStorage {
    var entries: map<string, Entry>

    constructor (initialEntries: map<string, Entry>)
      ensures entries == initialEntries
    {
      entries := initialEntries;
    }
  }

  /**
   * One `useLocalStorage(key, initialValue)` hook: the in-memory `storedValue`
   * and the storage it writes through to.
   */
  class Cell {
    const storage: LocalStorage
    const key: string
    const initial: Value
    var stored: Value

    /** The lazy initial state (useLocalStorage.ts:4-12). */
    constructor (storage: LocalStorage, key: string, initial: Value, readable: bool)
      ensures this.storage == storage && this.key == key && this.initial == initial
      ensures stored == LoadOrDefault(storage.entries, readable, key, initial)
    {
      this.storage := storage;
      this.key := key;
      this.initial := initial;
      if !readable || key !in storage.entries {
        stored := initial;
      } else {
        match Decode(storage.entries[key])
        case Some(v) => stored := v;
        case None => stored := initial;
      }
    }

    /**
     * `setValue(v)`: the in-memory value is updated first; then the entry for this
     * key is written, unless the write fails (`writeOk` false), which is swallowed.
     */
    method SetValue(v: Value, writeOk: bool)
      modifies this, storage
      ensures stored == v
      ensures storage.entries == if writeOk then Store(old(storage.entries), key, v) else old(storage.entries)
    {
      stored := v;
      if writeOk {
        storage.entries := storage.entries[key := Encode(v)];
      }
    }

    /** `setValue(f)`: stores `f` applied to the current value. */
    method Update(f: Value -> Value, writeOk: bool)
      modifies this, storage
      ensures stored == f(old(stored))
      ensures storage.entries == if writeOk then Store(old(storage.entries), key, f(old(stored))) else old(storage.entries)
    {
      var next := f(stored);
      SetValue(next, writeOk);
    }
  }
}
