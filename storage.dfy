/** The persistence adapter: the whole document is kept under one fixed key
    of the browser's local store. The store is modelled as a map from keys
    to documents; JSON serialisation is taken to be an exact round trip. */
module Storage {
  import opened Types
  import opened Constants

  const STORAGE_KEY: string := "vyapaar_track_data_v1"

  /** The document written on first run: seed expenses and default taxonomies. */
  function DefaultData(): AppData {
    AppData(INITIAL_EXPENSES, DEFAULT_BUSINESS_UNITS, DEFAULT_CATEGORIES)
  }

  /** The default document holds three expenses, six units and eight categories. */
  lemma DefaultDataShape()
    ensures |DefaultData().expenses| == 3
    ensures |DefaultData().businessUnits| == 6
    ensures |DefaultData().categories| == 8
  {
  }

  class LocalStore {
    var entries: map<string, AppData>

    constructor(initial: map<string, AppData>)
      ensures entries == initial
    {
      entries := initial;
    }

    /** `loadData`: the stored document if there is one; otherwise the default
        document, which is saved before it is returned. */
    method LoadData() returns (d: AppData)
      modifies this
      ensures STORAGE_KEY in old(entries) ==> d == old(entries)[STORAGE_KEY] && entries == old(entries)
      ensures STORAGE_KEY !in old(entries) ==> d == DefaultData() && entries == old(entries)[STORAGE_KEY := d]
      ensures STORAGE_KEY in entries && entries[STORAGE_KEY] == d
    {
      if STORAGE_KEY in entries {
        d := entries[STORAGE_KEY];
      } else {
        d := DefaultData();
        SaveData(d);
      }
    }

    /** `saveData`: overwrites the one key with the whole document. */
    method SaveData(d: AppData)
      modifies this
      ensures entries == old(entries)[STORAGE_KEY := d]
    {
      entries := entries[STORAGE_KEY := d];
    }

    /** `clearData`: removes the key (the page reload that follows is not modelled). */
    method ClearData()
      modifies this
      ensures entries == old(entries) - {STORAGE_KEY}
    {
      entries := entries - {STORAGE_KEY};
    }
  }

  /** A save followed by a load gives back the saved document, whatever the store held. */
  method SaveThenLoad(initial: map<string, AppData>, d: AppData) returns (loaded: AppData)
    ensures loaded == d
  {
    var store := new LocalStore(initial);
    store.SaveData(d);
    loaded := store.LoadData();
  }

  /** After a clear, the next load reseeds the default document and stores it. */
  method ClearThenLoad(initial: map<string, AppData>) returns (loaded: AppData, after: map<string, AppData>)
    ensures loaded == DefaultData()
    ensures after == initial[STORAGE_KEY := DefaultData()]
  {
    var store := new LocalStore(initial);
    store.ClearData();
    loaded := store.LoadData();
    after := store.entries;
  }

  /** Loading twice is loading once: the second load finds what the first stored. */
  method LoadTwice(initial: map<string, AppData>) returns (first: AppData, second: AppData)
    ensures first == second
    ensures STORAGE_KEY in initial ==> first == initial[STORAGE_KEY]
    ensures STORAGE_KEY !in initial ==> first == DefaultData()
  {
    var store := new LocalStore(initial);
    first := store.LoadData();
    second := store.LoadData();
  }
}
