/**
 * The record store: one slot of the browser's local storage, under the key
 * `ai_apps_list_v1`, holding the whole list of records as one JSON text.
 * The text encoding is abstracted: the slot is either absent, holds text
 * that does not parse, or holds a list of records.
 */
module RecordStore {
  import opened JsText
  import opened Validator

  /**
   * The content of the slot. `Corrupt` stands for any text that `JSON.parse`
   * rejects, the empty text included.
   */
  datatype Slot = Absent | Corrupt | Stored(apps: seq<AppRecord>)

  /** What loading a slot yields: its list, or the empty list for an absent or corrupt slot. */
  function LoadedApps(slot: Slot): seq<AppRecord> {
    if slot.Stored? then slot.apps else []
  }

  class Store {
    var slot: Slot

    constructor (initial: Slot)
      ensures slot == initial
    {
      slot := initial;
    }

    /**
     * `loadAppsFromStorage`: an absent slot and content that does not parse
     * both give the empty list. Exceptions of the storage itself are not
     * modelled.
     */
    method Load() returns (apps: seq<AppRecord>)
      ensures apps == LoadedApps(slot)
    {
      match slot
      case Absent =>
        apps := [];
      case Corrupt =>
        apps := [];
      case Stored(list) =>
        apps := list;
    }

    /** `saveAppsToStorage`: the whole list overwrites whatever the slot held. */
    method Save(apps: seq<AppRecord>)
      modifies this
      ensures slot == Stored(apps)
      ensures LoadedApps(slot) == apps
    {
      slot := Stored(apps);
    }
  }

  /** Saving a list and loading it back gives the same list, whatever the slot held before. */
  method SaveThenLoad(store: Store, apps: seq<AppRecord>) returns (loaded: seq<AppRecord>)
    modifies store
    ensures loaded == apps
  {
    store.Save(apps);
    loaded := store.Load();
  }
}
