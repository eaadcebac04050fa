/**
 * The key-value store "DatablitPrefs" that the SDK class and the lifecycle
 * observer share: a string map the callers read and write key by key.
 */
module Preferences {
  import opened Wrappers

  /** The value stored under `key`, null when there is none. */
  function Lookup(store: map<string, string>, key: string): Option<string> {
    if key in store then Some(store[key]) else None
  }

  class Prefs {
    var store: map<string, string>

    constructor (initial: map<string, string>)
      ensures store == initial
    {
      store := initial;
    }

    /** `getString(key, null)`: the stored string, or null when the key is absent. */
    function GetString(key: string): (r: Option<string>)
      reads this
      ensures r.Some? <==> key in store
      ensures r.Some? ==> r.value == store[key]
    {
      Lookup(store, key)
    }

    /** `edit { putString(key, value) }`. */
    method PutString(key: string, value: string)
      modifies this
      ensures store == old(store)[key := value]
    {
      store := store[key := value];
    }
  }
}
