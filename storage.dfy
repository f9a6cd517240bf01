// Persistent_Storage, reduced to what the game relies on: a map from keys to
// values that survives a restart. The JSON file behind it is not modelled.

module Storage {

  class PersistentStorage {
    var entries: map<string, string>

    constructor (initial: map<string, string>)
      ensures entries == initial
    {
      entries := initial;
    }

    /** The stored value, or "" for a key that is not stored. */
    function Get(key: string): (value: string)
      reads this
      ensures key in entries ==> value == entries[key]
      ensures key !in entries ==> value == ""
    {
      if key in entries then entries[key] else ""
    }

    /** Stores `value` under `key`; a blank key cannot be stored. */
    method Set(key: string, value: string) returns (ok: bool)
      modifies this
      ensures ok <==> key != ""
      ensures entries == if ok then old(entries)[key := value] else old(entries)
      ensures ok ==> Get(key) == value
    {
      if key == "" {
        ok := false;
      } else {
        entries := entries[key := value];
        ok := true;
      }
    }
  }
}
