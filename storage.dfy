/**
 * The browser's `localStorage`: a string-keyed table of strings shared by the
 * task store (key "tasks") and the theme switch (key "theme").
 */
module Storage {
  import opened Wrappers

  class LocalStorage {
    /** A key that is absent here is one for which `getItem` answers `null`. */
    var items: map<string, string>

    constructor (initial: map<string, string>)
      ensures items == initial
    {
      items := initial;
    }

    /** `localStorage.getItem(key)`. */
    method GetItem(key: string) returns (v: Option<string>)
      ensures v.Some? <==> key in items
      ensures v.Some? ==> v.value == items[key]
    {
      v := if key in items then Some(items[key]) else None;
    }

    /** `localStorage.setItem(key, value)`: overwrites that key and no other. */
    method SetItem(key: string, value: string)
      modifies this
      ensures items == old(items)[key := value]
    {
      items := items[key := value];
    }
  }
}
