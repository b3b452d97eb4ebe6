/** The browser's `localStorage`, which the session store and the HTTP
    client's interceptors share. */
module Storage {
  import opened Wrappers

  /** `getItem` on a plain map: the stored string, or `null` when the key is absent. */
  function Lookup(items: map<string, string>, key: string): Option<string> {
    if key in items then Some(items[key]) else None
  }

  /** A key-value store of strings, changed in place by `setItem` and `removeItem`. */
  class LocalStorage {
    var items: map<string, string>

    constructor (initial: map<string, string>)
      ensures items == initial
    {
      items := initial;
    }

    method GetItem(key: string) returns (v: Option<string>)
      ensures v == Lookup(items, key)
    {
      v := Lookup(items, key);
    }

    method SetItem(key: string, value: string)
      modifies this
      ensures items == old(items)[key := value]
    {
      items := items[key := value];
    }

    method RemoveItem(key: string)
      modifies this
      ensures items == old(items) - {key}
    {
      items := items - {key};
    }
  }
}
