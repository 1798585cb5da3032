// The browser's key/value store and the session facts the components read from it.

module Storage {
  import opened Wrappers

  /** `localStorage`: one flat map from keys to text, shared by every component on the page. */
  class LocalStorage {
    var items: map<string, string>

    constructor ()
      ensures items == map[]
    {
      items := map[];
    }

    /** `localStorage.setItem(key, value)`. */
    method SetItem(key: string, value: string)
      modifies this
      ensures items == old(items)[key := value]
    {
      items := items[key := value];
    }

    /** `localStorage.removeItem(key)`; removing an absent key changes nothing. */
    method RemoveItem(key: string)
      modifies this
      ensures items == old(items) - {key}
    {
      items := items - {key};
    }
  }

  /** `localStorage.getItem(key)`: `null` (here `None`) when the key is absent. */
  function Get(items: map<string, string>, key: string): Option<string> {
    if key in items then Some(items[key]) else None
  }

  /** JavaScript truthiness of a `getItem` result: `null` and `""` are falsy. */
  predicate Truthy(r: Option<string>) {
    r.Some? && r.value != ""
  }

  /** `session?.user?.email || null`: an empty address counts as signed out. */
  function SessionEmail(email: Option<string>): Option<string> {
    if Truthy(email) then email else None
  }

}
