/**
  The browser's `localStorage`: one key/value store of strings shared by every
  component, changed in place by `setItem`, `removeItem` and `clear`.
 */
module WebStorage {
  import opened JsValues

  class Storage {
    var items: map<string, string>

    constructor (initial: map<string, string>)
      ensures items == initial
    {
      items := initial;
    }

    /** `localStorage.getItem(key)`: the stored string, or `null` (`None`) when the key is absent. */
    function GetItem(key: string): (r: Option<string>)
      reads this
      ensures r.Some? <==> key in items
      ensures r.Some? ==> r.value == items[key]
    {
      if key in items then Some(items[key]) else None
    }

    /** `localStorage.setItem(key, value)`: stores `String(value)` under `key`. */
    method SetItem(key: string, value: Json)
      modifies this
      ensures items == old(items)[key := ToJsString(value)]
    {
      items := items[key := ToJsString(value)];
    }

    /** `localStorage.removeItem(key)`: an absent key is not an error. */
    method RemoveItem(key: string)
      modifies this
      ensures items == old(items) - {key}
    {
      items := items - {key};
    }

    /** `localStorage.clear()`. */
    method Clear()
      modifies this
      ensures items == map[]
    {
      items := map[];
    }
  }
}
