/**
 * The browser's window.localStorage, as the client pages use it: a string-to-string map that
 * setItem overwrites and getItem reads (null for a missing key).
 */
module BrowserStorage {
  import opened Wrappers

  class LocalStorage {
    var items: map<string, string>

    /** A storage area with nothing saved in it. */
    constructor()
      ensures items == map[]
    {
      items := map[];
    }

    /** localStorage.getItem(key). */
    function GetItem(key: string): (r: Option<string>)
      reads this
      ensures r.Some? <==> key in items
      ensures r.Some? ==> r.value == items[key]
    {
      if key in items then Some(items[key]) else None
    }

    /** localStorage.setItem(key, value): that key now holds value, every other key is untouched. */
    method SetItem(key: string, value: string)
      modifies this
      ensures items == old(items)[key := value]
      ensures GetItem(key) == Some(value)
      ensures forall k :: k != key ==> GetItem(k) == old(GetItem(k))
    {
      items := items[key := value];
    }
  }
}
