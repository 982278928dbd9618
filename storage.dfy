/**
 * The browser's `localStorage` as the front end uses it: a string-to-string
 * store in which the session keeps two slots, `authToken` and `refreshToken`.
 */
module Storage {
  import opened Wrappers

  const AUTH_TOKEN: string := "authToken"
  const REFRESH_TOKEN: string := "refreshToken"

  /** Both session slots removed, everything else kept. */
  function Cleared(items: map<string, string>): (r: map<string, string>)
    ensures AUTH_TOKEN !in r && REFRESH_TOKEN !in r
    ensures forall k :: k in items && k != AUTH_TOKEN && k != REFRESH_TOKEN ==> k in r && r[k] == items[k]
    ensures r.Keys <= items.Keys
  {
    items - {AUTH_TOKEN, REFRESH_TOKEN}
  }

  /** Clearing the session slots twice is the same as clearing them once. */
  lemma ClearedIdempotent(items: map<string, string>)
    ensures Cleared(Cleared(items)) == Cleared(items)
  {
  }

  /** Slot `key` is the same in both stores: absent in both, or present with the same value. */
  predicate SameAt(a: map<string, string>, b: map<string, string>, key: string) {
    (key in a <==> key in b) && (key in a ==> a[key] == b[key])
  }

  /** `localStorage.getItem(key)`: the stored string, or `null` (here `None`). */
  function GetItem(items: map<string, string>, key: string): (r: Option<string>)
    ensures r.Some? <==> key in items
    ensures r.Some? ==> r.value == items[key]
  {
    if key in items then Some(items[key]) else None
  }

  /** `if (localStorage.getItem(key))`: present and not the empty string. */
  predicate HasTruthy(items: map<string, string>, key: string) {
    key in items && items[key] != ""
  }

  class LocalStorage {
    var items: map<string, string>

    constructor (initial: map<string, string>)
      ensures items == initial
    {
      items := initial;
    }

    method SetItem(key: string, value: string)
      modifies this
      ensures items == old(items)[key := value]
    {
      items := items[key := value];
    }

    method RemoveItem(key: string)
      modifies this
      ensures items == old(items) - {key}
    {
      items := items - {key};
    }
  }
}
