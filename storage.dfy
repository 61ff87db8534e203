/**
 * The browser's `localStorage` as the session layer uses it: a string-to-string map holding the
 * access token under `authToken`, the refresh token under `refreshToken` and the serialized
 * user under `user`.
 */
module Storage {

  import opened Base

  type Store = map<string, string>

  const AuthTokenKey := "authToken"
  const RefreshTokenKey := "refreshToken"
  const UserKey := "user"
  const SessionKeys: set<string> := {AuthTokenKey, RefreshTokenKey, UserKey}

  /** `localStorage.getItem(key)`: the stored text, or `null`. */
  function Item(store: Store, key: string): Option<string> {
    if key in store then Some(store[key]) else None
  }

  /** The store after the three `removeItem` calls on the session keys; every other key is kept. */
  function Cleared(store: Store): (r: Store)
    ensures forall k :: k in r <==> k in store && k !in SessionKeys
    ensures forall k :: k in r ==> r[k] == store[k]
  {
    store - SessionKeys
  }

  class LocalStorage {
    var items: Store

    constructor(items: Store)
      ensures this.items == items
    {
      this.items := items;
    }

    function GetItem(key: string): Option<string>
      reads this
    {
      Item(items, key)
    }

    method SetItem(key: string, value: string)
      modifies this
      ensures items == old(items)[key := value]
    {
      items := items[key := value];
    }

    method RemoveItem(key: string)
      modifies this
      ensures items == old(items) - {key}
    {
      items := items - {key};
    }
  }

  /** Three successive `removeItem` calls on the session keys amount to `Cleared`. */
  lemma RemoveSessionKeys(store: Store)
    ensures store - {AuthTokenKey} - {RefreshTokenKey} - {UserKey} == Cleared(store)
  {
  }
}
