/**
  `NavBarComponent`: decides from storage whether the user is logged in, and
  logs out by removing the session keys `token` and `user`.
 */
module NavBar {
  import opened JsValues
  import opened WebStorage

  /** The keys a login writes and a logout removes. */
  const SessionKeys: set<string> := {"token", "user"}

  /** `isLoggedIn`: `!!localStorage.getItem('token')` over the storage contents `items`. */
  function LoggedIn(items: map<string, string>): (r: bool)
    ensures r <==> "token" in items && items["token"] != ""
  {
    var token := if "token" in items then Str(items["token"]) else Null;
    Truthy(token)
  }

  /** The storage contents once `token` and `user` are removed. */
  function SignedOut(items: map<string, string>): (r: map<string, string>)
    ensures !LoggedIn(r)
    ensures r.Keys == items.Keys - SessionKeys
    ensures forall k :: k in r ==> r[k] == items[k]
  {
    items - SessionKeys
  }

  /** Logging out twice leaves storage as logging out once. */
  lemma SignedOutIdempotent(items: map<string, string>)
    ensures SignedOut(SignedOut(items)) == SignedOut(items)
  {
  }

  /** Cleared storage, as left by an account deletion, is logged out. */
  lemma ClearedIsLoggedOut()
    ensures !LoggedIn(map[])
  {
  }

  /** `logout`: removes exactly `token` and `user`, then navigates to `welcome`. */
  method Logout(store: Storage) returns (navigateTo: string)
    modifies store
    ensures store.items == SignedOut(old(store.items))
    ensures navigateTo == "welcome"
  {
    store.RemoveItem("token");
    store.RemoveItem("user");
    navigateTo := "welcome";
  }
}
