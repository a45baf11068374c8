/**
  `UserLoginFormComponent.loginUser`: sends the trimmed username and the
  password as typed; on success writes the session (`token` and the
  serialised `user`) to storage, closes the dialog and navigates to
  `movies`. `JSON.stringify` is the parameter `stringify`; its result is a
  `Json` rather than a string because `JSON.stringify(undefined)` is
  `undefined`, which `setItem` then stores as the text `undefined`.
 */
module UserLoginForm {
  import opened JsValues
  import opened JsStrings
  import opened FetchApiData
  import opened WebStorage
  import opened NavBar

  datatype LoginData = LoginData(username: string, password: string)

  const SuccessNotice := "Login successful!"
  const FailureNotice := "Login failed. Please check your credentials."

  /** The login body: exactly `username`, trimmed, and `password`, unchanged. */
  function LoginPayload(d: LoginData): (p: map<string, Json>)
    ensures p.Keys == {"username", "password"}
    ensures p["username"] == Str(Trim(d.username))
    ensures p["password"] == Str(d.password)
  {
    map["username" := Str(Trim(d.username)), "password" := Str(d.password)]
  }

  /**
    The storage after a successful login answer `result`: `token` holds
    `String(result.token)` and `user` holds `String(JSON.stringify(result.user))`.
    `None` is the TypeError of reading `token` from a `null` or `undefined`
    answer, which happens before anything is written.
   */
  function SessionAfterLogin(items: map<string, string>, result: Json, stringify: Json -> Json)
    : (r: Option<map<string, string>>)
    ensures r.None? <==> result.Null? || result.Undefined?
    ensures r.Some? ==> r.value.Keys == items.Keys + SessionKeys
    ensures r.Some? ==> forall k :: k in items && k !in SessionKeys ==> r.value[k] == items[k]
    ensures r.Some? ==> r.value["token"] == ToJsString(Get(result, "token").value)
    ensures r.Some? ==> r.value["user"] == ToJsString(stringify(Get(result, "user").value))
  {
    match (Get(result, "token"), Get(result, "user"))
    case (Some(token), Some(user)) => Some(items["token" := ToJsString(token)]["user" := ToJsString(stringify(user))])
    case _ => None
  }

  /** An answer carrying a token string stores that token; the user is logged in when it is not empty. */
  lemma LoginStoresToken(items: map<string, string>, result: Json, stringify: Json -> Json, token: string)
    requires result.Obj? && "token" in result.fields && result.fields["token"] == Str(token)
    ensures SessionAfterLogin(items, result, stringify).Some?
    ensures SessionAfterLogin(items, result, stringify).value["token"] == token
    ensures LoggedIn(SessionAfterLogin(items, result, stringify).value) <==> token != ""
  {
  }

  /**
    An answer without a token stores the text `undefined` under `token`,
    which counts as logged in.
   */
  lemma MissingTokenCountsAsLoggedIn(items: map<string, string>, result: Json, stringify: Json -> Json)
    requires result.Obj? && "token" !in result.fields
    ensures SessionAfterLogin(items, result, stringify).Some?
    ensures SessionAfterLogin(items, result, stringify).value["token"] == "undefined"
    ensures LoggedIn(SessionAfterLogin(items, result, stringify).value)
  {
  }

  /** Logging out after a login leaves every other key as it was before the login. */
  lemma LogoutUndoesLogin(items: map<string, string>, result: Json, stringify: Json -> Json)
    requires SessionAfterLogin(items, result, stringify).Some?
    ensures SignedOut(SessionAfterLogin(items, result, stringify).value) == SignedOut(items)
  {
    var after := SessionAfterLogin(items, result, stringify).value;
    assert SignedOut(after).Keys == SignedOut(items).Keys;
  }

  /**
    `loginUser`: sends the login body without a token; a successful answer
    writes the session, closes the dialog and navigates to `movies`; a failure
    writes nothing and shows the fixed fallback notice, because the thrown
    error is a string with no `message`.
   */
  method LoginUser(d: LoginData, store: Storage, outcome: HttpOutcome, stringify: Json -> Json)
    returns (req: Request, dialogClosed: bool, navigateTo: Option<string>, notice: Option<string>)
    modifies store
    ensures req == BuildRequest(UserLogin(Obj(LoginPayload(d))), None)
    ensures outcome.Delivered? && SessionAfterLogin(old(store.items), outcome.body, stringify).Some? ==>
      && store.items == SessionAfterLogin(old(store.items), outcome.body, stringify).value
      && dialogClosed && navigateTo == Some("movies") && notice == Some(SuccessNotice)
    ensures outcome.Delivered? && SessionAfterLogin(old(store.items), outcome.body, stringify).None? ==>
      store.items == old(store.items) && !dialogClosed && navigateTo.None? && notice.None?
    ensures outcome.Failed? ==>
      store.items == old(store.items) && !dialogClosed && navigateTo.None? && notice == Some(FailureNotice)
  {
    var op := UserLogin(Obj(LoginPayload(d)));
    req := BuildRequest(op, None);
    dialogClosed, navigateTo, notice := false, None, None;
    match Settle(op, outcome)
    case Ok(result) =>
      var token := Get(result, "token");
      if token.Some? {
        store.SetItem("token", token.value);
        store.SetItem("user", stringify(Get(result, "user").value));
        notice := Some(SuccessNotice);
        dialogClosed := true;
        navigateTo := Some("movies");
      }
    case Err(error) =>
      var shown := Or(Get(Str(error), "message").value, Str(FailureNotice));
      notice := Some(shown.s);
  }
}
