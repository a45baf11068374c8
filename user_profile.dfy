/**
  `UserProfileComponent`: loads the profile into the form model `userData`,
  sends profile updates and deletes the account. An update sends only
  `Username`, `Email` and `Birthday`, plus `Password` when one was typed;
  after a load the password field is blank, so an immediate update keeps the
  old password. Date formatting (`new Date(...).toISOString()`) and
  `JSON.stringify` are the parameters `formatDate` and `stringify`; the
  latter yields a `Json`, not a string, because `JSON.stringify(undefined)`
  is `undefined`.
 */
module UserProfile {
  import opened JsValues
  import opened FetchApiData
  import opened WebStorage

  /** The form model before anything is loaded. */
  const InitialUserData: map<string, Json> :=
    map["Username" := Str(""), "Password" := Str(""), "Email" := Str(""), "Birthday" := Str("")]

  /** The loaded profile has a truthy `Birthday`. */
  predicate HasBirthday(result: Json) {
    result.Obj? && "Birthday" in result.fields && Truthy(result.fields["Birthday"])
  }

  /**
    `{ ...result, Birthday: formattedBirthday, Password: '' }`, where the
    birthday is formatted when `result.Birthday` is truthy and blank otherwise;
    `None` is the TypeError of reading `Birthday` from `null` or `undefined`.
   */
  function LoadedUserData(result: Json, formatDate: Json -> string): (r: Option<map<string, Json>>)
    ensures r.None? <==> result.Null? || result.Undefined?
    ensures r.Some? ==> r.value.Keys == OwnEntries(result).Keys + {"Birthday", "Password"}
    ensures r.Some? ==> r.value["Password"] == Str("")
    ensures r.Some? && HasBirthday(result) ==> r.value["Birthday"] == Str(formatDate(result.fields["Birthday"]))
    ensures r.Some? && !HasBirthday(result) ==> r.value["Birthday"] == Str("")
    ensures r.Some? ==> forall k :: k in OwnEntries(result) && k !in {"Birthday", "Password"} ==>
      r.value[k] == OwnEntries(result)[k]
  {
    match Get(result, "Birthday")
    case None => None
    case Some(birthday) =>
      var formatted := if Truthy(birthday) then formatDate(birthday) else "";
      Some(OwnEntries(result)["Birthday" := Str(formatted)]["Password" := Str("")])
  }

  /**
    The body of a profile update: `Username`, `Email` and `Birthday` copied
    from the form, and `Password` only when the form's password is truthy.
   */
  function UpdatePayload(userData: map<string, Json>): (p: map<string, Json>)
    ensures p.Keys <= {"Username", "Email", "Birthday", "Password"}
    ensures "Username" in p && p["Username"] == Lookup(userData, "Username")
    ensures "Email" in p && p["Email"] == Lookup(userData, "Email")
    ensures "Birthday" in p && p["Birthday"] == Lookup(userData, "Birthday")
    ensures "Password" in p <==> Truthy(Lookup(userData, "Password"))
    ensures "Password" in p ==> p["Password"] == userData["Password"]
  {
    var base := map["Username" := Lookup(userData, "Username"),
                    "Email" := Lookup(userData, "Email"),
                    "Birthday" := Lookup(userData, "Birthday")];
    if Truthy(Lookup(userData, "Password")) then base["Password" := userData["Password"]] else base
  }

  /** A password typed into the form is sent exactly when it is not empty. */
  lemma PasswordSentIffNonEmpty(userData: map<string, Json>, password: string)
    requires "Password" in userData && userData["Password"] == Str(password)
    ensures "Password" in UpdatePayload(userData) <==> password != ""
    ensures |UpdatePayload(userData)| == if password == "" then 3 else 4
  {
    var p := UpdatePayload(userData);
    if password == "" {
      assert p.Keys == {"Username", "Email", "Birthday"};
    } else {
      assert p.Keys == {"Username", "Email", "Birthday", "Password"};
    }
  }

  /** An update made right after a successful load omits the password. */
  lemma LoadedFormOmitsPassword(result: Json, formatDate: Json -> string)
    requires LoadedUserData(result, formatDate).Some?
    ensures "Password" !in UpdatePayload(LoadedUserData(result, formatDate).value)
  {
  }

  class UserProfileComponent {
    var userData: map<string, Json>

    constructor ()
      ensures userData == InitialUserData
    {
      userData := InitialUserData;
    }

    /** `getUser`: a successful load replaces the form model; a failure keeps it. */
    method GetUser(store: Storage, outcome: HttpOutcome, formatDate: Json -> string) returns (req: Request)
      modifies this
      ensures req == BuildRequest(GetUserProfile, store.GetItem("token"))
      ensures outcome.Delivered? ==> Some(userData) == LoadedUserData(ExtractResponseData(outcome.body), formatDate)
      ensures outcome.Failed? ==> userData == old(userData)
    {
      req := BuildRequest(GetUserProfile, store.GetItem("token"));
      var result := Settle(GetUserProfile, outcome);
      if result.Ok? {
        var loaded := LoadedUserData(result.value, formatDate);
        userData := loaded.value;
      }
    }

    /**
      `updateUser`: builds the payload, adding `Password` in place when one was
      typed, sends it, and on success stores the serialised answer under `user`.
     */
    method UpdateUser(store: Storage, outcome: HttpOutcome, stringify: Json -> Json) returns (req: Request)
      modifies store
      ensures req == BuildRequest(EditUserProfile(Obj(UpdatePayload(userData))), old(store.GetItem("token")))
      ensures outcome.Delivered? ==>
        store.items == old(store.items)["user" := ToJsString(stringify(ExtractResponseData(outcome.body)))]
      ensures outcome.Failed? ==> store.items == old(store.items)
    {
      var payload := map["Username" := Lookup(userData, "Username"),
                         "Email" := Lookup(userData, "Email"),
                         "Birthday" := Lookup(userData, "Birthday")];
      if Truthy(Lookup(userData, "Password")) {
        payload := payload["Password" := userData["Password"]];
      }
      var op := EditUserProfile(Obj(payload));
      req := BuildRequest(op, store.GetItem("token"));
      var result := Settle(op, outcome);
      if result.Ok? {
        store.SetItem("user", stringify(result.value));
      }
    }

    /**
      `deleteUser`: nothing is sent unless the user confirms; a successful
      deletion clears the whole storage and navigates to `welcome`.
     */
    method DeleteUser(store: Storage, confirmed: bool, outcome: HttpOutcome)
      returns (req: Option<Request>, navigateTo: Option<string>)
      modifies store
      ensures !confirmed ==> req.None? && store.items == old(store.items)
      ensures confirmed ==> req == Some(BuildRequest(DeleteUserProfile, old(store.GetItem("token"))))
      ensures confirmed && outcome.Delivered? ==> store.items == map[]
      ensures !(confirmed && outcome.Delivered?) ==> store.items == old(store.items)
      ensures navigateTo.Some? <==> confirmed && outcome.Delivered?
      ensures navigateTo.Some? ==> navigateTo.value == "welcome"
    {
      req, navigateTo := None, None;
      if confirmed {
        req := Some(BuildRequest(DeleteUserProfile, store.GetItem("token")));
        var result := Settle(DeleteUserProfile, outcome);
        if result.Ok? {
          store.Clear();
          navigateTo := Some("welcome");
        }
      }
    }
  }
}
