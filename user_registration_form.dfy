/**
  `UserRegistrationFormComponent.registerUser`: cleans the sign-up form into
  the registration body and sends it. The username and email are trimmed and
  the email lower-cased; the password is sent as typed; an empty birthday
  becomes `undefined` and its key is then deleted. No length is checked here:
  the minimum lengths live only in the form's template.
 */
module UserRegistrationForm {
  import opened JsValues
  import opened JsStrings
  import opened FetchApiData

  datatype RegistrationData = RegistrationData(username: string, password: string, email: string, birthday: string)

  const SuccessNotice := "User registration successful! Please log in."
  const FailureNotice := "Registration failed. Please try again."

  /** The object literal `cleanedData`, built from the cleaned field values, before keys holding `undefined` are deleted. */
  function CleanedObject(username: string, password: string, email: string, birthday: string): (data: map<string, Json>)
    ensures data.Keys == {"username", "password", "email", "birthday"}
    ensures data["username"] == Str(username) && data["password"] == Str(password) && data["email"] == Str(email)
    ensures data["birthday"] == Undefined <==> birthday == ""
    ensures birthday != "" ==> data["birthday"] == Str(birthday)
  {
    map["username" := Str(username),
        "password" := Str(password),
        "email" := Str(email),
        "birthday" := Or(Str(birthday), Undefined)]
  }

  /** `Object.keys(cleanedData)`, in insertion order. */
  const CleanedKeys: seq<string> := ["username", "password", "email", "birthday"]

  /** Every key of `cleanedData` whose value is not `undefined`. */
  function DefinedEntries(username: string, password: string, email: string, birthday: string): (p: map<string, Json>)
    ensures p.Keys == {"username", "password", "email"} + (if birthday != "" then {"birthday"} else {})
    ensures p["username"] == Str(username) && p["password"] == Str(password) && p["email"] == Str(email)
    ensures birthday != "" ==> p["birthday"] == Str(birthday)
  {
    var data := CleanedObject(username, password, email, birthday);
    var p := map k | k in data && data[k] != Undefined :: data[k];
    assert data["birthday"] == Undefined <==> birthday == "";
    assert p.Keys == {"username", "password", "email"} + (if birthday != "" then {"birthday"} else {});
    p
  }

  /**
    The body that is sent: `username`, `password` and `email` always, even
    when empty, and `birthday`, as typed, exactly when it is not empty.
   */
  function RegistrationPayload(d: RegistrationData): (p: map<string, Json>)
    ensures p.Keys == {"username", "password", "email"} + (if d.birthday != "" then {"birthday"} else {})
    ensures p["username"] == Str(Trim(d.username))
    ensures p["password"] == Str(d.password)
    ensures p["email"] == Str(ToLowerCase(Trim(d.email)))
    ensures d.birthday != "" ==> p["birthday"] == Str(d.birthday)
  {
    DefinedEntries(Trim(d.username), d.password, ToLowerCase(Trim(d.email)), d.birthday)
  }

  /**
    The `forEach` over the keys: deletes, in place, each listed key whose value
    is `undefined`, and nothing else.
   */
  method DeleteUndefined(data: map<string, Json>, keys: seq<string>) returns (cleaned: map<string, Json>)
    ensures forall k :: k in cleaned <==> k in data && (k in keys ==> data[k] != Undefined)
    ensures forall k :: k in cleaned ==> cleaned[k] == data[k]
  {
    cleaned := data;
    var i := 0;
    while i < |keys|
      invariant i <= |keys|
      invariant forall k :: k in cleaned <==> k in data && (k in keys[..i] ==> data[k] != Undefined)
      invariant forall k :: k in cleaned ==> cleaned[k] == data[k]
    {
      var key := keys[i];
      if Lookup(cleaned, key) == Undefined {
        cleaned := cleaned - {key};
      }
      assert keys[..i + 1] == keys[..i] + [key];
      i := i + 1;
    }
    assert keys[..|keys|] == keys;
  }

  /** The username and email are sent without surrounding white space. */
  lemma PayloadTrimmed(d: RegistrationData)
    ensures var p := RegistrationPayload(d);
            p["username"].Str? && Trim(p["username"].s) == p["username"].s
            && p["email"].Str? && Trim(p["email"].s) == p["email"].s
  {
    var email := ToLowerCase(Trim(d.email));
    TrimIdempotent(d.username);
    LowerCaseKeepsTrimmed(d.email);
    TrimPadded([], email, []);
    assert [] + email + [] == email;
  }

  /**
    `registerUser`: sends the cleaned body whatever the field lengths, closes
    the dialog only on success, and on failure shows the fixed fallback
    notice, because the thrown error is a string with no `message`.
   */
  method RegisterUser(d: RegistrationData, outcome: HttpOutcome)
    returns (req: Request, dialogClosed: bool, notice: string)
    ensures req == BuildRequest(UserRegistration(Obj(RegistrationPayload(d))), None)
    ensures dialogClosed <==> outcome.Delivered?
    ensures notice == if outcome.Delivered? then SuccessNotice else FailureNotice
  {
    var username, email := Trim(d.username), ToLowerCase(Trim(d.email));
    var cleaned := DeleteUndefined(CleanedObject(username, d.password, email, d.birthday), CleanedKeys);
    assert cleaned == DefinedEntries(username, d.password, email, d.birthday);
    var op := UserRegistration(Obj(cleaned));
    req := BuildRequest(op, None);
    match Settle(op, outcome)
    case Ok(_) =>
      dialogClosed, notice := true, SuccessNotice;
    case Err(error) =>
      var shown := Or(Get(Str(error), "message").value, Str(FailureNotice));
      dialogClosed, notice := false, shown.s;
  }
}
