/**
  `FetchApiDataService`: every backend call the client makes. Each operation
  fixes an HTTP method, a path under the API root and whether an
  `Authorization: Bearer <token>` header is attached; the token is whatever
  `localStorage.getItem('token')` returned when the call was made. A call is
  modelled as one atomic step: the request it sends, and what its observable
  delivers for a given transport outcome.
 */
module FetchApiData {
  import opened JsValues

  const ApiUrl := "https://iecm-movies-app.herokuapp.com/"
  const FavoritesPath := "user/favorites/"

  /** The one message every failed call is turned into. */
  const FailureMessage := "Something bad happened; please try again later."

  datatype HttpMethod = GET | POST | PUT | DELETE

  datatype Operation =
    | UserRegistration(userDetails: Json)
    | UserLogin(loginDetails: Json)
    | GetAllMovies
    | GetUserProfile
    | AddFavoriteMovie(movieId: string)
    | RemoveFavoriteMovie(movieId: string)
    | EditUserProfile(updatedUser: Json)
    | DeleteUserProfile

  /** Registration and login are sent without a token and their bodies are not reshaped. */
  predicate IsPublic(op: Operation) {
    op.UserRegistration? || op.UserLogin?
  }

  datatype Request = Request(verb: HttpMethod, url: string, authorization: Option<string>, body: Option<Json>)

  /** `'Bearer ' + token`, where a missing token (`null`) is converted to the text `null`. */
  function BearerHeader(token: Option<string>): (h: string)
    ensures token.Some? ==> h == "Bearer " + token.value
    ensures token.None? ==> h == "Bearer null"
  {
    "Bearer " + ToJsString(if token.Some? then Str(token.value) else Null)
  }

  /** The request an operation sends, given the token read from storage at call time. */
  function BuildRequest(op: Operation, token: Option<string>): (req: Request)
    ensures req.authorization.None? <==> IsPublic(op)
    ensures req.authorization.Some? ==> req.authorization.value == BearerHeader(token)
    ensures |ApiUrl| <= |req.url| && req.url[..|ApiUrl|] == ApiUrl
  {
    var auth := Some(BearerHeader(token));
    match op
    case UserRegistration(details) => Request(POST, ApiUrl + "users", None, Some(details))
    case UserLogin(details) => Request(POST, ApiUrl + "login", None, Some(details))
    case GetAllMovies => Request(GET, ApiUrl + "movies", auth, None)
    case GetUserProfile => Request(GET, ApiUrl + "user", auth, None)
    case AddFavoriteMovie(id) => Request(POST, ApiUrl + FavoritesPath + id, auth, Some(Obj(map[])))
    case RemoveFavoriteMovie(id) => Request(DELETE, ApiUrl + FavoritesPath + id, auth, None)
    case EditUserProfile(user) => Request(PUT, ApiUrl + "user", auth, Some(user))
    case DeleteUserProfile => Request(DELETE, ApiUrl + "user", auth, None)
  }

  /** Registration is POST `users`, login is POST `login`; neither reads the token. */
  lemma PublicRoutes(details: Json, token: Option<string>, other: Option<string>)
    ensures BuildRequest(UserRegistration(details), token)
         == Request(POST, ApiUrl + "users", None, Some(details))
    ensures BuildRequest(UserLogin(details), token)
         == Request(POST, ApiUrl + "login", None, Some(details))
    ensures BuildRequest(UserRegistration(details), token) == BuildRequest(UserRegistration(details), other)
    ensures BuildRequest(UserLogin(details), token) == BuildRequest(UserLogin(details), other)
  {
  }

  /** The fixed account and catalogue routes, each carrying the bearer header. */
  lemma AccountRoutes(user: Json, token: Option<string>)
    ensures BuildRequest(GetAllMovies, token) == Request(GET, ApiUrl + "movies", Some(BearerHeader(token)), None)
    ensures BuildRequest(GetUserProfile, token) == Request(GET, ApiUrl + "user", Some(BearerHeader(token)), None)
    ensures BuildRequest(EditUserProfile(user), token) == Request(PUT, ApiUrl + "user", Some(BearerHeader(token)), Some(user))
    ensures BuildRequest(DeleteUserProfile, token) == Request(DELETE, ApiUrl + "user", Some(BearerHeader(token)), None)
  {
  }

  /** With no stored token every protected call still sends the header, as the text `Bearer null`. */
  lemma MissingTokenHeader(op: Operation)
    requires !IsPublic(op)
    ensures BuildRequest(op, None).authorization == Some("Bearer null")
  {
  }

  /**
    Adding and removing a favourite use the same URL, in which the movie id
    follows `user/favorites/` verbatim; they differ only in method and in the
    empty object that the POST carries.
   */
  lemma FavoriteRoutes(movieId: string, token: Option<string>)
    ensures var add := BuildRequest(AddFavoriteMovie(movieId), token);
            var remove := BuildRequest(RemoveFavoriteMovie(movieId), token);
            && add.url == remove.url
            && add.verb == POST && remove.verb == DELETE
            && add.authorization == remove.authorization == Some(BearerHeader(token))
            && add.body == Some(Obj(map[])) && remove.body == None
            && add.url[..|ApiUrl + FavoritesPath|] == ApiUrl + FavoritesPath
            && add.url[|ApiUrl + FavoritesPath|..] == movieId
  {
    var url := ApiUrl + FavoritesPath + movieId;
    assert url == (ApiUrl + FavoritesPath) + movieId;
  }

  /** Distinct movie ids give distinct favourite URLs. */
  lemma FavoriteUrlInjective(a: string, b: string, token: Option<string>)
    requires BuildRequest(AddFavoriteMovie(a), token).url == BuildRequest(AddFavoriteMovie(b), token).url
    ensures a == b
  {
    FavoriteRoutes(a, token);
    FavoriteRoutes(b, token);
  }

  /** What the transport reports for one request. */
  datatype HttpOutcome = Delivered(body: Json) | Failed(status: int, error: Json)

  /** What a call's observable emits: a value, or the error it is thrown with. */
  datatype Result = Ok(value: Json) | Err(message: string)

  /** `body || {}`: a falsy response body becomes an empty object. */
  function ExtractResponseData(res: Json): (r: Json)
    ensures Truthy(r)
    ensures Truthy(res) ==> r == res
  {
    Or(res, Obj(map[]))
  }

  /** Shaping a response twice changes nothing more than shaping it once. */
  lemma ExtractResponseDataIdempotent(res: Json)
    ensures ExtractResponseData(ExtractResponseData(res)) == ExtractResponseData(res)
  {
  }

  /** `extractResponseData(null)` and `extractResponseData(undefined)` are `{}`. */
  lemma ExtractResponseDataFalsy(res: Json)
    requires !Truthy(res)
    ensures ExtractResponseData(res) == Obj(map[])
  {
  }

  /** `handleError`: whatever the status and error body, the same message is thrown. */
  function HandleError(status: int, error: Json): (message: string)
    ensures message == FailureMessage
  {
    FailureMessage
  }

  /**
    What the observable of `op` emits for one transport outcome: the protected
    calls pass a delivered body through `extractResponseData`, the public ones
    emit it as it is; every failure goes through `handleError`. Nothing is
    retried.
   */
  function Settle(op: Operation, outcome: HttpOutcome): (r: Result)
    ensures r.Err? <==> outcome.Failed?
    ensures r.Err? ==> r.message == FailureMessage
    ensures r.Ok? && IsPublic(op) ==> r.value == outcome.body
    ensures r.Ok? && !IsPublic(op) ==> Truthy(r.value)
    ensures r.Ok? && !IsPublic(op) && Truthy(outcome.body) ==> r.value == outcome.body
    ensures r.Ok? && !IsPublic(op) && !Truthy(outcome.body) ==> r.value == Obj(map[])
    ensures r.Ok? && !IsPublic(op) ==> r.value == ExtractResponseData(outcome.body)
  {
    match outcome
    case Delivered(body) => Ok(if IsPublic(op) then body else ExtractResponseData(body))
    case Failed(status, error) => Err(HandleError(status, error))
  }
}
