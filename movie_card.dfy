/**
  `MovieCardComponent`: the movie list and the user's favourite ids. The
  favourite list is only ever replaced by the list that the server returns,
  each entry normalised as `movie._id || movie`; a failed call leaves it as it
  was. An exception thrown inside a success callback (reading a property of
  `null`, calling `map` on something that is not an array) also leaves the
  fields as they were.
 */
module MovieCard {
  import opened JsValues
  import opened FetchApiData
  import opened WebStorage

  /** An entry that is an object whose `_id` is truthy. */
  predicate HasTruthyId(entry: Json) {
    entry.Obj? && "_id" in entry.fields && Truthy(entry.fields["_id"])
  }

  /** `movie._id || movie`; `None` is the TypeError thrown for a `null` or `undefined` entry. */
  function NormaliseEntry(entry: Json): (r: Option<Json>)
    ensures r.None? <==> entry.Null? || entry.Undefined?
    ensures r.Some? && HasTruthyId(entry) ==> r.value == entry.fields["_id"]
    ensures r.Some? && !HasTruthyId(entry) ==> r.value == entry
  {
    match Get(entry, "_id")
    case None => None
    case Some(id) => Some(Or(id, entry))
  }

  /** `entries.map(movie => movie._id || movie)`: `None` when some entry throws. */
  function NormaliseEntries(entries: seq<Json>): (r: Option<seq<Json>>)
    ensures r.Some? <==> forall i :: 0 <= i < |entries| ==> NormaliseEntry(entries[i]).Some?
    ensures r.Some? ==> |r.value| == |entries|
    ensures r.Some? ==> forall i :: 0 <= i < |entries| ==> NormaliseEntry(entries[i]) == Some(r.value[i])
    decreases |entries|
  {
    if entries == [] then Some([])
    else
      match (NormaliseEntry(entries[0]), NormaliseEntries(entries[1..]))
      case (Some(head), Some(tail)) => Some([head] + tail)
      case (None, _) => None
      case (_, None) =>
        assert forall i :: 1 <= i < |entries| ==> entries[i] == entries[1..][i - 1];
        None
  }

  /** The entries of the server's `favoriteMovies` array, or none when it has no such array. */
  function ServerEntries(resp: Json): seq<Json> {
    if resp.Obj? && "favoriteMovies" in resp.fields && resp.fields["favoriteMovies"].Arr?
    then resp.fields["favoriteMovies"].items
    else []
  }

  /**
    `resp.favoriteMovies ? resp.favoriteMovies.map(movie => movie._id || movie) : []`;
    `None` when it throws (a `null` response, a truthy `favoriteMovies` that is
    not an array, a `null` entry).
   */
  function FavoritesFrom(resp: Json): (r: Option<seq<Json>>)
    ensures resp.Null? || resp.Undefined? ==> r.None?
    ensures !resp.Obj? && !resp.Null? && !resp.Undefined? ==> r == Some([])
    ensures resp.Obj? && !Truthy(Lookup(resp.fields, "favoriteMovies")) ==> r == Some([])
    ensures r.Some? ==> |r.value| == |ServerEntries(resp)|
    ensures r.Some? ==> forall i :: 0 <= i < |r.value| ==> NormaliseEntry(ServerEntries(resp)[i]) == Some(r.value[i])
    ensures resp.Obj? && Lookup(resp.fields, "favoriteMovies").Arr? ==>
      r == NormaliseEntries(Lookup(resp.fields, "favoriteMovies").items)
    ensures resp.Obj? && Truthy(Lookup(resp.fields, "favoriteMovies")) && !Lookup(resp.fields, "favoriteMovies").Arr? ==>
      r.None?
  {
    match Get(resp, "favoriteMovies")
    case None => None
    case Some(list) =>
      if !Truthy(list) then Some([])
      else if list.Arr? then NormaliseEntries(list.items)
      else None
  }

  /** A response with no `favoriteMovies` field, including a falsy body shaped into `{}`, gives `[]`. */
  lemma NoFavoritesField(body: Json)
    requires !Truthy(body) || (body.Obj? && "favoriteMovies" !in body.fields)
    ensures FavoritesFrom(ExtractResponseData(body)) == Some([])
  {
  }

  /** Entry `entry` normalises to the plain id `id`: it is that string, or an object whose `_id` is. */
  predicate Names(entry: Json, id: string) {
    entry == Str(id) || (HasTruthyId(entry) && entry.fields["_id"] == Str(id))
  }

  lemma NormaliseEntryNames(entry: Json, id: string)
    ensures NormaliseEntry(entry) == Some(Str(id)) <==> Names(entry, id)
  {
  }

  /** The favourite list after a call that answers with a profile: the server's list, normalised. */
  function AfterFavoritesResponse(current: seq<Json>, result: Result): (r: seq<Json>)
    ensures result.Err? ==> r == current
    ensures result.Ok? && FavoritesFrom(result.value).None? ==> r == current
    ensures result.Ok? && FavoritesFrom(result.value).Some? ==>
      |r| == |ServerEntries(result.value)|
      && forall i :: 0 <= i < |r| ==> NormaliseEntry(ServerEntries(result.value)[i]) == Some(r[i])
  {
    match result
    case Err(_) => current
    case Ok(resp) =>
      match FavoritesFrom(resp)
      case None => current
      case Some(list) => list
  }

  /** A failed call leaves the favourite list unchanged. */
  lemma FailureKeepsFavorites(current: seq<Json>, op: Operation, status: int, error: Json)
    ensures AfterFavoritesResponse(current, Settle(op, Failed(status, error))) == current
  {
  }

  /**
    After a successful call whose answer can be normalised, an id is a
    favourite exactly when the server's list names it; what was in the list
    before does not matter.
   */
  lemma ServerListWins(current: seq<Json>, resp: Json, id: string)
    requires FavoritesFrom(resp).Some?
    ensures Str(id) in AfterFavoritesResponse(current, Ok(resp))
        <==> exists j :: 0 <= j < |ServerEntries(resp)| && Names(ServerEntries(resp)[j], id)
  {
    var list := FavoritesFrom(resp).value;
    var entries := ServerEntries(resp);
    assert AfterFavoritesResponse(current, Ok(resp)) == list;
    if Str(id) in list {
      var j :| 0 <= j < |list| && list[j] == Str(id);
      NormaliseEntryNames(entries[j], id);
    }
    if exists j :: 0 <= j < |entries| && Names(entries[j], id) {
      var j :| 0 <= j < |entries| && Names(entries[j], id);
      NormaliseEntryNames(entries[j], id);
      assert list[j] == Str(id);
    }
  }

  /** `toggleFavorite` removes a current favourite and adds anything else. */
  function ToggleOperation(isFavorite: bool, movieId: string): (op: Operation)
    ensures op.RemoveFavoriteMovie? <==> isFavorite
    ensures op.AddFavoriteMovie? <==> !isFavorite
    ensures op == AddFavoriteMovie(movieId) || op == RemoveFavoriteMovie(movieId)
  {
    if isFavorite then RemoveFavoriteMovie(movieId) else AddFavoriteMovie(movieId)
  }

  class MovieCardComponent {
    var movies: Json
    var favoriteMovies: seq<Json>

    constructor ()
      ensures movies == Arr([]) && favoriteMovies == []
    {
      movies := Arr([]);
      favoriteMovies := [];
    }

    /** `favoriteMovies.includes(movieId)`. */
    function IsFavorite(movieId: string): (r: bool)
      reads this
      ensures r <==> exists i :: 0 <= i < |favoriteMovies| && favoriteMovies[i] == Str(movieId)
    {
      Str(movieId) in favoriteMovies
    }

    /** `getMovies`: a successful answer replaces `movies` as it came; a failure keeps them. */
    method GetMovies(store: Storage, outcome: HttpOutcome) returns (req: Request)
      modifies this
      ensures req == BuildRequest(GetAllMovies, store.GetItem("token"))
      ensures outcome.Delivered? ==> movies == ExtractResponseData(outcome.body)
      ensures outcome.Failed? ==> movies == old(movies)
      ensures favoriteMovies == old(favoriteMovies)
    {
      req := BuildRequest(GetAllMovies, store.GetItem("token"));
      var result := Settle(GetAllMovies, outcome);
      if result.Ok? {
        movies := result.value;
      }
    }

    /** `getFavorites`: the profile's favourite list, normalised, replaces the local one. */
    method GetFavorites(store: Storage, outcome: HttpOutcome) returns (req: Request)
      modifies this
      ensures req == BuildRequest(GetUserProfile, store.GetItem("token"))
      ensures favoriteMovies == AfterFavoritesResponse(old(favoriteMovies), Settle(GetUserProfile, outcome))
      ensures movies == old(movies)
    {
      req := BuildRequest(GetUserProfile, store.GetItem("token"));
      var result := Settle(GetUserProfile, outcome);
      if result.Ok? {
        var list := FavoritesFrom(result.value);
        if list.Some? {
          favoriteMovies := list.value;
        }
      }
    }

    /**
      `toggleFavorite`: exactly one request, a removal when the id is a
      favourite and an addition otherwise; on success the list becomes the
      server's list.
     */
    method ToggleFavorite(movieId: string, store: Storage, outcome: HttpOutcome) returns (req: Request)
      modifies this
      ensures req == BuildRequest(ToggleOperation(old(IsFavorite(movieId)), movieId), store.GetItem("token"))
      ensures favoriteMovies
           == AfterFavoritesResponse(old(favoriteMovies), Settle(ToggleOperation(old(IsFavorite(movieId)), movieId), outcome))
      ensures movies == old(movies)
    {
      var op := ToggleOperation(IsFavorite(movieId), movieId);
      req := BuildRequest(op, store.GetItem("token"));
      var result := Settle(op, outcome);
      if result.Ok? {
        var list := FavoritesFrom(result.value);
        if list.Some? {
          favoriteMovies := list.value;
        }
      }
    }
  }
}
