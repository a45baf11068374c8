# MovieMobs client core in Dafny

This project models the logic of the MovieMobs Angular client for a movie catalogue. Templates, dialogs and routing are not modelled. The modelled parts are:

- **Favourites** (`MovieCardComponent`). The component keeps the movie list and the user's favourite ids. `toggleFavorite` sends a remove request for a current favourite and an add request otherwise. After any successful answer, the local list is replaced by the server's `favoriteMovies`, with each entry normalised as `movie._id || movie`. A failure leaves the list unchanged.
- **Requests and responses** (`FetchApiDataService`). Each operation has a fixed method and path under `https://iecm-movies-app.herokuapp.com/`. Every call except registration and login sends `Authorization: Bearer <token>`, using the token read from storage at call time; with no stored token the header is `Bearer null`. Protected calls shape a response body with `body || {}`. Every failure becomes one fixed message.
- **Payload builders**. Registration trims the username, trims and lower-cases the email, and deletes an empty birthday. Login trims the username. A profile update sends `Username`, `Email` and `Birthday`, and sends `Password` only when one was typed.
- **Session in `localStorage`**. This is a class holding a `map<string, string>`. Login writes `token` and `user`. Logout removes exactly those two keys. A successful account deletion clears everything. The user counts as logged in when `token` holds a non-empty string.

JavaScript values are modelled by the datatype `JsValues.Json`. A property read on `null` or `undefined` throws a TypeError, and so does `.map` on something that is not an array. Such an error inside a success callback is modelled as an `Option` that is `None`, and the component then leaves its fields unchanged. Each HTTP call is one atomic step. The component method returns the request it sends and takes the transport's outcome (`Delivered(body)` or `Failed(status, error)`) as a parameter.

Modules, one per source file, plus three for JavaScript values, strings and `localStorage`: `JsValues`, `JsStrings` (trim and lower-case), `WebStorage`, `FetchApiData`, `MovieCard`, `UserProfile`, `UserRegistrationForm`, `UserLoginForm`, `NavBar`.

The code has none of the following, and the model does not add them:
- a legacy-route fallback after "not found";
- an error taxonomy by HTTP status, and clearing the session on 401;
- a `Pending` state that refuses overlapping toggles of one id;
- normalising the casing of movie field names.

## Model

| member | source | states |
|---|---|---|
| `JsStrings.Trim` | src/app/components/user-registration-form/user-registration-form.component.ts:80 | `trim()` returns a contiguous slice of its input. Everything cut off before and after is white space, and the result neither starts nor ends with white space. |
| `JsStrings.TrimIdempotent` | src/app/components/user-login-form/user-login-form.component.ts:72 | Trimming an already trimmed username changes nothing. |
| `JsStrings.TrimPadded` | src/app/components/user-registration-form/user-registration-form.component.ts:80 | Trimming removes exactly the white space around a string, and nothing inside it. |
| `JsStrings.ToLowerCase` | src/app/components/user-registration-form/user-registration-form.component.ts:82 | `toLowerCase()` keeps the length, leaves no upper-case ASCII letter, and changes only upper-case letters. |
| `JsStrings.LowerCaseKeepsTrimmed` | src/app/components/user-registration-form/user-registration-form.component.ts:82 | Lower-casing a trimmed email does not put white space back at its ends. |
| `WebStorage.Storage.GetItem` | src/app/services/fetch-api-data.service.ts:34 | `getItem` gives the stored string when the key is present and `null` (`None`) otherwise. |
| `WebStorage.Storage.SetItem` | src/app/components/user-login-form/user-login-form.component.ts:78-79 | `setItem` stores `String(value)` under the key. Every other key is unchanged. |
| `WebStorage.Storage.RemoveItem` | src/app/components/nav-bar/nav-bar.component.ts:67-68 | `removeItem` removes only that key; an absent key is no error. |
| `WebStorage.Storage.Clear` | src/app/components/user-profile/user-profile.component.ts:142 | `clear` empties storage. |
| `FetchApiData.BearerHeader` | src/app/services/fetch-api-data.service.ts:37 | The header is `Bearer ` followed by the token, or by the text `null` when no token is stored. |
| `FetchApiData.BuildRequest` | src/app/services/fetch-api-data.service.ts:21-112 | A request carries an Authorization header exactly when the operation is neither registration nor login. The header is the bearer header of the token read at call time. Every URL starts with the API root. |
| `FetchApiData.PublicRoutes` | src/app/services/fetch-api-data.service.ts:21-31 | Registration is POST `users` and login is POST `login`. Both send the details as the body, carry no header, and do not depend on the stored token. |
| `FetchApiData.AccountRoutes` | src/app/services/fetch-api-data.service.ts:33-112 | The routes are GET `movies`, GET `user`, PUT `user` with the updated user as body, and DELETE `user`. Each carries the bearer header. |
| `FetchApiData.MissingTokenHeader` | src/app/services/fetch-api-data.service.ts:34-38 | With no stored token, every protected call still sends `Authorization: Bearer null`. |
| `FetchApiData.FavoriteRoutes` | src/app/services/fetch-api-data.service.ts:57-79 | Add and remove use the same URL, `user/favorites/` followed verbatim by the movie id. Add is a POST with `{}` as body and remove is a DELETE with no body. Both carry the same header. |
| `FetchApiData.FavoriteUrlInjective` | src/app/services/fetch-api-data.service.ts:59 | Two different movie ids never share a favourite URL. |
| `FetchApiData.ExtractResponseData` | src/app/services/fetch-api-data.service.ts:114-117 | The shaped body is always truthy, and a truthy body comes through unchanged. |
| `FetchApiData.ExtractResponseDataIdempotent` | src/app/services/fetch-api-data.service.ts:114-117 | Shaping a body twice gives what shaping it once gives. |
| `FetchApiData.ExtractResponseDataFalsy` | src/app/services/fetch-api-data.service.ts:114-117 | A falsy body (`null`, `undefined`, `""`, `0`, `false`) becomes `{}`. |
| `FetchApiData.HandleError` | src/app/services/fetch-api-data.service.ts:119-129 | `handleError` rethrows the fixed message `Something bad happened; please try again later.` for every failure, whatever its status or error body, client-side or server-side. |
| `FetchApiData.Settle` | src/app/services/fetch-api-data.service.ts:39-42 | A call fails exactly when its transport fails, and then with the fixed message; nothing is retried. Protected calls emit the body shaped by `extractResponseData`: a truthy body as it came, and `{}` for a falsy one. Registration and login emit the body unshaped. |
| `MovieCard.NormaliseEntry` | src/app/components/movie-card/movie-card.component.ts:137 | An entry becomes its `_id` when that is truthy and stays itself otherwise. A `null` or `undefined` entry throws. |
| `MovieCard.NormaliseEntries` | src/app/components/movie-card/movie-card.component.ts:137 | Normalising a list keeps its length and order, entry by entry. It fails exactly when some entry throws. |
| `MovieCard.FavoritesFrom` | src/app/components/movie-card/movie-card.component.ts:137 | A missing or falsy `favoriteMovies` gives `[]`. An array gives exactly its normalised entries, so it throws only when some entry is `null` or `undefined`. A truthy `favoriteMovies` that is not an array throws, because it has no `map`. A `null` response throws. |
| `MovieCard.AfterFavoritesResponse` | src/app/components/movie-card/movie-card.component.ts:134-141 | The next callback replaces the list with the server's entries, normalised one by one in order. The error callback, and a next callback that throws, leave the list as it was. |
| `MovieCard.NoFavoritesField` | src/app/components/movie-card/movie-card.component.ts:137 | A falsy body, which is shaped into `{}`, or an object without `favoriteMovies`, sets the list to `[]`. |
| `MovieCard.NormaliseEntryNames` | src/app/components/movie-card/movie-card.component.ts:137 | An entry normalises to the id `id` exactly when it is that string or an object whose `_id` is that string and truthy, that is, non-empty. An object whose `_id` is `""` normalises to itself. |
| `MovieCard.FailureKeepsFavorites` | src/app/components/movie-card/movie-card.component.ts:139-177 | A failed call leaves the favourite list unchanged. This holds for the error callbacks of the profile load (:139-141), the removal (:165-167) and the addition (:175-177). |
| `MovieCard.ServerListWins` | src/app/components/movie-card/movie-card.component.ts:162 | After a successful answer whose `favoriteMovies` normalises without throwing (no `null` or `undefined` entry), an id is a favourite exactly when the server's list names it, whatever the local list held before. |
| `MovieCard.ToggleOperation` | src/app/components/movie-card/movie-card.component.ts:159-179 | A toggle removes the id when it is a favourite and adds it otherwise. It never does both. |
| `MovieCard.MovieCardComponent.constructor` | src/app/components/movie-card/movie-card.component.ts:92-93 | Both lists start empty. |
| `MovieCard.MovieCardComponent.IsFavorite` | src/app/components/movie-card/movie-card.component.ts:150-152 | An id is a favourite exactly when the string occurs in `favoriteMovies`. |
| `MovieCard.MovieCardComponent.GetMovies` | src/app/components/movie-card/movie-card.component.ts:117-129 | The method sends GET `movies` with the current token. On success `movies` becomes the shaped response as given; on failure it is unchanged. Favourites are untouched. |
| `MovieCard.MovieCardComponent.GetFavorites` | src/app/components/movie-card/movie-card.component.ts:134-143 | The method sends GET `user`. The favourite list becomes the normalised server list, and stays unchanged on failure or a throwing answer. |
| `MovieCard.MovieCardComponent.ToggleFavorite` | src/app/components/movie-card/movie-card.component.ts:158-180 | The method sends exactly one request, remove when the id was a favourite and add otherwise. The list then becomes the server's normalised list, or stays unchanged on failure. |
| `UserProfile.LoadedUserData` | src/app/components/user-profile/user-profile.component.ts:89-99 | The loaded form model holds the answer's own entries. `Birthday` is the formatted birthday, or blank when the answer has none, and `Password` is blank. |
| `UserProfile.UpdatePayload` | src/app/components/user-profile/user-profile.component.ts:106-115 | The update always holds `Username`, `Email` and `Birthday` copied from the form. It holds `Password` exactly when that is truthy, and no other key. |
| `UserProfile.PasswordSentIffNonEmpty` | src/app/components/user-profile/user-profile.component.ts:113-115 | A typed password is sent exactly when it is non-empty, so the payload has 3 or 4 keys. |
| `UserProfile.LoadedFormOmitsPassword` | src/app/components/user-profile/user-profile.component.ts:93 | An update made right after a load omits the password. |
| `UserProfile.UserProfileComponent.constructor` | src/app/components/user-profile/user-profile.component.ts:69 | The form model starts with four blank fields. |
| `UserProfile.UserProfileComponent.GetUser` | src/app/components/user-profile/user-profile.component.ts:89-99 | The method sends GET `user`. On success the form model is the loaded data; on failure it is unchanged. |
| `UserProfile.UserProfileComponent.UpdateUser` | src/app/components/user-profile/user-profile.component.ts:104-130 | The method sends PUT `user` with the update payload. On success `user` holds the serialised answer and nothing else changes. On failure storage is unchanged. |
| `UserProfile.UserProfileComponent.DeleteUser` | src/app/components/user-profile/user-profile.component.ts:135-152 | Nothing is sent unless the deletion is confirmed. Only a successful DELETE `user` clears all storage and navigates to `welcome`. |
| `UserRegistrationForm.CleanedObject` | src/app/components/user-registration-form/user-registration-form.component.ts:79-84 | `cleanedData` has the four keys. Username, password and email hold the given values. Birthday holds `undefined` exactly when the typed birthday is empty, and the typed birthday otherwise. |
| `UserRegistrationForm.DefinedEntries` | src/app/components/user-registration-form/user-registration-form.component.ts:79-90 | After deleting `undefined` values, `username`, `password` and `email` remain, even when empty. `birthday` remains exactly when it is non-empty. |
| `UserRegistrationForm.RegistrationPayload` | src/app/components/user-registration-form/user-registration-form.component.ts:79-90 | The username is trimmed, the email trimmed and lower-cased, and the password unchanged. The birthday is present, as typed, exactly when it is non-empty. |
| `UserRegistrationForm.DeleteUndefined` | src/app/components/user-registration-form/user-registration-form.component.ts:86-90 | The loop deletes exactly the listed keys whose value is `undefined`. It keeps every other entry unchanged. |
| `UserRegistrationForm.PayloadTrimmed` | src/app/components/user-registration-form/user-registration-form.component.ts:80-82 | The username and email sent have no surrounding white space. |
| `UserRegistrationForm.RegisterUser` | src/app/components/user-registration-form/user-registration-form.component.ts:78-105 | The method sends POST `users` with the cleaned body, with no length check. The dialog closes only on success. A failure shows the fixed fallback notice, because the thrown error string has no `message`. |
| `UserLoginForm.LoginPayload` | src/app/components/user-login-form/user-login-form.component.ts:71-74 | The login body has exactly two keys: the trimmed `username` and the unchanged `password`. |
| `UserLoginForm.SessionAfterLogin` | src/app/components/user-login-form/user-login-form.component.ts:77-79 | A successful login stores `String(result.token)` under `token` and `String(JSON.stringify(result.user))` under `user`, and leaves every other key as it was. It throws, writing nothing, for a `null` answer. |
| `UserLoginForm.LoginStoresToken` | src/app/components/user-login-form/user-login-form.component.ts:78 | A token string in the answer is stored as given, and the user is logged in exactly when it is non-empty. |
| `UserLoginForm.MissingTokenCountsAsLoggedIn` | src/app/components/user-login-form/user-login-form.component.ts:78 | An answer without `token` stores the text `undefined`, and that counts as logged in. |
| `UserLoginForm.LogoutUndoesLogin` | src/app/components/user-login-form/user-login-form.component.ts:78-79 | Logging out after a login gives the storage the pre-login state had, minus the session keys. |
| `UserLoginForm.LoginUser` | src/app/components/user-login-form/user-login-form.component.ts:70-97 | The method sends POST `login` with no header. On success it writes the session, closes the dialog and navigates to `movies`. On error storage is untouched, nothing closes, and the fallback notice is shown. |
| `NavBar.LoggedIn` | src/app/components/nav-bar/nav-bar.component.ts:50-52 | The user is logged in exactly when storage has a `token` key holding a non-empty string. |
| `NavBar.SignedOut` | src/app/components/nav-bar/nav-bar.component.ts:66-68 | Logging out removes exactly `token` and `user`; every other key keeps its value. Afterwards the user is not logged in. |
| `NavBar.SignedOutIdempotent` | src/app/components/nav-bar/nav-bar.component.ts:66-68 | Logging out twice leaves storage as logging out once. |
| `NavBar.ClearedIsLoggedOut` | src/app/components/nav-bar/nav-bar.component.ts:50-52 | After an account deletion clears storage, the user is not logged in. |
| `NavBar.Logout` | src/app/components/nav-bar/nav-bar.component.ts:66-70 | `logout` changes storage to its signed-out form and navigates to `welcome`. |

## Left out

- HTTP transport, RxJS observables and subscription timing: each call is one atomic step with a given outcome, and calls do not interleave. The code has no in-flight guard.
- Snack-bar messages of the movie card and the profile, dialogs, and the `open*Dialog` methods: these are display only. The registration and login notices are kept, because which one appears depends on the error value.
- The 100 ms `setTimeout` before navigating after login: navigation is modelled as happening on the success path, without the delay.
- `JSON.stringify` and the birthday formatting `new Date(...).toISOString().split('T')[0]`: these are the function parameters `stringify` and `formatDate`. An invalid date that makes `toISOString` throw is not modelled.
- `console.error` logging.
- `JsStrings.ToLowerCase`: only ASCII letters are lower-cased. Unicode case mapping is not modelled.
- `JsValues.Get`: it is correct only for property names that are not an array index, not `length`, and not inherited from `Object.prototype`. Those are the only names the components read.
- Numbers are integers. Fractions, `NaN` and `-0` are not modelled, and neither is their truthiness.
- Object key order: `Obj` is a map, so the order of keys in a request body is not modelled.
- `MovieCard.MovieCardComponent.ToggleFavorite`: the movie id is a string. The template can pass `movie._id` of a movie without one (`undefined`), which would put the text `undefined` into the URL; that case is not modelled.
- An exception thrown inside a success callback is reported by RxJS outside the component. The model only keeps the component's fields and storage unchanged in that case.
- `ngOnInit` of the movie card and the profile only call the modelled loaders.
- The welcome page, the three dialog components, `main.ts`, `app.component.ts` and `app.routes.ts` are not part of this model. They only wire modules, open dialogs or list routes.
