# Trackventory client core, modelled in Dafny

Trackventory is a browser front end for inventory management, written in React. Its
decision logic is modelled here; the markup is not. The model covers:

- the session lifecycle in `sessionStorage`: a login stamps the time, activity and
  validation refresh the stamp, and an idle period of more than 60 minutes expires the
  session;
- the three authentication gates: the protected route, the login page on mount and the
  dashboard on mount. Each one reads `userData` and then redirects, purges or admits;
- the REST client. For each of its fourteen operations the model gives the request it
  builds (method, URL, headers, body), the token guard, how an HTTP outcome becomes the
  value the promise settles with, and `cleanErrorMessage`;
- the toast helpers, as functions returning the toast they would ask for;
- the user, store and settings pages:
  - list filters, owner-name lookup and the active-user dropdown;
  - the classification of a delete-store response;
  - form validation where the first failing check wins;
  - the state each handler leaves behind.

Modules, one file each:

- `Options`, `JsStrings` and `JsValues`: JavaScript values and string operations.
- `ArrayOps`: `filter` and `find`.
- `Browser`: `sessionStorage`.
- `Toasts`, `SessionManager`, `AuthGate` and `Api`.
- `ProtectedRoutes`, `LoginPage`, `DashboardPage`, `Viewers`, `UsersPage`,
  `StorePage` and `SettingsPage`.

`sessionStorage` is a class whose `items` map the methods update. Page state
(`useState`) becomes class fields. Pure helpers are functions.

Some inputs cannot be computed inside the model, so they are parameters:

- the network: each `fetch` is the `HttpOutcome` it produced;
- the clock: `Date.now()` is `now: nat`;
- `JSON.parse` and `JSON.stringify`;
- the user's answer to `window.confirm`.

Effects that cannot happen inside the model come back as results instead:

- a navigation is returned as a `Route`;
- a toast is returned as a `ToastCall`;
- a follow-up list reload is returned as a flag.

### Behaviour of the code worth knowing

- **No gate reads `sessionTimestamp`.** Neither `ProtectedRoute`, the login page nor
  the dashboard looks at the timestamp, so stored login data with no timestamp is
  admitted although `isSessionExpired` calls that session expired
  (`AuthGate.GateAdmitsExpiredSession`). Expiry is enforced only where the session
  manager's own functions are called.
- **An empty stored `userData` is not removed.** The gates read it as "no session":
  a redirect, with storage left as it is.
- **An empty 2xx body from `deleteStore` is not reported as a success.** `deleteStore`
  resolves to the empty string, which the store page classifies as a failure with an
  empty message, so no toast is shown and the list is not reloaded
  (`StorePage.EmptyDeleteBodyIsSilent`).
- **`isSessionExpired` only tests that `userData` is non-empty.** It does not parse
  it or check its `success` flag.

## Model

| member | source | states |
|---|---|---|
| SessionManager.InitializeSession | src/utils/sessionManager.js:12-15 | the storage afterwards is the old storage with `sessionTimestamp` set to the decimal text of `now` |
| SessionManager.UpdateSessionActivity | src/utils/sessionManager.js:20-23 | the same stamp as a login: only `sessionTimestamp` changes, to `now` |
| SessionManager.StampChangesOnlyTimestamp | src/utils/sessionManager.js:12-23 | stamping leaves every key other than `sessionTimestamp` present or absent as before, with the same value |
| SessionManager.MissingKeyMeansExpired | src/utils/sessionManager.js:28-34 | a missing or empty `userData` or `sessionTimestamp` means expired, at any time |
| SessionManager.StampedSessionLiveWithinTimeout | src/utils/sessionManager.js:28-39 | with `userData` present, a session stamped at `stamp` is live at `now` iff at most 3600000 ms have passed; the comparison is strict, so exactly 60 minutes idle is live. This rests on `parseInt` reading back the written stamp |
| SessionManager.UnreadableStampNeverExpires | src/utils/sessionManager.js:36-39 | a stamp that `parseInt` reads as NaN never compares greater, so the session is never expired |
| SessionManager.ExpiryIsMonotonic | src/utils/sessionManager.js:36-39 | for fixed storage, expired at `now` implies expired at every later time |
| SessionManager.ClearExpiredSession | src/utils/sessionManager.js:45-54 | removes exactly `userData` and `sessionTimestamp`; asks for one error toast with the session-expired message |
| SessionManager.ClearIsIdempotent | src/utils/sessionManager.js:45-47 | clearing twice leaves the same storage as clearing once |
| SessionManager.HandleSessionExpiration | src/utils/sessionManager.js:59-67 | returns true iff the session was expired. When true, both keys are removed, the login route is requested and one error toast with the session-expired message is asked for. When false, storage is unchanged and there is no navigation and no toast |
| SessionManager.ValidateSession | src/utils/sessionManager.js:72-80 | returns false iff the session was expired; an expired session is cleared, redirected and given the session-expired error toast. On true the stamp is `now`, no toast or navigation is asked for, and the session is live right after |
| SessionManager.StampedSessionIsLive | src/utils/sessionManager.js:20-39 | a stamp written at `now` makes the session live at `now` iff `userData` is present |
| SessionManager.OnUserActivity | src/utils/sessionManager.js:103-107 | refreshes the stamp only for a live session. An expired session's storage is unchanged and stays expired at every later time, so activity cannot revive it |
| SessionManager.MonitorTick | src/utils/sessionManager.js:85-95 | one interval tick stops the interval iff the session is expired, then clears it, redirects and asks for the session-expired error toast; a live session is left untouched |
| SessionManager.IsSessionExpired | src/utils/sessionManager.js:28-40 | `isSessionExpired()`: a live session has both `userData` and `sessionTimestamp` present and non-empty, and when the stamp reads as a number, at most 3600000 ms have passed since it |
| JsStrings.ParseIntOfNatToString | src/utils/sessionManager.js:36 | `parseInt` of the text `toString` writes for a non-negative integer gives that integer back |
| JsStrings.ParseIntOfDigits | src/utils/sessionManager.js:36 | a non-empty run of decimal digits is read by `parseInt` as its decimal value |
| JsStrings.ParseInt | src/utils/sessionManager.js:36 | `parseInt(s)` with no radix: text that is empty or all white space is NaN, and a negative result needs a `-` right after the leading white space |
| JsStrings.TrimEmptyIffBlank | src/components/Store.jsx:120 | `s.trim()` is empty exactly when `s` is empty or white space only |
| AuthGate.StoredVerdict | src/components/ProtectedRoute.jsx:12-32 | the shared gate decision. Data is accepted only when the stored text is present and parses to a truthy value with a truthy `success`, and then the accepted data is that parsed value |
| AuthGate.VerdictCases | src/components/ProtectedRoute.jsx:12-32 | "no session" iff `userData` is missing or empty; "accepted" iff it parses to a truthy value with a truthy `success` |
| AuthGate.VerdictIgnoresTimestamp | src/components/ProtectedRoute.jsx:12-32 | writing or removing `sessionTimestamp` never changes a gate's verdict |
| AuthGate.GateAdmitsExpiredSession | src/components/ProtectedRoute.jsx:12-32 | valid stored login data with no timestamp is accepted by the gates while `isSessionExpired` calls it expired |
| ProtectedRoutes.ProtectedRoute.Render | src/components/ProtectedRoute.jsx:45-60 | the children are rendered iff not loading and authenticated; the spinner shows iff loading |
| ProtectedRoutes.ProtectedRoute.CheckAuth | src/components/ProtectedRoute.jsx:10-40 | what each verdict does. No data: redirect, storage untouched. Unparsable or invalid data: `userData` removed, then redirect. Accepted: authenticated, storage untouched. Loading ends on every path |
| ProtectedRoutes.MountProtectedRoute | src/components/ProtectedRoute.jsx:6-60 | after the mount check the children show iff the stored data is accepted, and then storage is unchanged; otherwise nothing renders and the login route is requested |
| LoginPage.LoginCall | src/auth/Login.jsx:55-85 | the active tab alone chooses the endpoint: "user" gives `userLogin`, anything else `adminLogin`, always with the form's credentials |
| LoginPage.Login.CheckExistingSession | src/auth/Login.jsx:19-44 | on mount, accepted data goes to the dashboard with storage untouched; unparsable or invalid data is removed with no navigation; no data does nothing |
| LoginPage.Login.HandleSubmit | src/auth/Login.jsx:50-117 | the login call always resolves. On success the stringified response is stored as `userData`, the session is stamped with `now`, a success toast is asked for and the dashboard follows. On failure storage is unchanged and the response is shown as an error. Loading ends in every case |
| LoginPage.StoredLoginIsAdmitted | src/auth/Login.jsx:61-67 | what a successful login stores is accepted by every gate and is a live session at the login time, provided the stringified response parses back to itself |
| DashboardPage.NavigationItems | src/dashboard/Dashboard.jsx:105-112 | the five fixed entries come first; the users entry is appended, as the sixth and last, iff `userData.user.role === 'admin'` |
| DashboardPage.Dashboard.CheckSession | src/dashboard/Dashboard.jsx:13-40 | what each verdict does. No data: redirect, still loading, storage untouched. Unparsable or invalid data: `userData` removed, then redirect. Accepted: the page's `userData` is the parsed value and loading ends |
| DashboardPage.Dashboard.HandleLogout | src/dashboard/Dashboard.jsx:42-46 | removes `userData` only, so `sessionTimestamp` stays; asks for the logged-out success toast and the login route |
| DashboardPage.UsersPanelNeedsUsersEntry | src/dashboard/Dashboard.jsx:407 | the users panel is shown only when the users entry is in the navigation |
| DashboardPage.IsAdmin | src/dashboard/Dashboard.jsx:48 | `userData?.user?.role === 'admin'`: true exactly when the nested `role` is the string "admin", and false when `userData` or `user` is missing |
| Api.RejectsOnlyInTwoPlaces | src/services/API.js:126-687 | a call's promise rejects iff it is `registerUser` without a truthy token, or `deleteStore` on a network failure or a non-2xx status; every other call resolves |
| Api.MissingTokenMeansNoRequest | src/services/API.js:240-655 | no request is made iff a token-checked operation has a falsy token. The operations guarded inside `try` then resolve to `{ success: false, message: "Token is required for authentication" }` |
| Api.RequestHeaders | src/services/API.js:244-251 | every request has `Content-Type: application/json`. It has `Authorization: Bearer <token>` iff the token is truthy on an authenticated operation, and always on `deleteStore` |
| Api.Url | src/services/API.js:32-659 | every request goes to a path under `http://localhost:8081/api/` |
| Api.Body | src/services/API.js:51-630 | a request has a JSON body exactly when its method is neither GET nor DELETE |
| Api.Headers | src/services/API.js:244-251 | `Content-Type: application/json` is always set; `Authorization` is set exactly when the call sends its bearer token |
| Api.Respond | src/services/API.js:256-284 | a 2xx JSON body is returned as parsed. A network failure, a non-2xx status or a 2xx body that is not JSON gives `{ success: false }` with a non-empty message, when the fallback is non-empty |
| Api.DeleteStoreSettles | src/services/API.js:657-687 | `deleteStore` rejects iff the fetch failed or the status is not 2xx; a 2xx body that is not JSON resolves to the raw text |
| Api.Invoke | src/services/API.js:126-687 | one call of an API function: a request that goes out is exactly the one built for the call; no request goes out only with the "Token is required" rejection or failure result |
| Api.ErrorStatusBecomesFailureResult | src/services/API.js:59-77 | a non-2xx status resolves to `{ success: false, message }`. The message is the cleaned error text, or the operation's fallback when that is empty, and it is never empty |
| Api.JsonErrorMessageSurfaces | src/services/API.js:5-10 | a JSON error body with a non-empty string `message` resolves to a failure result with exactly that message |
| Api.DeleteStoreOutcomes | src/services/API.js:657-687 | `deleteStore` rejects with "HTTP error! status: N" on a non-2xx status. On 2xx it resolves to the parsed JSON, or to the raw text (the empty text included) when the body is not JSON |
| Api.CleanErrorMessageTakesMessage | src/services/API.js:5-10 | JSON with a truthy `message` gives that message |
| Api.CleanErrorMessageKeepsOtherJson | src/services/API.js:12-13 | non-null JSON without a truthy `message` gives the input unchanged |
| Api.CleanErrorMessageOfText | src/services/API.js:14-26 | text that is not JSON gives the cleaned text, or the input when cleaning leaves nothing. The cleaned text has no braces, and no leading or trailing quote, comma or white space |
| Api.CleanErrorMessage | src/services/API.js:2-27 | `cleanErrorMessage(errorData)`: for non-empty input the result is truthy, so callers never get an empty message from it |
| Api.Cleaned | src/services/API.js:14-25 | the five rewrites leave no brace and no quote, comma or white space at either end |
| Api.StripEdgeJunkKeepsNoBraces | src/services/API.js:23 | trimming the quote, comma and white-space edges leaves no such character at either end and adds no brace |
| Api.RemoveBraces | src/services/API.js:22 | the result has no `{` and no `}` |
| Api.FieldMatchAt | src/services/API.js:19-20 | a capture of the `"key": "value"` pattern is non-empty and holds no double quote |
| Api.LastFieldMatch | src/services/API.js:19-20 | the greedy match, searching back from the longest prefix, captures non-empty text |
| Api.UnwrapsMessageField | src/services/API.js:19 | the message pattern unwraps `{"message":"v"}` to `v` for every non-empty `v` with no double quote or line terminator |
| Api.CleansWrappedMessage | src/services/API.js:14-25 | a body `{"message":"v"}` the parser rejects is cleaned to exactly `v`, for every non-empty `v` with no double quote, brace, colon or line terminator and no comma or white space at either end |
| Api.SuccessFlagLength | src/services/API.js:21 | a `success: true/false,` match at the start has a positive length within the text |
| Toasts.NoticeToast | src/utils/toast.js:42-51 | an object the page builds with a truthy `message` gives exactly one toast carrying that message, a success toast only for the type 'success' |
| Toasts.ShowBackendMessage | src/utils/toast.js:23-55 | `showBackendMessage(response, type)`: a success toast only when 'success' was asked for, and with a truthy message; for a non-string response a toast iff the response and its `message` are truthy |
| Toasts.UnparsableStringIsErrorToast | src/utils/toast.js:28-37 | a string that is not JSON gives one error toast with the raw string, even when success was requested |
| Toasts.ParsedStringActsAsValue | src/utils/toast.js:29-42 | a string that parses is shown exactly as the parsed value would be |
| Toasts.ToastIffMessage | src/utils/toast.js:42-55 | a toast appears iff the response is truthy with a truthy `message`; it is a success toast iff the type is 'success', so 'info' shows as an error |
| Toasts.MessageTail | src/utils/toast.js:65 | the capture of `message: (.+)$` is non-empty and holds no line terminator |
| Toasts.LoginErrorWithoutHttpMarker | src/utils/toast.js:63-85 | without "HTTP error!" the whole error message is shown as an error |
| Toasts.LoginErrorInnerMessage | src/utils/toast.js:63-81 | always one error toast. When the text has "HTTP error!" and a trailing `message: <json>` that parses to a non-null value with a truthy `message`, that inner message is shown; in every other case the whole message is shown |
| Toasts.ShowLoginErrorToast | src/utils/toast.js:59-85 | `showLoginErrorToast(error)`: always an error toast, carrying either the whole error text or a truthy inner message |
| Viewers.RolesIncludeAdmin | src/components/Users.jsx:41 | `roles?.includes('ROLE_ADMIN')` throws exactly for a non-nullish `roles` that is neither a string nor an array |
| Viewers.ViewerOf | src/components/Users.jsx:39-41 | a missing or empty `userData` gives an anonymous non-administrator with no token |
| Viewers.ViewerFlagMatchesBadgeOnArrays | src/components/Users.jsx:150-152 | for an array of roles the page's administrator flag and the per-row `isUserAdmin` badge agree |
| Viewers.NoStoredDataIsAnonymous | src/components/Store.jsx:48-50 | no stored data means no token and no administrator rights |
| Viewers.RoleStringIsSubstringTest | src/components/Users.jsx:41 | a role string that merely contains 'ROLE_ADMIN' makes the viewer an administrator while `isUserAdmin` rejects it |
| Viewers.IsUserAdmin | src/components/Users.jsx:150-152 | `isUserAdmin(roles)`: the row badge; a badge implies that the page's `roles?.includes` admin flag is true as well |
| UsersPage.FilteredUsers | src/components/Users.jsx:137-148 | a user is listed iff it is in the list, its username, email or userId matches the term, and it passes the status filter; a listed user appears as many times as in the list |
| UsersPage.FilteredUsersKeepOrder | src/components/Users.jsx:137 | the filtered list is an order-preserving sub-list of the users |
| UsersPage.EmptyTermNeedsAnIdentity | src/components/Users.jsx:138-140 | even with an empty term, a user without username, email and userId is not listed |
| UsersPage.EmptyTermShowsNamedUsers | src/components/Users.jsx:138-145 | with an empty term and the 'all' filter, a list in which every user has a string username is shown whole |
| UsersPage.StatusFilterCases | src/components/Users.jsx:142-145 | apart from 'all', a user passes iff its status equals the filter ignoring case, or the filter is 'active' with `success === true`, or 'inactive' with `success === false` |
| UsersPage.MatchesSearch | src/components/Users.jsx:138-140 | the search clause of `filteredUsers`: the username or email contains the term ignoring case, or the user id text contains it |
| UsersPage.MatchesStatus | src/components/Users.jsx:142-145 | the status clause of `filteredUsers`: 'all', a case-insensitive status match, or the `success` flag for 'active'/'inactive' |
| UsersPage.NormalizedUsers | src/components/Users.jsx:55-56 | a usable array response is the list; a non-array response gives the empty list |
| UsersPage.UsersPage.View | src/components/Users.jsx:154-168 | the list is rendered iff the viewer is an administrator, and then it is the filtered users |
| UsersPage.UsersPage.FetchAllUsers | src/components/Users.jsx:48-70 | the call resolves. The users become the normalised response. A usable response gives the loaded toast, any other is shown as an error. Loading ends and the filters are unchanged |
| UsersPage.UsersPage.HandleDeleteUser | src/components/Users.jsx:112-134 | without confirmation nothing is sent. Otherwise the list reloads iff the response is usable, with the deleted toast, and any other response is shown as an error |
| StorePage.OwnerName | src/components/Store.jsx:112-117 | 'Unassigned' for a falsy owner id. If a user with that id exists, the first such user's username, else its name, else "User <id>". If none does, "User <id>". Never empty |
| StorePage.FilteredStores | src/components/Store.jsx:119-135 | a blank term shows every store. Otherwise a store shows iff it is in the list and its name, location or owner name contains the term ignoring case, or its owner id or id text contains it; a shown store appears as many times as in the list |
| StorePage.FilteredStoresKeepOrder | src/components/Store.jsx:119-135 | the stores shown are an order-preserving sub-list of the stores |
| StorePage.StoreMatches | src/components/Store.jsx:119-133 | one store's search test: name, location or owner name contain the term ignoring case, or the owner id or store id text contains it |
| StorePage.ActiveUsers | src/components/Store.jsx:71-73 | the dropdown holds exactly the users whose status is 'ACTIVE' or 'active', each as many times as in the list |
| StorePage.MixedCaseActiveIsExcluded | src/components/Store.jsx:71-73 | a user with status 'Active' is not in the dropdown |
| StorePage.FetchedUsers | src/components/Store.jsx:61-88 | an unusable response gives no users. A usable array response, or else an array `data`, is kept exactly when it holds no `null` or `undefined`; otherwise the list is empty, because the status filter throws and the `catch` empties both lists. A `data` that is not an array gives no users for the same reason |
| StorePage.FetchedStores | src/components/Store.jsx:90-110 | an unusable response gives no stores; a usable array response is the list; otherwise a usable response's `data` array is the list, and a missing or falsy `data` gives an empty list |
| StorePage.OwnerIdValue | src/components/Store.jsx:159-164 | the owner id sent is the number `parseInt` reads from the field, and `null` exactly when it reads NaN |
| StorePage.CreateCall | src/components/Store.jsx:159-164 | the create call carries the form's name and location, the token, and as owner id the value `parseInt` reads from the owner field |
| StorePage.EditCall | src/components/Store.jsx:188-194 | the update sends the selected store's id and its original owner id, with the form's name and location |
| StorePage.SaveOutcomeMeaning | src/components/Store.jsx:159-177 | a create or update always resolves. It reloads iff the result is usable, with the given success toast; otherwise the result is shown as an error |
| StorePage.StorePage.FetchUsers | src/components/Store.jsx:61-88 | both lists come from one `getAllUsers` result: the lookup list is the fetched users and the dropdown exactly its active users (the page invariant). The stores, search term and both loading flags are unchanged |
| StorePage.StorePage.FetchStores | src/components/Store.jsx:90-110 | the stores become the fetched stores; a usable result gives the loaded toast, any other is shown as an error; loading ends. The user lists, search term and delete spinner are unchanged, so the page invariant holds afterwards iff it held before |
| StorePage.StorePage.HandleDeleteStore | src/components/Store.jsx:210-269 | without confirmation nothing is sent. Otherwise the toast and the reload follow the delete's settlement, and the delete spinner is off afterwards. The lists, search term and list spinner are unchanged, so the page invariant holds afterwards iff it held before |
| StorePage.StoreEditor.OpenCreateModal | src/components/Store.jsx:280-283 | the form is emptied and the create dialog opens |
| StorePage.StoreEditor.OpenEditModal | src/components/Store.jsx:270-278 | the store becomes the selection and the form holds its name and location, with an empty owner field |
| StorePage.StoreEditor.HandleCreateStore | src/components/Store.jsx:151-178 | a field blank after trimming gives one error toast and no request. Otherwise `createStore` runs. On success the dialog closes and the form is cleared; on failure both are kept |
| StorePage.StoreEditor.HandleEditStore | src/components/Store.jsx:180-208 | a blank name or location gives one error toast and no request. Otherwise `updateStore` runs with the original owner id. On success the dialog closes and the form is cleared |
| StorePage.StringDeleteResponse | src/components/Store.jsx:224-233 | a string response succeeds iff its lower-case form contains 'success' or 'deleted'; the message is the string as received |
| StorePage.ValueDeleteResponses | src/components/Store.jsx:234-241 | `true`, `null` and `undefined` are successes with the default message. An object succeeds iff its `success` is not `false`, with its message or the default |
| StorePage.RejectedDeleteFeedback | src/components/Store.jsx:257-265 | a rejection whose message contains 'Unexpected token' is reported as a success and reloads; any other rejection is an error toast without reload |
| StorePage.EmptyDeleteBodyIsSilent | src/components/Store.jsx:224-251 | a 2xx empty delete body resolves to the empty string, which gives no toast and no reload |
| StorePage.PlainTextDeleteSucceeds | src/components/Store.jsx:224-251 | a 2xx "Store deleted successfully" text body is a success toast with that text, and a reload |
| StorePage.DeletedMessageReadsAsSuccess | src/components/Store.jsx:224-230 | the text "Store deleted successfully" classifies as a success with itself as message |
| StorePage.DeleteReport | src/components/Store.jsx:224-241 | the reading of a resolved delete response: it carries a truthy message unless the response is the empty text, and it reads as a failure only for a string without 'success'/'deleted' or an explicit `success: false` |
| StorePage.DeleteFeedback | src/components/Store.jsx:224-265 | the toast and reload after a delete settles: a reload exactly when a success toast is shown; every rejection shows a toast |
| SettingsPage.PasswordChangeError | src/components/Settings.jsx:44-57 | the form passes iff the confirmation matches, the new password has at least 6 characters and differs from the current one. The first failing check, in that order, gives its message |
| SettingsPage.Settings.HandleSubmit | src/components/Settings.jsx:41-87 | a failed check shows exactly its message, with no request and no change to loading. Otherwise `updatePassword` resolves. A usable result resets the three fields with a success toast; any other keeps them and is shown as an error |
| SettingsPage.AcceptedFormIsSent | src/components/Settings.jsx:59-68 | a form that passes the checks is sent, with a token, as a PUT carrying exactly its three fields |
| ArrayOps.FilterIsSubsequence | src/components/Users.jsx:137 | `filter` keeps the elements in their original order |
| ArrayOps.FindIndex | src/components/Store.jsx:114 | `find` stops at the first element satisfying the test, and finds none only when no element does |

## Left out

- Network I/O is not performed. Each `fetch` is the outcome it produced: a network
  failure with its message, or a status with a body text. Response headers are not
  modelled.
- JSON.parse and `JSON.stringify` are parameters, not implementations. Lemmas
  that need a round trip (`LoginPage.StoredLoginIsAdmitted`) take it as a hypothesis.
- Fields set to `undefined` in a request body are kept in the modelled object.
  `JSON.stringify` would drop them; the model does not serialise bodies.
- Timers are not modelled: the 5-minute `setInterval`, the 500 ms `setTimeout`
  before the dashboard redirect, and the toast animation timers.
  `SessionManager.MonitorTick` models one tick, and a navigation is returned, not
  scheduled.
- Registering and removing the DOM activity listeners is not modelled. Only the
  guard inside `updateActivity` is (`SessionManager.OnUserActivity`).
- Rendering, styling and routing are not modelled: JSX markup, `App.jsx`,
  `Layout.jsx`, `Sidebar.jsx`, the decorative `components/Dashboard.jsx`, the stub
  `pages/Login.jsx`, `Signup.jsx` and `AddNewUser.jsx`. They only call the modelled
  operations.
- The page handlers `handleViewDetails` (store page) and `fetchUserById` (user
  page) are not modelled. They only forward `getStoreById` / `getUserById`, whose
  request and result are modelled in `Api`.
- Console logging is not modelled.
- Numbers are integers. There is no floating point, and NaN appears only where the
  code makes it (`parseInt`, and an owner id NaN, which `JSON.stringify` writes as
  `null`).
- JsStrings.LowerChar: `toLowerCase` folds only the ASCII letters here, because
  full Unicode case mapping is not available in the model.
- SettingsPage.PasswordChangeError: length is counted in characters, not UTF-16
  code units. The two differ only for characters outside the Basic Multilingual
  Plane.
- JsValues.ContainsFolded: a search field that is present but not a string makes
  `toLowerCase` throw in the page, so the filter throws. The model treats such a field
  as not matching. The same holds for the status filter
  (src/components/Users.jsx:142-145): a truthy `status` that is not a string makes
  `user.status.toLowerCase()` throw, and `UsersPage.MatchesStatus` reads it as not
  matching that clause. Likewise a `null` entry in a user or store list makes a filter
  throw in the page, and the model reads it as a value with no fields.
- StorePage.StoreEditor.OpenEditModal puts "" in the form for a `name` or `location` that
  is not a string. `store.name || ''` keeps a truthy non-string such as `5`, and the
  later `formData.name.trim()` throws outside the `try`, so no toast appears. The model
  shows the "Store name and location are required" error toast instead.
- StorePage.FetchedStores: a usable response whose `data` is truthy but not an
  array would be stored as is, and the page's filter would throw on it. The model
  keeps no stores in that case.
- Viewers.ViewerOf: a page whose stored data cannot be read throws during render.
  The model represents that page as `Crashed` and does not model the error screen.
- LoginPage.Login.HandleSubmit never reaches the `catch`, and with it
  `showLoginErrorToast`, because the login calls never reject
  (`Api.RejectsOnlyInTwoPlaces`). `Toasts.ShowLoginErrorToast` is modelled on its own.
- The `catch` branches of `UsersPage.UsersPage.FetchAllUsers`,
  `UsersPage.UsersPage.HandleDeleteUser`, `StorePage.StorePage.FetchStores`,
  `SettingsPage.Settings.HandleSubmit` and the store create/edit handlers are
  unreachable for the same reason. Each method proves its call resolves.
- StorePage.StoreEditor.HandleEditStore requires a selected store. The edit dialog
  renders only while `showEditModal && selectedStore` holds
  (src/components/Store.jsx:617), so its submit cannot run without one. If it did,
  reading `selectedStore.id` inside the `try` would throw, and the `catch` would
  show the error text as an error toast; that path is not modelled.
- window.confirm is the `confirmed` parameter.
- The `if (window.showToast)` guard of `showSuccessToast`, `showErrorToast` and
  `showInfoToast` (src/utils/toast.js:2-20) is not modelled: every helper and handler
  returns the toast it requests as if the hook were installed. Without the hook the
  page shows nothing, and that case states nothing about the decision logic.
- The reloads after a save or a delete are not performed. The handlers return a
  `reload` flag, and the reload itself is `FetchStores` / `FetchUsers` /
  `FetchAllUsers`.
- Api.ReplaceQuotedField models the first two `cleanErrorMessage` rewrites
  directly; no general regular-expression engine is modelled.
