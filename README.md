# Westigo Admin — a Dafny model of the admin console's logic

Westigo Admin is a single-page console in which campus administrators
manage facilities, the spaces inside them, and events held in those spaces.
The data lives in a hosted backend. This project models the decision logic
of the console and proves properties about it. It covers:

- **Authentication** (`AuthService`, `AuthProvider`). Sign-in is meant to be
  admin-only: the service's `login` signs a non-admin out again and throws
  "Not authorized. Admin access required.". The sign-in page, however,
  calls `login` detached from the service object. So for a non-admin the
  sign-out call itself fails, the session stays open, and the page shows
  the resulting `TypeError` (see "## Findings"). A session
  provider keeps `user`, `loading` and `isAdmin`. It changes them on an
  initial check and on auth-change events, and ignores token refreshes.
  The provider is a transition function `Next` over an explicit state.
  Each `await` is a separate step, and unmounting is one more step. The
  class `Provider` has one method per step, each proved to follow `Next`.
- **Routing and sign-in** (`ProtectedRoute`, `LoginPage`). The route guard
  decides whether to render or redirect. The sign-in page works out its
  return target, decides on an auto-redirect, and holds the error and
  navigation state of a submission.
- **The master list** (`Lists`). Spaces are nested under their facilities.
  A per-facility open/closed map records which groups are expanded. One
  load fetches everything and builds both.
- **The three management pages** (`Crud`, `Facilities`, `Spaces`, `Events`).
  Each page has a search filter and its column labels. All three share the
  same list, dialog, delete-after-confirm and save flow, modelled once as
  the class `Crud.CrudPage`. Each page's save writes a payload built from
  the submitted form.
- **The event dialog** (`EventFormDialog`). This covers the audience
  checkboxes, the ordering of the location list, the values the form is
  reset to, and the chosen image.
- **Shared utilities** (`Constants`, `Validators`, `Formatters`, `Header`).
  These are the audience list, the form schemas as predicates, text
  truncation, the date-formatter guards, and page titles.

Backend replies are parameters. Most have type `Lookup<T>`, which is
either `Resolved(value)` or `Threw(error)`: session reads, fetches,
uploads and writes. The sign-in reply is an `AuthService.SignInReply`, and
the reply of the `users`-table profile query is an
`AuthService.ProfileReply`. Requests a page makes are recorded
as values of `Crud.Request`. Library functions are parameters too:

- `toLowerCase`, as `lower`;
- `localeCompare`, as `cmp`;
- `toFixed(4)`;
- date parsing, validity, formatting and `toISOString`.

The session provider has no lookup timeout, no same-user
de-duplication, no discarding of stale results and no safety-valve timer.
Two lemmas state what that allows:

- `AuthProvider.StaleInitCheckAfterSignOut`: the initial admin check can
  set `isAdmin` after a sign-out event.
- `AuthProvider.InitFinallyOverridesPendingCheck`: the initial check's
  `finally` turns `loading` off while a later event's admin check is
  still running.

Toggling the same audience twice always restores an unselected one
(`ToggleTwiceRestores`). A selected one comes back moved to the end, with
the same audiences otherwise (`ToggleTwiceMovesToEnd`). So, on a selection
without duplicates, the list is restored exactly when the audience was
unselected or was already last (`ToggleTwiceRestoresIff`,
`ToggleTwiceReorders`).

## Model

| member | source | states |
|---|---|---|
| AuthService.Logout | src/services/authService.js:38-41 | a sign-out error is rethrown; otherwise sign-out completes |
| AuthService.Login | src/services/authService.js:8-33 | called on the service object: sign-in comes first; a sign-in error is rethrown before any admin lookup; the lookup is for the signed-in user's id; login succeeds exactly when sign-in succeeded and `is_admin` is true, returning that user; a non-admin is signed out and the call throws "Not authorized. Admin access required." (or the sign-out's own error) |
| AuthService.LoginDetached | src/services/authService.js:8-33 | called detached, as the sign-in page does: the same sign-in, admin lookup and success condition, but for a non-admin the `this.logout()` call throws a `TypeError` about the undefined receiver (in V8's wording, "Cannot read properties of undefined (reading 'logout')") and no sign-out is issued |
| AuthService.DetachedLoginKeepsSession | src/services/authService.js:28 | for any signed-in non-admin, the bound call signs out with the authorisation error while the detached call never signs out and throws the `TypeError` |
| AuthService.GetCurrentUser | src/services/authService.js:46-54 | the session's user, or none without a session or user |
| AuthService.IsAdmin | src/services/authService.js:60-72 | without a current user: false, with no query; otherwise the query is for that user's id, and the answer is true exactly when the row says `is_admin` is true (false on a query error) |
| AuthProvider.Next | src/context/AuthProvider.jsx:15-77 | a step nothing waits for changes nothing; a token refresh changes nothing; once unmounted the exposed state is frozen; the admin flag is raised only by a check that answered true; the step that ends initialisation turns loading off |
| AuthProvider.InitialState | src/context/AuthProvider.jsx:7-9 | the provider starts with no user, loading, not admin, and the invariant holds |
| AuthProvider.InvPreserved | src/context/AuthProvider.jsx:11-78 | every step keeps the invariant: mounted exactly while subscribed, and not loading once initialisation is done and no admin check is in flight |
| AuthProvider.InvAlwaysHolds | src/context/AuthProvider.jsx:11-78 | the invariant holds after any sequence of steps |
| AuthProvider.InitEndsNotLoading | src/context/AuthProvider.jsx:27-31 | the step that completes initialisation turns loading off, whether a lookup threw or not |
| AuthProvider.InitFailureKeepsState | src/context/AuthProvider.jsx:16-31 | a failed session read keeps user and admin flag; a failed initial admin check keeps the admin flag |
| AuthProvider.NoSessionKeepsAdminOff | src/context/AuthProvider.jsx:17-25 | an initial read with no user sets the user to none and loading off, and never touches the admin flag |
| AuthProvider.PersistedAdminSession | src/context/AuthProvider.jsx:15-31 | from the start, a stored admin session gives user set and loading, then admin and loading off |
| AuthProvider.TokenRefreshIgnored | src/context/AuthProvider.jsx:43-45 | a `TOKEN_REFRESHED` event leaves the whole state unchanged |
| AuthProvider.TokenRefreshesIgnored | src/context/AuthProvider.jsx:43-45 | any sequence of token refreshes leaves the whole state unchanged |
| AuthProvider.SignedOutClears | src/context/AuthProvider.jsx:47-69 | an event whose session has no user sets user none, admin false, loading false |
| AuthProvider.SignedInChecks | src/context/AuthProvider.jsx:47-64 | an event with a user sets the user and loading and starts a check; when it resumes, admin is the check's answer (false if it threw) and loading is off |
| AuthProvider.UnmountedIsFrozen | src/context/AuthProvider.jsx:12-77 | once unmounted, no later step changes user, loading or admin, and the provider stays unmounted and unsubscribed |
| AuthProvider.UnmountReleases | src/context/AuthProvider.jsx:74-77 | the cleanup unmounts and unsubscribes without changing the exposed state |
| AuthProvider.AdminOnlyFromCheck | src/context/AuthProvider.jsx:22-60 | the admin flag only becomes true through an admin check that answered true |
| AuthProvider.StaleInitCheckAfterSignOut | src/context/AuthProvider.jsx:19-69 | an initial admin check resuming after a sign-out leaves admin true with no user |
| AuthProvider.InitFinallyOverridesPendingCheck | src/context/AuthProvider.jsx:29-64 | initialisation's `finally` turns loading off while an event's admin check is in flight |
| AuthProvider.Provider.constructor | src/context/AuthProvider.jsx:7-12 | the mounted provider's state is the initial state |
| AuthProvider.Provider.OnSessionRead | src/context/AuthProvider.jsx:17-31 | the new state is `Next` of the old one for the session read |
| AuthProvider.Provider.OnInitAdminChecked | src/context/AuthProvider.jsx:23-31 | the new state is `Next` of the old one for the initial admin check |
| AuthProvider.Provider.OnAuthStateChange | src/context/AuthProvider.jsx:39-69 | the new state is `Next` of the old one for the event |
| AuthProvider.Provider.OnHandlerAdminChecked | src/context/AuthProvider.jsx:55-64 | the new state is `Next` of the old one for the event's admin check |
| AuthProvider.Provider.Dispose | src/context/AuthProvider.jsx:74-77 | the new state is `Next` of the old one for unmounting |
| ProtectedRoute.Guard | src/components/ProtectedRoute.jsx:8-13 | children exactly when authenticated; otherwise a replacing redirect to `/login` remembering the attempted location |
| ProtectedRoute.Render | src/components/ProtectedRoute.jsx:3-14 | with the hard-coded flag the children are always rendered |
| LoginPage.ReturnTarget | src/pages/Login.jsx:36 | the remembered path when there is a non-empty one, else `/` (also for a remembered empty path); never empty |
| LoginPage.RedirectRoundTrip | src/pages/Login.jsx:36 | signing in after the guard's redirect returns to the attempted path |
| LoginPage.AutoRedirect | src/pages/Login.jsx:39-43 | a navigation happens exactly when there is a user and the admin flag is set, to the return target, replacing |
| LoginPage.FailureMessage | src/pages/Login.jsx:68 | the error's message when non-empty, else "Failed to sign in"; never empty |
| LoginPage.Render | src/pages/Login.jsx:75-116 | a spinner exactly while auth is loading; otherwise the form, with an alert exactly when the error text is non-empty |
| LoginPage.SignInPage.constructor | src/pages/Login.jsx:34 | no error and no navigation yet |
| LoginPage.SignInPage.BeginSubmit | src/pages/Login.jsx:60 | the previous error is cleared |
| LoginPage.SignInPage.FinishSubmit | src/pages/Login.jsx:61-71 | success navigates to the target with replace; failure sets the error message and does not navigate |
| LoginPage.SignInPage.Submit | src/pages/Login.jsx:59-72 | with the detached `login` of line 31: no sign-out is ever issued; an admin is navigated with no error; a non-admin is not navigated, stays signed in and sees the `TypeError`'s message; a sign-in failure shows that failure's message |
| Lists.SpacesOf | src/pages/Lists.jsx:55 | exactly the spaces with that parent id, each as many times as in the input, in their original relative order |
| Lists.Nest | src/pages/Lists.jsx:52-57 | one node per facility, in order, each holding `SpacesOf` that facility's id: exactly the spaces whose parent id is that id, with their multiplicities, in their original relative order |
| Lists.OrphanSpaceOmitted | src/pages/Lists.jsx:55 | a space whose parent matches no facility appears under none |
| Lists.SpaceUnderItsParentOnly | src/pages/Lists.jsx:52-57 | with distinct facility ids, a space appears under its parent and under no other facility |
| Lists.InitialOpenState | src/pages/Lists.jsx:63-64 | the keys are exactly the facility ids, each mapped to open |
| Lists.Toggle | src/pages/Lists.jsx:75-77 | the toggled id's open state is negated (a missing key counts as closed); every other key is unchanged |
| Lists.ToggleTwice | src/pages/Lists.jsx:76 | toggling a present id twice restores the map |
| Lists.ToggleTwiceAbsent | src/pages/Lists.jsx:76 | toggling a missing id twice leaves it in the map, closed |
| Lists.FloorLabel | src/pages/Lists.jsx:158 | the floor when truthy, otherwise "Ground Floor" |
| Lists.EventCaption | src/pages/Lists.jsx:227 | the facility name (nothing when absent), " > ", then the space name, or "TBA" when there is no space or its name is empty; with a named facility and space it equals the events table's location label |
| Lists.CaptionDiffersFromLocationColumn | src/pages/Lists.jsx:227 | without a space, or without a facility name, the card caption differs from the events table's label by a leading " > " |
| Lists.MasterList.constructor | src/pages/Lists.jsx:28-35 | loading, with an empty hierarchy, no events and an empty open map |
| Lists.MasterList.BeginLoad | src/pages/Lists.jsx:41-42 | loading is set; nothing else changes |
| Lists.MasterList.FinishLoad | src/pages/Lists.jsx:41-73 | on success the hierarchy is `Nest` of the fetched data, the events are the fetched events, and every facility is open; on failure those stay as they were; loading is off either way |
| Lists.MasterList.ToggleFacility | src/pages/Lists.jsx:75-77 | the open map becomes `Toggle` of the old one; nothing else changes |
| Crud.ResolvePhotoUrl | src/pages/Facilities.jsx:75-80 | fails exactly when a file was chosen and its upload threw, with that error; without a file the current URL is kept, even `null`; with one the uploaded URL is used |
| Crud.RunSave | src/pages/Facilities.jsx:72-102 | an upload is the first request exactly when a file was chosen; at most one write, always last, issued exactly when the photo URL and the payload are both available; it updates the edited record or creates one, with the payload built from the resolved photo URL; the save succeeds exactly when that write was issued and succeeded |
| Crud.KeepsCurrentPhoto | src/pages/Facilities.jsx:75-80 | with no new file, nothing is uploaded and the payload uses the current photo URL |
| Crud.UsesUploadedPhoto | src/pages/Facilities.jsx:78-80 | with a new file, the upload comes first and the payload uses the uploaded URL |
| Crud.FailedUploadWritesNothing | src/pages/Facilities.jsx:78-103 | a failed upload ends the save with its error before any write |
| Crud.CrudPage.constructor | src/pages/Facilities.jsx:19-43 | no rows, loading, empty query, dialog closed, not saving, no edit target, and the first load requested |
| Crud.CrudPage.BeginLoad | src/pages/Facilities.jsx:28-31 | loading is set and a fetch is requested; nothing else changes |
| Crud.CrudPage.FinishLoad | src/pages/Facilities.jsx:30-38 | the rows are replaced on success and kept on failure; loading is off either way |
| Crud.CrudPage.SetSearchQuery | src/pages/Facilities.jsx:191 | the query becomes the typed text |
| Crud.CrudPage.AddClick | src/pages/Events.jsx:46-49 | the edit target is cleared and the dialog opens |
| Crud.CrudPage.EditClick | src/pages/Facilities.jsx:52-55 | the row becomes the edit target and the dialog opens |
| Crud.CrudPage.CloseDialog | src/pages/Facilities.jsx:214 | the dialog closes |
| Crud.CrudPage.DeleteClick | src/pages/Facilities.jsx:58-61 | the handler up to its `await`: nothing is requested and it does not suspend unless confirmed; when confirmed, a delete of that id is requested |
| Crud.CrudPage.FinishDelete | src/pages/Facilities.jsx:61-67 | after the delete: a reload starts only if it succeeded; a failure changes nothing |
| Crud.CrudPage.BeginSave | src/pages/Facilities.jsx:73 | saving is set |
| Crud.CrudPage.FinishSave | src/pages/Events.jsx:69-109 | the save's requests are recorded; only on success does the dialog close and a reload start; saving is off either way |
| Facilities.FilteredFacilities | src/pages/Facilities.jsx:111-113 | a facility is kept exactly when its lower-cased name contains the lower-cased query, as many times as it occurs; order is preserved; an empty query keeps all |
| Facilities.LocationText | src/pages/Facilities.jsx:140-143 | "N/A" exactly when latitude or longitude is missing or zero; otherwise the two formatted coordinates joined by ", " |
| Facilities.BuildFacility | src/pages/Facilities.jsx:81-87 | building the payload never fails; it writes the photo URL it is given and the form's other fields unchanged |
| Facilities.SaveFacility | src/pages/Facilities.jsx:72-102 | a write is issued exactly when no upload was needed or it succeeded; it updates the edited facility's id or creates, carrying the form's fields and the resolved photo URL; success exactly when that write succeeded |
| Spaces.FilteredSpaces | src/pages/Spaces.jsx:109-112 | a space is kept exactly when its lower-cased name or parent facility name (empty when absent) contains the lower-cased query, as many times as it occurs; order is preserved; an empty query keeps all |
| Spaces.ParentLabel | src/pages/Spaces.jsx:134 | the parent facility's name, or "Unknown" when there is none; never empty |
| Spaces.BuildSpace | src/pages/Spaces.jsx:79-85 | building the payload never fails; it writes the photo URL it is given and the form's other fields, the parent facility id included, unchanged |
| Spaces.SaveSpace | src/pages/Spaces.jsx:68-98 | as for facilities, and the written parent facility id is the form's, unchanged |
| Events.FilteredEvents | src/pages/Events.jsx:113-116 | an event is kept exactly when its lower-cased name or space name (empty when absent) contains the lower-cased query, as many times as it occurs; order is preserved; an empty query keeps all |
| Events.LocationText | src/pages/Events.jsx:138-143 | "TBA" without a space; otherwise it ends with the space name, preceded by the facility name and " > " exactly when the facility has a name |
| Events.BuildEvent | src/pages/Events.jsx:81-89 | throws the `TypeError` of reading `toISOString` of `null` exactly when a date is missing, whatever the image URL; otherwise both dates are ISO strings, the image URL is the one given and the other fields are the form's |
| Events.SaveEvent | src/pages/Events.jsx:69-102 | a write is issued exactly when the upload (if any) succeeded and both dates are set; it carries the dates as ISO strings and the resolved image URL, to the edited event's id or as a create; a missing date fails the save |
| Events.UploadBeforeDateCheck | src/pages/Events.jsx:74-86 | a chosen image is uploaded even when a missing start date then fails the save |
| Events.EditKeepsStoredImage | src/pages/Events.jsx:72-77 | an edit that leaves the image alone writes the stored image URL back to that event |
| Events.StartDateCellAsWritten | src/pages/Events.jsx:150-155 | as written, every cell with a start date shows "N/A", and a `null` start date throws the `TypeError` of reading `value` of `null` |
| Events.StartDateCell | src/pages/Events.jsx:150-155 | the intended cell: "N/A" without a start date, "Invalid Date" for an unparseable one, else the formatted date |
| Events.StartDateCellLosesDate | src/pages/Events.jsx:154 | for any valid start date the written cell shows "N/A" and the intended one does not |
| EventFormDialog.ToggleScope | src/components/events/EventFormDialog.jsx:131-137 | a selected scope is removed everywhere, the rest kept in order and with their multiplicities; an unselected scope is appended; the toggled scope's membership flips and no other's changes |
| EventFormDialog.ToggleKeepsNoDuplicates | src/components/events/EventFormDialog.jsx:133-135 | a selection without duplicates stays without duplicates |
| EventFormDialog.ToggleTwiceRestores | src/components/events/EventFormDialog.jsx:133-135 | checking then unchecking an unselected scope restores the selection exactly |
| EventFormDialog.ToggleTwiceMovesToEnd | src/components/events/EventFormDialog.jsx:133-135 | unchecking then re-checking a selected scope keeps the same multiset, with that scope moved to the end |
| EventFormDialog.ToggleTwiceRestoresIff | src/components/events/EventFormDialog.jsx:133-135 | on a selection without duplicates, a double toggle restores it exactly when the scope was unselected or was the last one |
| EventFormDialog.ToggleTwiceReorders | src/components/events/EventFormDialog.jsx:133-135 | a concrete selection whose order a double toggle changes |
| EventFormDialog.CompareSpaces | src/components/events/EventFormDialog.jsx:59-63 | negative exactly when the facility name (empty when missing) comes first, or ties and the space name comes first; zero exactly when both tie |
| EventFormDialog.CompareSpacesAntisymmetric | src/components/events/EventFormDialog.jsx:60-62 | with an antisymmetric string comparison, swapping two spaces flips the comparator's sign |
| EventFormDialog.Insert | src/components/events/EventFormDialog.jsx:59 | inserting adds exactly that space to the multiset |
| EventFormDialog.SortSpaces | src/components/events/EventFormDialog.jsx:59-63 | the sorted list is a permutation of the fetched one |
| EventFormDialog.InsertOrdered | src/components/events/EventFormDialog.jsx:59 | inserting into an ordered list keeps it ordered |
| EventFormDialog.SortSpacesOrdered | src/components/events/EventFormDialog.jsx:59-63 | every neighbouring pair of the sorted list is in comparator order |
| EventFormDialog.SortedByFacilityThenName | src/components/events/EventFormDialog.jsx:58-63 | in the sorted list facility names never go down, and within a facility name space names never go down |
| EventFormDialog.ResetValues | src/components/events/EventFormDialog.jsx:79-101 | a new event resets every field to empty; an edit keeps the name, maps a missing description to '', a missing or zero location to the empty selection, missing scopes to [], and parses present dates |
| EventFormDialog.EventDialog.constructor | src/components/events/EventFormDialog.jsx:23-46 | empty values, no file, no preview, no spaces, not loading |
| EventFormDialog.EventDialog.Open | src/components/events/EventFormDialog.jsx:52-106 | the location fetch starts, the values are `ResetValues`, the preview is the edited event's image (none for new), and the chosen file is dropped |
| EventFormDialog.EventDialog.SpacesLoaded | src/components/events/EventFormDialog.jsx:57-70 | on success the location list is the sorted fetch; loading is off either way |
| EventFormDialog.EventDialog.SelectImage | src/components/events/EventFormDialog.jsx:117-123 | with no file nothing changes; otherwise the file and its preview URL are set |
| EventFormDialog.EventDialog.RemoveImage | src/components/events/EventFormDialog.jsx:125-128 | both the file and the preview are cleared |
| EventFormDialog.EventDialog.ToggleScopeBox | src/components/events/EventFormDialog.jsx:131-137 | the selected scopes become `ToggleScope` of the old ones; nothing else changes |
| EventFormDialog.EventDialog.Submit | src/components/events/EventFormDialog.jsx:139-145 | the submission is the values, the chosen file and the preview URL as the current photo |
| Constants.CollegeValues | src/utils/constants.js:26 | one code per college, in order |
| Constants.ScopesLayout | src/utils/constants.js:23-27 | 15 scopes: "All Students", then the four year levels, then the college codes in order |
| Constants.CollegeCodes | src/utils/constants.js:2-13 | the ten college codes, in the listed order |
| Constants.ScopesListed | src/utils/constants.js:23-27 | the scope list written out in full |
| Constants.ScopesDistinct | src/utils/constants.js:23-27 | no scope occurs twice |
| Validators.LoginAccepts | src/utils/validators.js:4-7 | the login form passes exactly when the e-mail is a non-empty well-formed string and the password has at least 6 characters |
| Validators.EmptyEmailRequired | src/utils/validators.js:5 | an empty e-mail is first reported as required |
| Validators.FacilityAccepts | src/utils/validators.js:10-15 | a facility passes exactly when its name has at least 3 characters, the description is absent or a string, latitude is in [-90, 90] and longitude in [-180, 180] |
| Validators.SpaceAccepts | src/utils/validators.js:18-23 | a space passes exactly when its name has at least 2 characters, the parent facility id is a number, and floor and description are absent or strings |
| Validators.MissingParentReported | src/utils/validators.js:20 | a missing parent facility is reported as "Parent facility is required" |
| Formatters.TruncateText | src/utils/formatters.js:22-26 | '' for falsy text; text that fits is unchanged; longer text is its first `maxLength` characters then "...", of length `maxLength + 3` |
| Formatters.TruncateIdempotent | src/utils/formatters.js:22-26 | truncating a truncated text changes nothing |
| Formatters.DefaultTruncation | src/utils/formatters.js:22 | with the default limit a long text becomes 50 characters plus "..." |
| Formatters.FormatDateTime | src/utils/formatters.js:3-11 | "N/A" for a falsy argument, "Invalid Date" for an invalid date, otherwise the date in the date-time pattern |
| Formatters.FormatDate | src/utils/formatters.js:13-19 | "N/A" for a falsy argument, "Invalid Date" for an invalid date, otherwise the date in the date pattern |
| Header.PageTitle | src/components/layout/Header.jsx:13-22 | each of the five known paths gets its listed title ("Dashboard Overview", "Facilities Management", "Space Management", "Campus Events", "Master Data Lists"); every other path gets "Westigo Admin"; never empty |
| Header.KnownTitlesDistinct | src/components/layout/Header.jsx:15-19 | different known paths have different titles |
| Header.MenuPathsTitled | src/components/layout/Sidebar.jsx:42-48 | every sidebar path has its own title |

## Left out

- Backend calls: queries, inserts, updates, deletes, storage uploads and public URLs. Their results are parameters; the services that wrap them are not modelled.
- Upload file names: they come from the clock and a random number.
- Timing: only the order of steps is modelled. There are no timeouts, no safety-valve timer, no de-duplication and no stale-result discard, because the code has none.
- Page handlers: each is split at its `await` into a begin step and a finish step (for deletes, `DeleteClick` and `FinishDelete`). Interleavings of two handlers on one page, and a handler finishing after the page unmounts, are not modelled.
- The auth context hook: `useAuth` (in a context file that is not part of this model) is taken to return the provider's context value unchanged, so the sign-in page's `login` is the unbound `authService.login`.
- Event validation: the schema the event dialog imports is not defined in the validators file, so the dialog's validation is not modelled.
- Library semantics: `toLowerCase`, `localeCompare`, `toFixed`, date parsing and formatting, and `toISOString` are parameters. Unicode case mapping, locale collation, floating-point formatting and invalid `Date` objects are not modelled.
- Engine wording: the `TypeError` messages (`AuthService.UNBOUND_RECEIVER`, `Events.NullDereference`) use the V8 engine's text; other engines word the same errors differently.
- `NaN` coordinates are not modelled; only `null` and `0` count as falsy.
- Text lengths count characters, not UTF-16 code units.
- Browser APIs: the `window.confirm` answer is a parameter. Object URLs are a parameter, and revoking them is not modelled. Toasts and console output are left out.
- Markup: layout, styling and UI components are not modelled. The facility and space form dialogs are not part of this model beyond the values they submit.
- EventFormDialog.SortSpaces: the library's sort is modelled as an insertion sort. What is proved is that the result is a permutation with every neighbouring pair in comparator order; the library's placement of equal elements is not modelled.
- AuthService.Login: returns the signed-in user rather than the provider's full reply, which also carries the session.

## Findings

| source | as written | input that shows it | evidently intended | confidence | as-written member | corrected member |
|---|---|---|---|---|---|---|
| src/pages/Events.jsx:154 | the Start Date formatter passes `params.value` to `formatDateTime`; the grid's other callbacks in these pages use the `(value, row)` signature, under which the first argument is already the cell value, so `.value` is `undefined` | any event with a valid `start_date`, e.g. "2025-10-24T14:30:00Z": the cell shows "N/A" | format the start date itself | medium: depends on the grid version's formatter signature; not executed | Events.StartDateCellAsWritten | Events.StartDateCell |
| src/pages/Login.jsx:62 | the provider exposes `login: authService.login` (src/context/AuthProvider.jsx:84) and the page calls it detached, so inside it `this` is `undefined` and `this.logout()` (src/services/authService.js:28) throws | any user who signs in with valid credentials and whose profile has `is_admin` false: no sign-out is issued, the session stays open, and the form shows the `TypeError`'s message ("Cannot read properties of undefined (reading 'logout')" in V8) | sign the non-admin out and show "Not authorized. Admin access required." | high: follows from the method's use of `this`; not executed | AuthService.LoginDetached | AuthService.Login |
