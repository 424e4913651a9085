# Food-sharing web app: routing, session, data façade and share page

This project is a Dafny model of the client-side core of a community food-sharing web
application. The application is a React single-page app over a hosted Postgres backend.
The model covers four parts:

- **Routing** (`routing.dfy`, module `Routing`). The app's route dispatcher in `app.jsx`.
  It first shows a loading placeholder until authentication is ready. It then applies
  three redirect guards in order: admin-only paths, protected paths, and the
  login/signup pages. Otherwise it picks a view from the path. The view is an admin
  view (including the unanchored `/admin/distribution/<digits>/attendees` pattern), a
  public page, the anchored `/find/category/<segment>` pattern, or a not-found page.
  The dispatcher is a pure function from the path, the authentication flags and
  "did building the view throw" to an `Outcome`.
- **Session** (`session.dfy`, module `Session`). The `AuthService` session holder in
  `utils/authService.js`, modelled as a class. Its fields are the current user, the
  authenticated and admin flags, the listener list, local storage, a log of listener
  calls and a log of the rows it inserts. Its methods are `setUser`, `clearUser`, `signOut`, `updateProfile`,
  `addListener` with its unsubscribe function, and `notifyListeners`. Each backend
  answer is a method parameter.
- **Data façade** (`facade.dfy`, module `Facade`). The parts of `DataService` in
  `utils/dataService.js` that hold logic on the client side:
  - the filters and pagination that `getFoodListings` and `getBarterTrades` send, given
    a meaning through a row-level `Selects` predicate with SQL NULL semantics;
  - the claim-review notification;
  - the barter-trade insert row and its status patch;
  - the claim-status write;
  - the upload object path;
  - the realtime-subscription registry. This is a class over an insertion-ordered list
    of entries, which is how a JavaScript `Map` behaves.
- **Share page** (`share_food.dfy`, module `ShareFood`). `pages/ShareFoodPage.jsx`:
  - the submit handler, as a method on a page class that records uploads, listing
    writes and navigations;
  - the edit-mode lookup, including JavaScript `parseInt`;
  - the impact totals, summed over approved claims.

`js_values.dfy` (module `JsValues`) holds the shared JavaScript values:
- records as `map<string, Value>`, where an absent key stands for `undefined` and
  object spread is map union with the right operand winning;
- truthiness;
- `Option` and `Result`.

Behaviour of the code worth noting:
- Approving a claim does **not** insert a notification. The admin dashboard's
  `handleReview` (components/admin/AdminClaimDashboard.jsx:32-40) calls only
  `updateFoodClaimStatus`, which writes only the status
  (utils/dataService.js:75-88). `Facade.UpdateFoodClaimStatus` proves that nothing is
  written to `notifications`. The notification is a separate call,
  `Facade.ClaimReviewNotificationContents`.
- `updateProfile` never recomputes the admin flag (utils/authService.js:206-228).
- `setUser` for a non-admin leaves any admin storage keys from earlier in place
  (utils/authService.js:124-130).
- The `status` filter of `getFoodListings` is ignored (utils/dataService.js:140-168).

## Model

| member | source | states |
|---|---|---|
| `Routing.DigitRun` | app.jsx:128 | the `\d+` run starting at a position is all digits and maximal: the next character, if any, is not a digit |
| `Routing.IsAdminRoute` | app.jsx:72 | no contract of its own; the `startsWith('/admin')` prefix test, characterised by `NonAdminSentToAdminLogin` (which covers `/administration`) and `AdminPathsRenderAdminViews` |
| `Routing.AttendeesMatchAtIsOccurrence` | app.jsx:128 | the greedy test at a position succeeds iff the attendees pattern occurs there with some digit run |
| `Routing.FindAttendees` | app.jsx:128 | the left-to-right search is true iff the attendees pattern occurs somewhere at or after the start position, so the match is unanchored |
| `Routing.CategoryCharsFrom` | app.jsx:225 | true iff every character from the index on is a letter or `-` |
| `Routing.CategoryMatch` | app.jsx:225-227 | matches iff the path is exactly `/find/category/` plus a non-empty segment of letters and `-`; the capture is that segment |
| `Routing.LoadingWhileNotReady` | app.jsx:50-60 | while auth is uninitialised or loading, the outcome is the loading placeholder whatever the path |
| `Routing.RedirectIffGuardFires` | app.jsx:69-101 | a redirect happens iff auth is ready and one of the three guards fires (both directions) |
| `Routing.ProtectedRoutesAreNotAdmin` | app.jsx:69-75 | the protected paths are outside `/admin`, have a public view, and are not authentication pages |
| `Routing.NonAdminSentToAdminLogin` | app.jsx:72-84 | a non-admin on any `/admin`-prefixed path except the admin login page is sent to `/admin/login`, `/administration` included |
| `Routing.LoginRedirectOnlyForProtected` | app.jsx:86-92 | the redirect to `/login` happens iff the path is protected and nobody is signed in; `/claim` is never redirected |
| `Routing.SignedInLeavesAuthPages` | app.jsx:95-101 | a signed-in user on `/login` or `/signup` goes to `/admin` if admin, else to `/dashboard` |
| `Routing.AdminPathsRenderAdminViews` | app.jsx:105-148 | with no guard firing, an admin path renders its table view bare; otherwise the attendees view iff the pattern matches, else the admin 404 |
| `Routing.AdminLoginAlwaysRenders` | app.jsx:78-109 | the admin login page renders for every session once auth is ready |
| `Routing.AttendeesPatternUnanchored` | app.jsx:128 | any text may follow `/admin/distribution/<digits>/attendees` and the pattern still matches |
| `Routing.CategoryPathRendersFind` | app.jsx:223-229 | `/find/category/<segment>` renders the find page with that initial category, inside the main layout |
| `Routing.CategoryViewOnlyFromPattern` | app.jsx:223-229 | conversely, a find page with a category comes only from a path of that exact shape |
| `Routing.UnmatchedPublicPathIsNotFound` | app.jsx:238-251 | any other path outside `/admin` renders the public not-found page in the main layout |
| `Routing.PublicChrome` | app.jsx:152-255 | outside `/admin` a view is rendered without the main layout iff the path is `/login`, `/signup` or `/forgot-password` |
| `Routing.ViewFailureIsContained` | app.jsx:258-272 | when building the view throws, the outcome is the error placeholder |
| `Routing.Dispatch` | app.jsx:45-273 | no contract of its own; the whole effect, characterised by `LoadingWhileNotReady`, `RedirectIffGuardFires`, `ViewFailureIsContained` and the rendering lemmas above |
| `Routing.Guard` | app.jsx:69-101 | no contract of its own; the three ordered guards, characterised by `RedirectIffGuardFires`, `NonAdminSentToAdminLogin`, `LoginRedirectOnlyForProtected` and `SignedInLeavesAuthPages` |
| `Routing.RenderPage` | app.jsx:103-256 | no contract of its own; characterised by `AdminPathsRenderAdminViews` and `PublicChrome` |
| `Routing.AdminView` | app.jsx:105-148 | no contract of its own; characterised by `AdminPathsRenderAdminViews` |
| `Routing.PublicPage` | app.jsx:151-255 | no contract of its own; characterised by `CategoryPathRendersFind`, `CategoryViewOnlyFromPattern`, `UnmatchedPublicPathIsNotFound` and `PublicChrome` |
| `Session.Broadcast` | utils/authService.js:293-305 | one call per listener, in registration order, each with the same snapshot and recording whether it threw |
| `Session.Without` | utils/authService.js:288-290 | the filtered list holds exactly the other listeners and is no longer |
| `Session.AuthService.constructor` | utils/authService.js:5-13 | the holder starts signed out, not admin, with no listeners and with the storage it finds |
| `Session.AuthService.NotifyListeners` | utils/authService.js:293-305 | the call log grows by exactly the broadcast of the current snapshot to the listeners, one thrown callback not stopping the rest |
| `Session.AuthService.AddListener` | utils/authService.js:286-287 | the listener is appended |
| `Session.AuthService.RemoveListener` | utils/authService.js:288-290 | the unsubscribe function removes every occurrence of that listener and keeps the others in order |
| `Session.AuthService.SetUser` | utils/authService.js:37-137 | if the lookup throws or fails with an error other than "no rows", nothing changes; otherwise the profile and stats inserts are logged, and the resolved user is signed in, admin iff its role is `admin`, stored, and broadcast; the session invariant is kept |
| `Session.AuthService.ClearUser` | utils/authService.js:139-150 | signed out, the four session keys removed, other keys kept, the empty snapshot broadcast |
| `Session.AuthService.SignOut` | utils/authService.js:192-204 | a backend error is re-raised with no state change; otherwise it is exactly `clearUser` and succeeds |
| `Session.AuthService.UpdateProfile` | utils/authService.js:206-228 | fails with "No user logged in" without a user, re-raises a backend error unchanged, otherwise merges the updates, stores and broadcasts; the admin flag is never recomputed |
| `Session.AuthService.GetCurrentUser` | utils/authService.js:274-276 | no contract of its own; reads `currentUser`, whose every change is stated by the contracts of the constructor, `SetUser`, `ClearUser` and `UpdateProfile` |
| `Session.AuthService.IsUserAuthenticated` | utils/authService.js:278-280 | no contract of its own; reads `isAuthenticated`, stated by the same contracts |
| `Session.AuthService.IsUserAdmin` | utils/authService.js:282-284 | no contract of its own; reads `isAdmin`, stated by the same contracts |
| `Session.OnlyNoRowsErrorProceeds` | utils/authService.js:40-50 | `setUser` gives up iff the lookup throws (caught at lines 133-136) or its error has a code other than `PGRST116` |
| `Session.ProfileOverridesAuthUser` | utils/authService.js:114-119 | with a profile found, each profile field overrides the auth user's and the other fields are the auth user's |
| `Session.FallbackIsPlainUser` | utils/authService.js:71-113 | when profile creation fails or throws, the user is an active non-admin, the account type defaults to `individual` and the name to the e-mail |
| `Session.StoreSessionKeys` | utils/authService.js:124-130 | the two user keys are always written, the two admin keys only for an admin, and no key is ever removed |
| `Session.ResolvedUser` | utils/authService.js:40-119 | no contract of its own; characterised by `OnlyNoRowsErrorProceeds`, `ProfileOverridesAuthUser` and `FallbackIsPlainUser` |
| `Session.FallbackUser` | utils/authService.js:74-80 | no contract of its own; characterised by `FallbackIsPlainUser` and `NewProfileMatchesFallback` |
| `Session.StoreSession` | utils/authService.js:124-130 | no contract of its own; characterised by `StoreSessionKeys` |
| `Session.WithPlainDefaults` | utils/authService.js:63-79 | the columns both the inserted row and the fallback set: account type from the metadata when truthy, else `individual`; role `user`; status `active`; every other column unchanged |
| `Session.IdentityColumns` | utils/authService.js:60-62 | the row's `id` and `email` are the auth user's and its `name` is the metadata name or else the e-mail; no other column |
| `Session.EncodeUriComponent` | utils/authService.js:64 | the encoding is at least as long as the text and consists only of unreserved characters, hex digits and `%` |
| `Session.EncodeKeepsUnreserved` | utils/authService.js:64 | text made only of unreserved characters is left unchanged |
| `Session.EncodeFirstChar` | utils/authService.js:64 | `encodeURIComponent` keeps an unreserved character and turns any other into the `%XX` escapes of its UTF-8 bytes, then goes on with the rest |
| `Session.EncodeAppend` | utils/authService.js:64 | encoding distributes over concatenation |
| `Session.DisplayName` | utils/authService.js:62-64 | no contract of its own; `user_metadata?.name \|\| email`, characterised by `IdentityColumns`, `NewProfileMatchesFallback` and `AvatarNameText` |
| `Session.TemplateText` | utils/authService.js:64 | no contract of its own; the `${…}` text of a value, characterised by `AvatarNameText` |
| `Session.GeneratedAvatar` | utils/authService.js:64 | no contract of its own; characterised by `NewProfileAvatar` and `AvatarNameText` |
| `Session.AvatarNameText` | utils/authService.js:64 | a string display name appears in the avatar URL as its encoding; a user with neither a truthy metadata name nor an e-mail gets `name=undefined` |
| `Session.NewProfileRow` | utils/authService.js:57-69 | no contract of its own; characterised by `NewProfileRowDefaults`, `NewProfileMatchesFallback` and `NewProfileAvatar` |
| `Session.StatsRow` | utils/authService.js:89-98 | no contract of its own; characterised by `StatsRowStartsAtZero` |
| `Session.StatsRowStartsAtZero` | utils/authService.js:89-98 | the stats row has the four totals, all zero, and `user_id` set to the auth user's id (left out when that id is `undefined`) |
| `Session.SetUserInserts` | utils/authService.js:52-102 | no contract of its own; characterised by `InsertsOnlyForNewUser` |
| `Session.NewProfileRowDefaults` | utils/authService.js:57-69 | the inserted profile row has at most the seven listed columns, role `user`, status `active`, not admin, and the auth user's id and e-mail |
| `Session.NewProfileMatchesFallback` | utils/authService.js:59-80 | the inserted row and the in-memory fallback agree on name, account type, role and status |
| `Session.NewProfileAvatar` | utils/authService.js:64 | the avatar is the metadata's when truthy, else the ui-avatars URL whose name parameter is the percent-encoded display name |
| `Session.InsertsOnlyForNewUser` | utils/authService.js:52-102 | a profile row is inserted iff the lookup succeeded without a profile; a `user_stats` row for the same id follows iff that insert returned a row; nothing else is inserted |
| `Session.BroadcastAppend` | utils/authService.js:293-305 | broadcasting to two lists in turn is the same as broadcasting to their concatenation |
| `Session.WithoutAbsent` | utils/authService.js:288-290 | filtering out a listener that is not registered changes nothing |
| `Session.WithoutAppend` | utils/authService.js:288-290 | filtering distributes over concatenation |
| `Session.AddThenRemoveRestores` | utils/authService.js:286-291 | adding a new listener and then calling its unsubscribe function restores the list exactly |
| `Facade.FoodListingsQuery` | utils/dataService.js:140-174 | no contract of its own; characterised by `FoodListingsQueryMeaning`, `StatusFilterIgnored` and `NoPaginationWithoutBoth` |
| `Facade.Pagination` | utils/dataService.js:169-174 | no contract of its own; characterised by `PaginationContiguous` and `NoPaginationWithoutBoth` |
| `Facade.Lower` | utils/dataService.js:162-164 | the case folding of `ilike`: same length, each character lower-cased by ASCII case |
| `Facade.BarterTradesQuery` | utils/dataService.js:332-376 | no contract of its own; characterised by `BarterTradesQueryMeaning` and `OfferedReceivedPartition` |
| `Facade.InvolvementPredicates` | utils/dataService.js:358-367 | no contract of its own; characterised by `BarterTradesQueryMeaning` and `OfferedReceivedPartition` |
| `Facade.WithDonor` | utils/dataService.js:180-183 | each listing gains `donor`, equal to its joined `users`, and every other field is unchanged |
| `Facade.FoodListingsQueryMeaning` | utils/dataService.js:140-176 | the listings query selects a row iff it is active and passes each given filter (category, type, case-insensitive location substring, owner) |
| `Facade.StatusFilterIgnored` | utils/dataService.js:150-166 | a `status` filter does not change the query, so a pending listing is never returned |
| `Facade.PaginationContiguous` | utils/dataService.js:169-174 | a page spans exactly `limit` rows and the next page starts right after it |
| `Facade.NoPaginationWithoutBoth` | utils/dataService.js:169-174 | without a truthy page and limit no range is applied |
| `Facade.BarterTradesQueryMeaning` | utils/dataService.js:358-376 | the trades query selects a row iff the user's involvement predicate holds (own trades for `offered` and any other kind, another initiator for `received`) and the given status and type match |
| `Facade.OfferedReceivedPartition` | utils/dataService.js:358-367 | for a signed-in user, no trade with an initiator is both offered and received, and each such trade passing the other filters is one of the two |
| `Facade.ClaimReviewNotice` | utils/dataService.js:28-37 | no contract of its own; characterised by `ClaimReviewNotificationContents` |
| `Facade.ClaimReviewNotificationContents` | utils/dataService.js:6-56 | a notification is attempted iff the claim was found and the title lookup did not throw; its type, title, read flag and claim id follow the decision, and its message quotes the title (empty when not found, `null` for a null title); the answer is true iff the notification was attempted and its insert did not throw |
| `Facade.SendClaimReviewNotification` | utils/dataService.js:6-56 | no contract of its own; characterised by `ClaimReviewNotificationContents` |
| `Facade.UpdateFoodClaimStatus` | utils/dataService.js:75-88 | exactly one write, an update of `status` alone on that claim, and nothing written to `notifications` |
| `Facade.BarterTradeRow` | utils/dataService.js:396-408 | the insert row holds the five copied columns as given, `trade_type` defaulting to `direct`, status `pending` and the timestamp, and nothing else |
| `Facade.NewTradeIsPending` | utils/dataService.js:399-408 | a caller can set neither the status nor the id of a new trade |
| `Facade.BarterStatusPatch` | utils/dataService.js:439-445 | the patch holds `status`, `updated_at` and the additional data, the additional data winning on a clash |
| `Facade.Extension` | utils/dataService.js:1011 | the extension contains no dot, is the whole name when there is no dot, and otherwise is what follows a dot at the end of the name |
| `Facade.ExtensionAfterLastDot` | utils/dataService.js:1011 | for `stem.ext` with a dot-free `ext`, the extension is exactly `ext` |
| `Facade.UploadPath` | utils/dataService.js:1009-1013 | no contract of its own; characterised by `UploadPathShape` |
| `Facade.UploadPathShape` | utils/dataService.js:1009-1013 | the object path is `<bucket>/<timestamp>-<random>.<ext>`, the bucket defaulting to `food-images` |
| `Facade.RegistryKey` | utils/dataService.js:934-990 | no contract of its own; characterised by `FeedChannelMatchesKey` and `RegistryKeysDistinct` |
| `Facade.FeedChannel` | utils/dataService.js:934-990 | no contract of its own; characterised by `FeedChannelMatchesKey` and `FeedFilterNamesUser` |
| `Facade.FeedChannelMatchesKey` | utils/dataService.js:934-990 | each feed's channel listens to the table its registry key names, under `<key>_changes`; only the listings feed is unfiltered |
| `Facade.FeedFilterNamesUser` | utils/dataService.js:948-987 | every filtered feed's filter contains the user id it was opened for |
| `Facade.RegistryKeysDistinct` | utils/dataService.js:934-990 | two feeds share a registry key iff they are of the same kind |
| `Facade.Lookup` | utils/dataService.js:994 | a handle is found iff an entry has that name, and it is that entry's handle |
| `Facade.Remove` | utils/dataService.js:997 | deletion keeps only entries of other names |
| `Facade.Handles` | utils/dataService.js:1001-1005 | the handles of the entries, in insertion order |
| `Facade.Put` | utils/dataService.js:944-989 | no contract of its own; characterised by `PutLookup`, `PutKeepsNamesDistinct` and `PutInPlace` |
| `Facade.PutInPlace` | utils/dataService.js:944-989 | `Map.set` on a present key replaces that entry in place and keeps every other; on an absent key it appends the new entry last |
| `Facade.HandlesAfterPut` | utils/dataService.js:944-989 | hence a replaced handle keeps its place in insertion order and a new handle goes last |
| `Facade.PutLookup` | utils/dataService.js:944-989 | after a store, the key maps to the new handle and other keys are unaffected |
| `Facade.PutKeepsNamesDistinct` | utils/dataService.js:944-989 | a store keeps the keys distinct and replaces only the entry of that key |
| `Facade.RemoveLookup` | utils/dataService.js:993-999 | after a delete the key is absent and other keys are unaffected |
| `Facade.RemoveIdempotent` | utils/dataService.js:993-999 | deleting twice is the same as deleting once |
| `Facade.RemoveKeepsNamesDistinct` | utils/dataService.js:993-999 | a delete keeps the keys distinct |
| `Facade.DataService.constructor` | utils/dataService.js:135-137 | the registry starts empty, with no channel opened and none closed |
| `Facade.DataService.SubscribeTo` | utils/dataService.js:934-990 | the feed's channel is opened, its handle stored under the feed's key and returned, replacing the old handle without closing it; other keys are unaffected |
| `Facade.DataService.Unsubscribe` | utils/dataService.js:993-999 | an absent name is a no-op; otherwise that handle is closed once and only its key is deleted |
| `Facade.DataService.UnsubscribeAll` | utils/dataService.js:1001-1006 | every stored handle is closed once, in insertion order, and the registry is emptied |
| `ShareFood.LeadingDigits` | pages/ShareFoodPage.jsx:25 | the count of leading decimal digits, maximal |
| `ShareFood.DecimalValue` | pages/ShareFoodPage.jsx:25 | the digits of a number's decimal text have that number as their value |
| `ShareFood.ParseIntOfDecimal` | pages/ShareFoodPage.jsx:25 | `parseInt` of a non-negative id's decimal text gives back that id |
| `ShareFood.ParseInt` | pages/ShareFoodPage.jsx:25 | no contract of its own; characterised by `ParseIntOfDecimal` |
| `ShareFood.FindListing` | pages/ShareFoodPage.jsx:25 | nothing is found iff no listing has the id; otherwise the result is the first listing with that id |
| `ShareFood.EditTarget` | pages/ShareFoodPage.jsx:23-26 | no contract of its own; characterised by `EditModeIff` and `EditLinkFindsListing` |
| `ShareFood.EditModeIff` | pages/ShareFoodPage.jsx:21-31 | a listing is picked iff the `edit` parameter is non-empty, listings are loaded, it parses, and some listing has that id |
| `ShareFood.EditLinkFindsListing` | pages/ShareFoodPage.jsx:21-31 | an `edit` link carrying a listed id opens a listing with that id |
| `ShareFood.ListingPayload` | pages/ShareFoodPage.jsx:51-57 | the record has no `image`, has the user's id, status `pending` and the chosen image URL, and every other field is the form's |
| `ShareFood.SubmittedRecordShape` | pages/ShareFoodPage.jsx:40-57 | with a new file, the record carries the uploaded URL, `pending`, the user's id, and never the file |
| `ShareFood.ListingWriteFor` | pages/ShareFoodPage.jsx:59-65 | no contract of its own; characterised by `ListingWriteTarget` |
| `ShareFood.ListingWriteTarget` | pages/ShareFoodPage.jsx:59-65 | the write is an update of the loaded listing's id iff editing a loaded listing, else a create; the payload is written unchanged |
| `ShareFood.ImageUrl` | pages/ShareFoodPage.jsx:40-49 | no contract of its own; characterised by `SubmittedRecordShape` and `ImageUrlWithoutUpload` |
| `ShareFood.ImageUrlWithoutUpload` | pages/ShareFoodPage.jsx:40-49 | without a new file, the image URL is the form's own when truthy, else null |
| `ShareFood.TotalImpact` | pages/ShareFoodPage.jsx:97-102 | no contract of its own; characterised by `ClaimAddsItsShare` and `SumByAppend` |
| `ShareFood.ImpactAfterFetch` | pages/ShareFoodPage.jsx:91-105 | no contract of its own; the intended totals, characterised by `FetchFailureCases` and `ClaimAddsItsShare` |
| `ShareFood.ImpactAsWritten` | pages/ShareFoodPage.jsx:91-105 | no contract of its own; the code as written, characterised by `ImpactAsWrittenLosesClaims` |
| `ShareFood.Quantity` | pages/ShareFoodPage.jsx:97 | no contract of its own; `claim.food_listings?.quantity \|\| 0`, characterised by `ClaimAddsItsShare` |
| `ShareFood.SumBy` | pages/ShareFoodPage.jsx:97-101 | no contract of its own; the `reduce` sum, characterised by `SumByAppend` and `ClaimAddsItsShare` |
| `ShareFood.SumByAppend` | pages/ShareFoodPage.jsx:97-101 | the reduce sum over two batches of claims is the sum of the two sums |
| `ShareFood.ClaimAddsItsShare` | pages/ShareFoodPage.jsx:97-102 | each approved claim adds its quantity, people, school staff and students (missing or falsy as zero) and one neighbour |
| `ShareFood.FetchFailureCases` | pages/ShareFoodPage.jsx:95-105 | a query error leaves the totals alone and an exception resets all five to zero |
| `ShareFood.ImpactAsWrittenLosesClaims` | pages/ShareFoodPage.jsx:91-105 | as written, one approved claim for 3 people still shows 0 people, where the intended totals show 3 |
| `ShareFood.ShareFoodPage.constructor` | pages/ShareFoodPage.jsx:17-19 | the page starts idle, not editing, with no initial data and zero impact |
| `ShareFood.ShareFoodPage.ApplyEditParam` | pages/ShareFoodPage.jsx:21-31 | edit mode is switched on with the picked listing when there is one, and nothing changes otherwise |
| `ShareFood.ShareFoodPage.HandleSubmit` | pages/ShareFoodPage.jsx:33-76 | not signed in: fails before any upload or write; a failed upload: no write; otherwise exactly one update (editing a loaded listing) or create of the payload, then a navigation to `/profile` unless the write failed; loading is always false at the end |
| `ShareFood.ShareFoodPage.FetchClaimImpact` | pages/ShareFoodPage.jsx:87-108 | the impact becomes the totals of the fetched claims, stays after a query error, and is zeroed after an exception |

## Left out

- The backend SDK (queries, storage, realtime channels, auth) is not modelled. Each
  answer is a parameter: a profile fetch, a create outcome, an error, an upload outcome
  or a channel handle. A query is described by its predicates and range, not executed.
- `AuthService.init`, `refreshAuthState` and the `onAuthStateChange` wiring are left out.
  They only call `setUser` or `clearUser` on an SDK event.
- `signUp`, `signIn`, `resetPassword` and `updatePassword` are left out. They forward to
  the SDK and re-raise its errors.
- `uploadAvatar` is left out. It needs `Date.now()` and the SDK, and ends in
  `updateProfile`, which is modelled.
- `Session.AuthService.SetUser`: the catch-all at lines 133-136 is modelled for a
  profile lookup that throws: nothing changes. It is not modelled for two other cases:
  - A missing `user` is not modelled, because `user` is always a record here.
  - A `localStorage.setItem` that throws is not modelled. In the source, `currentUser`,
    `isAuthenticated` and `isAdmin` are then already changed (lines 121-122), the
    storage keys written before the failing call stay written, and no listener is
    called. The model always completes the four storage writes and the broadcast.
- `Session.NewProfileAvatar`: a non-whole number used as the name or e-mail is printed
  by its whole part in the avatar URL. Lone UTF-16 surrogates, which make
  `encodeURIComponent` throw, cannot occur, because a Dafny `char` is a Unicode scalar
  value.
- Concurrency is not modelled: overlapping `setUser` calls, and listeners that add or
  remove listeners while a broadcast runs. Each method runs to completion.
- Console logging, `reportError` and the e-mail stubs of the claim-review notification
  have no effect on state and are left out.
- Numbers are reals. Floating-point rounding, `NaN` from non-numeric sums and string
  concatenation are not modelled.
- `ShareFood.ClaimAddsItsShare`: a claim value that is present but not a number counts
  as zero. In JavaScript a string would concatenate and `true` would add one.
- `Facade.FoodListingsQueryMeaning`: `ilike` wildcards (`%`, `_`) inside the location
  filter are treated as literal characters. Case folding covers ASCII letters only.
- `Facade.BarterTradesQueryMeaning`: the `.or('initiator_id.eq.<id>')` filter string is
  read as a single equality. The PostgREST parsing of ids that contain commas or
  parentheses is left out.
- Filter values are modelled as strings, with the empty string standing for an absent
  or falsy filter. `page` and `limit` are integers, with zero standing for falsy.
- `ShareFood.ParseIntOfDecimal`: `parseInt`'s hexadecimal `0x` prefix, its full set of
  Unicode white space and its handling of `Infinity` are left out.
- In `ShareFood.ShareFoodPage.HandleSubmit`, the "Failed to upload image" branch
  (lines 45-47) is not modelled. `uploadFile` either returns `success: true` or raises,
  so that branch cannot run; an upload is modelled as a URL or a raised error.
- In `ShareFood.ShareFoodPage.HandleSubmit`, the listing hook's `createListing` and
  `updateListing` are not modelled. Only whether they raise matters to the page.
- The rendering of the share page (tabs, form, impact panel) is not modelled.
- `getAdminStats`, the other create/read/update/delete methods of `DataService`,
  `sendDeclineNotification` and the admin dashboards are outside this model.

## Findings

| source | as written | input that shows it | evidently intended | confidence | as-written member | corrected member |
|---|---|---|---|---|---|---|
| pages/ShareFoodPage.jsx:91 | reads `dataService.supabase`, which the façade never defines; calling `.from` on `undefined` throws, so the catch at lines 103-104 always zeroes the totals | one approved claim with `people: 3` | the five totals summed over the approved claims | not executed | `ShareFood.ImpactAsWrittenLosesClaims` | `ShareFood.ImpactAfterFetch` |

The as-written behaviour is `ShareFood.ImpactAsWritten`, which always yields zero
totals. The corrected `ShareFood.ImpactAfterFetch` is what
`ShareFood.ShareFoodPage.FetchClaimImpact` uses. Its totals are characterised by
`ShareFood.ClaimAddsItsShare` and `ShareFood.FetchFailureCases`.
