# Ride-hailing core, modelled in Dafny

A model of the core of a two-sided ride-hailing app: a Django REST backend (users, driver
profiles, rides and the ride lifecycle) and a React Native client (an HTTP client that
attaches and renews bearer tokens, a session store, and the screens where clients request,
follow and cancel rides and drivers accept, start, complete and review them).

One Dafny module per source file:

| module | file | form |
|---|---|---|
| `Models` | api/models.py | datatypes, defaults and field constraints |
| `Serializers` | api/serializers.py | pure functions: registration checks, ride creation and price |
| `Views` | api/views.py | pure decisions per action, and one `RideViewSet` class holding both the ride table and the driver table, whose methods stand for the endpoints of both `RideViewSet` and `DriverViewSet` (`DriverMe`, `PatchDriverMe`, `Available`) |
| `Storage` | the device key-value store | a class over a `map<string, Stored>` |
| `ApiClient` | src/api/index.js | request and response interceptors as methods, proved equal to pure specifications |
| `AuthContext` | src/context/AuthContext.js | an `AuthProvider` class over the store |
| `Lists` | `Array.prototype.find` / `filter` | generic functions used by the screens |
| `DriverRideDetails`, `RideDetails`, `RideStatus`, `DriverHome`, `DriverHistory`, `DriverProfile`, `RequestRide`, `Register` | the eight screens | a class per screen for its state, pure functions for selection, gating and labels |
| `Outcomes` | — | `Option`, `Fetch` (an awaited call: loaded or thrown) and `Next` (where a handler leaves the user) |

The network, the clock, the storage failures and the random demo distance are parameters:
each client handler takes the result of the call it awaits (`Fetch<T>`), each backend
action takes the caller and the current time, and the response interceptor takes an `Env`
holding what the refresh call, the storage and the replay do.

The model follows the code as written. Several of its properties are consequences the code
has but its authors evidently did not aim for, and the lemmas state them as they are:

- `Views.AcceptNeverSucceeds`: a driver's queryset holds only rides already bound to that
  driver, and a bound ride is never `requested`, so `accept_ride` cannot succeed on any
  table that keeps the lifecycle invariant. `DriverHome.NothingToAcceptForDrivers` is the
  same fact seen from the driver's start screen: its list is always empty.
- `Views.CancelInProgressSucceeds`: `cancel_ride` also accepts an in-progress ride, while the
  client screens offer cancel only on requested and accepted rides
  (`RideDetails.CancelGuardMatchesBackend`, `RideStatus.CancelButtonOnActiveRide`).
- `Views.ClientCanStartOwnRide`: `start_ride` and `complete_ride` check no role, so a
  client can start their own accepted ride.
- `RequestRide.RequestAlwaysRejected`: the request screen never sends coordinates, which
  the serializer requires, so every ride request gets a 400. As built, the screen's price
  call (`calculatePrice`) is not exported by the ride API module and always throws, so the
  screen shows its price error, the price stays 0 and the request button stays disabled
  (`RequestRide.QuoteFailureKeepsRequestDisabled`).
- `Register.SpacedPasswordsRefusedOnlyByScreen` and `Register.BlankPasswordsRefusedOnlyByServer`:
  the screen compares the raw passwords while the serializer trims them and refuses blank
  ones, so the two checks differ on padded and on all-blank passwords
  (`Register.ClientCheckImpliesServer` gives the direction that holds).
- `AuthContext.LogoutKeepsBearer`: the session store writes `userInfo`/`userToken` while
  the HTTP client reads `tokens`, so logging out does not stop requests from carrying the
  stored bearer token.
- `ApiClient.HandleError` has an outcome `CrashedNoResponse`: the handler reads the status
  of an error's response without checking that there is one.

Likewise the request interceptor attaches a bearer whenever the stored pair has an access
token, whatever its refresh token (`ApiClient.BearerIffStoredAccess`), and the session
store's login and registration are simulated: they never call the backend
(`AuthContext.AuthProvider.Login`, `AuthContext.AuthProvider.Register`).

Text fields are validated as Django REST framework's `CharField` does by default: the text
is trimmed of surrounding whitespace, a blank result is refused, the length limit applies
to the trimmed text, and the trimmed text is what is stored (`Models.Trim`).

## Model

| member | source | states |
|---|---|---|
| Models.ParseStatus | api/models.py:27-33 | a key parses only to the status stored under that key |
| Models.ParseWire | api/models.py:27-33 | each of the five statuses parses back from its stored key, so the keys are distinct |
| Models.NewDriver | api/models.py:15-21 | a new driver profile is unavailable and rated 5.0, and keeps the fields it was given |
| Models.NewUser | api/models.py:5-7 | a new user is a driver only when created with is_driver true; blank phone and email by default |
| Models.Trim | api/serializers.py:28-42 | the kept text has no whitespace at either end, is no longer than the input, and is empty exactly when the input is all whitespace |
| Models.TrimKeepsClean | api/serializers.py:28-42 | text with no whitespace at either end is kept as it is |
| Models.TrailingSpaceIgnored | api/serializers.py:11-12 | a trailing space never changes the trimmed text |
| Models.TrimIgnoresPadding | api/serializers.py:28-42 | whitespace added around a text does not change what is kept; with TrimKeepsClean this fixes the trimmed text for every input |
| Serializers.CleanPasswords | api/serializers.py:11-12 | the password fields clean exactly when both are present and non-blank after trimming; cleaned values are the trimmed texts and every other field is kept |
| Serializers.RegistrationPasswords | api/serializers.py:11-21 | no verdict exactly when a password field is missing or blank; otherwise the check passes exactly when the trimmed passwords are equal |
| Serializers.ValidateRegistration | api/serializers.py:18-21 | refused, with the one error key `password` and the mismatch message, exactly when password differs from password2; otherwise the attributes come back unchanged |
| Serializers.UserCreationArgs | api/serializers.py:23-26 | user creation gets every validated field except password2 |
| Serializers.CreatedUser | api/serializers.py:25 | the created user has the given username and is a driver only when the form said so |
| Serializers.RidePrice | api/serializers.py:44-49 | the price is above 5 lei for any positive distance and at least 5.25 lei for any valid one |
| Serializers.PriceStrictlyIncreasing | api/serializers.py:48 | a longer ride costs strictly more |
| Serializers.PriceFitsForTenths | api/models.py:43-44 | a distance of whole tenths of a km is valid and gives a price the 8-digit, 2-decimal column stores exactly |
| Serializers.RideFieldErrors | api/models.py:37-43 | each field is reported exactly when it is wrong: an address missing, blank once trimmed or over 255 long once trimmed, a coordinate missing, a distance missing or under 0.1; the body is accepted exactly when no field is wrong |
| Serializers.BlankAddressRefused | api/models.py:37 | an all-whitespace pickup address is refused |
| Serializers.CreatedRide | api/serializers.py:44-49 | a created ride stores the sent coordinates and distance and the trimmed, non-blank addresses, costs the formula price for that distance, is requested with no driver, belongs to the caller and satisfies the lifecycle invariant |
| Serializers.ReadOnlyFieldsIgnored | api/serializers.py:35-42 | values sent for price, status, client, driver and the timestamps change nothing in the created ride |
| Views.HttpStatus | api/views.py:75-84 | every refusal of an action is a 4xx client error |
| Views.ProfileOf | api/views.py:78-81 | a profile is found exactly when the caller has one, and it is theirs |
| Views.Queryset | api/views.py:57-65 | a driver with a profile sees exactly the rides bound to it, a driver without one sees none, anyone else sees exactly their own rides; nothing else is visible |
| Views.AcceptDecision | api/views.py:75-88 | succeeds exactly for a driver with a profile on a requested ride, then binds that profile and sets accepted, changing nothing else but the update time; a non-driver gets 403, other refusals are 400 |
| Views.StartDecision | api/views.py:97-101 | succeeds exactly from accepted, moving to in_progress and changing only the status; otherwise 400 |
| Views.CompleteDecision | api/views.py:110-114 | succeeds exactly from in_progress, moving to completed and changing only the status; otherwise 400 |
| Views.CancelDecision | api/views.py:123-127 | succeeds exactly from a non-terminal status (requested, accepted or in_progress), moving to cancelled and changing only the status; completed and cancelled get 400 |
| Views.Outcome | api/views.py:72 | a ride outside the caller's queryset is not found, whichever action is asked for |
| Views.TerminalIsAbsorbing | api/views.py:83-126 | no action succeeds on a completed or cancelled ride |
| Views.OnlyAcceptBindsDriver | api/views.py:86-126 | start, complete and cancel change the status alone, and no successful action leaves a ride requested |
| Views.ActionPreservesInvariant | api/views.py:70-130 | every action, successful or not, keeps "a bound driver means the ride has left requested" over the whole table |
| Views.AcceptNeverSucceeds | api/views.py:62-88 | on a table that keeps the invariant, accept_ride fails for every caller and every ride |
| Views.UnassignedRideInvisibleToDrivers | api/views.py:57-65 | a ride with no driver is not found by any driver |
| Views.ClientCanStartOwnRide | api/views.py:93-101 | a client starts their own accepted ride successfully: there is no role check |
| Views.CancelInProgressSucceeds | api/views.py:123-127 | an in-progress ride can be cancelled |
| Views.BlankTextRefused | api/views.py:44-47 | a PATCH carrying a blank or all-whitespace licence number, car model or car plate is refused |
| Views.Patched | api/views.py:44-47 | each field the patch carries replaces the stored one (texts trimmed), each field it does not carry is kept, and the profile's identity and owner never change |
| Views.PatchedTextsValid | api/models.py:17-19 | an accepted patch stores no blank text and none over its field's limit (20, 50, 10) |
| Views.Listing | api/views.py:57-65 | the listed rides are exactly the queryset's, each once |
| Views.RideViewSet.PerformCreate | api/views.py:67-68 | an invalid body gets 400 and changes nothing; a valid one adds the created ride under a fresh id and keeps the invariant |
| Views.RideViewSet.List | api/views.py:57-65 | the list holds every ride of the caller's queryset, nothing else, and is as long as the queryset, so each ride appears once |
| Views.RideViewSet.AcceptRide | api/views.py:70-91 | answers with the accept outcome and saves the ride only on success; on a consistent table it always refuses and keeps the invariant |
| Views.RideViewSet.StartRide | api/views.py:93-104 | answers with the start outcome, saves only on success, keeps the invariant |
| Views.RideViewSet.CompleteRide | api/views.py:106-117 | answers with the complete outcome, saves only on success, keeps the invariant |
| Views.RideViewSet.CancelRide | api/views.py:119-130 | answers with the cancel outcome, saves only on success, keeps the invariant |
| Views.RideViewSet.DriverMe | api/views.py:37-51 | GET answers the caller's own profile, or 404 when they have none |
| Views.RideViewSet.PatchDriverMe | api/views.py:37-51 | PATCH answers 404 without a profile, 400 on a blank or over-long text once trimmed, otherwise saves and answers the patched profile |
| Views.RideViewSet.Available | api/views.py:31-35 | the listed drivers are exactly the available profiles |
| Storage.AsyncStorage.SetItem | src/context/AuthContext.js:26-27 | the key holds the new value and every other key is kept |
| Storage.AsyncStorage.RemoveItem | src/context/AuthContext.js:38-39 | the key is gone and every other key is kept |
| Storage.ReadTokens | src/api/index.js:17-19 | a missing entry means no tokens; a stored pair reads back as itself |
| ApiClient.BearerValue | src/api/index.js:21 | the header value is "Bearer " followed by the access token |
| ApiClient.BearerRoundTrip | src/api/index.js:21 | the token is recovered from the header exactly |
| ApiClient.AuthorizedHeaders | src/api/index.js:17-24 | an unparsable entry rejects the request; the bearer is added exactly when a stored pair has an access token; otherwise the headers are untouched |
| ApiClient.BearerIffStoredAccess | src/api/index.js:17-24 | a sent request carries Authorization if and only if "tokens" holds a pair with an access token |
| ApiClient.Cleared | src/api/index.js:65-66 | "user" and "tokens" are gone and every other key is kept |
| ApiClient.HandleError | src/api/index.js:34-72 | at most one renewal call then one replay carrying the header set on the request; the request is marked exactly when it was already marked or the error is a 401 |
| ApiClient.PassThrough | src/api/index.js:37-71 | an error other than 401, or on an already-marked request, is rethrown with no call and the store untouched |
| ApiClient.NoTokensNoRefresh | src/api/index.js:42-71 | a 401 with no stored pair makes no call, leaves the store as it was and rethrows the 401 |
| ApiClient.RenewalStoresAndReplays | src/api/index.js:47-61 | a renewal stores the new access token with the old refresh token, replays with the new bearer, and the caller gets the replay's result, failure included, with the renewed pair kept |
| ApiClient.FailedRenewalClears | src/api/index.js:63-71 | a failed renewal call or storage error removes "user" and "tokens" and rethrows the original 401, with no replay |
| ApiClient.AtMostOneRenewal | src/api/index.js:38-39 | a second failure of the same request makes no call, so one request causes at most one renewal |
| ApiClient.OnRequest | src/api/index.js:15-29 | the interceptor sends the headers AuthorizedHeaders gives; a storage read that fails or an unparsable entry rejects the request with its headers untouched; the retry mark is left alone |
| ApiClient.ClearSession | src/api/index.js:65-66 | the store afterwards is Cleared of the old store |
| ApiClient.OnResponseError | src/api/index.js:34-72 | the handler's outcome, calls, store, retry mark and headers are those HandleError gives |
| AuthContext.SampleUser | src/context/AuthContext.js:16-21 | login's profile has id 1, the given email, the test name and the client type |
| AuthContext.LoggedIn | src/context/AuthContext.js:26-27 | the store gains the profile under "userInfo" and the sample token under "userToken" and keeps every other key |
| AuthContext.LoggedOut | src/context/AuthContext.js:38-39 | the store loses "userInfo" and "userToken" and keeps every other key |
| AuthContext.Restoration | src/context/AuthContext.js:62-77 | a stored profile is restored with whatever "userToken" holds; a missing or empty one restores nothing; a read error or unparsable profile throws |
| AuthContext.RestoreAfterLogin | src/context/AuthContext.js:26-70 | a restart after login restores the same profile and token |
| AuthContext.RestoreAfterLogout | src/context/AuthContext.js:38-71 | a restart after logout restores nothing |
| AuthContext.ClientKeysUntouched | src/context/AuthContext.js:26-39 | login and logout leave "tokens" and "user" exactly as they were |
| AuthContext.SameTokensSameBearer | src/api/index.js:17-24 | the request headers depend on the "tokens" entry alone |
| AuthContext.LogoutKeepsBearer | src/context/AuthContext.js:35-46 | after login and then logout, requests carry the same Authorization header as before the login |
| AuthContext.AuthProvider.Login | src/context/AuthContext.js:11-33 | state holds the sample session even if a write throws; the writes that complete are those of LoggedIn, in order; loading ends |
| AuthContext.AuthProvider.Logout | src/context/AuthContext.js:35-46 | the state is cleared only once both removals complete; the removals that complete are those of LoggedOut; loading ends |
| AuthContext.AuthProvider.Register | src/context/AuthContext.js:48-60 | reports success, writes nothing and leaves the session state alone |
| AuthContext.AuthProvider.IsLoggedIn | src/context/AuthContext.js:62-77 | applies Restoration; loading stays on when a read or parse throws |
| Lists.Find | src/screens/client/RideStatusScreen.js:21-25 | none exactly when no element passes; otherwise the first element that passes |
| Lists.Filter | src/screens/driver/DriverHomeScreen.js:15 | keeps exactly the passing elements, never more copies than the input, and is empty exactly when none passes |
| Lists.FilterAppend | src/screens/driver/DriverHomeScreen.js:15 | filtering keeps the input's order: it distributes over concatenation |
| Lists.FilterKeepsPassing | src/screens/driver/DriverHistoryScreen.js:15-17 | every passing element is kept as many times as it occurs |
| Lists.FilterIdempotent | src/screens/driver/DriverHistoryScreen.js:15-17 | filtering an already filtered list changes nothing |
| DriverRideDetails.FindRide | src/screens/driver/DriverRideDetailsScreen.js:14 | none exactly when no ride has the id; otherwise the first ride with it |
| DriverRideDetails.ButtonsByStatus | src/screens/driver/DriverRideDetailsScreen.js:150-166 | cancel shows exactly when start or complete does, never both of those, and nothing shows on requested, completed or cancelled rides |
| DriverRideDetails.OfferedActionsAreGranted | src/screens/driver/DriverRideDetailsScreen.js:150-166 | on a visible ride start and complete show exactly when the backend grants them, and cancel shows only when the backend grants it |
| DriverRideDetails.StatusText | src/screens/driver/DriverRideDetailsScreen.js:173-182 | the five statuses get their labels, any other key is shown as it is |
| DriverRideDetails.LabelsDistinct | src/screens/driver/DriverRideDetailsScreen.js:173-182 | different statuses get different labels, and no label is a status key |
| DriverRideDetails.AfterAction | src/screens/driver/DriverRideDetailsScreen.js:33-77 | a granted start or complete reloads, a granted cancel goes back, a refused call stays |
| DriverRideDetails.DriverRideDetailsScreen.LoadRideDetails | src/screens/driver/DriverRideDetailsScreen.js:11-27 | shows the ride with the screen's id, goes back when there is none, keeps the ride on a failed fetch; loading ends |
| RideDetails.CancelGuardMatchesBackend | src/screens/client/RideDetailsScreen.js:41 | the guard lets through exactly the rides the backend cancels; the button (requested, accepted) is narrower and hides in-progress rides |
| RideDetails.DriverSectionOnBoundRides | src/screens/client/RideDetailsScreen.js:199 | on a consistent ride the driver section shows exactly when a driver is bound and the ride is not cancelled |
| RideDetails.StatusText | src/screens/client/RideDetailsScreen.js:66-75 | the five statuses get their labels, any other key is shown as it is |
| RideDetails.StatusColor | src/screens/client/RideDetailsScreen.js:77-86 | the five statuses get their colours, any other key is grey |
| RideDetails.LabelsAgreeWithDriverScreen | src/screens/client/RideDetailsScreen.js:66-75 | the client and driver screens label every status alike except requested |
| RideDetails.ColorsShared | src/screens/client/RideDetailsScreen.js:77-86 | two statuses share a colour exactly when they are equal or are in_progress and completed |
| RideDetails.RideDetailsScreen.LoadRideDetails | src/screens/client/RideDetailsScreen.js:18-34 | shows the ride with the screen's id, goes back when there is none, keeps the ride on a failed fetch; loading ends |
| RideDetails.RideDetailsScreen.HandleCancelRide | src/screens/client/RideDetailsScreen.js:40-64 | nothing is sent for no ride or a finished one; otherwise the shown ride is cancelled and reloaded on success |
| RideStatus.ActiveRide | src/screens/client/RideStatusScreen.js:21-25 | none exactly when no ride is requested, accepted or in progress; otherwise the first such ride |
| RideStatus.ActiveRideIsCancellable | src/screens/client/RideStatusScreen.js:21-25 | the active ride is never finished and the backend would cancel it |
| RideStatus.CancelButtonOnActiveRide | src/screens/client/RideStatusScreen.js:223 | on an active ride the button shows exactly for requested and accepted, and is hidden on an in-progress ride the backend would cancel |
| RideStatus.DriverPanelOnBoundRides | src/screens/client/RideStatusScreen.js:188 | on a consistent ride the panel shows exactly when a driver is bound |
| RideStatus.StatusText | src/screens/client/RideStatusScreen.js:83-90 | the three active statuses get labels, any other key is shown as it is |
| RideStatus.StatusDescription | src/screens/client/RideStatusScreen.js:92-99 | empty exactly for keys that are not active statuses |
| RideStatus.StatusIcon | src/screens/client/RideStatusScreen.js:236-243 | the three active statuses get icons, anything else the help icon |
| RideStatus.ActiveRideFullyDescribed | src/screens/client/RideStatusScreen.js:83-99 | an active ride never shows a pass-through label, an empty description or the help icon |
| RideStatus.RideStatusScreen.LoadActiveRide | src/screens/client/RideStatusScreen.js:17-44 | shows the first active ride or none; a failed fetch keeps the shown ride; loading ends |
| RideStatus.RideStatusScreen.HandleCancelRide | src/screens/client/RideStatusScreen.js:57-81 | nothing is sent without an active ride; a granted cancel opens the request screen |
| DriverHome.OpenRides | src/screens/driver/DriverHomeScreen.js:15 | exactly the requested rides of the response |
| DriverHome.OpenRidesKeepOrder | src/screens/driver/DriverHomeScreen.js:15 | the list keeps the server's order |
| DriverHome.NothingToAcceptForDrivers | src/screens/driver/DriverHomeScreen.js:13-16 | for a driver, on a consistent table, the list is always empty |
| DriverHome.AfterAccept | src/screens/driver/DriverHomeScreen.js:42-51 | a granted accept opens the ride's detail screen with the same id; a refused one stays |
| DriverHome.DriverHomeScreen.LoadRides | src/screens/driver/DriverHomeScreen.js:11-24 | shows the open rides of the response, keeps the old list on failure; both spinners stop |
| DriverHome.DriverHomeScreen.HandleRefresh | src/screens/driver/DriverHomeScreen.js:37-40 | the same as a load |
| DriverHistory.SortByRecency | src/screens/driver/DriverHistoryScreen.js:19 | the array ends newest first and holds the same rides |
| DriverHistory.StatusText | src/screens/driver/DriverHistoryScreen.js:43-49 | completed and cancelled get labels, any other key is shown as it is |
| DriverHistory.StatusColor | src/screens/driver/DriverHistoryScreen.js:51-57 | completed and cancelled get colours, anything else grey |
| DriverHistory.PastRidesLabelled | src/screens/driver/DriverHistoryScreen.js:43-57 | a finished ride has the driver ride screen's label and never the grey colour |
| DriverHistory.DriverHistoryScreen.LoadRides | src/screens/driver/DriverHistoryScreen.js:11-28 | shows the completed and cancelled rides of the response newest first, none added or dropped; keeps the old list on failure; both spinners stop |
| DriverHistory.DriverHistoryScreen.HandleRefresh | src/screens/driver/DriverHistoryScreen.js:34-37 | the same as a load |
| DriverProfile.AvailabilityRequest | src/screens/driver/DriverProfileScreen.js:34 | a PATCH of /drivers/me/ carrying is_available and no other field |
| DriverProfile.ToggleAppliedByBackend | src/screens/driver/DriverProfileScreen.js:34 | the backend accepts that body and changes only the profile's availability, to the value sent |
| DriverProfile.DriverProfileScreen.LoadDriverProfile | src/screens/driver/DriverProfileScreen.js:18-29 | a loaded profile sets the switch to its availability; a failed load leaves the screen as it was; loading ends |
| DriverProfile.DriverProfileScreen.HandleAvailabilityToggle | src/screens/driver/DriverProfileScreen.js:31-40 | the switch shows the new value while the PATCH is sent; on failure it shows the negation, which restores the old value when the new one negated it |
| RequestRide.RequestPayload | src/screens/client/RequestRideScreen.js:55-60 | the body carries the two addresses, the distance and the price and nothing else |
| RequestRide.RequestAlwaysRejected | src/screens/client/RequestRideScreen.js:55-60 | the serializer reports all four coordinates missing for every body the screen sends |
| RequestRide.RequestRideScreen.HandleCalculatePrice | src/screens/client/RequestRideScreen.js:24-45 | a missing address only alerts; otherwise the distance is set, calculating is on during the call and off after, the price changes only when the call answers, and a failed call raises the price error alert |
| RequestRide.QuoteFailureKeepsRequestDisabled | src/screens/client/RequestRideScreen.js:24-45 | from a fresh screen, a failed price call leaves the price 0 and the request button disabled (line 162), with the price error or the missing-address alert |
| RequestRide.RequestRideScreen.SetPickupLocation | src/screens/client/RequestRideScreen.js:117 | the pickup address takes the typed text, nothing else changes |
| RequestRide.RequestRideScreen.SetDropoffLocation | src/screens/client/RequestRideScreen.js:127 | the drop-off address takes the typed text, nothing else changes |
| RequestRide.RequestRideScreen.HandleRequestRide | src/screens/client/RequestRideScreen.js:47-73 | the body is sent exactly when both addresses, the distance and the price are set; a sent request had the button (disabled while loading or without distance and price, line 162) enabled, and an enabled button with both addresses always sends; a sent request alerts success and opens the status screen, or alerts the request error; loading ends |
| Register.InitialForm | src/screens/auth/RegisterScreen.js:16-25 | the eight fields, every text empty and is_driver false |
| Register.Changed | src/screens/auth/RegisterScreen.js:30-35 | the named field takes the new value and every other field is kept |
| Register.ChangesCompose | src/screens/auth/RegisterScreen.js:30-35 | a second change of a field overrides the first; changes of different fields commute |
| Register.ClientCheckImpliesServer | src/screens/auth/RegisterScreen.js:44-47 | a form passing the screen's checks whose password is non-blank once trimmed also passes the server's password check |
| Register.SpacedPasswordsRefusedOnlyByScreen | src/screens/auth/RegisterScreen.js:44-47 | for every clean non-blank password p, p plus a trailing space against p is refused by the screen but passes the server, which compares trimmed text |
| Register.TrimmedEqualPasses | api/serializers.py:11-21 | two present password texts with the same non-blank trimmed value always pass the server's password check |
| Register.BlankPasswordsRefusedOnlyByServer | api/serializers.py:11-12 | two equal passwords made only of whitespace pass both checks of the screen but get no verdict from the server, which refuses blank fields |
| Register.Flatten | src/screens/auth/RegisterScreen.js:54 | the lines are exactly the messages of the fields, and one field gives its own messages in order |
| Register.FlattenAppend | src/screens/auth/RegisterScreen.js:54 | flattening keeps the fields' order and every message, duplicates included |
| Register.JoinLines | src/screens/auth/RegisterScreen.js:54 | the joined text is empty exactly for no lines or one empty line, and holds a break between any two lines |
| Register.SplitJoin | src/screens/auth/RegisterScreen.js:54 | cutting the joined text at its line breaks gives the lines back, so each message is shown on a line of its own |
| Register.ErrorMessage | src/screens/auth/RegisterScreen.js:54-58 | the alert shows the joined messages whenever there is a non-empty one, and the fallback only when there is none; never empty |
| Register.ServerMessagesShown | src/screens/auth/RegisterScreen.js:54-58 | the server's mismatch error is shown verbatim and an empty body gets the fallback |
| Register.RegisterScreen.HandleChange | src/screens/auth/RegisterScreen.js:30-35 | the form becomes Changed of the old form |
| Register.RegisterScreen.HandleRegister | src/screens/auth/RegisterScreen.js:37-62 | the missing-field check first, then the password check, and register is called with the form only when both pass; the alert follows the result |
| Register.RegisterThroughSession | src/screens/auth/RegisterScreen.js:51 | through the session store's simulated register every form passing both checks is reported registered |

## Left out

- Rendering, styles, map regions and markers, navigation stacks and `Alert` dialogs: a confirmed dialog is taken as given, and navigation is the `Next` value a handler returns.
- Polling timers (`setInterval`) on the status and driver start screens: one load step is modelled.
- Concurrent requests: concurrent accepts on the backend (read-check-write without a lock) and concurrent 401s on the client are sequential here.
- Floating point: distances, coordinates and prices are exact reals; `toFixed`, `parseFloat`, date parsing and formatting are not modelled, and timestamps are integers.
- The address inputs with place search (src/components/LocationInput.js), the thin API wrappers (src/api/rides.js, src/api/auth.js) and the login screens: their calls are results passed to the handlers.
- `UserViewSet`, admin registration, URL routing and `validate_password` strength rules.
- Serializers.RideFieldErrors: checks presence, blankness and length after trimming, and the distance bound; type errors in the body are not modelled.
- Models.Trim: the whitespace removed is the space, tab, line feed, vertical tab, form feed and carriage return; the other Unicode whitespace Python strips is not modelled.
- The endpoints both view sets inherit from `ModelViewSet` (api/views.py:26, 53): retrieve, update, partial update and destroy of rides and driver profiles. Through them a client can delete its accepted ride, or change a ride's distance without a new price, since price is read-only (api/serializers.py:42); the model has only create, list, the four ride actions, and the driver profile's `me` and `available`.
- Views.RideViewSet.PerformCreate: a price too large for the decimal column is not refused; Serializers.PriceFitsForTenths shows the price fits for any distance the client can produce.
- Views.Listing: the order of the list is left open, since the model has no database order.
- DriverHistory.SortByRecency: the order of rides with equal updated_at (the sort is stable) is not stated.
- Storage.ReadTokens: JSON parsing is approximated: plain text other than "" is taken not to be JSON (real `JSON.parse` accepts "123" or "true"), and a stored profile reads as a pair with neither token.
- AuthContext.Restoration: the same approximation of `JSON.parse` for "userInfo": plain text other than "" is taken not to be JSON, though real `JSON.parse` accepts "123" or "true".
- ApiClient.HandleError: the refresh call's answer is the new access token or a failure; an answer without an access field is not distinguished, and a `removeItem` that throws while clearing is not modelled.
- AuthContext.AuthProvider.IsLoggedIn: the restored token is the stored value itself, whatever it is.
- Register.Flatten: `flat()` is modelled one level deep, for error bodies whose values are strings or lists of strings.
- The press handler of a history row (navigation to the ride screen) is pure navigation and is not modelled.
