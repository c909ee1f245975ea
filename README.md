# Ultra ticketing app: a Dafny model of its core

This project models the logic of the Ultra event-ticketing app that is not rendering. The model is split by the program's own files.

- **Client `services/api.ts`** (`ApiClient`, `RealTime`, `UrlEncoding`):
  - the API client's response cache, with a per-entry time to live, lazy expiry and eviction by pattern;
  - the bounded retry loop with its fixed back-off table;
  - the rules for when a request reads or writes the cache;
  - each domain call's endpoint and cache policy;
  - the WebSocket service's reconnect budget and the cache evictions that pushed updates trigger.
- **Client `store/index.ts`** (`Stores`): the Zustand stores for theme, user, events, tickets and UI. Each store is a class whose methods update its fields through pure updater functions.
- **Django backend `core` app** (`TicketModels`, `Permissions`, `TicketViews`):
  - the ticket's status and scan lifecycle (`save`, `mark_as_used`, `is_scannable`, `validation_url`);
  - the role choices;
  - the three permission classes;
  - the booking capacity guard;
  - the "my tickets" listing;
  - the event ordering.
- **Screens:**
  - seat selection (`SelectTickets`) and ticket quantity (`PurchaseTicket`);
  - both register screens (`RegisterWizard` for the `.tsx` wizard, `RegisterForm` for the `.js` form);
  - the forgot-password countdown (`ForgotPassword`);
  - the onboarding carousel (`Onboarding`);
  - profile initials and roles (`Profile`);
  - ticket status colours and icons (`MyTickets`).
- **Shared pieces:**
  - the theme helpers (`Theme`);
  - the two regular expressions used for e-mail and password checks, decided by hand-written matchers proved equal to the patterns (`Validation`);
  - JavaScript string helpers (`Common`): `trim`, `toLowerCase`, `toUpperCase`, `charAt`, `filter` by id, and number-to-string.

Inputs are explicit parameters wherever the program reads the outside world:

- the clock (`Date.now()`);
- the token;
- the outcome of each `fetch`, given as a function of the attempt number;
- socket events;
- the system colour scheme;
- the stored onboarding flag.

Timer callbacks (`setTimeout`, `setInterval`) become returned delays, or are methods the caller invokes (`OnTimer`).

## Model

| member | source | states |
|---|---|---|
| ApiClient.LastNamed | ultra-frontend/src/services/api.ts:95-97 | a JSON object's field lookup finds a value exactly when some member has that name, and the value found belongs to a member of that name |
| ApiClient.CacheKey | ultra-frontend/src/services/api.ts:68 | the cache key starts with the endpoint followed by ':' |
| ApiClient.PlainGetKey | ultra-frontend/src/services/api.ts:68 | a request with empty options is cached under `endpoint + ":{}"` |
| ApiClient.WritesCache | ultra-frontend/src/services/api.ts:106-109 | a request that writes the cache also reads it (GET or no method, with useCache) |
| ApiClient.OtherVerbsReadButNeverWrite | ultra-frontend/src/services/api.ts:71-109 | a method other than GET, POST, PUT or DELETE (e.g. PATCH) reads the cache exactly when useCache holds, and never writes it |
| ApiClient.Headers | ultra-frontend/src/services/api.ts:76-84 | JSON content type always; an Authorization header `Bearer <token>` exactly when a non-empty token is stored; no other headers |
| ApiClient.AttemptResult | ultra-frontend/src/services/api.ts:91-104 | one attempt succeeds exactly on an ok response with a body; a network failure rethrows it; a non-ok response raises an HTTP error with the status, the error body (or `{}` when undecodable) as details, that body's `code`, and its truthy `message` or else 'Request failed'; a null error body throws instead |
| ApiClient.UndecodableErrorBody | ultra-frontend/src/services/api.ts:94-101 | a refused request with an undecodable body throws 'Request failed' with no code and `{}` as details |
| ApiClient.RetryFromFacts | ultra-frontend/src/services/api.ts:44-59 | from attempt i the loop makes between i+1 and retries+1 attempts; every earlier attempt failed; the result is the last attempt's; a failure means the budget was exhausted; the delays follow the back-off table |
| ApiClient.RetryContract | ultra-frontend/src/services/api.ts:44-59 | at most retries+1 attempts; the result is the first success or the last error; one back-off delay per failed attempt before the last |
| ApiClient.RetryStopsAtFirstSuccess | ultra-frontend/src/services/api.ts:48-50 | when attempt k is the first success, the result is attempt k's and exactly k+1 attempts are made |
| ApiClient.RetryRethrowsLastError | ultra-frontend/src/services/api.ts:52 | when every attempt fails, retries+1 attempts are made and the last error is rethrown |
| ApiClient.NoRetriesMeansOneAttempt | ultra-frontend/src/services/api.ts:48-52 | with zero retries exactly one attempt is made and nothing is waited |
| ApiClient.TwoFailuresThenSuccessWaitsThreeSeconds | ultra-frontend/src/services/api.ts:44-59 | two failures and a success take three attempts and wait 1000 then 2000 ms, 3000 ms in all |
| ApiClient.ExecuteWithRetry | ultra-frontend/src/services/api.ts:44-59 | the `for` loop over attempts returns exactly the run the retry specification describes |
| ApiClient.CachedData | ultra-frontend/src/services/api.ts:30-37 | a lookup returns data exactly when the key is present and `now - timestamp < ttl`, and then returns the stored data |
| ApiClient.AfterLookup | ultra-frontend/src/services/api.ts:30-37 | after a lookup the key stays only if it was live; every other entry is untouched |
| ApiClient.StoreThenLookup | ultra-frontend/src/services/api.ts:39-41 | reading a key just stored at time t gives the data while `now - t < ttl`, and nothing afterwards |
| ApiClient.EvictMatching | ultra-frontend/src/services/api.ts:299-306 | eviction by pattern keeps exactly the keys that do not contain the pattern, with their entries unchanged |
| ApiClient.EvictMatchingIdempotent | ultra-frontend/src/services/api.ts:299-306 | evicting the same pattern twice equals evicting it once |
| ApiClient.EvictEmptyPatternClears | ultra-frontend/src/services/api.ts:300-302 | the empty pattern matches every key, so it empties the cache |
| ApiClient.UltraAPIClient.constructor | ultra-frontend/src/services/api.ts:24-27 | a new client has the given base URL and an empty cache |
| ApiClient.UltraAPIClient.GetCachedData | ultra-frontend/src/services/api.ts:30-37 | returns the live data and deletes the key when it has expired |
| ApiClient.UltraAPIClient.SetCachedData | ultra-frontend/src/services/api.ts:39-41 | overwrites exactly one key with the data, the current time and the ttl |
| ApiClient.UltraAPIClient.Request | ultra-frontend/src/services/api.ts:62-113 | a truthy live entry answers a cache-reading request with no attempt; otherwise the retried fetch decides the result, and a success is cached when the request writes the cache |
| ApiClient.UltraAPIClient.ClearCache | ultra-frontend/src/services/api.ts:295-297 | the cache is empty afterwards |
| ApiClient.UltraAPIClient.ClearCacheByPattern | ultra-frontend/src/services/api.ts:299-306 | the deletion loop leaves exactly the entries whose keys do not contain the pattern |
| ApiClient.Post | ultra-frontend/src/services/api.ts:116-121 | a mutating call bypasses the cache |
| ApiClient.Get | ultra-frontend/src/services/api.ts:166-168 | a read call uses the cache with the given ttl and empty options |
| ApiClient.Login | ultra-frontend/src/services/api.ts:116-121 | POSTs to `/auth/login/` without caching |
| ApiClient.Register | ultra-frontend/src/services/api.ts:123-134 | POSTs to `/auth/register/` without caching |
| ApiClient.RefreshToken | ultra-frontend/src/services/api.ts:136-140 | uncached |
| ApiClient.Logout | ultra-frontend/src/services/api.ts:142-146 | uncached |
| ApiClient.FilterParams | ultra-frontend/src/services/api.ts:155-160 | keeps exactly the filters with a non-empty value, and nothing else |
| ApiClient.FilterParamsInOrder | ultra-frontend/src/services/api.ts:155-160 | the kept parameters are the truthy entries in the filter object's own order: filtering distributes over concatenation and one entry yields itself exactly when truthy |
| ApiClient.GetEvents | ultra-frontend/src/services/api.ts:149-164 | cached for 600000 ms; the endpoint has no query string exactly when no filter survives |
| ApiClient.GetEventById | ultra-frontend/src/services/api.ts:166-168 | cached for 300000 ms |
| ApiClient.CreateEvent | ultra-frontend/src/services/api.ts:170-175 | uncached |
| ApiClient.UpdateEvent | ultra-frontend/src/services/api.ts:177-182 | uncached |
| ApiClient.DeleteEvent | ultra-frontend/src/services/api.ts:184-188 | uncached |
| ApiClient.GetVenueLayout | ultra-frontend/src/services/api.ts:191-193 | cached for 1800000 ms |
| ApiClient.GetAvailableSeats | ultra-frontend/src/services/api.ts:195-200 | cached for 60000 ms under a key containing "seats", so seat pushes evict it |
| ApiClient.GetUserTickets | ultra-frontend/src/services/api.ts:203-205 | cached for 120000 ms |
| ApiClient.BookTickets | ultra-frontend/src/services/api.ts:207-217 | uncached |
| ApiClient.ValidateTicket | ultra-frontend/src/services/api.ts:219-227 | uncached |
| ApiClient.TransferTicket | ultra-frontend/src/services/api.ts:229-234 | uncached |
| ApiClient.GetOrganizerEvents | ultra-frontend/src/services/api.ts:237-239 | cached for 300000 ms |
| ApiClient.GetEventStats | ultra-frontend/src/services/api.ts:241-249 | cached for 60000 ms |
| ApiClient.GetEventTickets | ultra-frontend/src/services/api.ts:251-253 | cached for 120000 ms |
| ApiClient.BulkValidateTickets | ultra-frontend/src/services/api.ts:255-260 | uncached |
| ApiClient.SearchEvents | ultra-frontend/src/services/api.ts:263-265 | cached for 180000 ms; after `?q=` the encoded query holds no `&`, `=`, `?` or `#` |
| ApiClient.GetRecommendations | ultra-frontend/src/services/api.ts:267-269 | cached for 900000 ms |
| ApiClient.RegisterDevice | ultra-frontend/src/services/api.ts:272-281 | uncached |
| ApiClient.GetNotifications | ultra-frontend/src/services/api.ts:284-286 | cached for 60000 ms |
| ApiClient.MarkNotificationRead | ultra-frontend/src/services/api.ts:288-292 | uncached |
| RealTime.Reconnect | ultra-frontend/src/services/api.ts:364-372 | below 5 attempts the counter rises by one and a reconnect is scheduled after 1000 × the new count; otherwise nothing changes; the bound of 5 is kept |
| RealTime.ConnectStep | ultra-frontend/src/services/api.ts:333-362 | no token: nothing happens; a token opens a socket at the token's URL; a construction error falls into the reconnect path |
| RealTime.Opened | ultra-frontend/src/services/api.ts:340-343 | opening resets the reconnect counter to 0 |
| RealTime.ClosedEvent | ultra-frontend/src/services/api.ts:350-353 | the socket, if any, is kept and marked closed, so nothing can be sent; below 5 attempts the counter rises and a reconnect is scheduled after 1000 × the new count, otherwise the counter is unchanged; the attempt bound is kept |
| RealTime.DisconnectStep | ultra-frontend/src/services/api.ts:392-397 | disconnect drops the socket and leaves the counter alone |
| RealTime.Send | ultra-frontend/src/services/api.ts:399-403 | a message is sent, as its JSON text, exactly when the socket is open |
| RealTime.FailingReconnectsFrom | ultra-frontend/src/services/api.ts:364-372 | n failing reconnects from count k schedule min(n, 5-k) delays, the i-th being 1000 × (k+i+1) |
| RealTime.ReconnectSchedule | ultra-frontend/src/services/api.ts:364-372 | from zero, repeated failures wait 1, 2, 3, 4 and 5 seconds and then stop |
| RealTime.DisconnectDoesNotStopReconnect | ultra-frontend/src/services/api.ts:350-397 | the close event that follows a deliberate disconnect still schedules a reconnect |
| RealTime.UpdateActionFor | ultra-frontend/src/services/api.ts:374-390 | a null message throws; seat_updated and ticket_sold, and only they, evict "seats"; event_updated evicts `events/<eventId>` and is the only other eviction; every other type is ignored |
| RealTime.AfterUpdate | ultra-frontend/src/services/api.ts:374-390 | a key survives exactly when the message names no pattern or the key does not contain it; survivors keep their entries |
| RealTime.SaleEvictsEverySeatListing | ultra-frontend/src/services/api.ts:377-387 | after seat_updated or ticket_sold no cached seat listing survives, and every key without "seats" does |
| RealTime.EventUpdateEvictsItsDetail | ultra-frontend/src/services/api.ts:380-383 | event_updated for e evicts the cached detail of e and of every id beginning with e |
| RealTime.EventUpdateOverEvicts | ultra-frontend/src/services/api.ts:380-383 | an update for event 1 also evicts the cached detail of event 12 |
| RealTime.RealTimeService.constructor | ultra-frontend/src/services/api.ts:328-331 | no socket and zero attempts |
| RealTime.RealTimeService.AttemptReconnect | ultra-frontend/src/services/api.ts:364-372 | the new state and returned delay are those of the reconnect rule |
| RealTime.RealTimeService.Connect | ultra-frontend/src/services/api.ts:333-362 | the new state and returned delay are those of the connect rule |
| RealTime.RealTimeService.OnOpen | ultra-frontend/src/services/api.ts:340-343 | the counter is reset |
| RealTime.RealTimeService.OnClose | ultra-frontend/src/services/api.ts:350-353 | the socket is marked closed and a reconnect is attempted |
| RealTime.RealTimeService.HandleRealTimeUpdate | ultra-frontend/src/services/api.ts:374-390 | handles every non-null message and evicts exactly what its type names |
| RealTime.RealTimeService.Disconnect | ultra-frontend/src/services/api.ts:392-397 | closes and forgets the socket |
| RealTime.RealTimeService.SendMessage | ultra-frontend/src/services/api.ts:399-403 | sends only on an open socket |
| UrlEncoding.Utf8 | ultra-frontend/src/services/api.ts:264 | a code point encodes to 1-4 bytes, each below 256, and to one byte exactly when it is ASCII |
| UrlEncoding.EncodeUriComponent | ultra-frontend/src/services/api.ts:264 | the output holds only unreserved characters and percent escapes |
| UrlEncoding.EncodeUriComponentKeepsUnreserved | ultra-frontend/src/services/api.ts:264 | a string of unreserved characters encodes to itself |
| UrlEncoding.FormEncode | ultra-frontend/src/services/api.ts:155-162 | URLSearchParams encoding yields only form-safe characters, '+' and percent escapes |
| UrlEncoding.FormSerialize | ultra-frontend/src/services/api.ts:162 | the query string is empty exactly when there are no parameters |
| UrlEncoding.EncodedComponentsHaveNoDelimiters | ultra-frontend/src/services/api.ts:155-162 | neither encoding ever emits `&`, `=` or `?`, so a value cannot split the query |
| Stores.Merge | ultra-frontend/src/store/index.ts:113-118 | a shallow merge has both key sets, takes every update key from the update and keeps every other key |
| Stores.MergeLaws | ultra-frontend/src/store/index.ts:113-118 | merging nothing is the identity; merging an update twice equals once; merges compose |
| Stores.ThemeStore.constructor | ultra-frontend/src/store/index.ts:38-41 | auto theme with animations and haptics on |
| Stores.ThemeStore.SetTheme | ultra-frontend/src/store/index.ts:58 | only the theme changes |
| Stores.ThemeStore.ToggleAnimations | ultra-frontend/src/store/index.ts:59 | only the animations flag flips |
| Stores.ThemeStore.ToggleHaptic | ultra-frontend/src/store/index.ts:60 | only the haptic flag flips |
| Stores.ToggleTwiceRestores | ultra-frontend/src/store/index.ts:59-60 | toggling twice restores the state |
| Stores.WithUser | ultra-frontend/src/store/index.ts:89 | the user is set, isAuthenticated is whether there is one, and nothing else changes |
| Stores.LoggedOut | ultra-frontend/src/store/index.ts:112 | user, token and authentication are cleared |
| Stores.WithProfileUpdate | ultra-frontend/src/store/index.ts:113-118 | without a user nothing changes; otherwise the updates are merged into the user; consistency is kept |
| Stores.LoginResultAsWritten | ultra-frontend/src/store/index.ts:91-110 | the login as written: loading always ends; any response whose body decodes to a non-null value stores that body's user and token and authenticates, whatever its status; a failed fetch or an undecodable or null body changes nothing else |
| Stores.LoginStatusNeverRead | ultra-frontend/src/store/index.ts:95-106 | two responses with the same body log in alike, whatever their ok flags and status codes |
| Stores.RejectedLoginAuthenticates | ultra-frontend/src/store/index.ts:95-106 | a 401 response body marks the store authenticated with no user and no token |
| Stores.LoginResult | ultra-frontend/src/store/index.ts:91-110 | loading always ends; anything but an ok response with a non-null body leaves the rest of the state as it was; such a response stores the body's user and token and authenticates exactly when a user came with it |
| Stores.UserActionsKeepAuthConsistent | ultra-frontend/src/store/index.ts:89-118 | every user-store action keeps "authenticated exactly when a user is stored" |
| Stores.UserStore.constructor | ultra-frontend/src/store/index.ts:84-88 | logged out and not loading |
| Stores.UserStore.SetUser | ultra-frontend/src/store/index.ts:89 | state becomes WithUser |
| Stores.UserStore.SetToken | ultra-frontend/src/store/index.ts:90 | only the token changes |
| Stores.UserStore.Login | ultra-frontend/src/store/index.ts:91-110 | loading is raised and the corrected login result applied |
| Stores.UserStore.Logout | ultra-frontend/src/store/index.ts:112 | state becomes LoggedOut |
| Stores.UserStore.UpdateProfile | ultra-frontend/src/store/index.ts:113-118 | state becomes WithProfileUpdate |
| Stores.MergeFilters | ultra-frontend/src/store/index.ts:171-173 | supplied filter keys are overwritten and every other key preserved |
| Stores.MergeFiltersLaws | ultra-frontend/src/store/index.ts:171-173 | merging a patch twice equals once; the empty patch changes nothing |
| Stores.UpdateById | ultra-frontend/src/store/index.ts:163-166 | same length and order; the update is merged into exactly the events with that id |
| Stores.UpdateSelected | ultra-frontend/src/store/index.ts:167-169 | the selected event never appears or vanishes; one with another id is kept as is; one with the id takes every supplied field and keeps its other fields |
| Stores.UpdateByIdKeepsIds | ultra-frontend/src/store/index.ts:163-166 | an update without an id key never changes which event has which id |
| Stores.UpdateUnknownIdIsNoop | ultra-frontend/src/store/index.ts:163-166 | an id no event has leaves the list unchanged |
| Stores.EventsStore.constructor | ultra-frontend/src/store/index.ts:149-159 | no events, no selection, empty filters and query |
| Stores.EventsStore.SetEvents | ultra-frontend/src/store/index.ts:160 | only the list changes |
| Stores.EventsStore.SetSelectedEvent | ultra-frontend/src/store/index.ts:161 | only the selection changes |
| Stores.EventsStore.AddEvent | ultra-frontend/src/store/index.ts:162 | the event is appended |
| Stores.EventsStore.UpdateEvent | ultra-frontend/src/store/index.ts:163-170 | list and selection updated by id, nothing else |
| Stores.EventsStore.SetFilters | ultra-frontend/src/store/index.ts:171-173 | filters shallow-merged |
| Stores.EventsStore.SetSearchQuery | ultra-frontend/src/store/index.ts:174 | only the query changes |
| Stores.AddSeatTo | ultra-frontend/src/store/index.ts:240-242 | appends one copy of the seat marked selected and keeps the prefix |
| Stores.AddThenRemoveSeatRestores | ultra-frontend/src/store/index.ts:240-245 | adding a new seat and removing it by id restores the list |
| Stores.AddSeatTwiceListsItTwice | ultra-frontend/src/store/index.ts:240-242 | adding the same seat twice lists it twice (no deduplication) |
| Stores.MergeBookingFlow | ultra-frontend/src/store/index.ts:246-248 | supplied booking-flow keys overwritten, the rest preserved |
| Stores.MergeBookingFlowLaws | ultra-frontend/src/store/index.ts:246-248 | merging a patch twice equals once; the empty patch changes nothing |
| Stores.BookingReset | ultra-frontend/src/store/index.ts:249-257 | no seats, the initial booking flow, and tickets untouched |
| Stores.ResetBookingRestoresInitial | ultra-frontend/src/store/index.ts:249-257 | reset is idempotent and erases any seat or flow changes |
| Stores.TicketsStore.constructor | ultra-frontend/src/store/index.ts:227-236 | empty lists and the initial booking flow |
| Stores.TicketsStore.SetTickets | ultra-frontend/src/store/index.ts:237 | only tickets change |
| Stores.TicketsStore.AddTicket | ultra-frontend/src/store/index.ts:238 | the ticket is appended |
| Stores.TicketsStore.SetSelectedSeats | ultra-frontend/src/store/index.ts:239 | only the seats change |
| Stores.TicketsStore.AddSeat | ultra-frontend/src/store/index.ts:240-242 | seats become AddSeatTo |
| Stores.TicketsStore.RemoveSeat | ultra-frontend/src/store/index.ts:243-245 | exactly the seats with other ids remain, in order |
| Stores.TicketsStore.SetBookingFlow | ultra-frontend/src/store/index.ts:246-248 | the flow is shallow-merged |
| Stores.TicketsStore.ResetBooking | ultra-frontend/src/store/index.ts:249-257 | state becomes BookingReset |
| Stores.AddNotificationAt | ultra-frontend/src/store/index.ts:344-355 | appends exactly one notification whose id is the clock's decimal text |
| Stores.NotificationTimerRestores | ultra-frontend/src/store/index.ts:344-362 | the removal timer undoes the addition when the id was fresh |
| Stores.SameMillisecondNotificationsShareTimer | ultra-frontend/src/store/index.ts:344-359 | two notifications added in one millisecond share an id, so the first timer removes both |
| Stores.MergeDeviceInfo | ultra-frontend/src/store/index.ts:364-366 | supplied device keys overwritten, the rest preserved |
| Stores.MergeDeviceInfoLaws | ultra-frontend/src/store/index.ts:364-366 | merging a patch twice equals once; the empty patch changes nothing |
| Stores.UIStore.constructor | ultra-frontend/src/store/index.ts:331-340 | navigation bar visible, no modal, no notifications, online |
| Stores.UIStore.SetNavBarVisible | ultra-frontend/src/store/index.ts:341 | only that flag changes |
| Stores.UIStore.ShowModal | ultra-frontend/src/store/index.ts:342 | only the modal changes |
| Stores.UIStore.HideModal | ultra-frontend/src/store/index.ts:343 | the modal is cleared |
| Stores.UIStore.AddNotification | ultra-frontend/src/store/index.ts:344-359 | appends the notification and returns its id and the 5000 ms removal delay |
| Stores.UIStore.RemoveNotification | ultra-frontend/src/store/index.ts:360-362 | exactly the entries with other ids remain, in order |
| Stores.UIStore.SetOnlineStatus | ultra-frontend/src/store/index.ts:363 | only the online flag changes |
| Stores.UIStore.SetDeviceInfo | ultra-frontend/src/store/index.ts:364-366 | device info is shallow-merged |
| TicketModels.ParseStatus | backend/core/models.py:40-49 | a parsed status has exactly the stored code |
| TicketModels.StatusCodesRoundTrip | backend/core/models.py:40-49 | each status's code parses back to it, and codes are distinct |
| TicketModels.ParseRole | backend/core/models.py:98-103 | a parsed role has exactly the stored code |
| TicketModels.RoleCodesRoundTrip | backend/core/models.py:98-103 | each role's code parses back to it, and codes are distinct |
| TicketModels.DefaultRoleIsUser | backend/core/models.py:103 | the default role is 'user' |
| TicketModels.ValidationUrlFor | backend/core/models.py:88-91 | the URL ends with the validation token followed by '/' |
| TicketModels.Saved | backend/core/models.py:65-69 | after save the QR code is set; an existing one is kept; an empty one becomes the validation URL |
| TicketModels.MarkedUsed | backend/core/models.py:71-78 | status becomes used and scanned_at now; scanned_by changes only when a user is given |
| TicketModels.NewTicketNotScannableUntilPaid | backend/core/models.py:80-86 | a new ticket is pending and valid, not scannable, and scannable once paid |
| TicketModels.FirstSaveSetsQrToValidationUrl | backend/core/models.py:65-69 | the first save stores the validation URL as the QR code |
| TicketModels.SaveIdempotent | backend/core/models.py:65-69 | saving twice equals saving once |
| TicketModels.MarkedUsedIsFinal | backend/core/models.py:71-86 | a used ticket is never scannable; identity, token, validity and QR code are untouched |
| TicketModels.MarkAsUsedAgain | backend/core/models.py:71-78 | marking again only moves the scan time and keeps the previous scanner |
| TicketModels.Ticket.constructor | backend/core/models.py:30-56 | the record of a new ticket |
| TicketModels.Ticket.Save | backend/core/models.py:65-69 | the record becomes Saved |
| TicketModels.Ticket.MarkAsUsed | backend/core/models.py:71-78 | the record becomes MarkedUsed |
| Permissions.OrganizerOrAdminCases | backend/core/permissions.py:4-21 | anonymous users are refused; superusers allowed; otherwise allowed exactly for organizer or admin roles |
| Permissions.CanScanObject | backend/core/permissions.py:23-33 | no object is refused; otherwise the answer is the `can_be_scanned_by` answer of the object's event, or of the object itself when it has no event, and a missing method raises AttributeError for `can_be_scanned_by` |
| Permissions.TicketScanDefersToEvent | backend/core/permissions.py:28-33 | a ticket is scannable by exactly the users its event, asked directly, lets scan |
| Permissions.EventOrganizerObject | backend/core/permissions.py:40-51 | an object with an organizer is judged on it first; one with neither organizer nor event is refused |
| Permissions.EventOrganizerGrants | backend/core/permissions.py:40-51 | with an organizer found directly or through the event, an authenticated user is allowed exactly as that organizer, an admin or a superuser; an attribute error arises only for anonymous users or an event without organizer |
| Permissions.OrganizerScenarios | backend/core/permissions.py:40-50 | the organizer may access the event and its tickets, another organizer may not, a superuser may |
| Permissions.TicketOfEventWithoutOrganizerRaises | backend/core/permissions.py:46-50 | a ticket whose event has no organizer raises an attribute error |
| TicketViews.SortDesc | backend/core/views.py:11 | the result is a permutation sorted by descending key |
| TicketViews.ListEvents | backend/core/views.py:10-13 | all events, as a permutation, ordered by descending start time |
| TicketViews.OwnedBy | backend/core/views.py:41 | keeps every ticket of the user, with multiplicity, and no other |
| TicketViews.MyTicketsSpec | backend/core/views.py:36-41 | only and all of the requester's tickets, newest first |
| TicketViews.CountForAppend | backend/core/views.py:26 | appending a ticket raises its event's count by one and no other |
| TicketViews.FindEvent | backend/core/views.py:23 | finds an event exactly when some event has the id |
| TicketViews.BookSpec | backend/core/views.py:21-32 | 404 exactly when the event is unknown; 400 exactly when count ≥ capacity; otherwise one pending ticket for (user, event) is appended and the count grows by one |
| TicketViews.BookKeepsCapacity | backend/core/views.py:25-32 | bookings keep every event's ticket count within its capacity |
| TicketViews.TicketTable.constructor | backend/core/views.py:16-19 | no tickets yet |
| TicketViews.TicketTable.Post | backend/core/views.py:21-32 | response and table are those of the booking rule; events untouched |
| SelectTickets.SeatToggled | ultra-frontend/src/screens/SelectTicketsScreen.tsx:95-104 | a selected seat is removed; a new seat is appended below 8 seats and ignored at 8 |
| SelectTickets.RemoveKeepsDistinct | ultra-frontend/src/screens/SelectTicketsScreen.tsx:98 | removal keeps the ids distinct |
| SelectTickets.ToggleKeepsValid | ultra-frontend/src/screens/SelectTicketsScreen.tsx:95-104 | one tap keeps at most 8 distinct seats |
| SelectTickets.AnyTapsKeepValid | ultra-frontend/src/screens/SelectTicketsScreen.tsx:95-104 | any tap sequence keeps at most 8 distinct seats |
| SelectTickets.TapsFromEmptyAreValid | ultra-frontend/src/screens/SelectTicketsScreen.tsx:95-104 | from the empty start every reachable selection is valid |
| SelectTickets.ToggleTwiceRestores | ultra-frontend/src/screens/SelectTicketsScreen.tsx:97-100 | selecting then deselecting a new seat restores the list |
| SelectTickets.FullSelectionIgnoresNewSeats | ultra-frontend/src/screens/SelectTicketsScreen.tsx:99-103 | at 8 seats, taps on unselected seats change nothing |
| SelectTickets.TotalPriceBounded | ultra-frontend/src/screens/SelectTicketsScreen.tsx:119 | the total is between 0 and 8 × 299 |
| SelectTickets.ContinueTo | ultra-frontend/src/screens/SelectTicketsScreen.tsx:106-117 | navigates exactly when a seat is selected, with one Lower Bowl line at 299 per seat |
| SelectTickets.ContinueMatchesTotal | ultra-frontend/src/screens/SelectTicketsScreen.tsx:106-119 | the forwarded lines sum to the displayed total |
| SelectTickets.SeatSelection.constructor | ultra-frontend/src/screens/SelectTicketsScreen.tsx:19 | no seats selected |
| SelectTickets.SeatSelection.HandleSeatSelect | ultra-frontend/src/screens/SelectTicketsScreen.tsx:95-104 | applies the toggle and keeps the selection valid |
| PurchaseTicket.FindTicketType | ultra-frontend/src/screens/PurchaseTicketScreen.tsx:51 | finds a type exactly when one has the id, and returns such a type |
| PurchaseTicket.PricesByType | ultra-frontend/src/screens/PurchaseTicketScreen.tsx:19-52 | general costs 99, vip 199 and premium 299 per ticket; the default purchase costs 99 |
| PurchaseTicket.UnknownTypeCostsNothing | ultra-frontend/src/screens/PurchaseTicketScreen.tsx:51-52 | an unknown type totals 0 |
| PurchaseTicket.ClampQuantity | ultra-frontend/src/screens/PurchaseTicketScreen.tsx:54-57 | the result is in 1..10, equal to quantity+change when that is in range, else the nearer bound |
| PurchaseTicket.QuantityStaysInRange | ultra-frontend/src/screens/PurchaseTicketScreen.tsx:54-57 | any sequence of changes keeps the quantity in 1..10 |
| PurchaseTicket.ButtonsDisabledExactlyAtNoOps | ultra-frontend/src/screens/PurchaseTicketScreen.tsx:142-154 | a button is disabled exactly when pressing it would change nothing; otherwise it moves by one |
| PurchaseTicket.TotalPriceBounded | ultra-frontend/src/screens/PurchaseTicketScreen.tsx:52 | the total is between 0 and 10 × 299 |
| Validation.IndexOf | ultra-frontend/src/screens/RegisterScreen.tsx:104-105 | finds the first occurrence of a character, or none exactly when absent |
| Validation.EmailTestImpliesPattern | ultra-frontend/src/screens/RegisterScreen.tsx:104-105 | the hand-written e-mail check implies the regex `^[^\s@]+@[^\s@]+\.[^\s@]+$` |
| Validation.PatternImpliesEmailTest | ultra-frontend/src/screens/RegisterScreen.tsx:104-105 | the e-mail regex implies the hand-written check |
| Validation.EmailRegexTestIffPattern | ultra-frontend/src/screens/ForgotPasswordScreen.tsx:96-99 | the check and the regex agree on every string |
| Validation.ClassAheadIffLookahead | ultra-frontend/src/screens/RegisterScreen.tsx:108 | the scan for a class before a line break is exactly the regex lookahead `(?=.*[x])` |
| Validation.PasswordTestFromIff | ultra-frontend/src/screens/RegisterScreen.tsx:108 | the unanchored search succeeds exactly when some position satisfies all three lookaheads |
| Validation.PasswordRegexTestIffPattern | ultra-frontend/src/screens/RegisterScreen.tsx:108 | the password check and the regex agree on every string |
| Validation.SingleLinePasswordPattern | ultra-frontend/src/screens/RegisterScreen.tsx:108 | on one line the regex holds exactly when a lower-case letter, an upper-case letter and a digit occur |
| Validation.PasswordClassesMustShareALine | ultra-frontend/src/screens/RegisterScreen.tsx:108 | "Password\n1" has all three classes yet fails the regex |
| RegisterWizard.FieldError | ultra-frontend/src/screens/RegisterScreen.tsx:97-117 | names fail below 2 characters; e-mail fails exactly off the pattern; short passwords report length first; confirmation fails exactly on a mismatch; unknown fields pass |
| RegisterWizard.PasswordRule | ultra-frontend/src/screens/RegisterScreen.tsx:106-111 | a single-line password of 8+ characters passes exactly with a lower-case letter, an upper-case letter and a digit |
| RegisterWizard.FieldChangedAsWritten | ultra-frontend/src/screens/RegisterScreen.tsx:119-131 | as written: the value, its error and its flag are updated; every other field keeps its error and flag |
| RegisterWizard.FieldChanged | ultra-frontend/src/screens/RegisterScreen.tsx:119-131 | corrected: as written, except a password change also re-checks a filled confirmation |
| RegisterWizard.NextStep | ultra-frontend/src/screens/RegisterScreen.tsx:148-160 | advances one step, capped at 3, only when the current step is valid; the form is untouched |
| RegisterWizard.FieldChangedKeepsFlags | ultra-frontend/src/screens/RegisterScreen.tsx:119-125 | a field is flagged validated exactly when its error is empty |
| RegisterWizard.FieldChangedKeepsConfirm | ultra-frontend/src/screens/RegisterScreen.tsx:112-125 | the corrected change keeps the confirmation error in step with the current password |
| RegisterWizard.ApplyKeepsInv | ultra-frontend/src/screens/RegisterScreen.tsx:119-167 | every screen action keeps the step in 1..3 and the flags and confirmation consistent |
| RegisterWizard.RunKeepsInv | ultra-frontend/src/screens/RegisterScreen.tsx:119-167 | any sequence of actions keeps that invariant |
| RegisterWizard.ReachableForms | ultra-frontend/src/screens/RegisterScreen.tsx:133-167 | from the initial form the step stays in 1..3, and a valid step 3 means the passwords agree |
| RegisterWizard.SamplePasswordAccepted | ultra-frontend/src/screens/RegisterScreen.tsx:106-111 | "Secret12" and "Secret34" pass the password rule |
| RegisterWizard.StaleConfirmationAsWritten | ultra-frontend/src/screens/RegisterScreen.tsx:119-146 | as written, changing the password after confirming leaves step 3 valid with mismatching passwords |
| RegisterWizard.RegisterPayload | ultra-frontend/src/screens/RegisterScreen.tsx:169-184 | a request is built exactly when step 3 is valid, with a trimmed lower-case e-mail and trimmed names |
| RegisterWizard.NormaliseEmailIdempotent | ultra-frontend/src/screens/RegisterScreen.tsx:179 | normalising the e-mail twice equals once |
| RegisterWizard.RegisterScreen.constructor | ultra-frontend/src/screens/RegisterScreen.tsx:39-55 | the initial form at step 1 |
| RegisterWizard.RegisterScreen.HandleFieldChange | ultra-frontend/src/screens/RegisterScreen.tsx:119-131 | applies the corrected field change |
| RegisterWizard.RegisterScreen.ToggleAcceptTerms | ultra-frontend/src/screens/RegisterScreen.tsx:511 | flips the terms flag |
| RegisterWizard.RegisterScreen.HandleNextStep | ultra-frontend/src/screens/RegisterScreen.tsx:148-160 | applies NextStep |
| RegisterWizard.RegisterScreen.HandlePrevStep | ultra-frontend/src/screens/RegisterScreen.tsx:162-167 | steps back, floored at 1 |
| RegisterWizard.RegisterScreen.HandleRegister | ultra-frontend/src/screens/RegisterScreen.tsx:169-184 | returns the payload, which exists only when step 3 is valid |
| RegisterForm.ValidateForm | ultra-frontend/src/screens/RegisterScreen.js:30-60 | no error means every check passes; a reported error is a failing check |
| RegisterForm.ValidateFormReportsFirstFailure | ultra-frontend/src/screens/RegisterScreen.js:30-60 | every check ranked before the reported one passes |
| RegisterForm.ValidateFormIff | ultra-frontend/src/screens/RegisterScreen.js:30-60 | valid exactly when trimmed names and e-mail are non-empty, the e-mail has '@' and '.', the password has 8+ characters and equals its confirmation |
| RegisterForm.ApplyEditKeepsNormalised | ultra-frontend/src/screens/RegisterScreen.js:111-185 | every edit keeps names trimmed and the e-mail trimmed and lower-case |
| RegisterForm.EditsKeepNormalised | ultra-frontend/src/screens/RegisterScreen.js:111-185 | any edit sequence keeps that |
| RegisterForm.BlankChecksOnNormalised | ultra-frontend/src/screens/RegisterScreen.js:31-42 | on normalised data the blank checks are plain emptiness checks |
| RegisterForm.TrimmedIsBlankOnlyWhenEmpty | ultra-frontend/src/screens/RegisterScreen.js:31-42 | a trimmed string trims to empty only when empty |
| RegisterForm.BlankChecksOnStoredValues | ultra-frontend/src/screens/RegisterScreen.js:31-42 | on any state the screen can reach, the blank checks are plain emptiness checks |
| RegisterForm.RegisterRequest | ultra-frontend/src/screens/RegisterScreen.js:62-67 | the API is called, with the form, exactly when validation passes |
| ForgotPassword.EmailError | ultra-frontend/src/screens/ForgotPasswordScreen.tsx:96-99 | no error exactly when the e-mail matches the pattern |
| ForgotPassword.EmailChanged | ultra-frontend/src/screens/ForgotPasswordScreen.tsx:101-110 | stores the value and its error; valid exactly when error-free and non-empty; sent and countdown untouched |
| ForgotPassword.EmailValidIffPattern | ultra-frontend/src/screens/ForgotPasswordScreen.tsx:101-105 | after a change, valid exactly when the value matches the pattern |
| ForgotPassword.RunKeepsResetInv | ultra-frontend/src/screens/ForgotPasswordScreen.tsx:87-160 | every action on the rendered controls keeps the countdown in 0..60, running only after a send, and a sent address valid and matching the pattern |
| ForgotPassword.CountdownInRange | ultra-frontend/src/screens/ForgotPasswordScreen.tsx:87-160 | from the initial state the countdown stays in 0..60 and runs only once sent, and an email is sent only to an address of the pattern |
| ForgotPassword.SentScreenKeepsAddress | ultra-frontend/src/screens/ForgotPasswordScreen.tsx:462 | once sent, the screen stays on the success message and the address no longer changes |
| ForgotPassword.TicksCountDown | ultra-frontend/src/screens/ForgotPasswordScreen.tsx:87-94 | n ticks lower the countdown by n, stopping at 0 |
| ForgotPassword.ResendAfterSixtySeconds | ultra-frontend/src/screens/ForgotPasswordScreen.tsx:112-160 | resending is a no-op for 59 ticks after sending, and after 60 it sends again |
| ForgotPassword.ForgotPasswordScreen.constructor | ultra-frontend/src/screens/ForgotPasswordScreen.tsx:36-43 | the initial state |
| ForgotPassword.ForgotPasswordScreen.HandleEmailChange | ultra-frontend/src/screens/ForgotPasswordScreen.tsx:101-110 | applies EmailChanged |
| ForgotPassword.ForgotPasswordScreen.HandleSendResetEmail | ultra-frontend/src/screens/ForgotPasswordScreen.tsx:112-153 | applies the send rule (no-op unless valid; sent with countdown 60) |
| ForgotPassword.ForgotPasswordScreen.HandleResendEmail | ultra-frontend/src/screens/ForgotPasswordScreen.tsx:155-160 | applies the resend rule |
| ForgotPassword.ForgotPasswordScreen.OnTimer | ultra-frontend/src/screens/ForgotPasswordScreen.tsx:87-94 | applies one tick |
| Onboarding.Finish | ultra-frontend/src/screens/OnboardingScreen.tsx:183-216 | sets the seen flag and replaces the screen with MainTabs, keeping the index |
| Onboarding.PressAllKeepsInv | ultra-frontend/src/screens/OnboardingScreen.tsx:101-216 | any gestures keep the index in 0..2, and leaving means the flag is set |
| Onboarding.IndexInRange | ultra-frontend/src/screens/OnboardingScreen.tsx:101-216 | from the start the index stays in 0..2, and MainTabs is reached only with the flag set |
| Onboarding.ThreeNextsFinish | ultra-frontend/src/screens/OnboardingScreen.tsx:101-141 | two nexts reach the last slide; a third leaves for MainTabs with the flag set |
| Onboarding.PreviousUndoesNext | ultra-frontend/src/screens/OnboardingScreen.tsx:101-181 | below the last slide, previous undoes next |
| Onboarding.OnboardingScreen.constructor | ultra-frontend/src/screens/OnboardingScreen.tsx:72 | index 0 with the stored flag |
| Onboarding.OnboardingScreen.NavigateToLogin | ultra-frontend/src/screens/OnboardingScreen.tsx:183-207 | applies Finish |
| Onboarding.OnboardingScreen.SkipOnboarding | ultra-frontend/src/screens/OnboardingScreen.tsx:209-216 | applies Finish |
| Onboarding.OnboardingScreen.NextSlide | ultra-frontend/src/screens/OnboardingScreen.tsx:101-141 | advances, or finishes at the last slide |
| Onboarding.OnboardingScreen.PreviousSlide | ultra-frontend/src/screens/OnboardingScreen.tsx:143-181 | steps back, a no-op at 0 |
| Onboarding.OnboardingScreen.CurrentSlide | ultra-frontend/src/screens/OnboardingScreen.tsx:218 | returns the slide at the index, whose id is index + 1 |
| Profile.OrEmpty | ultra-frontend/src/screens/ProfileScreen.js:218-221 | a missing value reads as '' |
| Profile.UserInitials | ultra-frontend/src/screens/ProfileScreen.js:110-115 | '??' without a user; otherwise one or two characters |
| Profile.UserInitialsCases | ultra-frontend/src/screens/ProfileScreen.js:110-115 | upper-cased first letters of first and last name; else the e-mail's; else '?'; never a lower-case letter |
| Profile.UserRole | ultra-frontend/src/screens/ProfileScreen.js:117-122 | Admin exactly for superusers, Staff exactly for non-superuser staff, User otherwise or without a user |
| Profile.EditsKeepEmail | ultra-frontend/src/screens/ProfileScreen.js:187-207 | the form's e-mail is never changed by editing |
| Profile.ProfileScreen.constructor | ultra-frontend/src/screens/ProfileScreen.js:19-26 | no user, not editing, empty form |
| Profile.ProfileScreen.ShowUser | ultra-frontend/src/screens/ProfileScreen.js:36-53 | stores the user and fills the form from it |
| Profile.ProfileScreen.ToggleEditing | ultra-frontend/src/screens/ProfileScreen.js:167 | flips edit mode and leaves the form alone |
| Profile.ProfileScreen.Edit | ultra-frontend/src/screens/ProfileScreen.js:187-197 | changes only the form |
| Profile.ProfileScreen.CancelEdit | ultra-frontend/src/screens/ProfileScreen.js:216-223 | leaves edit mode and resets the form to the user's values or '' |
| Profile.ProfileScreen.SaveSucceeded | ultra-frontend/src/screens/ProfileScreen.js:71-74 | stores the returned user and leaves edit mode |
| MyTickets.Recognise | ultra-frontend/src/screens/MyTicketsScreen.js:56-80 | recognises active, used and cancelled exactly by their lower-cased text |
| MyTickets.LookupsAgree | ultra-frontend/src/screens/MyTicketsScreen.js:56-80 | colour and icon fall to their defaults exactly for unrecognised statuses, and tell the recognised ones apart |
| MyTickets.ToLowerIdempotent | ultra-frontend/src/screens/MyTicketsScreen.js:57 | lower-casing twice equals once |
| MyTickets.CaseInsensitive | ultra-frontend/src/screens/MyTicketsScreen.js:56-80 | colour and icon ignore letter case |
| MyTickets.BackendStatuses | ultra-frontend/src/screens/MyTicketsScreen.js:56-80 | of the backend statuses, exactly pending and paid fall to the defaults |
| MyTickets.TicketsFromResponse | ultra-frontend/src/screens/MyTicketsScreen.js:31 | the response's results, or [] when missing |
| MyTickets.MyTicketsScreen.constructor | ultra-frontend/src/screens/MyTicketsScreen.js:18-22 | no tickets, loading, no modal |
| MyTickets.MyTicketsScreen.FetchSucceeded | ultra-frontend/src/screens/MyTicketsScreen.js:28-38 | stores the results and ends loading and refreshing |
| MyTickets.MyTicketsScreen.FetchFailed | ultra-frontend/src/screens/MyTicketsScreen.js:32-38 | keeps the tickets and ends loading and refreshing |
| MyTickets.MyTicketsScreen.OnRefresh | ultra-frontend/src/screens/MyTicketsScreen.js:41-44 | marks refreshing |
| MyTickets.MyTicketsScreen.ShowQRCode | ultra-frontend/src/screens/MyTicketsScreen.js:46-49 | selects the ticket and shows the modal |
| MyTickets.MyTicketsScreen.CloseQRModal | ultra-frontend/src/screens/MyTicketsScreen.js:51-54 | hides the modal and clears the selection |
| Theme.EffectiveTheme | ultra-frontend/src/theme/index.ts:313 | light and dark stand; auto follows the system scheme, or light without one |
| Theme.IsDarkIff | ultra-frontend/src/theme/index.ts:313-314 | dark exactly for the dark preference or auto on a dark system |
| Theme.Colors | ultra-frontend/src/theme/index.ts:317 | the dark palette exactly when dark |
| Theme.DarkShadowsOnlyDarken | ultra-frontend/src/theme/index.ts:324-330 | light mode keeps the shadows; dark mode raises only the opacity of sm to xl, increasingly, and keeps none |
| Theme.ParseHex | ultra-frontend/src/theme/index.ts:347-349 | parseInt base 16 fails exactly when the text does not start with a hex digit |
| Theme.Slice | ultra-frontend/src/theme/index.ts:347-349 | `slice` returns the in-range substring and never more than hi - lo characters |
| Theme.ParseHexByte | ultra-frontend/src/theme/index.ts:347-349 | two hex digits parse back to their byte |
| Theme.RgbaChannelsRoundTrip | ultra-frontend/src/theme/index.ts:346-351 | `#RRGGBB` reads back as the three channels |
| Theme.HexToRgbaOfHexColor | ultra-frontend/src/theme/index.ts:346-351 | a valid colour gives `rgba(r, g, b, alpha)` with its channels |
| Theme.RemoveFirstHash | ultra-frontend/src/theme/index.ts:355 | removes a leading '#' and leaves hash-free text alone |
| Theme.ContrastColor | ultra-frontend/src/theme/index.ts:353-361 | the answer is black or white, black exactly when all three channels parse and the luminance is above half |
| Theme.ContrastOfHexColor | ultra-frontend/src/theme/index.ts:353-361 | on `#RRGGBB` both helpers read the same channels; black exactly when 299r + 587g + 114b > 127500, or at #DA3AF8 where rounding lifts the luminance above half |
| Theme.ContrastMonotone | ultra-frontend/src/theme/index.ts:359-360 | lightening a colour never turns black text white |
| Theme.LuminanceMonotone | ultra-frontend/src/theme/index.ts:359-360 | the luminance test, rounding exception included, is monotone in every channel |
| Theme.ContrastOnLightBackground | ultra-frontend/src/theme/index.ts:353-361 | text on the light background is black |
| Theme.ContrastOnDarkBackground | ultra-frontend/src/theme/index.ts:353-361 | text on the dark background is white |
| Common.Trim | ultra-frontend/src/screens/RegisterScreen.js:111 | no longer than the input, with no whitespace at either end |
| Common.TrimIsSlice | ultra-frontend/src/screens/RegisterScreen.js:111 | trim is the slice between the leading and the trailing whitespace |
| Common.TrimmedIsFixed | ultra-frontend/src/screens/RegisterScreen.js:111 | text without surrounding whitespace trims to itself |
| Common.TrimIdempotent | ultra-frontend/src/screens/RegisterScreen.tsx:179-182 | trimming twice equals once |
| Common.TrimEmptyIffBlank | ultra-frontend/src/screens/RegisterScreen.js:31-42 | trim is empty exactly for all-whitespace text |
| Common.ToLower | ultra-frontend/src/screens/MyTicketsScreen.js:57 | same length, letterwise lower-case, no capitals left |
| Common.ToLowerFixed | ultra-frontend/src/screens/RegisterScreen.js:142 | text without capitals is unchanged |
| Common.TrimKeepsNoCapitals | ultra-frontend/src/screens/RegisterScreen.js:142 | trimming lower-case text keeps it lower-case |
| Common.ToUpper | ultra-frontend/src/screens/ProfileScreen.js:114 | same length, letterwise upper-case, no lower-case letters left |
| Common.FirstChar | ultra-frontend/src/screens/ProfileScreen.js:114 | `charAt(0)`: the first code point, or '' for empty text |
| Common.ContainsIffOccurs | ultra-frontend/src/services/api.ts:302 | pattern matching succeeds exactly when the pattern occurs at some position |
| Common.ContainsInfix | ultra-frontend/src/services/api.ts:302 | a key containing the pattern as a part matches it |
| Common.ContainsEmpty | ultra-frontend/src/services/api.ts:302 | the empty pattern matches every key |
| Common.NatToString | ultra-frontend/src/store/index.ts:345 | the decimal text is non-empty, all digits, without leading zero |
| Common.IntToString | ultra-frontend/src/services/api.ts:383 | the text is non-empty and begins with '-' exactly for negatives |
| Common.RemoveById | ultra-frontend/src/store/index.ts:243-245 | keeps exactly the items with other ids |
| Common.RemoveByIdConcat | ultra-frontend/src/store/index.ts:243-245 | filtering distributes over concatenation, so order is kept |
| Common.RemoveAbsentId | ultra-frontend/src/store/index.ts:360-362 | filtering out an absent id changes nothing |
| Common.RemoveByIdIdempotent | ultra-frontend/src/screens/SelectTicketsScreen.tsx:98 | filtering twice equals once |

## Left out

- Network and storage I/O are not modelled. This covers `fetch`, JSON parsing of responses, WebSocket construction, MMKV/AsyncStorage and Zustand `persist`. Their results are parameters: the fetch outcome per attempt, the token, socket events and the stored onboarding flag.
- The clock (`Date.now()`) is a parameter. `setTimeout`/`setInterval` are modelled as returned delays or as caller-invoked methods (`OnTimer`). Nothing sleeps.
- Concurrency is not modelled: two overlapping requests for one key, and overlapping `onerror`/`onclose` reconnects.
- ApiClient.EvictMatching: `clearCacheByPattern` builds a `RegExp` from the pattern. The model treats the pattern as a literal substring, which agrees on every pattern the app passes (`seats`, `events/<id>`), but not on patterns holding regex metacharacters.
- ApiClient.UltraAPIClient.Request: the `.json()` decoding failure and the `.catch(() => ({}))` fallback are folded into the fetch outcome parameter.
- Common.ToLower: JavaScript case mapping covers all of Unicode. The model maps ASCII letters only. That covers the ticket status codes; an e-mail the user types with non-ASCII letters is lower-cased differently by the source.
- Common.ToUpper: the model upper-cases ASCII letters only; JavaScript also maps letters such as 'é' to 'É' and may change the length ('ß' becomes "SS").
- Profile.UserInitials: because of the ASCII-only upper-casing, the one-to-two-character bound holds only for ASCII names; in the source a name starting with 'ß' yields a longer string.
- ApiClient.Json: JSON numbers are integers in the model. Fractional numbers, NaN and the infinities, with their `JSON.stringify` and `String` texts and their truthiness (NaN is falsy), are not modelled.
- RegisterWizard.FieldError: JavaScript `length` counts UTF-16 code units. The model counts characters, which agrees on the Basic Multilingual Plane.
- RegisterForm.ValidateForm: the password length check (`length < 8`) counts UTF-16 code units in JavaScript. The model counts characters, which agrees on the Basic Multilingual Plane; a password of four emoji is 8 units and passes in the source, but is refused as too short by the model.
- Common.FirstChar: `charAt(0)` returns one UTF-16 code unit, which for a first character outside the Basic Multilingual Plane is a lone high surrogate. The model returns the whole first character, so it agrees with the source only on the Basic Multilingual Plane, and Profile.UserInitialsCases inherits that restriction.
- Theme.ParseHex: the leading whitespace, sign and `0x` prefix that `parseInt` accepts are not modelled. Every caller slices two characters out of a `#RRGGBB` literal.
- Theme.ContrastColor: the double-precision luma test is restated in integers (`299r + 587g + 114b > 127500`) with one exception, (218, 58, 248) = #DA3AF8, whose weighted sum is exactly 127500 but whose rounded luminance is just above 0.5 (Theme.LuminanceAboveHalf). The restatement is exact for byte channels, which are all that two hex digits can give. Invalid hex, which yields NaN in the source, gives '#FFFFFF' in the model as it does there.
- Theme.HexToRgbaOfHexColor: the alpha value is passed through as text. Number formatting of the alpha is not modelled.
- Animations, haptics, styling, navigation and rendering are not modelled. This covers the carousel animation timing, the seat map's layout and every JSX tree.
- `generateSeatMap` in SelectTicketsScreen.tsx is not modelled: seat availability is random. So are the floating-point service fee and processing fee.
- `handlePurchase` in PurchaseTicketScreen.tsx is not modelled: it only shows an alert and navigates.
- The simulated two-second wait in `handleSendResetEmail` is not modelled. The send is treated as immediate.
- Loading spinners and the `isLoading` flags of the register screens are not modelled. The user store's `isLoading` is kept.
- ProfileScreen's loading path, its error alert and the save request itself are not modelled. The model keeps the resulting state changes (ShowUser, SaveSucceeded).
- `fetchEvents`, `fetchEventById`, `fetchUserTickets` and `bookTickets` in store/index.ts are not modelled: they are fetch bodies.
- `Event.can_be_scanned_by` and `Event.organizer` do not exist in models.py. They are inputs of the permission model, an uninterpreted decision and an optional organizer.
- The Django ORM, DRF generic views, serializers, JWT and pagination are library behaviour and are not modelled. Tables are sequences of records.
- The backend `events` app is not part of this model (view-set configuration only).
- RegisterScreen.tsx passes `(response.user, response.token)` to the store's `login`, which takes `(email, password)` and performs its own fetch. The model keeps the two separate, and the screen's request ends at the payload it builds.
- Password regex: JavaScript's `.` stops at line terminators, so all three character classes must occur on one line (Validation.PasswordClassesMustShareALine). The model keeps this behaviour as written.
- MyTickets: the backend statuses pending and paid get the default colour and icon (MyTickets.BackendStatuses). The model keeps this behaviour as written.
- RealTime: `disconnect` closes the socket, and the resulting close event still schedules a reconnect (RealTime.DisconnectDoesNotStopReconnect). The model keeps this behaviour as written.
- RealTime: the event-update eviction also removes the cache entries of other events whose ids begin with the same digits (RealTime.EventUpdateOverEvicts). The model keeps this behaviour as written.
- `addSeat` does not deduplicate, `mark_as_used` has no guard, and two notifications in the same millisecond share an id. The model keeps each as written.
- Stores.UserStore.Login: after a failed fetch, an undecodable body or a null body (reading `data.user` throws), `login` clears `isLoading` and then rethrows the error to its caller (store/index.ts:107-110). The model applies the state change only; no member signals the error.
- HTTP error responses are retried like network failures, because the `APIError` is thrown inside the retried closure. The model follows the code here.

## Findings

| source | as written | input that shows it | evidently intended | confidence | as-written member | corrected member |
|---|---|---|---|---|---|---|
| ultra-frontend/src/store/index.ts:91-110 | `login` never reads `response.ok`: any JSON body is taken as a successful login and sets `isAuthenticated: true` | a 401 response with body `{"detail": "Invalid credentials"}` leaves the store authenticated with no user and no token | a failed response leaves the store logged out, so `isAuthenticated` holds exactly when a user is stored | not executed | Stores.LoginResultAsWritten (shown by Stores.RejectedLoginAuthenticates) | Stores.LoginResult (with Stores.UserActionsKeepAuthConsistent) |
| ultra-frontend/src/screens/RegisterScreen.tsx:119-131 | `handleFieldChange` re-validates only the field that changed, so changing the password keeps a stale confirmation flag | password "Secret12", confirmation "Secret12", then password "Secret34": step 3 is valid and the passwords differ | step 3 is valid only when the confirmation matches the current password | not executed | RegisterWizard.FieldChangedAsWritten (shown by RegisterWizard.StaleConfirmationAsWritten) | RegisterWizard.FieldChanged (with RegisterWizard.ReachableForms) |
