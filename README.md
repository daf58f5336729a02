# TopDrive core, modelled in Dafny

TopDrive is a ride-hailing web application for one city (Ijebu-Ode). This
project models the parts of it that decide things.

- **Live event fan-out.**
  - Two server-sent-event channels: rides and driver locations. Each is a set
    of send callbacks, framed in the `text/event-stream` format of section 9.2
    of the WHATWG HTML Living Standard.
  - The stream routes that register and unregister those callbacks.
  - The lazily created WebSocket server and its broadcast to OPEN sockets.
- **The ride record and its six statuses.**
  - The browser-side ride store in local storage.
  - The driver's next-status machine.
  - The list filters of the driver, dashboard and request pages.
  - The three fare estimators.
- **The server routes.**
  - Bearer-token authentication and the role check.
  - Sign-up, with its validation order and a profile per role.
  - Idempotent seeding of the three test accounts.
  - Ride creation and the newest-50 listing.
  - The driver-location and driver-ping broadcasts.
  - The wallet's earnings fold and its withdraw decision.

## How the model is built

- **State the source updates in place is a Dafny class** with `modifies`
  clauses:
  - a channel's callback set: `EventBus.Bus`;
  - a subscriber's stream: `EventBus.Subscriber`;
  - the WebSocket singleton: `WsServer.Hub`;
  - the user table: `Database.Db`;
  - the ride table: `RidesRoute.RideTable`;
  - the local ride store: `RideStore.LocalRideStore`;
  - each page's component state.
- **Pure checks are functions with named results.** The lemmas relate them to
  an independent partner. For example, the stream framing is proved against an
  interpreter of the event-stream format: what a client reads back is exactly
  the events broadcast.
- **JavaScript semantics are written out:**
  - truthiness;
  - `??` and `||`;
  - string length in UTF-16 code units;
  - `String.prototype.trim`;
  - `Math.round`;
  - the left fold of `reduce`;
  - NaN comparisons.
- **Foreign calls are parameters.** This covers JWT sign and verify, bcrypt,
  id generation, clocks, `toLocaleString`, `JSON.parse` failures and the
  results of the client API calls. JSON values are a datatype with integer
  numbers.

## Model

| member | source | states |
|---|---|---|
| Rides.StatusNameRoundTrip | packages/shared/ride.ts:1-7 | each of the six statuses is read back from its wire name, so the names are distinct |
| Sse.FrameDecodes | apps/web/src/lib/rideStream.ts:12 | a frame `event: name`, `data: json`, blank line is read by an event-stream client as exactly one event with that type and data, and leaves the client in its initial state |
| Sse.ConnectedIsSilent | apps/web/src/app/api/rides/stream/route.ts:12 | the initial `: connected` comment dispatches no event and changes no client state |
| Sse.StreamDecodes | apps/web/src/lib/rideStream.ts:11-20 | the comment followed by the frames of a sequence of events reads back as exactly those events, in order |
| EventBus.Subscriber.Send | apps/web/src/app/api/rides/stream/route.ts:14-20 | a stream's callback appends the payload when the stream is open; an enqueue on a closed stream is swallowed; a raising callback throws |
| EventBus.Subscriber.Close | apps/web/src/app/api/rides/stream/route.ts:27-29 | closing marks the stream closed and enqueues nothing |
| EventBus.Bus.Add | apps/web/src/lib/rideStream.ts:3-5 | adding a callback already present changes nothing; otherwise it joins the set, which stays duplicate-free |
| EventBus.Bus.Remove | apps/web/src/lib/rideStream.ts:7-9 | removing deletes only that callback, and removing an absent one changes nothing |
| EventBus.Bus.Count | apps/web/src/lib/rideStream.ts:22-24 | the count is the number of distinct registered callbacks |
| EventBus.Bus.Broadcast | apps/web/src/lib/rideStream.ts:11-20 | every callback registered at the start gets the one framed payload exactly once if it accepts it; a raising callback stops no other; the set is unchanged and nothing escapes to the caller |
| EventBus.Channels.BroadcastEvent | apps/web/src/lib/rideStream.ts:11-20 | a ride-channel broadcast delivers to the ride subscribers and leaves every driver-channel subscriber untouched |
| EventBus.Channels.BroadcastDrivers | apps/web/src/lib/driversStream.ts:11-20 | a driver-channel broadcast delivers to the driver subscribers and leaves every ride-channel subscriber untouched |
| StreamRoutes.Open | apps/web/src/app/api/rides/stream/route.ts:10-22 | a new stream holds only `: connected` and its callback is appended to the channel |
| StreamRoutes.Abort | apps/web/src/app/api/rides/stream/route.ts:25-30 | on abort exactly that callback leaves the channel and the stream is closed with nothing more enqueued |
| StreamRoutes.GetRides | apps/web/src/app/api/rides/stream/route.ts:8-43 | the ride stream starts with the comment, is registered on the ride channel only, and is labelled `text/event-stream`, `no-cache, no-transform` |
| StreamRoutes.GetDrivers | apps/web/src/app/api/drivers/stream/route.ts:8-39 | the driver stream starts with the comment, is registered on the driver channel only, and carries the event-stream headers |
| StreamRoutes.AbortRides | apps/web/src/app/api/rides/stream/route.ts:25-30 | aborting a ride stream removes its callback from the ride channel and closes it |
| StreamRoutes.AbortDrivers | apps/web/src/app/api/drivers/stream/route.ts:21-26 | aborting a driver stream removes its callback from the driver channel and closes it |
| StreamRoutes.BroadcastAfterAbort | apps/web/src/app/api/rides/stream/route.ts:25-30 | after abort, a later ride broadcast appends nothing to that stream |
| StreamRoutes.StreamReadsEvents | apps/web/src/app/api/rides/stream/route.ts:12-22 | the chunks of a stream (comment, then frames) read back as the framed events |
| StreamRoutes.BroadcastReadsBack | apps/web/src/lib/rideStream.ts:12 | a broadcast appended to a stream reads back as one more event, named as broadcast, whose data is the JSON text |
| WsServer.FirstFailing | apps/web/src/lib/wsServer.ts:19-27 | the position of the first OPEN client whose send throws, or the client count when none does |
| WsServer.Server.Connect | apps/web/src/lib/wsServer.ts:10-14 | a new connection joins the clients and is sent one `{event:"connected"}` greeting, errors swallowed |
| WsServer.Hub.EnsureWSS | apps/web/src/lib/wsServer.ts:7-16 | the existing server is returned unchanged and nothing is created; only without one is a fresh server with no clients made the singleton |
| WsServer.Hub.OnConnection | apps/web/src/lib/wsServer.ts:10-14 | the connection handler adds the socket and greets it exactly once |
| WsServer.Hub.Count | apps/web/src/lib/wsServer.ts:30-32 | 0 before the server exists, otherwise the number of its clients |
| WsServer.Server.SendOpen | apps/web/src/lib/wsServer.ts:19-27 | each OPEN client before the first whose send throws gets the message once; every other client is unchanged and no state changes |
| WsServer.Hub.BroadcastWS | apps/web/src/lib/wsServer.ts:18-28 | creates the server when absent; sends the one serialised message to each OPEN client before the first one whose send throws, to no non-OPEN client, and to no client from the throwing one on; never throws |
| RideStore.FareForLength | apps/web/src/lib/rideStore.ts:46-50 | the fare is at least 1200, a multiple of 25, and either 1200 or 900 + 25 per character |
| RideStore.EstimateFare | apps/web/src/lib/rideStore.ts:46-50 | the fare of two inputs is at least 1200, a multiple of 25, and no less than 900 + 25 per UTF-16 unit |
| RideStore.FareFloor | apps/web/src/lib/rideStore.ts:46-50 | the fare is the 1200 floor exactly up to 12 characters and 900 + 25·length from 12 on |
| RideStore.FareMonotone | apps/web/src/lib/rideStore.ts:46-50 | more input never lowers the fare |
| RideStore.NewRide | apps/web/src/lib/rideStore.ts:55-67 | a new ride is REQUESTED in Ijebu-Ode, with created = updated = now, trimmed places, an estimate of the untrimmed input, the given offer and no driver |
| RideStore.NewRideEstimateUntrimmed | apps/web/src/lib/rideStore.ts:59-61 | since the estimate uses the untrimmed input, it is at least the estimate of the stored trimmed text |
| RideStore.Apply | apps/web/src/lib/rideStore.ts:81 | every field present in the patch is overwritten, every other field is kept, and the update time is refreshed |
| RideStore.UpdateList | apps/web/src/lib/rideStore.ts:79-82 | same length and order; rides with the target id get the patch, all others are unchanged |
| RideStore.SetStatusOverwrites | apps/web/src/lib/rideStore.ts:89-91 | a status change overwrites any status with any status (no transition check) and changes only the status and update time |
| RideStore.UpdateKeepsIds | apps/web/src/lib/rideStore.ts:79-82 | a patch without an id keeps every ride's id in place |
| RideStore.UpdateIdempotent | apps/web/src/lib/rideStore.ts:77-84 | applying the same patch twice at the same time equals applying it once |
| RideStore.LocalRideStore.LoadRides | apps/web/src/lib/rideStore.ts:10-21 | the stored array, and [] without a window, with nothing or an empty string stored, on a parse failure or for a non-array |
| RideStore.LocalRideStore.SaveRides | apps/web/src/lib/rideStore.ts:26-29 | what is saved is what the next load returns; without a window nothing changes |
| RideStore.LocalRideStore.CreateRide | apps/web/src/lib/rideStore.ts:55-72 | the new ride is put in front of the old list, whose order is kept |
| RideStore.LocalRideStore.UpdateRide | apps/web/src/lib/rideStore.ts:77-84 | the stored list becomes the id-targeted patch of the old one |
| RideStore.LocalRideStore.SetRideStatus | apps/web/src/lib/rideStore.ts:89-91 | the stored list becomes the old one with the status patch applied to the target id |
| DriverPage.NextStatusIsSuccessor | apps/web/src/app/driver/page.tsx:45-50 | the next status is exactly one lifecycle place forward, from ACCEPTED, ARRIVING or IN_PROGRESS only; null for REQUESTED, COMPLETED and CANCELLED |
| DriverPage.StepsToEnd | apps/web/src/app/driver/page.tsx:45-50 | at most 3 steps to null, and 0 exactly when there is no next status |
| DriverPage.ChainEnds | apps/web/src/app/driver/page.tsx:45-50 | iterating the next status ends in null within 3 steps and never yields REQUESTED or CANCELLED |
| DriverPage.StatusLabelInjective | apps/web/src/app/driver/page.tsx:16-24 | the six labels are distinct |
| DriverPage.RecentDone | apps/web/src/app/driver/page.tsx:134-137 | the first min(10, number of COMPLETED rides) completed rides, in input order: all COMPLETED and a subsequence of the rides |
| DriverPage.RequestedActiveDisjoint | apps/web/src/app/driver/page.tsx:126-133 | no ride is both in the requested and in the active list |
| DriverPage.StatusPartition | apps/web/src/app/driver/page.tsx:126-133 | requested, active, completed and cancelled rides add up to all rides |
| DriverPage.DriverPageState.Load | apps/web/src/app/driver/page.tsx:80-99 | without a token the list is emptied with the login error and nothing is fetched; otherwise the fetched array (non-array as []) or the error message |
| DriverPage.DriverPageState.OnAccept | apps/web/src/app/driver/page.tsx:139-162 | no token or no driver id: an error and no call; otherwise one accept call, then on success a reload (the fetched rides, or the reload's error) and navigation to the ride, or the error message |
| DriverPage.DriverPageState.OnAdvanceStatus | apps/web/src/app/driver/page.tsx:164-185 | no token: an error and no call; no next status: nothing changes; otherwise one status call with the next status, then a reload (the fetched rides, or the reload's error) or the error message |
| Dashboard.StatusLabel | apps/web/src/app/dashboard/page.tsx:7-9 | every `_` of the wire name becomes a space and nothing else changes |
| Dashboard.ActiveRide | apps/web/src/app/dashboard/page.tsx:42-48 | the first ride that is neither COMPLETED nor CANCELLED, absent exactly when all are |
| Dashboard.Recent | apps/web/src/app/dashboard/page.tsx:50 | the prefix of at most 12 rides |
| Dashboard.ActiveCounterIff | apps/web/src/app/dashboard/page.tsx:94 | the counter shows "1" iff some ride is under way, else "0" |
| Dashboard.DashboardState.Load | apps/web/src/app/dashboard/page.tsx:19-35 | an empty token shows the error and empties the rides without a fetch; otherwise one fetch, and an error with an empty or missing message shows the default text |
| RequestPage.JsRound | apps/web/src/app/request/page.tsx:48 | `Math.round` gives the integer within half a unit, halves upward |
| RequestPage.RouteLength | apps/web/src/app/request/page.tsx:47 | the trimmed lengths summed, with 0 replaced by 1 |
| RequestPage.RouteTotal | apps/web/src/app/request/page.tsx:46-49 | the unrounded fare lies in [818, 2000] |
| RequestPage.RoundTo25Nearest | apps/web/src/app/request/page.tsx:52 | the rounding is a multiple of 25 no further from the total than any other multiple of 25, and at most 12 away |
| RequestPage.EstimateBounds | apps/web/src/app/request/page.tsx:45-53 | the estimate is a multiple of 25 in [825, 2000], within 12 of the unrounded fare |
| RequestPage.Payload | apps/web/src/app/request/page.tsx:101-116 | a submission carries the trimmed places, the estimate of the inputs and city Ijebu-Ode |
| RequestPage.Recent | apps/web/src/app/request/page.tsx:95 | the prefix of min(10, number of rides) rides |
| RequestPage.RequestPageState.Load | apps/web/src/app/request/page.tsx:72-83 | one fetch; the array (non-array as []) or the error message |
| RequestPage.RequestPageState.OnSubmit | apps/web/src/app/request/page.tsx:97-131 | an empty trimmed field gives "Pickup and destination are required." and no call; otherwise one create call with the payload, then a cleared form, a reload and navigation, or the error |
| RequestPage.RequestPageState.Send | apps/web/src/app/request/page.tsx:109-130 | the create call, and on success the cleared form, toast, reload and navigation; on failure the error and the form kept |
| HomePage.FareForLength | apps/web/src/app/page.tsx:14-18 | at least 900, a multiple of 25; exactly 800 + 25·length from length 4 on and 900 below it |
| HomePage.EstimateFare | apps/web/src/app/page.tsx:14-18 | the fare of two inputs is at least 900 and a multiple of 25 |
| HomePage.Estimate | apps/web/src/app/page.tsx:25-28 | an estimate is shown iff both raw inputs are non-empty, and it is their fare |
| HomePage.RequestableHasEstimate | apps/web/src/app/page.tsx:25-30 | whenever a request may be made, the shown estimate is the fare it records |
| HomePage.HomeState.OnRequest | apps/web/src/app/page.tsx:70-84 | only when both trimmed inputs exceed 2 units is one REQUESTED entry with the raw inputs and their fare put in front of the list |
| Database.ParseRole | apps/web/src/lib/auth.ts:5 | exactly the three role names parse, each to the role of that name |
| Database.RoleNameRoundTrip | apps/web/src/lib/auth.ts:5 | a role is read back from its name |
| Database.FindByEmail | apps/web/src/app/api/auth/register/route.ts:24 | a found user is stored and has that email; none is found iff no row has it |
| Database.FindById | apps/web/src/lib/auth.ts:31-34 | a found user is stored and has that id; none is found iff no row has it |
| Database.FindByEmailAppend | apps/web/src/app/api/auth/register/route.ts:24-41 | an appended row changes no email lookup except that of its own unused email |
| Database.AppendFresh | apps/web/src/app/api/auth/register/route.ts:31-41 | a row with an unused id and email keeps both columns unique, is found by both, and changes no other lookup |
| Database.Db.Create | apps/web/src/app/api/auth/register/route.ts:31-41 | the insert succeeds iff id and email are unused, then appends the user with the requested profiles; otherwise nothing changes; uniqueness is kept |
| Auth.BearerToken | apps/web/src/lib/auth.ts:16-17 | the token is what follows `Bearer ` when the header starts with it, and empty otherwise |
| Auth.Subject | apps/web/src/lib/auth.ts:28-29 | the subject is present iff `sub` is a non-empty string |
| Auth.RequireAuth | apps/web/src/lib/auth.ts:15-38 | every refusal is the same UNAUTHORIZED; a failing user lookup propagates its own error |
| Auth.RequireAuthIff | apps/web/src/lib/auth.ts:15-38 | authenticated iff there is a bearer token, a secret, a verified payload, a non-empty string subject, a lookup that does not fail and a user with that id; the result is that user's id, role, email and name |
| Auth.NoBearerUnauthorized | apps/web/src/lib/auth.ts:16-18 | a header without the exact `Bearer ` prefix is UNAUTHORIZED whatever else holds |
| Auth.RequireRole | apps/web/src/lib/auth.ts:40-42 | allowed iff the role is listed, otherwise FORBIDDEN |
| Auth.EmptyRolesForbid | apps/web/src/lib/auth.ts:40-42 | an empty role list forbids everyone |
| Auth.SignAccessToken | apps/web/src/lib/auth.ts:10-13 | fails with "JWT_ACCESS_SECRET missing" iff the secret is empty, otherwise signs `{sub: userId}` |
| Auth.ReplyFor | apps/web/src/app/api/admin/metrics/route.ts:18-22 | 401 iff UNAUTHORIZED, 403 iff FORBIDDEN, 500 otherwise, with the message (or "ERROR") under `error` |
| Auth.RequireAdmin | apps/web/src/app/api/admin/metrics/route.ts:7-8 | passes only an authenticated ADMIN; otherwise UNAUTHORIZED, FORBIDDEN or the lookup's error |
| Auth.AdminGuardStatus | apps/web/src/app/api/admin/metrics/route.ts:6-22 | an unauthenticated request answers 401, a failed user lookup 500, and an authenticated non-admin 403 |
| Register.TrimmedField | apps/web/src/app/api/auth/register/route.ts:9-10 | missing or null is "", a string is trimmed, anything else throws |
| Register.OrDefault | apps/web/src/app/api/auth/register/route.ts:11-12 | `??`: the default for missing or null, the value otherwise |
| Register.Normalise | apps/web/src/app/api/auth/register/route.ts:9-12 | the name trimmed, the email trimmed and lower-cased, the password defaulting to "" and the role to "CLIENT" |
| Register.FormRole | apps/web/src/app/api/auth/register/route.ts:20 | a role is accepted iff it is one of the three names |
| Register.Check | apps/web/src/app/api/auth/register/route.ts:14-27 | each error in turn iff its condition holds and the earlier ones do not: missing email or password 400, short password 400, invalid role 400, taken email 409 |
| Register.UserJson | apps/web/src/app/api/auth/register/route.ts:40 | the answered user has id, email and role, and no passwordHash |
| Register.StoredName | apps/web/src/app/api/auth/register/route.ts:33 | an empty name is stored as null |
| Register.Attempt | apps/web/src/app/api/auth/register/route.ts:8-29 | a body that does not parse or cannot be normalised is a 500; a failed check is its reply; success carries the normalised fields, a fresh email and a password of at least 6 units |
| Register.Answer | apps/web/src/app/api/auth/register/route.ts:43-51 | 500 iff the secret is missing; otherwise 201 with the signed token and the user |
| Register.Post | apps/web/src/app/api/auth/register/route.ts:6-73 | a failed check stores nothing; success appends exactly the new user with a client profile iff CLIENT and a driver profile iff DRIVER, then answers |
| Register.Store | apps/web/src/app/api/auth/register/route.ts:29-51 | the insert and the answer; a taken id stores nothing and answers 500 |
| Register.RegisterTwiceTaken | apps/web/src/app/api/auth/register/route.ts:24-27 | after a sign-up, the same form is refused as taken (409) |
| Seed.AccountEmailsDistinct | apps/web/src/app/api/auth/seed/route.ts:6-25 | the three fixed accounts have distinct emails |
| Seed.AddedAccounts | apps/web/src/app/api/auth/seed/route.ts:31-69 | the users a run adds: one per account absent before the run, in order, none when all are present |
| Seed.Expected | apps/web/src/app/api/auth/seed/route.ts:37-68 | an account's entry has its email and is "skipped" iff the email was stored before |
| Seed.Entries | apps/web/src/app/api/auth/seed/route.ts:29-69 | the entries for the first n accounts are n, each the expected entry of its account |
| Seed.Run | apps/web/src/app/api/auth/seed/route.ts:29-69 | without failure: one entry per account in ADMIN, DRIVER, CLIENT order, exactly the absent accounts appended behind the untouched existing rows, and all three emails stored; the client and driver profile sets grow by the role-matched profiles of the created accounts only; a failure implies an absent account, with the cause named |
| Seed.Visit | apps/web/src/app/api/auth/seed/route.ts:33-68 | one loop pass: a stored email is skipped without change, otherwise the account is created; without failure the entry is the expected one and the table and both profile sets gain exactly what the accounts so far add |
| Seed.Create | apps/web/src/app/api/auth/seed/route.ts:46-67 | the account is inserted with a client profile iff it is the CLIENT account and a driver profile iff it is the DRIVER account, and its token signed; an insert refusal changes nothing and implies ids that were not fresh, a signing failure an empty secret |
| Seed.RunProfiles | apps/web/src/app/api/auth/seed/route.ts:54-55 | a run creates a client profile only for the CLIENT account and a driver profile only for the DRIVER account, each only when that account was absent; the ADMIN account gets neither |
| Seed.AllStored | apps/web/src/app/api/auth/seed/route.ts:33-58 | after a full run every account's email is stored |
| Seed.IdClash | apps/web/src/app/api/auth/seed/route.ts:48-58 | an insert refused for an absent email means the ids given were not fresh |
| Seed.RunTwice | apps/web/src/app/api/auth/seed/route.ts:37-44 | a second run stores nothing and reports all three accounts skipped |
| Seed.EntryJson | apps/web/src/app/api/auth/seed/route.ts:38-68 | an answered entry carries the account's email |
| Seed.Response | apps/web/src/app/api/auth/seed/route.ts:71-98 | 200 with the entries under `accounts` iff no failure, otherwise 500 "Server error" |
| Wallet.LocalTokenAgrees | apps/web/src/app/api/wallet/route.ts:6-7 | on a `Bearer `-prefixed header the route's token equals the shared check's |
| Wallet.LocalTokenWithoutPrefix | apps/web/src/app/api/wallet/route.ts:7 | a header without `Bearer ` anywhere is taken whole as the token |
| Wallet.WalletSecret | apps/web/src/app/api/wallet/route.ts:12 | a non-empty secret: the environment's when set, "secret" otherwise |
| Wallet.RequireAuth | apps/web/src/app/api/wallet/route.ts:5-18 | "Not authenticated" iff the token is empty, "Invalid token" iff verification fails, otherwise the payload's `sub` |
| Wallet.FindUser | apps/web/src/app/api/wallet/route.ts:24-29 | a found user is stored and has the subject as id; "User not found" for a string subject with no user |
| Wallet.Earning | apps/web/src/app/api/wallet/route.ts:37 | the offered price unless it is missing or 0, then the estimate |
| Wallet.ReduceIsSum | apps/web/src/app/api/wallet/route.ts:37 | the left fold from `acc` is `acc` plus the sum of the earnings |
| Wallet.EarningsAppend | apps/web/src/app/api/wallet/route.ts:32-37 | only the driver's COMPLETED rides count: any other row leaves the earnings unchanged, and one of them adds its earning |
| Wallet.EarningsNonNegative | apps/web/src/app/api/wallet/route.ts:32-37 | with no negative prices the balance is not negative |
| Wallet.CompletedAtMostTotal | apps/web/src/app/api/wallet/route.ts:40-48 | the driver's completed rides are no more than all the rides they drove |
| Wallet.Get | apps/web/src/app/api/wallet/route.ts:20-55 | 200 iff authenticated and the user is found, answering the earnings and counts with completed ≤ total; every failure is 500 "Server error" |
| Wallet.Amount | apps/web/src/app/api/wallet/route.ts:71 | a missing or null amount is 0 and a number is itself |
| Wallet.Withdraw | apps/web/src/app/api/wallet/route.ts:72-87 | "Invalid amount" iff the amount is ≤ 0, "Insufficient balance" iff it exceeds the balance, otherwise the new balance = balance − amount in [0, balance); a NaN amount passes both checks and leaves NaN |
| Wallet.Post | apps/web/src/app/api/wallet/route.ts:57-97 | always 200 or 400; errors carry their message; an action other than "withdraw" is "Invalid action"; a withdrawal answers the decision's new balance |
| Wallet.Withdrawn | apps/web/src/app/api/wallet/route.ts:84-89 | a successful withdrawal answers 200 with `success: true`, the message "₦<amount> withdrawn successfully", the new balance under `newBalance` and the transaction id "WTH-<now>" |
| Wallet.NonNumericAmountAccepted | apps/web/src/app/api/wallet/route.ts:71-87 | a string amount is accepted and the reported balance is NaN |
| DriverLocation.Payload | apps/web/src/app/api/drivers/location/route.ts:12-16 | 400 unless id is truthy and lat and lng are numbers; the payload carries id, lat, lng unchanged, `available` as a boolean and the time |
| DriverLocation.Report | apps/web/src/app/api/drivers/location/route.ts:16 | the payload object carries exactly the given id, lat, lng, availability and time under their keys |
| DriverLocation.MissingAvailableIsFalse | apps/web/src/app/api/drivers/location/route.ts:16 | a missing `available` is false |
| DriverLocation.Post | apps/web/src/app/api/drivers/location/route.ts:4-25 | a valid report is one `driver-location` frame to each accepting driver subscriber, nothing to ride subscribers, answered `{ok:true}`; an invalid one broadcasts nothing |
| DriverPing.Message | apps/web/src/app/api/drivers/ping/route.ts:16 | the message if truthy, else "A rider requested you" |
| DriverPing.EmptyMessageDefaults | apps/web/src/app/api/drivers/ping/route.ts:16 | a missing or empty message is the default |
| DriverPing.Ping | apps/web/src/app/api/drivers/ping/route.ts:11-16 | 400 unless driverId and rideId are truthy; the `driver-ping` message carries both and the message |
| DriverPing.Post | apps/web/src/app/api/drivers/ping/route.ts:4-22 | a valid ping is sent through the socket broadcast to OPEN clients, unfiltered by driver, answered `{ok:true}`; an invalid one sends nothing |
| RidesRoute.Insert | apps/web/src/app/api/rides/route.ts:5-8 | inserting adds exactly that ride, which lands in front or behind the old head |
| RidesRoute.InsertNewest | apps/web/src/app/api/rides/route.ts:6 | inserting into a newest-first list keeps it newest first |
| RidesRoute.SortNewest | apps/web/src/app/api/rides/route.ts:6 | newest first, and a permutation of the rides |
| RidesRoute.LatestIsNewest | apps/web/src/app/api/rides/route.ts:5-8 | at most 50 rides (all of them when there are fewer), newest first, all stored rides |
| RidesRoute.LatestLeavesOutOlder | apps/web/src/app/api/rides/route.ts:5-8 | a ride left out is no newer than the last listed, and is only left out when 50 are listed |
| RidesRoute.Record | apps/web/src/app/api/rides/route.ts:29-39 | a created ride is REQUESTED with the body's places and city, its estimate, the id and time given, and the offer only when it is a number |
| RidesRoute.ZeroEstimateRefused | apps/web/src/app/api/rides/route.ts:22-27 | an estimate of 0 fails the required-fields check |
| RidesRoute.UnparsableRefused | apps/web/src/app/api/rides/route.ts:14-27 | a body that does not parse is taken as `{}` and refused |
| RidesRoute.RideTable.Get | apps/web/src/app/api/rides/route.ts:4-11 | 200 with the newest 50 rides, in order |
| RidesRoute.RideTable.Post | apps/web/src/app/api/rides/route.ts:13-42 | 400 and nothing stored unless all four fields are truthy; otherwise the ride is appended and answered 201; a store rejection (wrong column type or a failing insert) or a null body is a 500 and stores nothing |

## Left out

- Network, HTTP and stream plumbing are not modelled: `ReadableStream`, `TextEncoder`, `NextResponse`, the `ws` library's sockets and port, and `server.js`. Streams are chunk logs, sockets are message logs, and replies are a status with a JSON value.
- JWT sign and verify, bcrypt, id generation, random UUIDs, `Date.now()` and `new Date().toISOString()` are parameters. Timestamps are integers (milliseconds), not ISO strings.
- Prisma queries are lookups on sequences. The unique constraints appear as `Database.Db.Create` failing. A failing query is a parameter in `Wallet` (`queryError`), `Seed` (`insertMessage`), `Auth.RequireAuth` (`queryError`) and `RidesRoute.RideTable.Post` (`insertFails`); the other Prisma calls (the register route's lookup, its insert beyond the unique constraints, and the rides listing) are modelled as never failing.
- RideStore.LocalRideStore.SaveRides: `localStorage.setItem` throwing (a full quota, for example) is not modelled; in the source that error propagates out of `createRide`, `updateRide` and `setRideStatus`, while here every write succeeds.
- Floating-point numbers (coordinates, fares, amounts) are integers. This is also why the request page's `Math.round(len * 18)` is the identity.
- Text.ToLowerAscii: `toLowerCase` lowers only ASCII letters here; Unicode case mapping is not modelled.
- Register.ShortPassword: an object password whose `length` member is a string or another object is treated as long enough, without JavaScript's string-to-number conversion.
- Wallet.Amount: string, array and object amounts are NaN here, while JavaScript would convert numeric strings such as "5" to numbers. Booleans are 0 and 1.
- RidesRoute.Estimate: a truthy estimate that is a string, array or object is refused by the store (500). JavaScript's `Number()` would convert a numeric string.
- RidesRoute.SortNewest: rides with equal creation times come out in one fixed order. The database's order among them is unspecified.
- The register route's cookie is not modelled: the cookie has no effect on the answer's status or body.
- Text formatting by `toLocaleString` (the wallet message) is a parameter. `formatMoney` is not modelled.
- The Next.js body of an uncaught exception is `Http.Unhandled`.
- The admin metrics route's counts are not modelled, only its guard and its status mapping. The other admin routes, login, `session.ts`, the `@/lib/api` client and `subscribeToRideChanges` are not part of this model.
- React rendering, effects, timers, toasts clearing and redirects are not modelled beyond setting `location`. The driver page's token and driver id are constructor parameters: the mount effect that reads them from local storage is left out.
- Callbacks that re-enter a bus during a broadcast are not modelled. Each subscriber is modelled as its own stream.
