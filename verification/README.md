# Telehealth consultation calls: a Dafny model

This project models the logic of a telehealth video-consultation client and its small
backend, built on a room-based media platform (LiveKit). The centre is the access-token
issuance path. `POST /api/token` checks that `userId`, `role` and `consultationId` are present.
It derives the room name `consultation-<consultationId>` and the participant identity
`<role>:<userId>`. It then builds an access token carrying that identity, the metadata
`{"role": ...}`, a 30-minute lifetime and a join/publish/subscribe grant for the one room.
Finally it maps the signer's success or failure to a 200 or 500 response; a missing field gets a 400.

Around it, the model covers the discrete logic of the user interface and of the recording routes:

- the call overlay's `H:MM:SS` / `M:SS` duration text, its network-quality badge, its participant count and its two state fields;
- the incoming-call card's thirty-second countdown, which declines the call when it runs out, and its call-type label and icon;
- the specialist dashboard's call queue, pre-join dialog and active call (a class);
- the recording start and stop routes' validation, egress request and response mapping.

Files, one module each:

| file | module | source |
|---|---|---|
| `optional.dfy` | `Optional` | optional body fields and JavaScript truthiness (`!x`, `x \|\| y`) |
| `text.dfy` | `Text` | `Number.prototype.toString` and `padStart`, with a reader that inverts them |
| `json.dfy` | `Json` | `JSON.stringify` of a string (ECMA-262 QuoteJSONString) and its inverse |
| `livekit.dfy` | `LiveKit` | `server/livekit.js` |
| `token_route.dfy` | `TokenRoute` | `server/routes/token.js` |
| `call_metrics.dfy` | `CallMetrics` | `features/call/components/CallMetrics.tsx` |
| `incoming_call.dfy` | `IncomingCall` | `features/call/components/IncomingCallNotification.tsx` |
| `dashboard.dfy` | `Dashboard` | `app/specialist/dashboard/page.tsx` |
| `recording_start.dfy` | `RecordingStart` | `app/api/recording/start/route.ts` |
| `recording_stop.dfy` | `RecordingStop` | `app/api/recording/stop/route.ts` |

Outside influences are parameters:

- Signing (`AccessToken` plus `toJwt`) is a function `LiveKit.Signer` from the unsigned token to `Signed(jwt)` or `SignFailed(reason)`.
- The environment (`LIVEKIT_URL`, the key pair) is a configuration value.
- The token fetch made when the specialist joins is a `FetchOutcome`.
- The egress service's answer is an `Upstream` value.
- `Date.now()` is a natural number.
- Interval timers are explicit `Tick` calls.

A handler that the source awaits is a function that returns the response and records what it
sent out: `signerInput` for the token route, `egressCall` for the recording start.
So "the signer is never reached" and "no upstream call is made" are statements about that record.

The code does not limit `role` to `doctor` and `patient`. The design intent is that it should, but the model follows the code:
any non-empty role is accepted, and every role gets the same maximal grant (`AnyRoleAccepted`, `GrantIgnoresRole`).
Identities stay unambiguous only for roles without `':'`. `IdentityInjective` proves this and
`IdentityAmbiguousWithColonRole` exhibits the clash. Both roles the clients send are colon-free (`ClientRolesHaveNoColon`).
The recording routes answer an unreadable request body with 500 "Internal server error"; the model keeps that status rather than a 400.

## Model

| member | source | states |
|---|---|---|
| `Optional.OrElse` | app/specialist/dashboard/page.tsx:67 | `a \|\| b` on strings: the field when it is present and non-empty, else the fallback; a non-empty fallback gives a non-empty result |
| `Optional.Truthy` | server/routes/token.js:9 | JavaScript truthiness of a string field: absent and empty are falsy. It has no contract of its own; `TokenRoute.HandleTokenRequest`, `RecordingStart.StartRecording` and `RecordingStop.StopRecording` state the guards built from it |
| `Text.Decimal` | features/call/components/CallMetrics.tsx:53-55 | `toString` of a non-negative integer is a non-empty digit string without a leading zero; one digit exactly below 10, at most two below 100 |
| `Text.DecimalRoundTrip` | features/call/components/CallMetrics.tsx:53-55 | reading the numeral back gives the number |
| `Text.DecimalInjective` | features/call/components/CallMetrics.tsx:53-55 | distinct numbers have distinct numerals |
| `Text.PadStart` | features/call/components/CallMetrics.tsx:53-55 | `padStart(width, fill)` keeps the string as a suffix, fills only in front, and reaches the width when the string is shorter |
| `Text.TwoDigitsValue` | features/call/components/CallMetrics.tsx:53-55 | below 100, `toString().padStart(2, "0")` is exactly two digits that read back to the number |
| `Text.TwoDigits` | features/call/components/CallMetrics.tsx:53-55 | `x.toString().padStart(2, "0")`; its meaning is stated by `Text.TwoDigitsValue` |
| `Json.EscapeChar` | server/livekit.js:10 | each character is written as itself or as an escape starting with a backslash, at most six characters long |
| `Json.Escape` | server/livekit.js:10 | a quote character in the escaped string body always follows a backslash |
| `Json.Quote` | server/livekit.js:10 | `JSON.stringify` of a string is delimited by double quotes |
| `Json.UnescapeEscape` | server/livekit.js:10 | reading back the escaped body gives the original string |
| `Json.EscapeInjective` | server/livekit.js:10 | distinct strings are serialised differently |
| `LiveKit.RoleMetadata` | server/livekit.js:10 | the metadata has the shape `{"role":"…"}` |
| `LiveKit.MetadataCarriesRole` | server/livekit.js:10 | reading the metadata back yields exactly the role, and nothing else is in it |
| `LiveKit.BuildAccessToken` | server/livekit.js:5-20 | the token keeps the key pair and has identity = the identity argument. Its metadata reads back to the role, its ttl is 1800 s, and its grant is for the room argument with join, publish and subscribe all true |
| `LiveKit.GrantIgnoresRole` | server/livekit.js:15-20 | the grant is the same for every role; different roles still produce different tokens, through the metadata |
| `LiveKit.GenerateLiveKitToken` | server/livekit.js:3-34 | the result is the signer's outcome for the built token: the JWT on success, and the same failure, rethrown, on error |
| `TokenRoute.RoomName` | server/routes/token.js:14 | the room name is `consultation-` followed by exactly the consultation id |
| `TokenRoute.Identity` | server/routes/token.js:15 | the identity is the role, one `':'`, then the user id |
| `TokenRoute.HasAllParameters` | server/routes/token.js:9 | the guard `!userId \|\| !role \|\| !consultationId` fails; `TokenRoute.HandleTokenRequest` states that it decides between 400 and the signer, and `TokenRoute.AnyRoleAccepted` that any non-empty role passes |
| `TokenRoute.HandleTokenRequest` | server/routes/token.js:6-28 | a missing or empty field gives 400 "Missing parameters" and the signer is not consulted. Otherwise the signer gets the token for `consultation-<id>` and `<role>:<userId>`. The status is 200 exactly when the fields are valid and signing succeeds, and then the body is `{token, roomName, livekitUrl}`. A signing failure gives 500 "Failed to generate token" |
| `TokenRoute.OnlySuccessCarriesToken` | server/routes/token.js:17-27 | a response carries a token exactly when its status is 200 |
| `TokenRoute.RejectionIgnoresSigner` | server/routes/token.js:9-17 | on the 400 path the outcome is the same whatever the signer would do, and no token is handed to it |
| `TokenRoute.AnyRoleAccepted` | server/routes/token.js:9 | any non-empty role, not only doctor or patient, passes validation |
| `TokenRoute.RoomNameDeterminedByConsultation` | server/routes/token.js:14 | two room names are equal exactly when the consultation ids are equal |
| `TokenRoute.SameConsultationSameRoom` | server/routes/token.js:14-17 | valid requests with the same consultation id get grants for the same room, whatever their user, role, configuration or signer |
| `TokenRoute.IdentityDistinguishesUsers` | server/routes/token.js:15 | the same role with different user ids gives different identities |
| `TokenRoute.IdentityDistinguishesRoles` | server/routes/token.js:15 | the same user id under different roles gives different identities |
| `TokenRoute.IdentityInjective` | server/routes/token.js:15 | when neither role contains `':'`, equal identities mean equal roles and equal user ids |
| `TokenRoute.IdentityAmbiguousWithColonRole` | server/routes/token.js:15 | role `a:b` with user `c` and role `a` with user `b:c` give the same identity |
| `TokenRoute.ClientRolesHaveNoColon` | app/specialist/dashboard/page.tsx:68 | the roles the clients send, `doctor` and `patient`, contain no `':'` |
| `TokenRoute.IssuedIdentity` | server/routes/token.js:15-17 | the token's subject is `role + ":" + userId` and its metadata reads back to the role |
| `TokenRoute.ExampleValidRequest` | server/routes/token.js:14-21 | `{u1, doctor, abc456}` with a succeeding signer returns room `consultation-abc456` |
| `TokenRoute.ExampleEmptyUserId` | server/routes/token.js:9-11 | an empty `userId` is rejected with 400 "Missing parameters" |
| `CallMetrics.SplitDuration` | features/call/components/CallMetrics.tsx:48-50 | minutes and seconds are below 60, and `hrs*3600 + mins*60 + secs` is the input |
| `CallMetrics.FormatDuration` | features/call/components/CallMetrics.tsx:47-56 | `formatDuration` itself; its meaning is stated by `CallMetrics.FormatDurationRoundTrip` (exact `H:MM:SS` / `M:SS` text) and `CallMetrics.FormatDurationInjective` |
| `CallMetrics.FormatDurationFields` | features/call/components/CallMetrics.tsx:47-56 | the text reads back to the split's fields, with an hours field exactly when the hours are non-zero |
| `CallMetrics.FormatDurationRoundTrip` | features/call/components/CallMetrics.tsx:47-56 | the text reads back as an unpadded leading field, then two-digit fields, to the same total. Minutes and seconds are below 60, and an hours field appears exactly from 3600 s on and is then positive |
| `CallMetrics.FormatDurationInjective` | features/call/components/CallMetrics.tsx:47-56 | different durations never show the same text |
| `CallMetrics.NetworkQuality` | features/call/components/CallMetrics.tsx:59-97 | the WifiOff icon appears exactly for Lost. The colour is green exactly for Excellent or Good, yellow exactly for Poor, red exactly for Lost and slate exactly for the default (Unknown) |
| `CallMetrics.NetworkLabelNamesQuality` | features/call/components/CallMetrics.tsx:59-97 | each label names its quality one to one: Excellent, Good, Poor, Lost, Unknown |
| `CallMetrics.NetworkQualityOf` | features/call/components/CallMetrics.tsx:60-96 | the switch: a bare quality value gets the badge naming it, and any object takes the default arm, "Unknown" |
| `CallMetrics.NetworkQualityAsWritten` | features/call/components/CallMetrics.tsx:17-19 | the switch applied to the hook's whole return value; its meaning is stated by `CallMetrics.AsWrittenBadgeIgnoresQuality` |
| `CallMetrics.AsWrittenBadgeIgnoresQuality` | features/call/components/CallMetrics.tsx:17-19 | as written, the badge is "Unknown" in slate for every indicator |
| `CallMetrics.AsWrittenMisreportsExcellent` | features/call/components/CallMetrics.tsx:17-19 | as written, an excellent connection is not labelled "Excellent" |
| `CallMetrics.NetworkBadge` | features/call/components/CallMetrics.tsx:59-97 | the intended badge: its label names the indicator's quality, WifiOff exactly for Lost, green exactly for Excellent or Good |
| `CallMetrics.TotalParticipants` | features/call/components/CallMetrics.tsx:100 | the count is the number of remote participants plus one, so it is at least 1 |
| `CallMetrics.MetricsState.constructor` | features/call/components/CallMetrics.tsx:21-22 | the duration starts at 0, and recording starts false with no events |
| `CallMetrics.MetricsState.Tick` | features/call/components/CallMetrics.tsx:26-28 | each tick adds exactly 1 to the duration and changes nothing else |
| `CallMetrics.MetricsState.OnRecordingStatusChanged` | features/call/components/CallMetrics.tsx:35-37 | the flag becomes the event's value, so the invariant "flag = latest event" is kept; the duration is unchanged |
| `CallMetrics.MetricsState.DurationText` | features/call/components/CallMetrics.tsx:118 | the rendered text reads back to the current duration |
| `IncomingCall.CallTypeLabel` | features/call/components/IncomingCallNotification.tsx:53-62 | every call type has a label ending in " Call" |
| `IncomingCall.CallTypeLabelNamesType` | features/call/components/IncomingCallNotification.tsx:53-62 | the labels are exactly video → "Video Call", audio → "Audio Call", pstn → "Phone Call", one to one |
| `IncomingCall.CallIconOf` | features/call/components/IncomingCallNotification.tsx:42-51 | video → Video icon, audio → Mic, pstn → Phone, each exactly |
| `IncomingCall.CountdownStep` | features/call/components/IncomingCallNotification.tsx:30-36 | the updater calls decline exactly when `prev <= 1`, and then returns 0; otherwise it returns `prev - 1`, which is at least 1 |
| `IncomingCall.TimeLeftAfterTicks` | features/call/components/IncomingCallNotification.tsx:26-36 | after n ticks from 30 the time left is `30 - n` below thirty ticks and 0 afterwards |
| `IncomingCall.TimeLeftBounded` | features/call/components/IncomingCallNotification.tsx:26-36 | the time left stays between 0 and 30 and never increases |
| `IncomingCall.DeclinesFromThirtiethTick` | features/call/components/IncomingCallNotification.tsx:29-37 | tick k calls decline exactly when k >= 30: the first decline is on the 30th tick, and every later tick declines again |
| `IncomingCall.DeclineCountAfter` | features/call/components/IncomingCallNotification.tsx:29-37 | after n ticks decline has been called `n - 29` times from thirty ticks on, and never before |
| `IncomingCall.Countdown.constructor` | features/call/components/IncomingCallNotification.tsx:26 | the countdown starts at 30 with no decline calls |
| `IncomingCall.Countdown.Tick` | features/call/components/IncomingCallNotification.tsx:29-37 | a tick declines exactly when the old value is at most 1 (the 30th tick on), and then sets 0 and counts one decline call. Otherwise it subtracts 1 without declining. The value stays in 0..30, never rises, and stays equal to the run of the updater |
| `Dashboard.CountWithId` | app/specialist/dashboard/page.tsx:50-54 | the number of queued entries with an id is 0 exactly when none has it |
| `Dashboard.MockCall` | app/specialist/dashboard/page.tsx:33-40 | the simulated call `call-123` for patient `patient-456` (John Doe), a video call with reason "Follow-up consultation"; `Dashboard.SpecialistDashboard.ReceiveMockCall` states where it goes |
| `Dashboard.WithoutId` | app/specialist/dashboard/page.tsx:50-54 | the filter drops every entry with the id and keeps every other entry with its multiplicity and in its original order. The queue shrinks by exactly the number of matching entries |
| `Dashboard.WithoutAbsentId` | app/specialist/dashboard/page.tsx:54 | removing an id that is not queued leaves the queue unchanged |
| `Dashboard.WithoutIdIdempotent` | app/specialist/dashboard/page.tsx:54 | declining the same id twice equals declining it once |
| `Dashboard.WithoutIdCommutes` | app/specialist/dashboard/page.tsx:50-54 | removals of two ids can happen in either order |
| `Dashboard.JoinRequest` | app/specialist/dashboard/page.tsx:66-70 | the join request has `userId` = the username when non-empty, else "specialist-001". Its role is "doctor" and its consultation id is the pending call's id |
| `Dashboard.JoinRequestValidity` | app/specialist/dashboard/page.tsx:66-70 | the join request passes the token route's check exactly when the call id is non-empty |
| `Dashboard.JoinLandsInCallRoom` | app/specialist/dashboard/page.tsx:66-70 | a join is granted room `consultation-<call id>` under identity `doctor:<userId>` |
| `Dashboard.SpecialistDashboard.constructor` | app/specialist/dashboard/page.tsx:20-27 | the queue starts empty, with no active or pending call and the dialog hidden |
| `Dashboard.SpecialistDashboard.QueueCount` | app/specialist/dashboard/page.tsx:200 | the number on the Queue card; `Dashboard.SpecialistDashboard.View` states that the lobby shows it, and `ReceiveMockCall`, `AcceptCall` and `DeclineCall` state how each changes it |
| `Dashboard.SpecialistDashboard.View` | app/specialist/dashboard/page.tsx:93-102 | the call view shows exactly when there is an active call. Otherwise the lobby shows queue count = queue length, one notification per queued call in order, and the pre-join dialog exactly when it is flagged and a call is pending |
| `Dashboard.SpecialistDashboard.ReceiveMockCall` | app/specialist/dashboard/page.tsx:33-41 | the simulated call is appended at the end; the count grows by one and nothing else changes |
| `Dashboard.SpecialistDashboard.AcceptCall` | app/specialist/dashboard/page.tsx:47-51 | accept makes the call pending, shows the dialog and removes every entry with its id; the active call is unchanged |
| `Dashboard.SpecialistDashboard.DeclineCall` | app/specialist/dashboard/page.tsx:53-56 | decline removes every entry with the id, keeps the rest in order, and changes nothing else |
| `Dashboard.SpecialistDashboard.JoinCall` | app/specialist/dashboard/page.tsx:58-86 | with no pending call nothing changes and nothing is sent. A read reply sets the active call from its token (HTTP status unchecked) and the call's id and type, hides the dialog and clears the pending call. A throw changes nothing. The queue is never touched, and dialog shown = call pending is kept |
| `Dashboard.SpecialistDashboard.CancelPreJoin` | app/specialist/dashboard/page.tsx:268-271 | cancel hides the dialog and clears the pending call, and nothing else |
| `Dashboard.SpecialistDashboard.LeaveCall` | app/specialist/dashboard/page.tsx:88-90 | leave clears the active call and touches nothing else |
| `RecordingStart.EgressToken` | app/api/recording/start/route.ts:62-69 | the egress bearer credential is always empty |
| `RecordingStart.RecordingPath` | app/api/recording/start/route.ts:31 | `recordings/<room>-<Date.now()>.mp4`; its meaning is stated by `RecordingStart.RecordingPathRoundTrip` and `RecordingStart.RecordingPathInjective` |
| `RecordingStart.RecordingPathRoundTrip` | app/api/recording/start/route.ts:31 | the path `recordings/<room>-<ms>.mp4` reads back to its room name and timestamp, even when the room name holds `-` |
| `RecordingStart.RecordingPathInjective` | app/api/recording/start/route.ts:31 | different rooms or timestamps never share a recording file |
| `RecordingStart.BuildEgressCall` | app/api/recording/start/route.ts:16-33 | the request posts to `(LIVEKIT_URL or http://localhost:7880)/twirp/livekit.Egress/StartRoomCompositeEgress` with `Bearer ` and an empty token. Its body is `room_name` = the room, layout `grid`, not audio-only, not video-only, and a file path that reads back to room and time |
| `RecordingStart.StartRecording` | app/api/recording/start/route.ts:3-60 | an unreadable body, or a JSON `null`, gives 500 "Internal server error". A missing or empty room gives 400 "Room name is required" with no upstream call. Otherwise the egress request is sent. A non-ok answer whose body can be read gives 500 "Failed to start recording". A throw, including a non-ok answer whose body cannot be read, gives 500 "Internal server error". 200 `{success, egressId, message}` comes exactly from an ok answer with a readable JSON reply |
| `RecordingStart.UnreadableErrorAnswerIsInternal` | app/api/recording/start/route.ts:37-58 | a non-ok answer whose body cannot be read as text ends in the catch-all 500 "Internal server error" |
| `RecordingStart.RejectionMakesNoUpstreamCall` | app/api/recording/start/route.ts:5-12 | a rejected request makes no upstream call, and its response does not depend on the clock or the upstream |
| `RecordingStart.StatusCodes` | app/api/recording/start/route.ts:3-60 | every status is 200, 400 or 500, and success is reported exactly on 200 |
| `RecordingStop.StopRecording` | app/api/recording/stop/route.ts:3-41 | an unreadable body gives 500 "Internal server error". A body naming neither egress nor room gives 400 "Egress ID or room name is required". Every other body gives 200 "Recording stopped successfully" |
| `RecordingStop.NamesTarget` | app/api/recording/stop/route.ts:7 | the guard `!egressId && !roomName` fails; `RecordingStop.SuccessIffNamed` states that it decides between 200 and 400 |
| `RecordingStop.EitherIdentifierSuffices` | app/api/recording/stop/route.ts:7-33 | a room name alone or an egress id alone is accepted, with the same response |
| `RecordingStop.SuccessIffNamed` | app/api/recording/stop/route.ts:7-33 | a request succeeds exactly when it is readable and names a target, and gets 400 exactly when it is readable and names none |

## Findings

| source | as written | input that shows it | evidently intended | confidence | as-written member | corrected member |
|---|---|---|---|---|---|---|
| features/call/components/CallMetrics.tsx:17-60 | `getNetworkQuality` switches on the whole return value of `useConnectionQualityIndicator`, which in @livekit/components-react is the object `{ className, quality }`; no `case` can equal an object | an indicator whose `quality` is `Excellent` gives the badge "Unknown" in slate | switch on `connectionQuality.quality` | medium, not executed; rests on the hook's return shape, which comes from the SDK and is not part of this model | `CallMetrics.AsWrittenBadgeIgnoresQuality` | `CallMetrics.NetworkBadge` |

## Left out

- JWT signing and verification: `toJwt`, the `AccessToken` constructor's key checks and the platform's enforcement of the 1800 s expiry are the media library's. The signer is a parameter.
- Express and Next.js wiring (`server/server.js`, CORS, JSON middleware, `/health`) and the client fetch helpers (`features/call/service.ts`, `useConsultationToken.ts`, `livekitview.tsx`) are not part of this model.
- Body fields that are JSON values other than strings (numbers, booleans) are not modelled. JavaScript would coerce a truthy non-string into the template strings; here a field is an optional string.
- `CallMetrics.NetworkQuality` takes a quality value. The shape of what `useConnectionQualityIndicator` returns belongs to the SDK and is not part of this model; the Findings row above takes it to be `{ className, quality }`, and `CallMetrics.NetworkQualityOf` covers both readings.
- Logging (`console.log`, `console.error`) and toasts are left out: they do not affect state or responses.
- React scheduling is not modelled: every handler runs atomically. So a stale `pendingCall` in the asynchronous join handler (for example a cancel while the token fetch is in flight) is not captured, and neither is the double run of updaters in development mode.
- The simulated-call timer fires once, three seconds after mount. The model's `ReceiveMockCall` is one such arrival, and the model does not bound how often it happens.
- The per-card countdowns on the dashboard, each calling decline for its own call id, are modelled separately (`IncomingCall.Countdown` counts decline calls; `DeclineCall` removes the entries).
- The progress-bar width `(timeLeft / 30) * 100` is a floating-point percentage and is not modelled.
- JSX markup, class names and the remaining presentational components (loading, error and pre-join screens, call view, controls, device selector, event notifications, recording controls) are rendering or SDK delegation, not behaviour.
- Lone surrogates: JavaScript strings are UTF-16 and `JSON.stringify` escapes lone surrogates. Dafny characters are Unicode scalar values, so lone surrogates cannot occur in this model.
