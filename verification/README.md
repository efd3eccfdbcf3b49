# LIFX race-flag lights: a Dafny model

This project models the part of the race-control dashboard that drives LIFX
smart lights. It covers four pieces:

- **`LIFXService`** (`src/services/lifx.ts`). It holds the API credential and a retry counter that every request shares. It retries transient failures with exponential pauses and turns transport errors into five fixed messages. A connection monitor fires every minute. Its reconnect loop calls `disconnect` after five counted attempts but, as written, keeps looping (see Findings). The four flag effects are built from `setState` and pulse requests.
- **The `useLIFX` hook** (`src/hooks/useLIFX.ts`). It holds the session state a component sees: devices, loading, error text, connection flag and the set of selected lights. Its operations are `fetchDevices`, `initialize`, `toggleDevice`, `setFlag` and `disconnect`.
- **The test panel's flag buttons** (`src/components/TestApiControls.tsx`). They map feed flag names to light flags and publish a test message before setting the flag.
- **The race control panel's handlers** (`src/components/RaceControl.tsx`). These are connect, disconnect and manual flag clicks. Auto mode locks the manual clicks, and the connect window opens five minutes before the session.

The network is a script of answers. Each request takes the next answer, which is either a reply (carrying the device list) or a rejection (an Axios error with an optional HTTP status and an error code, or some other thrown value). Once the script is used up, every request succeeds. Everything the client does is recorded in order as a trace: each request it sends (with its credential and timeout) and each pause it takes. Brightness and saturation are in thousandths, and durations and periods in milliseconds. Light payloads are therefore plain naturals; brightness 0.5 is `500`.

Each stateful part is written twice:

- as pure specification functions over a state record (`Svc`, `HookState`, `Panel`), about which the properties are proved as lemmas;
- as a class whose methods update their fields step by step. Each method is proved to end in the state the specification gives.

Modules:

| file | module | contents |
|---|---|---|
| `base.dfy` | `Base` | option and outcome types, powers of two, JavaScript's `includes` |
| `lifx_types.dfy` | `LifxTypes` | constants, light payloads, requests, trace events, thrown values, answers |
| `lifx_retry.dfy` | `LifxRetry` | one attempt, `handleRetry`, `handleError`, `getLights`, `setState` |
| `lifx_effects.dfy` | `LifxEffects` | the flag step table and its executor |
| `lifx_service.dfy` | `LifxService` | credential, monitor and reconnect specifications; the class `LifxService` |
| `use_lifx.dfy` | `UseLifx` | selection, selector, dispatch, the hook specifications; the class `LifxSession` |
| `test_api_controls.dfy` | `TestApiControls` | flag-name table, test message, click plan |
| `race_control.dfy` | `RaceControl` | connect window, panel handlers; the class `RaceControlPanel` |

Where the code's own text shows an intent that its behaviour does not meet, the model follows the behaviour:

- **Reconnect attempts.** `attemptReconnect` names `maxAttempts = 5` and logs that it gave up "after multiple attempts" (src/services/lifx.ts:78, 92). It counts the attempt that enters it before the loop starts, so even the corrected loop makes at most four `getLights` probes from a zero count (`ReconnectFromZero`). The loop as written does not give up at all; see Findings.
- **Invalid credential in the hook.** `fetchDevices` and `setFlag` disconnect when the error text includes "Invalid LIFX API token" (src/hooks/useLIFX.ts:35, 114), so a rejected credential was meant to disconnect. But `handleError` throws a plain `{message, status}` object, not an `Error`. The `instanceof Error` tests therefore record only a fallback text, and a 401 never disconnects the session from the hook (`SetFlagUnauthorizedStaysConnected`, for every flag, and `FetchUnauthorizedKeepsToken`).
- **Monitor start.** The code starts the connection monitor inside `setToken`, before any request has reached the service (src/services/lifx.ts:33).
- **`isReconnecting` after giving up.** Nothing on the give-up path of `attemptReconnect` clears `isReconnecting`. In the corrected loop, which does return after giving up, every tick of any later monitor therefore does nothing (`ExhaustedReconnectSilencesMonitor`). As written the loop never returns, and a credential set later by `setToken` would let a spinning loop's next probe succeed and clear the flag; that interleaving is outside this sequential model.
- **The retry counter.** `retryCount` belongs to the service, not to a request. A request that used up the retries leaves no retries for the next one (`RetryBudgetCarriesOver`). Only a successful `getLights` or `setState`, or a `setToken`, puts the counter back to 0; a successful pulse does not.

## Model

| member | source | states |
|---|---|---|
| `LifxRetry.HandleError` | src/services/lifx.ts:138-153 | an Axios error becomes a plain `ApiErr` whose status is the response status, or 500 when there is none; any other value is passed on unchanged; the result is never an Axios error |
| `LifxRetry.HandleErrorTable` | src/services/lifx.ts:138-153 | 401, 429 and 500 give their three messages with their status; otherwise a timeout code gives the timeout message and anything else the unreachable message; the invalid-token text appears exactly for a 401 |
| `LifxRetry.HandleErrorIdempotent` | src/services/lifx.ts:216-218 | classifying an already classified value changes nothing, so the flag methods' outer `handleError` passes on what `setState` threw |
| `LifxRetry.RetrySpec` | src/services/lifx.ts:112-136 | `handleRetry`: the shared counter never goes down, and a retryable failure is passed on only once the counter has reached 3 |
| `LifxRetry.RetryCounterBounds` | src/services/lifx.ts:125-127 | the shared counter only grows during a retried request, and never past 3 unless it started there |
| `LifxRetry.RetryFollowsSchedule` | src/services/lifx.ts:112-136 | a retried request adds exactly its schedule to the trace: the request, then one pause of 2000·2^(n−1) ms and a resend for each counter step n |
| `LifxRetry.RetryUsesOneAnswerPerAttempt` | src/services/lifx.ts:112-136 | one answer is used per attempt, and the answer passed on is the last one used |
| `LifxRetry.RetriesOnlyTransientFailures` | src/services/lifx.ts:116-134 | every retried answer was a 429, a 500 or a timeout other than a 401; the answer passed on is a reply, a failure that is not retried, or a failure met with the counter at 3 |
| `LifxRetry.MissingTokenSendsNothing` | src/services/lifx.ts:101-110 | without a truthy credential nothing is sent and the "token not set" `Error` is passed on at once |
| `LifxRetry.NotRetriedUnlessTransient` | src/services/lifx.ts:116-134 | a 401, any other non-transient failure, or any failure with the counter exhausted: one request, the failure passed on unchanged, the counter untouched |
| `LifxRetry.UnauthorizedIsPermanent` | src/services/lifx.ts:119-122 | a 401 is never retried, whatever its error code |
| `LifxRetry.TransientFailuresThenSuccess` | src/services/lifx.ts:112-136 | k transient failures followed by a reply, with room for k retries: the reply comes back after exactly k retries, following the schedule |
| `LifxRetry.AtMostFourAttempts` | src/services/lifx.ts:125-131 | from a zero counter at most four requests are made, with pauses of 2000, 4000 and 8000 ms between them |
| `LifxRetry.CallsResetCounterOnlyOnSuccess` | src/services/lifx.ts:155-188 | a successful `getLights` or `setState` leaves the counter at 0; a failed `getLights` or `setState` leaves it where the retries took it |
| `LifxRetry.GetLightsEvents` | src/services/lifx.ts:155-171 | a `getLights` only appends to the record, and appends nothing but its own request and retry pauses of 2000, 4000 or 8000 ms |
| `LifxRetry.RetryBudgetCarriesOver` | src/services/lifx.ts:18-18 | after a `getLights` that meets five 500s, the counter stays at 3, and the next `setState` that meets a 500 is sent only once |
| `LifxEffects.Steps` | src/services/lifx.ts:190-300 | the flag step table: every flag ends in a steady `setState`; the initial green, red, safety car and checkered take three steps with a 3000 ms hold in the middle; green never pulses |
| `LifxEffects.RunStepsAppend` | src/services/lifx.ts:221-245 | running two step lists in a row is running their concatenation, and the second list starts only if the first passed |
| `LifxEffects.PulseThenHoldThenSteady` | src/services/lifx.ts:221-300 | red, safety car and checkered: the pulse is sent; if it fails, its classified failure is the result; otherwise a 3000 ms pause follows, then the steady `setState` |
| `LifxEffects.InitialGreenSequence` | src/services/lifx.ts:192-207 | initial green: full brightness over 0.1 s; only if that succeeds, a 3000 ms pause and then half brightness over 2 s |
| `LifxEffects.LaterGreenIsOneCommand` | src/services/lifx.ts:208-215 | a green that is not the initial one is exactly one half-brightness `setState` over 1 s |
| `LifxEffects.FailedPulseSendsNoSteadyState` | src/services/lifx.ts:222-242 | when the pulse fails, the trace grows only by the pulse request, which has no timeout, and its retry pauses; the steady state is never sent |
| `LifxEffects.CheckeredEndsGreen` | src/services/lifx.ts:292-296 | the checkered flag ends on steady full-brightness green (hue 120) |
| `LifxService.TokenOf` | src/services/lifx.ts:40-42 | the credential in use is present exactly when the field or the stored credential is; the field wins when it is truthy |
| `LifxService.Backoff` | src/services/lifx.ts:79-79 | the reconnect pause never exceeds 30000 ms and is 5000 ms for the first attempt |
| `LifxService.BackoffCapped` | src/services/lifx.ts:79-79 | the pause is 5000·2^(n−1) for n ≤ 3 and exactly 30000 from n = 4 on |
| `LifxService.ReconnectLoopEnds` | src/services/lifx.ts:81-98 | (corrected loop, see Findings) the loop ends either restored (`isReconnecting` false, count 0, credential and monitor kept, retry counter 0) or disconnected (no credential anywhere, monitor stopped, count 0, `isReconnecting` as it was); a loop entered at the limit changes nothing |
| `LifxService.ReconnectLoopProbes` | src/services/lifx.ts:79-97 | (corrected loop, see Findings) at most one probe per remaining attempt, a pause between consecutive probes and nowhere else, and every pause equals the backoff fixed before the loop |
| `LifxService.ReconnectLoopTrace` | src/services/lifx.ts:79-97 | (corrected loop, see Findings) the loop only appends to the record, and everything it appends is a `getLights` request, a retry pause of 2000, 4000 or 8000 ms, or a wait of the one backoff computed before the loop |
| `LifxService.ReconnectLoopWaits` | src/services/lifx.ts:79-97 | (corrected loop, see Findings) the waits of that backoff in the appended record are exactly the loop's pauses between probes, so the pause counts and lengths are about real waits |
| `LifxService.ReconnectFromZero` | src/services/lifx.ts:76-98 | (corrected loop, see Findings) from a zero count a reconnect makes one to four probes, waits 5000 ms in the record between them (once per pause, every other wait being a retry pause), and ends restored or disconnected with the count at 0 |
| `LifxService.CredentialLessLoopSpins` | src/services/lifx.ts:81-98 | as written, a loop without a credential and below the limit never exits, for any number of iterations |
| `LifxService.AsWrittenReconnectLoop` | src/services/lifx.ts:81-98 | the loop as written, re-testing after `disconnect`: whenever it is left, it was entered at the limit and changed nothing, or a probe succeeded and left `isReconnecting` false and the count 0; it is never left by giving up |
| `LifxService.AsWrittenReconnectNeverStops` | src/services/lifx.ts:76-98 | as written, a reconnect whose remaining probes all meet a 401 never leaves its loop |
| `LifxService.AsWrittenTickNeverReturns` | src/services/lifx.ts:54-98 | as written, a monitor tick from a consistent state that meets five 401s never returns from `attemptReconnect` |
| `LifxService.TickNoOp` | src/services/lifx.ts:55-55 | the tick changes nothing without a truthy `token` field or while `isReconnecting` is set |
| `LifxService.StartMonitorKeepsOne` | src/services/lifx.ts:52-74 | starting the monitor, even twice, leaves exactly one live interval, the remembered one; the earlier interval is cleared |
| `LifxService.SetTokenEffect` | src/services/lifx.ts:26-38 | `setToken` sets the field and zeroes both counters; a truthy credential is stored and the monitor runs; anything else clears the storage and stops the monitor; the network is untouched |
| `LifxService.DisconnectEffect` | src/services/lifx.ts:44-50 | `disconnect` leaves no credential anywhere, no live monitor and a zero count, and touches neither the network nor `isReconnecting` |
| `LifxService.TickKeepsConsistent` | src/services/lifx.ts:54-66 | a tick keeps at most one live monitor and a zero reconnect count between calls |
| `LifxService.ExhaustedReconnectSilencesMonitor` | src/services/lifx.ts:55-93 | (corrected loop, see Findings) after a tick whose reconnect gave up, `isReconnecting` stays set, so after a later `setToken` the new monitor's ticks do nothing |
| `LifxService.LifxService.constructor` | src/services/lifx.ts:16-24 | a new service has no credential in its field, no monitor, zero counters, and is consistent |
| `LifxService.LifxService.GetToken` | src/services/lifx.ts:40-42 | returns the field if truthy, else the stored credential |
| `LifxService.LifxService.SetToken` | src/services/lifx.ts:26-38 | ends in the `setToken` state |
| `LifxService.LifxService.Disconnect` | src/services/lifx.ts:44-50 | ends in the `disconnect` state |
| `LifxService.LifxService.StartConnectionMonitor` | src/services/lifx.ts:52-67 | stops the old interval, then schedules a fresh one and remembers it |
| `LifxService.LifxService.StopConnectionMonitor` | src/services/lifx.ts:69-74 | clears the remembered interval, if any |
| `LifxService.LifxService.Attempt` | src/services/lifx.ts:101-110 | sends one request with the current credential, or throws "token not set" without sending |
| `LifxService.LifxService.HandleRetry` | src/services/lifx.ts:112-136 | its answer and the new counter, script and trace are those of the retry specification |
| `LifxService.LifxService.GetLights` | src/services/lifx.ts:155-169 | returns the devices or the classified failure, as `getLights` specifies |
| `LifxService.LifxService.SetState` | src/services/lifx.ts:171-188 | passes or fails with the classified failure, as `setState` specifies |
| `LifxService.LifxService.RunStepOn` | src/services/lifx.ts:223-241 | carries out one step: a `setState`, a retried pulse without a timeout, or a pause |
| `LifxService.LifxService.RunEffect` | src/services/lifx.ts:190-300 | runs the steps in order, stops at the first failure and returns it classified |
| `LifxService.LifxService.SetGreenFlag` | src/services/lifx.ts:190-219 | runs the green steps for the initial or a later green |
| `LifxService.LifxService.SetRedFlag` | src/services/lifx.ts:221-246 | runs the red steps |
| `LifxService.LifxService.SetSafetyCarFlag` | src/services/lifx.ts:248-273 | runs the safety car steps |
| `LifxService.LifxService.SetCheckeredFlag` | src/services/lifx.ts:275-300 | runs the checkered steps |
| `LifxService.LifxService.ReconnectPass` | src/services/lifx.ts:82-97 | (corrected loop, see Findings) one pass of the loop body: it either ends the loop in the state the loop specification gives, or raises the count below the limit without changing where the loop will end |
| `LifxService.LifxService.AttemptReconnect` | src/services/lifx.ts:76-99 | ends in the state of the reconnect loop that leaves after `disconnect` |
| `LifxService.LifxService.MonitorTick` | src/services/lifx.ts:54-66 | (corrected loop, see Findings) ends in the tick state: no-op, restored count, or the end of the corrected reconnect |
| `UseLifx.Remove` | src/hooks/useLIFX.ts:74-74 | deleting an id keeps every other id and drops that one; ids stay distinct |
| `UseLifx.Toggle` | src/hooks/useLIFX.ts:71-80 | toggling flips the membership of exactly that id, leaves every other id's membership as it was, and keeps ids distinct |
| `UseLifx.ToggleTwice` | src/hooks/useLIFX.ts:71-80 | toggling the same id twice restores the set of ids, and the very same order when the id was absent |
| `UseLifx.Dedup` | src/hooks/useLIFX.ts:12-15 | the saved list becomes a set: distinct ids, exactly those of the list |
| `UseLifx.Join` | src/hooks/useLIFX.ts:85-85 | the selector is empty for no ids, begins with the first id, and has a comma right after it when more ids follow |
| `UseLifx.SplitJoin` | src/hooks/useLIFX.ts:85-85 | the selector is the selected ids joined by commas: splitting it on commas gives back the ids, in order |
| `UseLifx.GetFlagColor` | src/hooks/useLIFX.ts:169-184 | every flag name gets a colour at 3500 K: green hue 120, yellow and safety hue 60, red hue 0, all saturated; anything else hue 0 and saturation 0 |
| `UseLifx.ErrorMessage` | src/hooks/useLIFX.ts:111-111 | an `Error` yields its own message; the plain classified object yields the fallback |
| `UseLifx.NoticeAbsent` | src/hooks/useLIFX.ts:110-120 | neither fallback text contains "Invalid LIFX API token" |
| `UseLifx.SetFlagGuard` | src/hooks/useLIFX.ts:83-83 | without a connection or a selection `setFlag` changes nothing and sends nothing |
| `UseLifx.SetFlagOutcome` | src/hooks/useLIFX.ts:82-122 | the flag is dispatched to the joined selection; on success the error is cleared; on failure its message is recorded; the service is disconnected exactly when the failure is an `Error` whose message mentions the invalid token |
| `UseLifx.YellowIsOnePlainState` | src/hooks/useLIFX.ts:102-108 | yellow is one `setState` at hue 60, full saturation, 3500 K, full brightness, over 0.1 s |
| `UseLifx.DispatchUnauthorized` | src/hooks/useLIFX.ts:89-109 | whatever the flag, a 401 on the first request ends the dispatch with the classified invalid-token failure, nothing after it being sent |
| `UseLifx.SetFlagUnauthorizedStaysConnected` | src/hooks/useLIFX.ts:110-120 | a 401 while setting any flag, initial or not, records "Failed to set flag" and leaves the hook connected and the credential in place |
| `UseLifx.FetchDevicesOutcome` | src/hooks/useLIFX.ts:17-44 | without a credential nothing is sent and the hook is disconnected; success stores the devices, connects and clears the error; failure empties the devices, disconnects the hook and records an error; `loading` ends false |
| `UseLifx.FetchNet` | src/hooks/useLIFX.ts:24-25 | with a credential, fetching changes the network exactly as `getLights` does |
| `UseLifx.FetchUnauthorizedKeepsToken` | src/hooks/useLIFX.ts:29-40 | a 401 while fetching records "Failed to connect to LIFX", empties the devices and keeps the credential and monitor |
| `UseLifx.InitializeFetchesWithNewToken` | src/hooks/useLIFX.ts:46-69 | `initialize` first sends the device listing with the new credential, and ends with `loading` false |
| `UseLifx.DisconnectHookClears` | src/hooks/useLIFX.ts:124-133 | disconnecting leaves the hook unconnected with no devices, no selection and no error, and the service without a credential or monitor |
| `UseLifx.SetFlagAfterDisconnectDoesNothing` | src/hooks/useLIFX.ts:82-133 | after `disconnect`, `setFlag` sends nothing and changes nothing |
| `UseLifx.LifxSession.constructor` | src/hooks/useLIFX.ts:8-15 | a new hook has no devices, no error, is not connected, and selects the saved ids without duplicates |
| `UseLifx.LifxSession.FetchDevices` | src/hooks/useLIFX.ts:17-44 | ends in the `fetchDevices` state of hook and service |
| `UseLifx.LifxSession.Initialize` | src/hooks/useLIFX.ts:46-69 | ends in the `initialize` state of hook and service |
| `UseLifx.LifxSession.ToggleDevice` | src/hooks/useLIFX.ts:71-80 | replaces the selection by its toggled copy and changes nothing else |
| `UseLifx.LifxSession.SetFlag` | src/hooks/useLIFX.ts:82-122 | ends in the `setFlag` state of hook and service |
| `UseLifx.LifxSession.DispatchFlag` | src/hooks/useLIFX.ts:89-109 | calls the service method the flag names, or one plain `setState` for other names |
| `UseLifx.LifxSession.Disconnect` | src/hooks/useLIFX.ts:124-133 | ends in the hook's `disconnect` state |
| `TestApiControls.HandleFlagClick` | src/components/TestApiControls.tsx:11-48 | a click plans something exactly when the lights are connected, something is selected and the name is in the table; then it publishes the name's test message first and sets one of the five light flags, as a non-initial one |
| `TestApiControls.FlagMapping` | src/components/TestApiControls.tsx:18-28 | exactly the seven feed names map, each to one of the five light flags |
| `TestApiControls.MappingAliases` | src/components/TestApiControls.tsx:22-25 | VIRTUAL_SC maps like SAFETY_CAR (safety), and CLEAR maps like GREEN (green) |
| `TestApiControls.BuildTestMessage` | src/components/TestApiControls.tsx:34-45 | the message is "<name> FLAG" for the clicked name; its category is "SafetyCar" exactly for the two safety car names and "Flag" otherwise; keys 9999, scope Track |
| `TestApiControls.ClickGuards` | src/components/TestApiControls.tsx:12-32 | without a connection or a selection, or for an unknown name, nothing is published and the lights are untouched |
| `TestApiControls.PerformPublishThenSet` | src/components/TestApiControls.tsx:47-48 | publishing and then setting a flag publishes the one message and leaves hook and service as `setFlag` does |
| `TestApiControls.ClickPublishesThenSets` | src/components/TestApiControls.tsx:34-48 | a known name publishes its message first, then sets the mapped flag as a non-initial one |
| `TestApiControls.ClearIsLaterGreen` | src/components/TestApiControls.tsx:25-48 | a CLEAR click on a connected session sends the later green: one half-brightness `setState` over 1 s |
| `RaceControl.CanConnect` | src/components/RaceControl.tsx:64-65 | the window is open only for a present session with a non-empty date, and never before five minutes ahead of its start |
| `RaceControl.ConnectWindow` | src/components/RaceControl.tsx:64-65 | closed without a session and for a session whose date is empty; otherwise open exactly from five minutes before the start |
| `RaceControl.ConnectWindowStaysOpen` | src/components/RaceControl.tsx:64-65 | once open, the window stays open as time passes |
| `RaceControl.ManualClickLockedOut` | src/components/RaceControl.tsx:88-88 | in auto mode while connected, a click changes nothing |
| `RaceControl.ManualClickOutcome` | src/components/RaceControl.tsx:87-98 | otherwise the clicked flag becomes active even without devices, and the lights are asked, non-initially, only when something is selected |
| `RaceControl.ConnectOutcome` | src/components/RaceControl.tsx:67-78 | without connected lights and a selection nothing changes; otherwise the panel is connected in auto mode with the prompt shown, the initial green is requested, and manual clicks are then locked out |
| `RaceControl.ConnectSendsInitialGreen` | src/components/RaceControl.tsx:73-74 | connecting sends the initial green sequence to the joined selection |
| `RaceControl.DisconnectUnlocks` | src/components/RaceControl.tsx:80-85 | disconnecting resets the panel to manual mode on green, after which a click is taken again |
| `RaceControl.RaceControlPanel.constructor` | src/components/RaceControl.tsx:46-51 | a new panel is unconnected, in auto mode, on green, with no prompt |
| `RaceControl.RaceControlPanel.HandleConnect` | src/components/RaceControl.tsx:67-78 | ends in the connect state of panel, hook and service |
| `RaceControl.RaceControlPanel.HandleDisconnect` | src/components/RaceControl.tsx:80-85 | resets the panel only |
| `RaceControl.RaceControlPanel.HandleFlagClick` | src/components/RaceControl.tsx:87-98 | ends in the click state of panel, hook and service |

## Left out

- HTTP transport: URLs, headers and axios itself are replaced by the scripted answers. A request timeout is recorded on the request; the timing out itself is an answer with the code `ECONNABORTED`.
- Real timers: `setInterval` and `setTimeout` are left out, and with them the monitor's 60-second period (src/services/lifx.ts:66). Pauses are recorded in the trace, interval handles are numbered, and a monitor tick is an explicit call (`MonitorTick`).
- Concurrency between the monitor, flag sequences and user actions: operations run one at a time. A `setToken` arriving while a reconnect loop is pausing is not modelled.
- `lastSuccessfulConnection` and `Date.now()` are not modelled, because nothing reads them.
- Local storage: `lifx_token` is the field `stored`. `selected_devices` is only the list a new hook starts from. The write in `toggleDevice` (src/hooks/useLIFX.ts:79) is not modelled, and neither is a saved value that is not a list of strings.
- `updateUserData` (the account store) and console logging are outside the model.
- The `catch` block of `initialize` (src/hooks/useLIFX.ts:55-65) is not modelled. Neither `setToken` nor `fetchDevices` throws in the model, so it cannot be reached.
- The hook's effects (src/hooks/useLIFX.ts:135-154): automatic initialisation and 30-second polling are left out; callers invoke the operations.
- `cleanup` (src/services/lifx.ts:302-304) is not modelled separately: it only calls `stopConnectionMonitor`, which is.
- `maxRetries` and `retryDelay` are constants: the code never changes them.
- The flag-name lookup is modelled only for the seven table keys. Any other name is unknown, including keys inherited from `Object.prototype`, which JavaScript would find.
- The test message's timestamp and its always-null sector, lap and driver fields are not modelled. `setTestMessage` is an external call, so the model records the published message instead.
- Session dates: the next session is a date text and a start instant in milliseconds. Parsing and an unparsable date are not modelled. The panel's periodic schedule refresh is left out.
- Each component has its own `useLIFX` hook state over the one shared service. `RaceControlPanel` therefore gets its own `LifxSession`.
- Rendering, `LIFXSetup`, `LandingPage` and `App` are user interface and routing.
- `LifxService.ReconnectLoopEnds`: states the end of the corrected loop, which leaves after `disconnect`; the loop as written re-enters its `while` there (see Findings).
- `LifxService.ReconnectLoopProbes`: bounds the probes of the corrected loop only; as written, probes continue without end once the credential is gone.
- `LifxService.ReconnectLoopTrace`: describes the record of the corrected loop; as written, the loop keeps adding waits after `disconnect`.
- `LifxService.ReconnectLoopWaits`: counts the waits of the corrected loop only.
- `LifxService.ReconnectFromZero`: the "one to four probes, then restored or disconnected" outcome is the corrected loop's; as written a reconnect that disconnects never ends.
- `LifxService.ExhaustedReconnectSilencesMonitor`: rests on a reconnect that gives up and returns, which only the corrected loop does.
- `LifxService.LifxService.MonitorTick`: its reconnect path runs the corrected `AttemptReconnect` and returns where the code as written would keep spinning.
- `LifxService.LifxService.ReconnectPass`: its give-up branch ends the loop, as in the corrected loop; as written the body after `disconnect` falls back to the loop test.
- `LifxService.LifxService.AttemptReconnect`: models the loop with the exit after `disconnect` (see Findings). The loop as written is `LifxService.AsWrittenReconnectLoop`, whose properties are proved separately.

## Findings

| source | as written | input that shows it | evidently intended | confidence | as-written member | corrected member |
|---|---|---|---|---|---|---|
| src/services/lifx.ts:81-98 | after the fifth counted failure `disconnect()` resets `connectionAttempts` to 0, so the `while` test passes again. Every later probe fails before sending, because the credential is gone. The loop never ends and `isReconnecting` stays set | a monitor tick whose `getLights` and the next four probes each get a 401 (five 401 answers in a row) | leave the loop once `disconnect` has run: at most four probes from a zero count, then stop disconnected | not executed | `LifxService.AsWrittenTickNeverReturns` | `LifxService.LifxService.AttemptReconnect` |
