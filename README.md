# QR-code scanner screen: the scan / submit / reload workflow

The app's single screen (`App` in `App.js`) reads QR codes with the camera, posts the
decoded link to a server that registers it, and shows the list of links the server has
registered. Three pieces of component state drive it: the pending `scannedLink`, the list
`generatedQRCodes` and the `loading` flag. Three handlers act on that state:

- the scanner's read callback, which overwrites the pending link;
- `processScannedLink`, run by the "Process QR Code" button;
- `loadGeneratedQRCodes`, run once on mount and again after every created submit.

The model has three modules:

- `Workflow` (`Workflow.dfy`) is the state machine over values. `State` holds the link,
  the list, the loading flag, the number of `reactivate()` calls made on the scanner and
  the messages of the alerts raised. `Read`, `Submit`, `Load`, `Mount` and `Pressed` are
  the handlers as functions, and the network results they depend on are parameters:
  `SubmitOutcome` is `Status(code)` or `TransportError`, and `FetchOutcome` is
  `Data(items)` or `FetchError`. Submit succeeds only on HTTP "201 Created" (section
  15.3.2 of RFC 9110). Each function's `ensures` states the handler's guarantees.
- `App` (`Controller.dfy`) is the component as a class, `App.Controller`. Its fields are
  `scannedLink`, `codes`, `loading`, `reactivateCount` and `alerts`, and its methods update
  them step by step, in the order of the source's `try` / `catch` / `finally`. Each method is
  proved equal to the matching `Workflow` function.
- `Traces` (`Traces.dfy`) covers whole sessions: any sequence of decodes and button
  presses after mounting. Its lemmas are proved by induction on that sequence, and it
  also holds the example scenarios.

The source calls `loadGeneratedQRCodes()` without `await` (App.js:32). So
`ProcessScannedLink` returns whether it started the reload, and the reload's own outcome is
applied by a separate `LoadGeneratedQRCodes` call. `Press` (the button) composes the two.

Two behaviours of the code that the model follows:

- The `finally` cleanup runs before the reload answers. The model applies the cleanup (link cleared, loading off, scanner reactivated) and then the reload.
- axios rejects statuses outside 2xx by default, so they reach `catch` and its "Failed to generate QR code…" message. Only a 2xx other than 201 reaches the "Failed to send…" branch.

## Model

| member | source | states |
|---|---|---|
| Workflow.Initial | App.js:11-13 | the initial state is an empty link, an empty list and not loading, with no reactivation and no alert |
| Workflow.Read | App.js:66 | a decode sets the pending link to the decoded data and changes no other field |
| Workflow.Submit | App.js:25-44 | empty link: no change and no reload. Non-empty link: afterwards the link is empty, loading is off and there is exactly one more reactivation, whatever the outcome. A reload starts exactly on status 201. Another status adds exactly one "Failed to send data…" alert. A thrown error adds exactly one "Failed to generate QR code…" alert. The list is never changed |
| Workflow.Load | App.js:46-56 | a response replaces the list wholesale with its data and adds no alert. An error keeps the old list and adds exactly one "Failed to load…" alert. Loading ends off either way, and the link and reactivations are untouched |
| Workflow.Mount | App.js:21-23 | after mounting, the link is empty, loading is off and no reactivation has happened. The list is the first fetch's data, or empty with one alert when that fetch failed |
| Workflow.Pressed | App.js:29-32 | a press with an empty link changes nothing. Otherwise the link is cleared and the scanner reactivated exactly once. The list changes only when the POST got 201 and the reload answered, and then it equals the reload's data. The alert raised is exactly that of the branch taken: none on an empty link or a 201 with a successful reload, "Failed to load…" on a 201 whose reload failed, "Failed to send…" on another status, "Failed to generate…" when the POST threw |
| Workflow.LastReadWins | App.js:66 | two decodes in a row leave only the second link. Decoding the pending link again changes nothing |
| Workflow.SecondPressIsNoOp | App.js:26 | after a press, a second press posts nothing, starts no reload, reactivates nothing and changes nothing |
| Workflow.LoadReplacesWholesale | App.js:49-50 | a successful load does not depend on the old list (no merge), and it yields exactly the response data |
| App.Controller.constructor | App.js:11-23 | the component starts from the `useState` initial values, then runs one load; its state equals `Mount` |
| App.Controller.OnRead | App.js:66 | the pending link becomes the decoded data and every other field is unchanged; equals `Read` |
| App.Controller.ShowErrorAlert | App.js:16-19 | appends exactly the given message to the alerts |
| App.Controller.ProcessScannedLink | App.js:25-44 | the new state and the returned reload flag equal `Submit`'s. Empty link: unchanged. Otherwise the link is cleared, loading is off and there is one more reactivation. Reload is true exactly on 201. The list is unchanged |
| App.Controller.LoadGeneratedQRCodes | App.js:46-56 | equals `Load`: the list is replaced on a response and kept on an error (plus one alert), and loading ends off |
| App.Controller.Press | App.js:30-32 | the press handler followed by the reload it starts; the new state equals `Pressed` |
| Traces.RunStaysIdle | App.js:38-55 | every handler ends with loading off, so between events the screen is never loading |
| Traces.RunAlerts | App.js:33-52 | over any session, alerts are never removed, each press adds at most one, decodes add none, and every added alert is one of the three messages |
| Traces.RunReactivations | App.js:38-41 | over any session the scanner is reactivated at most once per press and never by a decode |
| Traces.RunCodesAreFetched | App.js:46-52 | over any session the shown list is either the list from before the session, or exactly the data of the reload after one press that found a pending link and whose POST got 201 (never a merge, never data from a reload that did not run) |
| Traces.DecodesOnlyMoveTheLink | App.js:66 | a run of decodes leaves the state of a single decode of the last data (last read wins, nothing else changes) |
| Traces.SessionFromMount | App.js:21-23 | from mounting on, the screen is never loading between events, reactivations are at most the number of presses, and alerts are at most one plus the number of presses |
| Traces.CreatedThenReloaded | App.js:29-32 | decode "https://example.com", press, 201, then the reload returns that link: the list is that one link, the link is cleared, one reactivation, no alert |
| Traces.ServerErrorKeepsList | App.js:36-42 | decode "abc123", press, the POST throws (e.g. a 500): one "failed to generate" alert, list unchanged, link cleared, one reactivation |
| Traces.OkIsNotCreated | App.js:33-35 | a 200 answer to the POST adds one "failed to send" alert and leaves the list unchanged |
| Traces.PressWithoutDecode | App.js:26 | a press with nothing decoded since mounting changes nothing |
| Traces.MountOnEmptyList | App.js:49-50 | mounting against an empty server list shows an empty list and no alert |

## Left out

- Rendering (`View`, `Text`, `FlatList`, `ActivityIndicator`, `StyleSheet`) and the whole of `QRCodeItem.js`: presentation only, with no logic.
- The HTTP transport (axios) and `API_BASE_URL`: each request's result is a parameter. Which statuses axios turns into a thrown error is the library's behaviour. By default it throws on every status outside 2xx, so a 500 is a `TransportError` here and only a 2xx other than 201 reaches the "failed to send" branch. The set of statuses is not modelled.
- The scanner library (`QRCodeScanner`, `RNCamera`): `reactivate()` is modelled as a counter. The 1000 ms `reactivateTimeout` and the flash mode are timing and hardware settings, so they are left out.
- Concurrency: each handler is one atomic step. Not modelled are overlapping button presses, which the source does not guard against, and React's asynchronous `setState` with the closure over a stale `scannedLink`.
- The un-awaited reload at App.js:32: an async function runs synchronously up to its first `await`, so the reload's `setLoading(true)` (App.js:48) runs before the press's `finally` sets loading off (App.js:39). Only the reload's list or alert update and its final `setLoading(false)` (App.js:50, 52, 54) land later. So in the source, loading is already off for the whole reload round trip after a submit, and no spinner shows during it. The model instead sets loading on again inside the reload step and off at its end. Its states between events agree with the source (loading off), but it does not capture that loading interval.
- `console.log` / `console.error` output and the `Alert` dialog itself: only the alert's message is recorded, in order.
- The shape of the GET response body: `response.data` is taken to be a list of strings.
