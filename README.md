# Trading-bot dashboard: push-channel client and UI derivations in Dafny

This project models the browser side of a trading-bot dashboard. At its centre
is the push-channel client `WebSocketClient` (the singleton `wsClient`). It
derives its endpoint from the API base URL and keeps one WebSocket connection
alive with a fixed 5000 ms reconnect timer. It also keeps a registry of
message handlers keyed by event name, and fans each decoded frame out to the
handlers registered for the frame's event.

Around it sit four UI components, each modelled as pure derivations and
sequential state updates:

- The live log viewer: a bounded buffer, a level filter and colours.
- The configuration page: the dotted-path edit, load and save.
- The bot controls: status colour and text, button enablement, uptime and
  loss display, and the start/stop/fetch updates.
- The statistics panel: recent trades, card and cell colours, live updates,
  fetch and reset.

The model follows the code, including where the code behaves differently
from the system's design description:

- **Handler failures are not isolated.** The description says a throwing
  handler does not stop the others. In the code, `emit` runs inside the same
  `try` as `JSON.parse`, so the first throwing handler ends delivery for that
  frame (`Dispatch.DeliverStopsAtFirstThrower`).
- **`disconnect()` does not stop reconnection.** The description says it
  stops all retry activity. The code leaves the old socket's `onclose`
  attached, and the close event that follows `disconnect()` arms a new timer
  (`Connection.CloseAfterDisconnectArms`).
- **Retries do not continue indefinitely.** The description says the client
  retries until `disconnect()`. The code never clears `reconnectTimer` when
  the timer fires, so a retry that closes without opening arms nothing. The
  client then stays down until some socket opens, which needs a component to
  call `connect()` again, or until `disconnect()` empties the field
  (`Connection.FailedRetryArmsNothing`, `Connection.StuckUntilOpened`).
- **The log buffer holds up to 201 entries.** The source comment says it
  keeps the last 200. The code appends one entry after the last 200
  (`LogsViewer.Append`).

## Layout

| file | module | contents |
|---|---|---|
| `wrappers.dfy` | `Wrappers` | `Option` |
| `seqs.dfy` | `Seqs` | `IsSubseq`, order-preserving subsequence |
| `types.dfy` | `Types` | the shapes of bot status, trades, statistics, log entries, config sections |
| `registry.dfy` | `Registry` | the handler map `Map<string, Set<handler>>` as `map<string, seq<HandlerId>>` with set semantics |
| `dispatch.dfy` | `Dispatch` | envelope routing, delivery with abort-on-throw, the whole `onmessage` callback |
| `endpoint.dfy` | `Endpoint` | `String.prototype.replace` with a string pattern, the endpoint URL |
| `connection.dfy` | `Connection` | the connection and reconnect-timer state machine as pure transitions, its invariant, event runs |
| `websocket.dfy` | `WebSocket` | `class Client<P>`: the client with its fields; each method is proved against the pure transitions; `CallHandlers`, the loop of `emit`, is proved against `Dispatch.Deliver` |
| `logs_viewer.dfy` | `LogsViewer` | the log buffer, filter and colours, and the subscription effect against the registry |
| `config_page.dfy` | `ConfigPage` | the configuration as heap objects (`ConfigObj`, `SectionObj`), `class Page` with `HandleChange`, `HandleSave`, `FetchConfig`, and the `Select` rendering |
| `bot_controls.dfy` | `BotControls` | status display and button rules, fetch/start/stop state updates |
| `stats_display.dfy` | `StatsDisplay` | recent trades, colour rules, fetch/update/reset state updates, the `stats_update` subscription |

### Modelling choices

- **Sockets** are ids that index `sockets: seq<ReadyState>`, with the states
  CONNECTING, OPEN, CLOSING and CLOSED. `ws` is `Option<SocketId>`. Every
  callback refers to the client, not to its socket, so events from superseded
  sockets still drive the client.
- **Timers** are ids that index `timers: seq<TimerState>`, each Armed, Fired
  or Cancelled. `reconnectTimer` is `Option<TimerId>`, and a spent handle
  stays in the field after its timer fires. The invariant `Connection.Valid`
  says every armed timer is the one in the field.
- **Environment events** are methods whose preconditions say when the browser
  can deliver them:
  - `SocketOpened` only for a CONNECTING socket.
  - `SocketClosed` only for a socket that is not CLOSED.
  - `FrameArrived` only for an OPEN socket.
  - `TimerFired` only for an armed timer.

  `ws.close()` moves CONNECTING or OPEN to CLOSING, as the WHATWG WebSockets
  standard specifies.
- **Inputs** stand in for behaviour the model cannot see:
  - A `new WebSocket(url)` that throws is the boolean input `throws`.
  - A frame arrives already decoded, as a `Decoded<P>`. It is a parse failure,
    `null`, a primitive (number, string or boolean) or an envelope object.
    `Dispatch.Frame` turns it into the frame `onmessage` acts on. A parse
    failure and `null` throw inside the `try`. A primitive is routed to
    "message" with the payload `undefined`, which is an input value of `P`.
  - The handlers that throw are the input set `throwing`.
  - Every handler call is logged as `Delivery(handler, payload)`, the call of
    the throwing handler included, and sent payloads are recorded.
- **REST results** that the components await are inputs, with `None` meaning
  the request failed. Each async handler is one sequential step. For
  BotControls' `loading` both the pending and the settled state are modelled;
  the config page's `saving` state is not (see "## Left out").

## Model

| member | source | states |
|---|---|---|
| Endpoint.ApiUrl | lib/websocket.ts:11 | the base is `NEXT_PUBLIC_API_URL` when set and non-empty, else the default `http://localhost:3000` |
| Endpoint.FindFrom | lib/websocket.ts:12 | the result is the first occurrence of the pattern at or after the start, or none occurs |
| Endpoint.IndexOf | lib/websocket.ts:12 | the first occurrence of the pattern in the whole string, or none |
| Endpoint.ReplaceFirst | lib/websocket.ts:12 | only the first occurrence is replaced; with no occurrence the string is unchanged |
| Endpoint.HttpSchemeBecomesWs | lib/websocket.ts:11-12 | a base starting with "http" gives "ws" + the rest + "/ws" |
| Endpoint.NoHttpKept | lib/websocket.ts:11-12 | a base without "http" is kept and only "/ws" is appended |
| Endpoint.EndsWithWsPath | lib/websocket.ts:12 | every endpoint ends in "/ws" |
| Endpoint.Url | lib/websocket.ts:12 | the endpoint is the base with its first "http" replaced and "/ws" appended; it always ends in "/ws" (with `HttpSchemeBecomesWs`, `NoHttpKept`, `DefaultUrl`) |
| Endpoint.DefaultUrl | lib/websocket.ts:11-12 | an unset or empty variable gives "ws://localhost:3000/ws" |
| Endpoint.SecureUrl | lib/websocket.ts:11-12 | "https://h" gives "wss://h/ws" |
| Endpoint.OnlyFirstReplaced | lib/websocket.ts:12 | "http://http.example" gives "ws://http.example/ws": a later "http" survives |
| Registry.Insert | lib/websocket.ts:76 | `Set.add`: the members are the old ones plus h, in insertion order with h last if new, the same set if h is present, no duplicates created |
| Registry.Delete | lib/websocket.ts:80 | `Set.delete`: exactly h is removed, order is kept, an absent h leaves the set unchanged, and the size drops by one when h is present |
| Registry.Lookup | lib/websocket.ts:80-84 | a registered key yields its bucket and an unknown key no handlers; the buckets of a well-formed registry have no duplicates |
| Registry.On | lib/websocket.ts:72-77 | the key is created if missing and gets h; other keys are untouched; well-formedness is preserved |
| Registry.Off | lib/websocket.ts:79-81 | no key is added or removed (an emptied key stays), the key's bucket loses h, others are untouched |
| Registry.OnIdempotent | lib/websocket.ts:72-77 | registering the same reference twice leaves a single copy |
| Registry.OnAppendsLast | lib/websocket.ts:76 | a new reference is appended after the existing ones |
| Registry.OffUnknownIsNoop | lib/websocket.ts:80 | `off` with an unknown key or reference changes nothing |
| Registry.OffRemovesExactly | lib/websocket.ts:80 | after `off`, h is gone and every other reference is present iff it was before |
| Registry.OffUndoesOn | lib/websocket.ts:72-81 | `off` after `on` of a new reference restores the registry, except that a key `on` created stays with an empty set |
| Dispatch.RouteKey | lib/websocket.ts:33 | the routing key is `event` when present and non-empty, else "message"; it is never empty |
| Dispatch.Deliver | lib/websocket.ts:84 | handlers are called in registration order with the payload; the calls stop right after the first throwing handler |
| Dispatch.Dispatch | lib/websocket.ts:29-36 | a malformed frame delivers nothing and is caught; otherwise the deliveries are `Deliver` over the bucket of `RouteKey` (so "message" for a missing or empty event), an error is caught iff some routed handler throws, and every delivery carries `data.data` |
| Dispatch.Frame | lib/websocket.ts:31-33 | a parse failure and `null` give no frame; a primitive gives a frame routed to "message" with payload `undefined`; an object gives its envelope |
| Dispatch.PrimitiveFrameReachesMessage | lib/websocket.ts:31-33 | a primitive frame is delivered to the "message" handlers with `undefined`; a `null` frame reaches nobody and is caught |
| Dispatch.DispatchNamed | lib/websocket.ts:33 | a frame with a non-empty event name is delivered to that name's bucket |
| Dispatch.DeliverAllWhenNoneThrow | lib/websocket.ts:84 | with no throwing handler every handler is called once, in order |
| Dispatch.DeliverStopsAtFirstThrower | lib/websocket.ts:30-36 | when handler k is the first to throw, exactly k + 1 handlers are called |
| Dispatch.DeliverShortIffThrows | lib/websocket.ts:30-36 | an error escapes `forEach` iff a handler that was called throws |
| Dispatch.DeliverOncePerHandler | lib/websocket.ts:84 | no handler is called twice for one frame |
| Dispatch.MalformedFrameDropped | lib/websocket.ts:30-36 | an unparseable frame reaches no handler |
| Dispatch.UnknownEventIsSilent | lib/websocket.ts:84 | a key with no handlers delivers nothing and raises nothing |
| Dispatch.DeliverPrefixStep | lib/websocket.ts:84 | one more iteration of `forEach` appends one delivery; a throwing handler ends the run |
| Connection.ScheduleReconnect | lib/websocket.ts:53-60 | a no-op while the field holds a handle; otherwise arms a fresh timer and stores its handle |
| Connection.IsOpen | lib/websocket.ts:16 | `ws` names a socket whose state is OPEN; `connect` is a no-op exactly then (`ConnectWhenOpenIsNoop`), and `send` transmits exactly then (`WebSocket.Client.Send`) |
| Connection.Connect | lib/websocket.ts:15-51 | a no-op on an OPEN socket; a throwing constructor keeps `ws` and schedules a reconnect; otherwise a fresh CONNECTING socket becomes `ws` and the timers are untouched |
| Connection.SocketOpened | lib/websocket.ts:21-27 | the socket becomes OPEN, `ws` is unchanged, the field is emptied and no timer is left armed |
| Connection.SocketClosed | lib/websocket.ts:43-46 | the socket becomes CLOSED, `ws` is unchanged; a timer is armed and stored iff the field was empty, else the timers are unchanged |
| Connection.TimerFired | lib/websocket.ts:56-59 | the fired timer is spent but its handle stays in the field; the callback's `connect` opens a fresh CONNECTING socket unless the socket is OPEN or the constructor throws |
| Connection.Disconnect | lib/websocket.ts:62-70 | `ws` and the field end empty, no timer stays armed, the current socket gets `close()` and every other socket is unchanged |
| Connection.Clear | lib/websocket.ts:23-25 | `clearTimeout` disarms exactly that timer |
| Connection.CloseCall | lib/websocket.ts:68 | `close()` leaves no socket CONNECTING or OPEN and is a no-op on CLOSING or CLOSED |
| Connection.InitialValid | lib/websocket.ts:4-8 | the initial client has no socket and no armed timer |
| Connection.ScheduleReconnectValid | lib/websocket.ts:53-60 | scheduling keeps the at-most-one-armed invariant |
| Connection.ConnectValid | lib/websocket.ts:15-51 | `connect` keeps the invariant |
| Connection.OpenedValid | lib/websocket.ts:21-27 | an open event keeps the invariant |
| Connection.ClosedValid | lib/websocket.ts:43-46 | a close event keeps the invariant |
| Connection.TimerFiredValid | lib/websocket.ts:56-59 | a timer firing keeps the invariant |
| Connection.DisconnectValid | lib/websocket.ts:62-70 | `disconnect` keeps the invariant |
| Connection.AtMostOneArmed | lib/websocket.ts:53-60 | at most one reconnect timer is armed, and one is armed iff the handle in the field is armed |
| Connection.ConnectWhenOpenIsNoop | lib/websocket.ts:16 | `connect` on an OPEN socket changes nothing |
| Connection.ConnectOtherwiseCreatesSocket | lib/websocket.ts:15-19 | otherwise `connect` appends a fresh CONNECTING socket and points `ws` at it; earlier sockets and the timer are unchanged |
| Connection.ConnectWhileConnectingDuplicates | lib/websocket.ts:16-19 | `connect` while CONNECTING leaves two CONNECTING sockets |
| Connection.OpenedClearsTimer | lib/websocket.ts:23-26 | after an open event the field is empty and no timer is armed |
| Connection.ClosedArmsIffFieldEmpty | lib/websocket.ts:43-54 | a close event arms a timer when the field is empty and changes no timer when it holds a handle |
| Connection.FailedRetryArmsNothing | lib/websocket.ts:43-59 | after the timer fires, the field still holds its spent handle, so the retry socket's close arms nothing |
| Connection.DisconnectClears | lib/websocket.ts:62-70 | after `disconnect`, `ws` and the field are empty and no timer is armed |
| Connection.DisconnectIdempotent | lib/websocket.ts:62-70 | a second `disconnect` changes nothing |
| Connection.CloseAfterDisconnectArms | lib/websocket.ts:43-70 | the old socket is CLOSING after `disconnect`, and its close event arms a reconnect timer |
| Connection.Step | lib/websocket.ts:15-70 | every deliverable event keeps the invariant |
| Connection.Run | lib/websocket.ts:15-70 | every run of events keeps the invariant |
| Connection.StuckUntilOpened | lib/websocket.ts:43-59 | with a spent handle in the field, no run without an open event or `disconnect` ever arms a timer |
| WebSocket.Client.constructor | lib/websocket.ts:4-13 | the URL is the derived endpoint, the interval is 5000 ms, there is no socket, timer or handler |
| WebSocket.Client.Connect | lib/websocket.ts:15-51 | the new connection state is `Connection.Connect` of the old; handlers and logs unchanged |
| WebSocket.Client.ScheduleReconnect | lib/websocket.ts:53-60 | the new state is `Connection.ScheduleReconnect` of the old |
| WebSocket.Client.ClearTimeout | lib/websocket.ts:23-25 | only the timers change, as `Connection.Clear` |
| WebSocket.Client.SocketOpened | lib/websocket.ts:21-27 | the new state is `Connection.SocketOpened` of the old |
| WebSocket.Client.SocketClosed | lib/websocket.ts:43-46 | the new state is `Connection.SocketClosed` of the old |
| WebSocket.Client.TimerFired | lib/websocket.ts:56-59 | the new state is `Connection.TimerFired` of the old |
| WebSocket.Client.Disconnect | lib/websocket.ts:62-70 | the new state is `Connection.Disconnect` of the old |
| WebSocket.Client.On | lib/websocket.ts:72-77 | the handler map becomes `Registry.On` of the old; the connection is untouched |
| WebSocket.Client.Off | lib/websocket.ts:79-81 | the handler map becomes `Registry.Off` of the old |
| WebSocket.CallHandlers | lib/websocket.ts:84 | the `forEach` loop yields exactly the deliveries of `Dispatch.Deliver` and reports a throw iff some handler in the bucket throws |
| WebSocket.FirstOfTwoThrows | lib/websocket.ts:30-36 | with handlers 1 then 2 and 1 throwing, the frame reaches handler 1 only and the exception is caught |
| WebSocket.Client.Emit | lib/websocket.ts:83-85 | appends exactly `Dispatch.Deliver` of the event's bucket and reports whether a handler threw; nothing else changes |
| WebSocket.Client.FrameArrived | lib/websocket.ts:29-37 | deliveries and caught errors follow `Dispatch.Dispatch` of the frame `Dispatch.Frame` reads from the decoded value; `ws`, timers and registry are unchanged |
| WebSocket.Client.Send | lib/websocket.ts:87-91 | the payload is recorded iff the current socket is OPEN; nothing else changes |
| LogsViewer.Append | components/LogsViewer.tsx:16 | the result is the last min(n, 200) old entries followed by the new one, so at most 201 entries |
| LogsViewer.OnLog | components/LogsViewer.tsx:15-16 | a log delivery appends to the buffer and keeps filter and auto-scroll |
| LogsViewer.Clear | components/LogsViewer.tsx:75 | Clear empties the list and keeps filter and auto-scroll |
| LogsViewer.Filtered | components/LogsViewer.tsx:30-32 | every kept entry passes the filter |
| LogsViewer.Shown | components/LogsViewer.tsx:31 | an entry passes iff the filter is "all" or names its level; `FilterByLevelIsExact` and `FilterAllIsIdentity` state what the filtered list holds |
| LogsViewer.FilterAllIsIdentity | components/LogsViewer.tsx:30-32 | filter "all" returns the list unchanged |
| LogsViewer.FilterPreservesOrder | components/LogsViewer.tsx:30-32 | the filtered list is an order-preserving subsequence |
| LogsViewer.FilterCounts | components/LogsViewer.tsx:30-32 | each entry occurs as often as in the list if it passes the filter, else never |
| LogsViewer.FilterByLevelIsExact | components/LogsViewer.tsx:30-32 | filtering by a level keeps exactly the entries of that level, with their multiplicity |
| LogsViewer.LevelColor | components/LogsViewer.tsx:34-47 | error/warn/info/debug map to their classes, anything else to "text-gray-800" |
| LogsViewer.LevelsHaveDistinctColors | components/LogsViewer.tsx:34-47 | the four declared levels get four distinct non-default classes |
| LogsViewer.CleanupLeavesHandler | components/LogsViewer.tsx:15-28 | the cleanup `off` with a fresh closure leaves the registered handler in place |
| LogsViewer.EffectCycle | components/LogsViewer.tsx:12-28 | one effect run and its cleanup: only the "log" key is touched and the handler stays registered unless it is the cleanup's own closure (`CleanupLeavesHandler`) |
| LogsViewer.EffectRuns | components/LogsViewer.tsx:12-28 | one effect run per mount or `autoScroll` change; `HandlersAccumulate` proves each run leaves one more "log" handler |
| LogsViewer.HandlersAccumulate | components/LogsViewer.tsx:12-28 | n effect runs leave n more "log" handlers, in order |
| LogsViewer.OneFramePerHandler | components/LogsViewer.tsx:15-16 | one "log" frame is delivered once per registered handler; with n ≥ 1 handlers the logs become the last 201 of the old logs followed by n copies, with none nothing changes, and below the cap nothing is dropped |
| LogsViewer.AppendKeepsLast | components/LogsViewer.tsx:16 | an append is the last 201 entries of the old list with the new entry added |
| LogsViewer.LastAbsorbs | components/LogsViewer.tsx:16 | trimming to the last k entries before appending more is undone by trimming again |
| LogsViewer.ApplyCopies | components/LogsViewer.tsx:16 | n ≥ 1 deliveries of one entry leave the last 201 entries of the old list followed by n copies |
| ConfigPage.Split | app/config/page.tsx:52 | `split(".")` gives at least one piece and no piece contains "." |
| ConfigPage.JoinSplit | app/config/page.tsx:52 | joining the pieces with "." gives back the path |
| ConfigPage.SplitJoin | app/config/page.tsx:52 | pieces without "." split back to themselves after joining |
| ConfigPage.SplitTwoSegments | app/config/page.tsx:52 | "section.field" splits into the section and the field |
| ConfigPage.Resolve | app/config/page.tsx:55-59 | one key assigns at the top level; two keys assign into the named section object exactly when the first key names a section, and throw otherwise; three or more keys throw |
| ConfigPage.EntryCursor | app/config/page.tsx:57 | `current[key]` at the top level: `undefined` iff the key is absent, the shared section object iff the entry is a section reference, else the plain value |
| ConfigPage.Page.constructor | app/config/page.tsx:8-14 | no config, loading, not saving, no message |
| ConfigPage.Page.Render | app/config/page.tsx:64-70 | the loading view iff loading, the load-failed view iff loaded with no config, else the form |
| ConfigPage.Page.FetchConfig | app/config/page.tsx:20-30 | success stores the config; failure sets the load error; loading ends false |
| ConfigPage.Page.HandleSave | app/config/page.tsx:31-47 | with no config nothing changes; otherwise the config is sent, the success or failure message is set, and success arms a clear timer |
| ConfigPage.Page.ClearTimerFired | app/config/page.tsx:41 | the 3-second timer clears the message |
| ConfigPage.Page.HandleChange | app/config/page.tsx:49-62 | with no config nothing changes; a throw iff `Resolve` fails; otherwise a fresh top-level copy with the top-level entry set, or the shared section's field set with every other field and section unchanged |
| ConfigPage.PagePathsReachSections | app/config/page.tsx:102-180 | every edit path on the page names a `BotConfig` section and lands in that section |
| ConfigPage.SelectChildren | app/config/page.tsx:227-229 | as written, one child per option and every child is `undefined` |
| ConfigPage.SelectRendersNothing | app/config/page.tsx:227-229 | as written, no `<option>` is rendered, for any option list |
| ConfigPage.MarginTypeSelectEmpty | app/config/page.tsx:119 | the margin-type select offers no option |
| ConfigPage.SelectChildrenIntended | app/config/page.tsx:227-229 | the corrected mapping yields, for entry i, the option with that entry as key, value and text |
| ConfigPage.IntendedSelectRendersAll | app/config/page.tsx:227-229 | with the corrected mapping every option is rendered, with its own value, in order |
| BotControls.StatusColor | components/BotControls.tsx:52-66 | null → gray; running/idle/error/stopping → green/yellow/red/orange; anything else → gray |
| BotControls.DeclaredStateColors | components/BotControls.tsx:52-66 | each declared bot state gets its colour |
| BotControls.UpperChar | components/BotControls.tsx:70 | lower-case ASCII letters are upper-cased; everything else is kept |
| BotControls.Capitalize | components/BotControls.tsx:70 | the first character is upper-cased, the rest is kept, the length is preserved |
| BotControls.StatusText | components/BotControls.tsx:68-71 | "Unknown" for null, else the capitalised state name |
| BotControls.StatusTextShape | components/BotControls.tsx:68-71 | the text has the state's length and agrees with it after the first character |
| BotControls.StatusTextOfRunning | components/BotControls.tsx:68-71 | a running bot shows "Running" |
| BotControls.ButtonsExclusive | components/BotControls.tsx:100-107 | Start and Stop are never both enabled; when not loading exactly one is; a null status counts as not running |
| BotControls.StartDisabled | components/BotControls.tsx:100 | Start is disabled while loading or while the status says running (`ButtonsExclusive`) |
| BotControls.StopDisabled | components/BotControls.tsx:107 | Stop is disabled while loading, with no status, or while the status says not running (`ButtonsExclusive`) |
| BotControls.UptimeMinutes | components/BotControls.tsx:90-94 | shown iff a status exists with uptime > 0; the minutes are floor(uptime / 60000) |
| BotControls.LossWarning | components/BotControls.tsx:114-120 | the warning is shown iff a status exists with more than zero consecutive losses, and it shows that count |
| BotControls.LossWarningFollowsFetch | components/BotControls.tsx:12-20 | the warning follows the fetched status; a failed fetch leaves it; no warning before the first status |
| BotControls.FetchStatus | components/BotControls.tsx:12-20 | success stores the status and clears the error; failure sets "Failed to fetch bot status" and keeps the status |
| BotControls.RunCommand | components/BotControls.tsx:28-50 | loading is true while pending and false once settled; success refetches, failure sets the command's error |
| BotControls.HandleStart | components/BotControls.tsx:28-38 | both buttons disabled while pending, loading false once settled; failure sets "Failed to start bot" and keeps the status; success shows the refetched status or the fetch error |
| BotControls.HandleStop | components/BotControls.tsx:40-50 | the same steps with "Failed to stop bot" |
| BotControls.CommandDisablesButtons | components/BotControls.tsx:28-50 | both buttons are disabled while a command is pending, and loading is false once it settles |
| BotControls.CommandErrors | components/BotControls.tsx:28-50 | start/stop failures set their own error and keep the status; a failing refetch sets the fetch error |
| StatsDisplay.Reverse | components/StatsDisplay.tsx:129 | `reverse()` maps position i to position n - 1 - i |
| StatsDisplay.RecentTrades | components/StatsDisplay.tsx:127-129 | at most 10 rows, the last trades newest first; the first row is the final trade |
| StatsDisplay.CardColor | components/StatsDisplay.tsx:181-186 | blue when `positive` is undefined, green when true, red when false |
| StatsDisplay.SummaryCards | components/StatsDisplay.tsx:60-75 | Net Profit positive iff ≥ 0, Total Trades neutral, Win Rate positive iff ≥ 50, Best Trade always positive |
| StatsDisplay.CardColors | components/StatsDisplay.tsx:60-75 | the resulting colour of each summary card |
| StatsDisplay.SideBadge | components/StatsDisplay.tsx:140-144 | the side badge is green iff the side is LONG |
| StatsDisplay.ProfitColor | components/StatsDisplay.tsx:156-158 | the profit cell is green iff profit ≥ 0 |
| StatsDisplay.Render | components/StatsDisplay.tsx:48-60 | the loading view while loading, "No stats available" with no stats, else the dashboard with `SummaryCards` of the stats and their recent trades |
| StatsDisplay.FetchStats | components/StatsDisplay.tsx:12-21 | loading always ends false; failure keeps the stats |
| StatsDisplay.FailedFirstFetchShowsNoStats | components/StatsDisplay.tsx:12-21 | the panel first shows loading, and a failed first fetch shows "No stats available" |
| StatsDisplay.OnStatsUpdate | components/StatsDisplay.tsx:28-30 | a `stats_update` delivery replaces the stats with the payload's `stats` |
| StatsDisplay.HandleReset | components/StatsDisplay.tsx:37-46 | nothing changes unless confirmed and the reset succeeds; then the stats are refetched |
| StatsDisplay.CleanupLeavesStatsHandler | components/StatsDisplay.tsx:28-33 | the cleanup `off` leaves the handler registered, so later frames still reach it |

## Left out

- `JSON.parse` and `JSON.stringify` are foreign calls. A frame arrives already decoded as a `Decoded<P>`, and `send` records the payload instead of serialising it. An array or an object without the envelope's fields is an `Object` whose absent fields are supplied by the caller.
- Dispatch.RouteKey: `event` is a string or absent. A non-string `event` value is not modelled.
- The real transport, the real clock and the timers are left out. The 5000 ms interval is a field, and each timer firing is an explicit event. The 2000 ms status polling in BotControls is not modelled beyond `FetchStatus` itself. The 3000 ms message clear on the config page is the event `ClearTimerFired`.
- `onerror` only logs to the console. Console logging, `confirm` and `alert` are left out; `confirm` is the input `confirmed` of `HandleReset`.
- WebSocket.Client.Emit: iterates a snapshot of the bucket. The live-iteration semantics of a JS `Set` when a handler calls `on` or `off` during `forEach` are not modelled.
- The 100 ms auto-scroll timeout and `scrollIntoView` in the log viewer are left out. `autoScroll` is kept as state only.
- BotControls.UpperChar: upper-cases ASCII letters only. Unicode case mapping of `toUpperCase` is not modelled.
- ConfigPage.Page.HandleChange: values are numbers or strings (`Scalar`), and sections hold only such values, as in `BotConfig`. A key naming a property inherited from `Object.prototype` (such as `constructor`) is read as `undefined`.
- `Number(v)` parsing of input text, and float formatting (`toFixed`, `toLocaleTimeString`), are left out. Numbers are `real` or `int`.
- ConfigPage.Page.HandleSave: records only the settled state after the request. The in-flight state (`saving` true, the button disabled and showing "Saving...") is not modelled.
- Await interleavings between overlapping async handlers are not modelled: each async handler is one sequential step.
- `lib/api.ts` (the HTTP client) is not part of this model. Its results are inputs.
- `app/page.tsx` (layout) is not part of this model.
- The module-level singleton `wsClient` is not modelled as shared state. The component lemmas work on one shared handler registry passed explicitly.
- JSX and CSS beyond the derivation functions above are left out.

## Findings

| source | as written | input that shows it | evidently intended | confidence | as-written member | corrected member |
|---|---|---|---|---|---|---|
| app/config/page.tsx:227-229 | `options.map((opt) => { <option key={opt} value={opt}></option>; })`: the arrow has a block body with no `return`, so it maps every option to `undefined` | `options = ["ISOLATED", "CROSSED"]` (the margin-type select) renders no `<option>` | one `<option>` per entry, with the entry as its key, value and text | high, not executed | ConfigPage.SelectRendersNothing | ConfigPage.IntendedSelectRendersAll |
