# Reconnecting mempool WebSocket client — Dafny model

This project models the resilient event-stream core of a browser tool that
watches the Bitcoin mempool for "bitmap" inscriptions:

- `SocketClient` (file `socket_client.dfy`) models the class `WebSocketClient`
  of `src/utils/websocket.ts`. The class opens a session for its address and
  pings it every `pingInterval` while the session is OPEN. On every close it
  stops pinging and schedules one reconnect after `retryInterval`. Its message
  handler prints one line per `.bitmap` inscription of a `Mempool` update.
- `UseWebSocket` (file `use_websocket.dfy`) models the Vue composable
  `useWebSocket` of `src/composables/websocket.ts`. It is the same session
  kept in closure variables, plus a retry-timer handle and a mount/unmount
  lifecycle.
- `Inscriptions` (file `inscriptions.dfy`) models the inbound-message filter.
- `Utils` (file `utils.dfy`) models `retry` and `shortenAddress` of
  `src/utils/index.ts`.
- `Host` (file `host.dfy`) models the browser these pieces act on. It holds the
  sessions created by `new WebSocket(url)` with their `readyState` and the texts
  sent on them. It holds the timer table behind `setInterval`/`setTimeout` and
  the console lines. Handles are opaque and always fresh. `Wrappers` holds
  `Option` and `Result`.

Each stateful piece has a pure state (`Client`, `Hook`) and one function per
handler saying what the handler leaves behind (`AfterOpen`, `AfterClose`, …).
A `Step`/`Run` pair applies a trace of events. A class with the source's
fields has one method per handler, each proved to produce exactly the
function's result. Transport events carry the session they come from. The
transport delivers only the events a session's `readyState` permits: "open"
while CONNECTING, messages while OPEN or CLOSING, "error"/"close" until
CLOSED. A timer fires only while it is scheduled.

What is proved, beyond the per-handler contracts:

- **Client lifecycle invariant.** `Steady` holds after construction and the
  first `connect()`, and every later transport event and timer firing keeps
  it (a second `connect()` does not, see below): earlier sessions are
  CLOSED; a ping interval runs exactly when the current session is OPEN; and
  exactly one reconnect is pending exactly when the current session is CLOSED
  (`StepKeepsSteady`, `RunKeepsSteady`, `KeepAliveIffOpen`).
- **Second `connect()` leaks a ping.** `connect()` is public and does not close
  or un-ping the session it replaces. Calling it again while OPEN leaves two
  ping intervals running once the new session opens (`SecondConnectLeaksPing`).
- **Message filter.** Its output is exactly the lines of the qualifying
  ordinals, in ordinal order (`BitmapLinesExact`).
- **Composable teardown does not always stop it.** `onUnmounted` clears the
  timers it names but keeps the handles and the `onclose` handler. When the
  component unmounts while a session is connecting or open, the close event
  that follows schedules a retry, and the retry opens a new session
  (`UnmountThenCloseReconnects`). Only an unmount during the wait before a
  retry leaves nothing running, and nothing can restart it
  (`UnmountDuringRetryWaitIsQuiet`, `QuietStaysQuiet`).
- **`retry` shares its counter across calls.** `times` is captured once by
  `retry(fn, times, delay)` and decremented by every failure of every call of
  the returned function. The per-call bound `max(times, 0) + 1` therefore uses
  the counter's current value. Two calls together retry at most
  `max(times, 0)` times (`SharedBudget`).

Behaviour of the source that the model keeps as written:

- The message handler calls `JSON.parse` without a `try`
  (`src/utils/websocket.ts:25`), so text that is not JSON makes the handler
  throw. The model returns `Failure(SyntaxError)` and leaves the state
  unchanged.
- `WebSocketClient` (`src/utils/websocket.ts:3-64`) has no teardown: nothing
  stops its reconnect loop once `connect()` has been called.
- The composable's `onUnmounted` (`src/composables/websocket.ts:57-67`) keeps
  the `onclose` handler, so the close that follows an unmount runs line 47 and
  schedules a new retry, as described above.

## Model

| member | source | states |
|---|---|---|
| Inscriptions.FilterBitmaps | src/utils/websocket.ts:27-33 | the `forEach` loop prints exactly `BitmapLines` of the ordinals |
| Inscriptions.BitmapLinesExact | src/utils/websocket.ts:27-33 | the printed lines are exactly the lines of the ordinals whose body decodes to text ending in `.bitmap`, each once, in ordinal order |
| Inscriptions.BitmapLinesBound | src/utils/websocket.ts:27-33 | at most one line per ordinal; no line at all exactly when no ordinal qualifies |
| Inscriptions.BitmapLinesAppend | src/utils/websocket.ts:27-33 | filtering a concatenation prints the lines of the first part, then those of the second |
| Inscriptions.HandleMessage | src/utils/websocket.ts:24-35 | `"ok"` and any non-`Mempool` message print nothing; text `JSON.parse` rejects throws out of the handler; a `Mempool` update prints exactly `BitmapLines` of its ordinals |
| Inscriptions.OneBitmapExample | src/utils/websocket.ts:26-32 | an update with one ordinal `abc` whose body decodes to `foo.bitmap` prints exactly the line `foo.bitmap: https://mempool.space/tx/abc` |
| SocketClient.Fresh | src/utils/websocket.ts:4-14 | construction stores `url`, `retryInterval` (default 2000) and `pingInterval` (default 30000); no session and no ping timer |
| SocketClient.AfterConnect | src/utils/websocket.ts:16-17 | `ws` becomes a fresh CONNECTING session bound to `url`; no other field changes |
| SocketClient.AfterStartPinging | src/utils/websocket.ts:50-56 | `pingIntervalId` names a newly scheduled ping interval of `pingInterval`; nothing else changes |
| SocketClient.AfterStopPinging | src/utils/websocket.ts:58-62 | the named ping interval is cleared and the handle nulled, and nothing else changes; with a null handle nothing changes |
| SocketClient.AfterPingTick | src/utils/websocket.ts:51-55 | a tick sends `{"type":"ping"}` on `ws` exactly when `ws` is present and OPEN, and changes nothing else |
| SocketClient.AfterOpen | src/utils/websocket.ts:19-22 | after "open" the session is OPEN and a fresh ping interval runs and is named by `pingIntervalId`; nothing else changes |
| SocketClient.AfterMessage | src/utils/websocket.ts:24-35 | a message changes only the console log, by the filter's lines; a parse error changes nothing |
| SocketClient.AfterClose | src/utils/websocket.ts:41-47 | after "close" the session is CLOSED, `pingIntervalId` is null and its interval cleared, and exactly one new reconnect timer of `retryInterval` is scheduled; nothing else changes |
| SocketClient.AfterFire | src/utils/websocket.ts:46-55 | a ping interval's firing is a ping tick; a reconnect timer's firing is used up and calls `connect()` |
| SocketClient.Step | src/utils/websocket.ts:16-62 | every event keeps the client's handles and timers well formed |
| SocketClient.Run | src/utils/websocket.ts:16-62 | every trace of events keeps the client's handles and timers well formed |
| SocketClient.SteadyAfterFirstConnect | src/utils/websocket.ts:10-17 | construction and the first `connect()` reach the lifecycle invariant, with the session not yet OPEN |
| SocketClient.StepKeepsSteady | src/utils/websocket.ts:19-62 | every transport event and timer firing keeps the lifecycle invariant |
| SocketClient.RunKeepsSteady | src/utils/websocket.ts:19-62 | the lifecycle invariant holds after any trace without further `connect()` calls |
| SocketClient.KeepAliveIffOpen | src/utils/websocket.ts:19-22 | after any such trace a ping interval runs iff the session is OPEN, and a reconnect is pending iff it is CLOSED |
| SocketClient.StopPingingIdempotent | src/utils/websocket.ts:58-62 | stopping pinging twice is the same as stopping once |
| SocketClient.SecondConnectLeaksPing | src/utils/websocket.ts:16-22 | a second `connect()` while OPEN leaves two ping intervals running once the new session opens |
| SocketClient.ReconnectOpensSession | src/utils/websocket.ts:46 | a reconnect timer's firing removes it and opens a new CONNECTING session for `url` |
| SocketClient.WebSocketClient.constructor | src/utils/websocket.ts:10-14 | the object's state is `Fresh(url, retryInterval, pingInterval)` |
| SocketClient.WebSocketClient.Connect | src/utils/websocket.ts:16-17 | the new state is `AfterConnect` of the old |
| SocketClient.WebSocketClient.OnOpen | src/utils/websocket.ts:19-22 | the new state is `AfterOpen` of the old |
| SocketClient.WebSocketClient.OnMessage | src/utils/websocket.ts:24-35 | returns `HandleMessage` of the data; the new state is `AfterMessage` of the old |
| SocketClient.WebSocketClient.OnError | src/utils/websocket.ts:37-39 | an error changes no state and schedules nothing |
| SocketClient.WebSocketClient.OnClose | src/utils/websocket.ts:41-47 | the new state is `AfterClose` of the old |
| SocketClient.WebSocketClient.StartPinging | src/utils/websocket.ts:50-56 | the new state is `AfterStartPinging` of the old |
| SocketClient.WebSocketClient.StopPinging | src/utils/websocket.ts:58-62 | the new state is `AfterStopPinging` of the old |
| SocketClient.WebSocketClient.PingTick | src/utils/websocket.ts:51-55 | the new state is `AfterPingTick` of the old |
| SocketClient.WebSocketClient.Fire | src/utils/websocket.ts:46-55 | the new state is `AfterFire` of the old |
| UseWebSocket.Setup | src/composables/websocket.ts:10-18 | options default to `retryTimeout` 2000, `pingInterval` 10000, `pingMessage` `'ping'`; every closure variable starts null |
| UseWebSocket.AfterConnect | src/composables/websocket.ts:20-21 | `ws.value` becomes a fresh CONNECTING session for `url`; nothing else changes |
| UseWebSocket.AfterOpen | src/composables/websocket.ts:22-36 | after "open" the session is OPEN, `retryTimeoutId` is null with no timer cancelled, and a fresh ping interval is named by `pingIntervalId`; nothing else changes |
| UseWebSocket.AfterPingTick | src/composables/websocket.ts:31-35 | a tick sends `pingMessage` exactly when `ws.value` is OPEN, and changes nothing else |
| UseWebSocket.AfterClose | src/composables/websocket.ts:38-48 | after "close" the session is CLOSED, the ping interval is cleared and nulled, and `retryTimeoutId` names one new retry timer of `retryTimeout`; nothing else changes |
| UseWebSocket.AfterFire | src/composables/websocket.ts:31-47 | a ping interval's firing is a ping tick; a retry timer's firing is used up and calls `connect()` |
| UseWebSocket.AfterUnmount | src/composables/websocket.ts:57-67 | unmounting asks a CONNECTING or OPEN socket to close and cancels exactly the named retry and ping timers; the handles, the other timers and the other sessions keep their values |
| UseWebSocket.Step | src/composables/websocket.ts:20-67 | every event keeps the handles and timers well formed |
| UseWebSocket.Run | src/composables/websocket.ts:20-67 | every trace keeps the handles and timers well formed |
| UseWebSocket.LiveAfterMount | src/composables/websocket.ts:55 | mounting opens exactly one session for `url` and reaches the mounted lifecycle invariant |
| UseWebSocket.StepKeepsLive | src/composables/websocket.ts:22-52 | every transport event and timer firing keeps the mounted lifecycle invariant |
| UseWebSocket.RunKeepsLive | src/composables/websocket.ts:22-52 | the invariant holds after any trace without mount or unmount |
| UseWebSocket.UnmountIdempotent | src/composables/websocket.ts:57-67 | unmounting twice has no effect beyond unmounting once |
| UseWebSocket.UnmountThenCloseReconnects | src/composables/websocket.ts:47-67 | an unmount while connecting or open, followed by the close event, names a new retry timer whose firing opens a new session |
| UseWebSocket.UnmountDuringRetryWaitIsQuiet | src/composables/websocket.ts:57-67 | an unmount while waiting to retry leaves every session CLOSED and no timer scheduled |
| UseWebSocket.QuietStaysQuiet | src/composables/websocket.ts:20-67 | from that state no trace without a new mount opens a session or sends anything |
| UseWebSocket.WebSocketHook.constructor | src/composables/websocket.ts:10-18 | the closure variables are `Setup(options)` |
| UseWebSocket.WebSocketHook.Connect | src/composables/websocket.ts:20-21 | the new state is `AfterConnect` of the old |
| UseWebSocket.WebSocketHook.OnOpen | src/composables/websocket.ts:22-36 | the new state is `AfterOpen` of the old |
| UseWebSocket.WebSocketHook.PingTick | src/composables/websocket.ts:31-35 | the new state is `AfterPingTick` of the old |
| UseWebSocket.WebSocketHook.OnClose | src/composables/websocket.ts:38-48 | the new state is `AfterClose` of the old |
| UseWebSocket.WebSocketHook.OnError | src/composables/websocket.ts:50-52 | an error changes no state |
| UseWebSocket.WebSocketHook.Fire | src/composables/websocket.ts:31-47 | the new state is `AfterFire` of the old |
| UseWebSocket.WebSocketHook.Mount | src/composables/websocket.ts:55 | mounting is one `connect()` |
| UseWebSocket.WebSocketHook.Unmount | src/composables/websocket.ts:57-67 | the new state is `AfterUnmount` of the old |
| Utils.SliceEnds | src/utils/index.ts:24 | `slice(0, 6)` is the first `min(6, n)` characters and `slice(-4)` the last `min(4, n)` |
| Utils.ShortenAddress | src/utils/index.ts:23-25 | the first `min(6, n)` characters, `...`, the last `min(4, n)` characters |
| Utils.ShortenedLength | src/utils/index.ts:24 | an address of at least 10 characters shortens to 13: six, `...`, four |
| Utils.Settle | src/utils/index.ts:6-19 | one call runs `fn` at least once and at most `max(times, 0) + 1` times; with `times <= 0` exactly once, passing its outcome through |
| Utils.SettleStopsAtFirstSuccess | src/utils/index.ts:8-10 | the call settles as its last attempt did, and every earlier attempt failed |
| Utils.SettleRejectsIffAllFail | src/utils/index.ts:11-13 | the call rejects iff all `max(times, 0) + 1` attempts fail, with the last attempt's error |
| Utils.SharedBudget | src/utils/index.ts:3-12 | two calls of the returned function together retry at most `max(times, 0)` times; after a rejection the next call attempts once |
| Utils.Retrying.constructor | src/utils/index.ts:1-5 | `retry(fn, times, delay)` captures `fn`, `times` (default 0) and `delay` (default 0) |
| Utils.Retrying.Call | src/utils/index.ts:6-19 | one call settles as `Settle` says, passes the same `args` to every attempt, and spends one unit of `times` per failure |

## Left out

- `JSON.parse` and `base64ToUtf8` are not part of this model: the first is
  built in, the second is imported from a module not shown. Both are
  parameters (`Codec`). `JSON.parse` is seen only through
  `res?.msg_type === 'Mempool'`.
- A `Mempool` message without `data.ordinals` or an ordinal without
  `inscription_data` makes the handler throw a `TypeError`, possibly after
  printing the lines of earlier ordinals. The model assumes well-shaped
  updates.
- Console output other than the filter's lines (connect, close and error
  messages) is not modelled.
- Real time is not modelled: timers are entries of a table that fire when a
  `Fired` event names them, and the periods and delays are only recorded.
  `retry`'s `delay` is stored and otherwise unused, because attempts are
  modelled back to back.
- Concurrency is not modelled: events are one sequential trace. Calls of
  `retry`'s returned function are modelled one after another; overlapping
  calls interleaving on the shared counter are not.
- Promises and `await` are not modelled. `fn`'s reply is a function of the
  arguments and of how many times `fn` has run before, which covers a
  stateful action whose behaviour depends only on those.
- The transport moves `readyState` only on "open", "close" and `close()`.
  A CLOSING state begun by the server is not modelled, and neither is a
  transport that reports "error" and never "close". The client would then
  stay stalled with no reconnect.
- Vue's `ref` reactivity is not modelled. Neither is the caller's use of the
  returned `ws`, for example to install its own `onmessage`.
- Browser timer handles are integers, so `clearTimeout(retryTimeout)` at
  `src/composables/websocket.ts:27` could cancel an unrelated timer whose
  handle happens to equal the delay. The model treats the call as cancelling
  nothing.
- Utils.Settle / Utils.Retrying.Call: `times` is assumed to be an integer.
  The source's `times-- <= 0` (`src/utils/index.ts:12`) also accepts other
  numbers: with `times` 1.5 a call retries twice, and with `NaN` the test is
  never true, so a call that keeps failing retries forever.
- Strings are sequences of Dafny characters, not UTF-16 code units. `slice`
  on addresses with characters outside the Basic Multilingual Plane counts
  differently.
- Reconnection is unbounded and at a fixed interval, as in the source. No
  backoff is modelled because none exists.
