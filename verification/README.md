# Shared drawing board: board store and client synchronisation engine

This project models the two stateful parts of a shared whiteboard in Dafny.

- **The server's board store** (`DrawingBoardService`) keeps an ordered list of draw actions.
  - Adding a point appends it at the tail.
  - Adding a clear action wipes the list, and the clear action itself is never stored.
  - `clear()` wipes the list.
  - `getActions()` hands out a copy.
- **The browser client's synchronisation engine** (`sketch.js`) holds this state:
  - the local cache of actions (`points`);
  - the push-channel flags (`connected`, the push client object, the held fallback poller id);
  - the throttle clock (`lastSent`);
  - the drawing flag (`isDrawing`) and the user's colour.

  It reacts to these callbacks:
  - throttled local samples;
  - push messages on `/topic/board` and `/topic/clear`;
  - snapshot polls of `GET /api/board`;
  - the clear button;
  - push-handshake success and failure;
  - the reconnect and poll timers;
  - window resizes;
  - the random-colour request.

Each callback is one `Event`. `Client.Step` maps a state and an event to the next state and the effects the callback performs, in order. Effects include push sends, HTTP requests, starting and cancelling timers, and painting. Nothing is sent or painted: effects are returned as data. `ClientTraces.Run` folds `Step` over a trace of events. The trace lemmas are stated over `Run`.

Files:
- `actions.dfy`: the shared `Action` value.
- `board_store.dfy`: the server store, its replay over call histories, and an independent "effective board" definition.
- `hex_color.dfy`: the client's fallback colour, `'#'` plus `n.toString(16).padStart(6, '0')`.
- `client.dfy`: the client state, events, effects, one handler per callback, and `Step`.
- `client_traces.dfy`: the throttle, send-count, poller and cache lemmas over traces.
- `scenarios.dfy`: concrete runs that join client and server.

Three facts about the code shape the model:
- **Send before paint.** The code sends a new local point before painting it and appending it to the cache (`sketch.js` lines 60-64). `OnSample` emits the send effect first.
- **Two-valued connection state.** The code keeps only a boolean `connected`. "Connecting", "online" and "offline" exist only as the status label. The model keeps the boolean and emits the label as a `ShowStatus` effect.
- **Echo duplicates are kept.** A point sent over push is appended locally. The server broadcasts it back unchanged, and the client appends it again. `EchoIsAppendedTwice` states the duplicate.

## Model

| member | source | states |
|---|---|---|
| BoardStore.AddAction | src/main/java/com/example/board/service/DrawingBoardService.java:15-21 | adding a clear action leaves the store empty; adding any other action grows it by exactly one, keeps every earlier action in place and puts the new one at the tail; no clear action is ever kept |
| BoardStore.Clear | src/main/java/com/example/board/service/DrawingBoardService.java:27-29 | after `clear()` the board read back is empty |
| BoardStore.AddAllAppends | src/main/java/com/example/board/service/DrawingBoardService.java:15-20 | adding a sequence of point actions appends exactly that sequence, in insertion order |
| BoardStore.AddAllFromEmpty | src/test/java/com/example/board/service/DrawingBoardServiceTest.java:11-19 | on a new service, the board read back is exactly the point actions added |
| BoardStore.ClearActionForgetsHistory | src/test/java/com/example/board/service/DrawingBoardServiceTest.java:21-27 | adding a clear action leaves the board empty whatever was added before it |
| BoardStore.ReplayIsEffective | src/main/java/com/example/board/service/DrawingBoardService.java:15-29 | for every call history, the store holds exactly the actions added after the most recent wipe (or all of them if nothing wiped), per an independent definition |
| BoardStore.ReplayValid | src/main/java/com/example/board/service/DrawingBoardService.java:16-20 | no call history leaves a clear action stored |
| BoardStore.SnapshotStaysPrefix | src/main/java/com/example/board/service/DrawingBoardService.java:23-25 | a copy read earlier stays an unchanged initial segment of every later copy until something wipes the board, and the board grows by one per later addition |
| HexColor.ParseToHex | src/main/resources/static/js/sketch.js:136 | the base-16 numeral of `n` reads back as `n` |
| HexColor.PadStart | src/main/resources/static/js/sketch.js:136 | left padding reaches the target width with the fill character and keeps the original string as the suffix |
| HexColor.RandomColorFallback | src/main/resources/static/js/sketch.js:135-137 | for every draw `n` in [0, 0xFFFFFF) the colour is `'#'` followed by exactly six lower-case hex digits that decode back to `n` |
| HexColor.FallbackInjectiveNeverWhite | src/main/resources/static/js/sketch.js:136 | distinct draws give distinct colours, and the fallback never yields `#ffffff` |
| Client.RouteFor | src/main/resources/static/js/sketch.js:93 | the push channel is chosen exactly when `connected` holds and a push client exists |
| Client.SendAction | src/main/resources/static/js/sketch.js:92-105 | an outgoing point becomes exactly one send carrying that point: a publish to `/app/draw` exactly when routed over push, a POST to `/api/draw` otherwise |
| Client.OnPress | src/main/resources/static/js/sketch.js:46-53 | mouse or touch down/up sets `isDrawing` and changes nothing else |
| Client.OnSample | src/main/resources/static/js/sketch.js:55-67 | a sample is accepted exactly when drawing and at least 20 ms after `lastSent`. An accepted sample sets `lastSent` to the sample time and appends `{x, y, userColor, clear:false}` at the tail. It issues exactly one send of that action, a publish to `/app/draw` exactly when connected with a push client and otherwise a POST to `/api/draw`, followed by its paint. A rejected sample changes nothing and does nothing |
| Client.OnFallbackSendSettled | src/main/resources/static/js/sketch.js:97-103 | a settled fallback send, successful or failed, changes no state and issues nothing: no queue, no retry |
| Client.OnPushAction | src/main/resources/static/js/sketch.js:149-158 | an inbound clear empties the cache; any other inbound action is appended at the tail and painted; an unreadable message leaves everything unchanged |
| Client.OnPushClear | src/main/resources/static/js/sketch.js:159-161 | a clear broadcast empties the cache and blanks the canvas, touching nothing else |
| Client.OnRefresh | src/main/resources/static/js/sketch.js:80-82 | a refresh only requests the board snapshot |
| Client.OnSnapshot | src/main/resources/static/js/sketch.js:80-90 | a successful snapshot replaces the cache with exactly the server's list; a non-ok status or an error leaves the state unchanged and issues nothing |
| Client.OnClearClicked | src/main/resources/static/js/sketch.js:107-113 | the clear button publishes to `/app/clear` exactly when push is available and posts to `/api/clear` otherwise; in both cases the cache is not touched yet |
| Client.OnFallbackClearSettled | src/main/resources/static/js/sketch.js:115-118 | once the fallback clear request settles, the cache is empty whether or not it succeeded |
| Client.OnConnectAttempt | src/main/resources/static/js/sketch.js:140-144 | a connection attempt shows "connecting", creates the push client and opens the channel, nothing else |
| Client.OnConnectOk | src/main/resources/static/js/sketch.js:145-161 | handshake success sets `connected` and drops the poller id. It shows "online" first and ends by subscribing to `/topic/board` then `/topic/clear`. Between them comes one cancel exactly when a poller was held, and nothing else: no poller is started, no reconnect is scheduled, nothing is sent |
| Client.OnConnectFailed | src/main/resources/static/js/sketch.js:162-170 | failure clears `connected` and holds a poller id. It shows "offline" first and ends with one reconnect scheduled after 3000 ms. Between them comes one 5000 ms poller start exactly when none was held, and nothing else: nothing is cancelled, opened or sent |
| Client.OnResize | src/main/resources/static/js/sketch.js:39-44 | the script's own resize handler leaves the whole state, `points` included, unchanged, resizes the canvas and repaints the cache as it is; the canvas library's redraw inside `resizeCanvas` is not modelled (see "Left out") |
| Client.OnColorFetched | src/main/resources/static/js/sketch.js:120-133 | a successful colour request adopts the server's colour. Otherwise the colour is the six-digit lower-case fallback decoding to the random draw. The chosen colour is displayed |
| Client.OnSetup | src/main/resources/static/js/sketch.js:18-31 | page start requests a colour, starts a connection attempt and requests the first snapshot, in that order |
| Client.Step | src/main/resources/static/js/sketch.js:55-170 | every callback keeps "connected implies no poller held". Only an accepted sample moves `lastSent`. Only connection success or failure touches the poller. The cache either stays, is emptied, is replaced by a snapshot, or gains one action at the tail |
| Client.StepDrawSends | src/main/resources/static/js/sketch.js:58-64 | an accepted sample issues exactly one point send; every other callback issues none |
| ClientTraces.ThrottleSpacing | src/main/resources/static/js/sketch.js:55-66 | over any trace, accepted samples come at least 20 ms after the previous `lastSent`, any two are at least 20 ms apart, and the last is at least `20·(k-1)` ms after the first |
| ClientTraces.BurstAcceptsAtMostOne | src/main/resources/static/js/sketch.js:55-66 | however many samples fall inside one 20 ms window, at most one is accepted |
| ClientTraces.BurstSendsAtMostOne | src/main/resources/static/js/sketch.js:55-66 | however many samples fall inside one 20 ms window, at most one point send leaves the client |
| ClientTraces.OneSendPerAcceptedSample | src/main/resources/static/js/sketch.js:58-64 | over any trace, the number of point sends equals the number of accepted samples |
| ClientTraces.RunPreservesInv | src/main/resources/static/js/sketch.js:145-170 | from a state where "connected implies no poller held", every trace keeps it |
| ClientTraces.ConnectOkPollers | src/main/resources/static/js/sketch.js:145-148 | handshake success leaves no poller live and never two at once |
| ClientTraces.ConnectFailedPollers | src/main/resources/static/js/sketch.js:162-167 | a failure leaves exactly one poller live and never two at once, however many failures came before |
| ClientTraces.StepPollers | src/main/resources/static/js/sketch.js:148-167 | each callback leaves the number of live pollers equal to whether a poller id is held, never passing through two |
| ClientTraces.RunPollers | src/main/resources/static/js/sketch.js:145-170 | over any trace, pollers started minus pollers cancelled always equals whether an id is held: at most one poller is ever live |
| ClientTraces.ConnectedNoLive | src/main/resources/static/js/sketch.js:145-170 | from page start, in every state where the push channel is up, the pollers started minus those cancelled is zero: no fallback poller is live |
| ClientTraces.CacheOnlyGrows | src/main/resources/static/js/sketch.js:55-158 | between wipes and snapshots the cache only grows at the tail, by exactly one action per accepted sample or inbound point |
| Scenarios.EchoIsAppendedTwice | src/main/resources/static/js/sketch.js:59-64 | a connected client's own point is published and appended, and the server's unchanged echo (`/topic/board`, line 155) appends it a second time |
| Scenarios.StrokeReachesOtherClient | src/main/java/com/example/board/controller/RealtimeDrawingController.java:18-23 | a published point is stored at the tail of the server board. Another client receives it as exactly one more cached action, with the same coordinates and colour |
| Scenarios.ConnectedClearWaitsForBroadcast | src/main/resources/static/js/sketch.js:107-113 | a clear while connected only publishes; the cache empties when the `/topic/clear` broadcast arrives |
| Scenarios.OfflineClearEmptiesCache | src/main/resources/static/js/sketch.js:115-118 | offline, clear posts to `/api/clear` and then empties the cache and blanks the canvas, whatever the request's outcome |
| Scenarios.StartupThenConnect | src/main/resources/static/js/sketch.js:140-161 | from page start, a successful handshake leaves the client connected, subscribed, routing over push and with no poller live |
| Scenarios.DropWhileConnected | src/main/resources/static/js/sketch.js:162-170 | a channel failure while connected leaves the client on HTTP, with exactly one poller live and a reconnect scheduled |

## Left out

- Painting and the DOM are left out because they are calls into libraries not modelled here. This covers p5.js `drawPoint`, `renderBoard`, `background`, `ellipse`, the DOM side of `updateStatus`, and the colour swatch. They appear only as the effects `PaintPoint`, `Repaint`, `ShowStatus` and `ShowColor`.
- `fetch`, SockJS/STOMP, `setInterval`, `setTimeout` and `clearInterval` are foreign I/O. Their calls are effects and their outcomes are events: `Snapshot`, `FallbackSendSettled`, `FallbackClearSettled`, `ColorFetched`, `ConnectOk`, `ConnectFailed`, `ReconnectTimer` and `PollTick`.
- `PollTick` always requests a snapshot. The model does not forbid a tick from a cancelled poller. `ConnectedNoLive` shows that no poller is live while connected, so no such tick occurs then.
- `ConnectFailed` stands for every call of the push client's error callback. That covers a failed handshake and a channel that drops after connecting.
- `Math.random` is floating point, so the model takes the integer `Math.floor(Math.random() * 0xFFFFFF)` as a parameter of type `Rand24`.
- `performance.now()` and the mouse coordinates are floating point. They are modelled as integers, so fractional milliseconds and sub-pixel positions are not represented.
- Canvas sizing (`adjustedWidth`, `adjustedHeight`) is left out: it is page layout with float multiplication and `Math.round`. `ResizeCanvas` carries no dimensions.
- Asynchronous interleaving is left out. Each callback, and each continuation after an `await`, is one atomic step, because the script is single-threaded.
- The server's `CopyOnWriteArrayList` concurrency is left out. The store is a `seq` with one call at a time.
- JSON parsing is left out. A `/topic/board` body is either a well-formed action or `Unparseable`. The JavaScript truthiness of a non-boolean `clear` field and missing fields are not modelled.
- The Spring controllers (`DrawingController.java`, `RealtimeDrawingController.java`) are left out; they only forward to the store. `Scenarios` takes the push broadcast to echo the action unchanged.
- The server's colour endpoint is not modelled. It formats `#%06X`: upper case, over [0, 0xFFFFFF] inclusive. The client fallback is lower case over [0, 0xFFFFFF), which is why it never yields white.
- `BoardStore.GetActions` has no contract. A Dafny sequence is an immutable value, so "returns a copy" and "reading does not change the store" hold by construction. `SnapshotStaysPrefix` states what a copy guarantees across later calls.
- Client.OnResize: p5's `resizeCanvas` clears the canvas and redraws, which runs `draw()` once more. During a held press with the throttle open, that extra `draw()` would send and cache one point that the following repaint of the earlier copy does not show. This re-entry into library code is not modelled, so `OnResize` promises that the state is unchanged.
- Console logging (`console.warn`) is left out: it has no effect on the state.
