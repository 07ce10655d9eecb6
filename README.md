# Formal Snake client: a Dafny model of the browser-side connection and view logic

The browser client of Formal Snake shows a snake game that a remote server runs.
Three pieces of the client carry behaviour that can be stated precisely, and
this project models them:

- **The connection service** (`frontend/src/services/websocket.js`): one
  object that holds the browser socket, a table of listeners keyed by event
  name, and a reconnect counter bounded by 5. It sends `{type, payload}`
  frames only while the socket is open. It turns each inbound frame that
  parses into a `message` event and, when the frame's `type` is truthy, into a
  second event named by that `type`. In `websocket.dfy` it is the class `Connection.WebSocketService`.
  The browser drives it: socket callbacks and reconnect timers are methods
  that the environment calls. Every socket ever constructed keeps its own
  ready-state, so callbacks from a socket that `ws` no longer holds still act
  on the service, as they do in the browser. What the service does to the
  outside world is kept in two logs:
  - `transport`: the calls it makes on sockets;
  - `delivered`: the listener calls made by `emit`.
- **The board** (`frontend/src/components/GameBoard.jsx`), in `gameboard.dfy`:
  - the defaults for missing state fields;
  - the arrow-and-space key filter;
  - the row-major enumeration of a `gridWidth × gridHeight` board, as an
    imperative method with nested loops;
  - the head > body > food > empty shading of each cell;
  - the status blocks and the status text.
- **The application state** (`frontend/src/App.jsx`), in `app.dfy`:
  - the functional updaters that merge server payloads into the game state
    record;
  - the start and back-to-menu transitions;
  - the handlers that forward form and key actions to the service.

`values.dfy` holds JavaScript values: the JSON shapes plus `undefined`,
truthiness, property reads, and the conversion of a value to a property name.
`state.dfy` holds the game state record, which `App.jsx` keeps and
`GameBoard.jsx` reads. It also holds the partial objects that get spread over
that record.

Properties proved:

- **Listener table:**
  - `off` filters by identity. Every registration of the callback goes, and
    the others stay, in order and with their multiplicity.
  - `emit` calls each registration once, in order.
- **Reconnect counter:** it never exceeds 5. Six closes in a row with no open
  between them arm five reconnects and then emit
  `maxReconnectAttemptsReached`.
- **Inbound frames:** a frame that fails to parse emits nothing.
- **Board:**
  - it has exactly `width * height` cells, and cell (x, y) sits at index
    `y * width + x`;
  - no cell is drawn twice;
  - the head is drawn exactly once when it lies on the board;
  - exactly one status block is shown for any pair of flags.
- **Merge:** the shallow merge obeys its identity, replacement, idempotence
  and composition laws.
- **Key press end to end:** a key press sends one `PLAYER_INPUT` frame exactly
  when the key is an arrow or space and the socket is open.

Behaviour a reader might expect of such a client but which the code does not
have, and what the code (and so the model) does instead:

| Not in the code | Code (and model) |
|---|---|
| Reconnects without limit, every 5000 ms | Stops after 5 attempts, at 3000 ms |
| `disconnect()` cancels reconnection | It does not cancel it (`Connection.DisconnectDoesNotStopReconnect`) |
| `connect` is a no-op while connecting or open | It builds a new socket whatever the current state (`Connection.ConnectTwiceKeepsBothSockets`) |
| Inbound frames are classified by a `snake` field | They are classified by their `type` field |
| Listener faults are isolated | They are not |
| `quit` and retried config delivery exist | Neither exists |

## Model

| member | source | states |
|---|---|---|
| `Connection.WebSocketService.constructor` | frontend/src/services/websocket.js:2-8 | The service starts with no socket, the attempt counter at 0, an empty listener table, and nothing sent, armed or delivered. |
| `Connection.WebSocketService.On` | frontend/src/services/websocket.js:75-80 | The callback is appended at the end of the event's list. The list is created if the event has none. Every other event's list is unchanged. |
| `Connection.WebSocketService.Off` | frontend/src/services/websocket.js:82-86 | The event's list becomes the list without that callback. An event with no list leaves the table unchanged. |
| `Connection.OffFiltersByIdentity` | frontend/src/services/websocket.js:84 | After `off`, no registration of the callback is left. Every other registration keeps its multiplicity and its original order. |
| `Connection.OffUnregisteredKeepsList` | frontend/src/services/websocket.js:82-86 | `off` of a callback that is not registered leaves the list as it is. |
| `Connection.OffUndoesOn` | frontend/src/services/websocket.js:75-86 | `on` followed by `off` of the same callback leaves the same list as `off` alone. |
| `Connection.OffSilencesCallback` | frontend/src/services/websocket.js:82-92 | Once a callback is removed, emitting the event never calls it. |
| `Connection.WebSocketService.Emit` | frontend/src/services/websocket.js:88-92 | One call per registered callback, in registration order, with the same data. An event with no list produces no calls. |
| `Connection.WebSocketService.Connect` | frontend/src/services/websocket.js:10-49 | Normally a fresh socket in state CONNECTING becomes `ws`, with one construct call and no events. If the constructor throws, `ws` is unchanged and `error` is emitted with the thrown value. There is no guard against an existing socket. |
| `Connection.WebSocketService.OnOpen` | frontend/src/services/websocket.js:14-18 | The socket becomes OPEN, the counter resets to 0, and `connected` is emitted with `true`. |
| `Connection.Classify` | frontend/src/services/websocket.js:20-32 | A parse failure emits nothing. A parsed frame emits `message` with the whole value first. If and only if its `type` is truthy, it then emits a second event named by `type` and carrying `payload`. |
| `Connection.WebSocketService.OnMessage` | frontend/src/services/websocket.js:20-32 | The listener calls are those of the events `Classify` yields, in order. Nothing else changes, including for a frame that fails to parse. |
| `Connection.WebSocketService.OnClose` | frontend/src/services/websocket.js:34-38 | The socket becomes CLOSED and `connected` is emitted with `false`. Then the reconnect step follows: below 5 it adds one attempt and one timer; at 5 it emits `maxReconnectAttemptsReached`. |
| `Connection.WebSocketService.OnError` | frontend/src/services/websocket.js:40-43 | `error` is emitted with the event. Nothing else changes. |
| `Connection.WebSocketService.AttemptReconnect` | frontend/src/services/websocket.js:51-63 | Below the bound, the counter goes up by exactly one and one timer is armed. At the bound, the counter is unchanged, no timer is armed, and `maxReconnectAttemptsReached` is emitted. The counter never exceeds 5. |
| `Connection.WebSocketService.ReconnectTimerFires` | frontend/src/services/websocket.js:56-58 | An armed timer is consumed and `connect()` runs with the default URL. |
| `Connection.WebSocketService.Send` | frontend/src/services/websocket.js:65-72 | If `ws` is set and OPEN, exactly one `{type, payload}` frame goes out on it. Otherwise nothing goes out. |
| `Connection.WebSocketService.Disconnect` | frontend/src/services/websocket.js:94-99 | `ws` ends up null. An existing socket gets one close call, and moves to CLOSING if it was CONNECTING or OPEN. Without a socket nothing changes, so a second call does nothing. |
| `Connection.WebSocketService.StartGame` | frontend/src/services/websocket.js:102-104 | It is `send` with tag `START_GAME` and the config as payload. |
| `Connection.WebSocketService.SendInput` | frontend/src/services/websocket.js:106-108 | It is `send` with tag `PLAYER_INPUT` and payload `{key}`. |
| `Connection.WebSocketService.RestartGame` | frontend/src/services/websocket.js:110-112 | It is `send` with tag `RESTART_GAME` and no payload. |
| `Connection.DisconnectDoesNotStopReconnect` | frontend/src/services/websocket.js:94-99 | Sequence: open, `disconnect`, then the old socket's close. The close still arms one reconnect, and when it fires a new socket is constructed. |
| `Connection.ReconnectGivesUpAfterFive` | frontend/src/services/websocket.js:51-63 | Six closes with no open between them. The first five each arm a reconnect. The sixth arms none and emits `maxReconnectAttemptsReached`, once. |
| `Connection.TwoListenersInOrder` | frontend/src/services/websocket.js:88-92 | Two callbacks registered for one event are each called once, in registration order, for one frame of that `type`. |
| `Connection.MalformedFrameIsDropped` | frontend/src/services/websocket.js:20-32 | A frame that does not parse emits nothing. The next valid frame still emits `message` and then its `type`. |
| `Connection.ConnectTwiceKeepsBothSockets` | frontend/src/services/websocket.js:10-12 | A second `connect` while the first socket is open builds another socket and leaves the first one open. |
| `Board.WithDefaults` | frontend/src/components/GameBoard.jsx:4 | Each absent field takes the application's initial value: snake `[]`, food `null`, score 0, not over, not started, 20 × 20. A present field passes through. |
| `Board.HandleKeyDown` | frontend/src/components/GameBoard.jsx:8-14 | Only `ArrowUp`, `ArrowDown`, `ArrowLeft`, `ArrowRight` and `' '` are forwarded, once and unchanged, with the default prevented. Every other key is ignored. |
| `Board.CellShade` | frontend/src/components/GameBoard.jsx:25-40 | Head if and only if the cell is `snake[0]`, so an empty snake has no head. Body if and only if some segment is there and it is not the head. Food if and only if food is non-null, is there, and no segment is there. Otherwise empty. |
| `Board.RenderBoard` | frontend/src/components/GameBoard.jsx:21-46 | The nested loops produce the row-major grid: y outer, x inner. A negative bound gives no cells. |
| `Board.GridSize` | frontend/src/components/GameBoard.jsx:23-24 | The grid has `width * height` cells. |
| `Board.GridAt` | frontend/src/components/GameBoard.jsx:21-45 | Row-major order: each (x, y) in range appears at index `y * width + x`, with the shade of (x, y). |
| `Board.GridIndex` | frontend/src/components/GameBoard.jsx:21-45 | Every index holds a cell inside the grid whose coordinates give back that index. |
| `Board.GridCellsDistinct` | frontend/src/components/GameBoard.jsx:21-45 | Every cell lies inside the grid and carries the shade of its coordinates. No (x, y) appears twice. |
| `Board.HeadDrawnOnce` | frontend/src/components/GameBoard.jsx:27-34 | At most one cell is a head, and it is `snake[0]`. When the head lies on the board it is drawn there. |
| `Board.Panels` | frontend/src/components/GameBoard.jsx:69-86 | Exactly one block is shown. It is "waiting" if and only if neither flag is set, "game over" if and only if over, and the hint if and only if started and not over. |
| `Board.StatusLabel` | frontend/src/components/GameBoard.jsx:91 | The text is `Waiting` if and only if not started, `Game Over` if and only if started and over, and `Active` if and only if started and not over. |
| `Board.LabelMatchesPanel` | frontend/src/components/GameBoard.jsx:69-91 | The status text names the block shown, except in one case: over but never started. Then the block says "Game Over!" and the text says `Waiting`. |
| `App.WithConnected` | frontend/src/App.jsx:22-24 | `connected` takes the new value and every other field is unchanged. |
| `App.MergeState` | frontend/src/App.jsx:26-28 | Each field that is present in the payload overwrites the state. Each absent field keeps its value. |
| `App.MergeLaws` | frontend/src/App.jsx:26-28 | Merging `{}` is the identity. Merging a full state replaces everything. Merging twice is merging once. Two merges equal one merge of the overlaid payloads. |
| `App.MarkStarted` | frontend/src/App.jsx:30-32 | `gameStarted` becomes `true` unless the payload carries its own value, which then wins. Everything else is as in `MergeState`. |
| `App.MarkOver` | frontend/src/App.jsx:34-36 | `gameOver` becomes `true` unless the payload carries its own value, which then wins. Everything else is as in `MergeState`. |
| `App.StartGameState` | frontend/src/App.jsx:57-64 | The view becomes the game. Only `gridWidth` and `gridHeight` are taken from the config. |
| `App.BackToMenu` | frontend/src/App.jsx:74-85 | The view returns to the welcome form. Snake, food, score, gameOver and gameStarted reset to their initial values. `connected` and the grid size are kept. |
| `App.BackToMenuAfterStart` | frontend/src/App.jsx:57-85 | After start then back-to-menu, the grid chosen on the form and the connection flag survive, and the waiting block shows again. |
| `App.BoardSeesAppState` | frontend/src/App.jsx:8-17 | The board receives every field, so no default applies. The board's defaults are exactly the application's initial state. |
| `App.InitialBoardIsEmpty` | frontend/src/App.jsx:7-17 | The application starts on the welcome view and not connected. Its board would be 20 × 20 = 400 cells, all empty, under the waiting block and the text `Waiting`. |
| `App.HandleStartGame` | frontend/src/App.jsx:57-67 | The state changes are those of `StartGameState`. Exactly one `START_GAME` frame carries the config if the socket is open. |
| `App.HandleKeyPress` | frontend/src/App.jsx:69-72 | The key goes out verbatim as one `PLAYER_INPUT` frame `{key}` when the socket is open, and nothing goes out otherwise. |
| `App.KeyDown` | frontend/src/App.jsx:93-98 | A key down on the game view sends exactly one `PLAYER_INPUT` frame with the pressed key when the key is an arrow or space and the socket is open. Otherwise nothing is sent. The default is prevented exactly for those keys. |

## Left out

- Socket transport: the socket protocol itself (RFC 6455) and the browser's
  `WebSocket` object are not modelled.
  - Ready-state changes come from the environment methods `OnOpen`,
    `OnMessage`, `OnClose` and `OnError`.
  - Their preconditions admit only what a browser does: open only from
    CONNECTING, messages only on an OPEN socket, close only on a socket not yet
    CLOSED.
  - Whether the `WebSocket` constructor throws is a parameter of `Connect`.
- `JSON.parse` and `JSON.stringify` (RFC 8259) are not modelled.
  - What parsing yields is a parameter of `OnMessage`: `None` when it throws.
  - A sent frame is recorded as the `{type, payload}` object before
    serialisation. So `JSON.stringify` dropping `undefined` members (for
    example the missing payload of `RESTART_GAME`) is not modelled.
- Time: a reconnect timer is a count of armed timers. The 3000 ms interval is
  only a constant.
- `connect()`'s default argument: every caller inside the model passes the
  default URL explicitly.
- Listener callbacks are identities only:
  - what they do is not modelled; the application's updaters are modelled
    separately, as functions;
  - a callback that throws would stop `forEach` and propagate, and this is not
    modelled;
  - a callback that calls `on` or `off` while `emit` runs is not modelled.
- The listener table is a map with no inherited keys. The JavaScript `{}` also
  answers inherited names such as `toString`, for which `on` and `emit` would
  throw.
- Reading `data.type` when the parsed value is `null` throws in JavaScript
  after `message` has been emitted, and the throw is caught. The model reads
  it as `undefined`, which has the same observable effect.
- Numbers are integers. Fractions, `NaN` (from the form's `parseInt`) and the
  exponent form of very large numbers when used as event names are not
  modelled.
- The application's listener wiring is not modelled:
  - the effect that registers the handlers, connects on mount and disconnects
    on unmount (frontend/src/App.jsx:20-55);
  - the `error` and `maxReconnectAttemptsReached` handlers, which only log.
- App.MergeState: payloads are records of the eight known fields. Other
  properties a server payload may carry (such as `gameWon`) and values of
  another JavaScript type are not modelled.
- Rendering is not modelled: the JSX markup, class names, the score,
  snake-length and grid texts, the connection-status text
  (frontend/src/components/GameBoard.jsx:90), `console` output, and the
  module-level singleton export.
- frontend/src/services/sound.js and frontend/src/components/Welcome.jsx are
  not part of this model:
  - sound.js is audio synthesis over the Web Audio interface;
  - Welcome.jsx is a form whose only logic is `parseInt`.
