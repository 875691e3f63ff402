# mykid-video pairing relay, modelled in Dafny

mykid-video pairs a controller app with a video client app through a 6-digit
pairing code. The relay server (`scripts/ws-server.ts`) keeps a table from pairing
code to room. A room has one optional slot per role, `client` and `control`.
Connections join a room. A new join for a taken slot closes the connection that
held it. The relay then forwards playback commands to the room's client and
tells both slots who is present (`peer_status`). On the client app side,
`client-context.tsx` checks the code (`canJoin`), opens the connection
(`connect`) and reduces each incoming message into its playback state. That
state includes a YouTube video id taken from the URL by `extractYouTubeVideoId`.

The project has these modules:

- `Wrappers`: `Option`.
- `JsonValues`: parsed JSON values and the JavaScript reads the code does on them.
  - `msg?.type` on a value that is not an object is `undefined`.
  - `!!x` is truthiness.
  - `typeof x === 'number'` is a number check.
  - `JSON.stringify` drops a property whose value is `undefined`.
- `Protocol`: the `/^\d{6}$/` test and the speed clamp, which the relay server and the client app share.
- `RelayServer`: the relay.
  - Each WebSocket is a `Connection` object with an `open` flag and its own `joinedCode` and `role`, so `room[role] !== ws` compares object identity as in JavaScript.
  - The `rooms` map is a field of class `Relay`.
  - Its methods `OnMessage`, `Join`, `Route` and `OnClose` are the `message` and `close` handlers. Each returns the sends it makes, in order, as `Send(to, message)` pairs.
  - The table updates are the functions `Occupy` and `Vacate`, and they keep the table's invariant: every key is six digits and no room is empty.
- `YouTube`: `extractYouTubeVideoId`, which is `trim()` followed by a leftmost, greedy, ASCII-case-insensitive match of five patterns tried in order.
- `ClientContext`: the client app's state.
  - The handler is a pure reducer `Receive` from state and frame to state.
  - Class `ClientProvider` holds the state variables. Its `OnMessage` performs the setter chain and is proved equal to `Receive`.
- `Pairing`: how the two apps and the server fit together.
  - The client app's join frame is accepted exactly when `canJoin` holds.
  - Every message the server relays has the effect on the client that `Applied` gives it.
- `RelayScenarios`: sequences of handler calls.
  - A reconnect replaces a stale connection for good.
  - The last connection to leave ends the session.
  - A command sent before joining gets `NOT_JOINED`.

Behaviours of the code worth knowing:

- The routing branches do not check the sender's role: a joined `client` connection can send `play` or `pause`, and `Relay.Route` routes it like the controller's.
- A second `join` from a connection that has already joined rebinds that connection to the new code and role. Its slot in the old room stays filled even after the connection closes, because the close handler looks only at the latest binding; only a later join to that slot replaces it. The model has the same behaviour (`Relay.Join`, `Relay.OnClose`).
- A message of an unknown type, or a `speed`/`seek` whose number is missing, gets `NOT_JOINED` before a join. After a join, it gets no reply at all.
- The close handler broadcasts presence even when it cleared no slot, for example when a rival had already taken the slot.

## Model

| member | source | states |
|---|---|---|
| Protocol.DigitsExactly | scripts/ws-server.ts:13-15 | `/^\d{n}$/` holds exactly when the string has length n and every character is an ASCII digit |
| Protocol.ClampSpeed | scripts/ws-server.ts:89-90 | the clamped speed lies in [0.25, 2]; it equals the input when the input is in range, and is 0.25 below the range and 2 above it |
| RelayServer.Connection.constructor | scripts/ws-server.ts:19-21 | a new connection is open and has neither a joined code nor a role |
| RelayServer.Relay.constructor | scripts/ws-server.ts:11 | the server starts with an empty room table, which satisfies the table invariant |
| RelayServer.IsSixDigit | scripts/ws-server.ts:13-15 | `isSixDigit` holds exactly for a value of type string made of six ASCII digits |
| RelayServer.Parse | scripts/ws-server.ts:31-126 | a message is a join exactly when its type is `join`, and carries its `code` and `role`; a command is read only from a message of that command's type, with its `url`, or its number for `speed` and `seek`; a message is unhandled exactly when its type is unknown or a `speed`/`seek` lacks a numeric field (`CommandFrame` and `JoinFrame` give the converse) |
| RelayServer.Forward | scripts/ws-server.ts:63-131 | a play is forwarded with its `url` as sent; an action is forwarded as a `control` message carrying `Relayed` of it: the same action, with a speed replaced by `max(0.25, min(2, speed))` |
| RelayServer.Wire | scripts/ws-server.ts:34-131 | each message the server sends is an object with its `type` and exactly the fields the source puts in it, with their values: code and role, error name, both presence flags, url (absent when undefined), action, and the speed or seconds |
| RelayServer.JoinRequest | scripts/ws-server.ts:31-36 | a join is accepted exactly when the code is a six-digit string and the role is `client` or `control`; an accepted join carries that code and role |
| RelayServer.Occupy | scripts/ws-server.ts:38-46 | a valid join puts the connection in its slot and leaves the room's other slot and every other code's room unchanged; it adds only that code; it preserves the table invariant |
| RelayServer.Vacate | scripts/ws-server.ts:140-151 | on close, a slot is freed only if it still holds the closing connection, so a replacement is never evicted; the room is removed exactly when no slot is left filled; other codes are untouched; the table invariant is preserved |
| RelayServer.Relayed | scripts/ws-server.ts:84-92 | the forwarded action is the input action, except that a speed is clamped into [0.25, 2] and is kept as it is when already in range |
| RelayServer.AckFor | scripts/ws-server.ts:63-132 | the acknowledgement names `play` for a play, and for any other command echoes exactly the action that was forwarded, including the clamped speed |
| RelayServer.JoinFrame | mykid-video-client/contexts/client-context.tsx:80 | the join frame an app sends is read by the server as a join with that code and role, and is accepted exactly when the code is six digits |
| RelayServer.CommandFrame | scripts/ws-server.ts:57-126 | every command frame the controller app sends (`sendPlay` to `sendSeek` in its main screen) is classified by the server's type tests as exactly the command it encodes |
| RelayServer.Relay.Status | scripts/ws-server.ts:162-166 | `clientPresent` and `controlPresent` hold exactly when that slot is filled by an open connection |
| RelayServer.Relay.Presence | scripts/ws-server.ts:159-169 | the broadcast sends nothing when the room is missing, and otherwise sends the room's status once to each filled slot, the client first; no other connection receives it |
| RelayServer.Relay.OnMessage | scripts/ws-server.ts:23-137 | unparseable frames send nothing and change nothing; an invalid join sends one `INVALID_JOIN` and leaves the table and bindings as they were; a valid join behaves as `Join`; before a join, any other message sends one `NOT_JOINED` and changes nothing; after a join, a command is routed as `Route` says and an unknown type sends nothing; only a join changes the table |
| RelayServer.Relay.Join | scripts/ws-server.ts:38-49 | the connection is bound to the code and role, the slot's previous holder, if it is another connection, is closed, the table becomes `Occupy` of the old one, and the sends are `joined{code, role}` to the sender followed by the presence broadcast |
| RelayServer.Relay.Route | scripts/ws-server.ts:57-137 | with the room missing nothing is sent; with its client present and open, exactly the forwarded message goes to the client and the acknowledgement to the sender; otherwise exactly one `CLIENT_NOT_CONNECTED` goes to the sender; only the sender and the room's client ever receive anything, and the table is only read |
| RelayServer.Relay.OnClose | scripts/ws-server.ts:140-153 | the closed connection keeps its binding; if it was joined to a room that exists, the table becomes `Vacate` of the old one and the presence broadcast is sent; otherwise nothing changes and nothing is sent |
| RelayScenarios.ReconnectReplacesStale | scripts/ws-server.ts:38-153 | when two new connections join one slot in turn, whether or not the room exists, and the first one's close event then arrives: the slot holds the second; the room's other slot is as it was; the first is closed; the report after the second join equals the one after the close and counts the second as present; for a code with no room yet, that report goes to the second alone and says only it is present |
| RelayScenarios.LastLeaveEndsSession | scripts/ws-server.ts:140-153 | when the only connection of a room closes, nothing is sent and the room is gone, so the next join to that code finds a room holding only itself |
| RelayScenarios.CommandBeforeJoin | scripts/ws-server.ts:52-55 | a command from a connection that has not joined gets exactly one `NOT_JOINED` and leaves the table as it was |
| YouTube.TrimBounds | mykid-video-client/contexts/client-context.tsx:38 | only white space lies before the first bound and from the second on, and the text between them neither starts nor ends with white space |
| YouTube.Trim | mykid-video-client/contexts/client-context.tsx:38 | the trimmed text is the input between the trim bounds; it is no longer than the input; it neither starts nor ends with white space; it is empty exactly when the input is all white space; an input without white space is returned as it is |
| YouTube.TrimIsUnique | mykid-video-client/contexts/client-context.tsx:38 | any cut of the input with only white space outside it and none at its ends is the trimmed text, so `trim()` removes exactly the leading and the trailing white space |
| YouTube.MatchAt | mykid-video-client/contexts/client-context.tsx:40-44 | a match at a position means that the prefix occurs there, ignoring ASCII case; the capture is the text right after it; it has at least six id characters; no id character follows it. There is no match exactly when the prefix is absent or fewer than six id characters follow |
| YouTube.Search | mykid-video-client/contexts/client-context.tsx:47-48 | what `match` returns is a video id, at least six characters from `[A-Za-z0-9_-]` |
| YouTube.SearchIsLeftmost | mykid-video-client/contexts/client-context.tsx:47 | the search returns the match at the leftmost position that has one |
| YouTube.SearchFound | mykid-video-client/contexts/client-context.tsx:47 | every result of the search is the match at some position with no match before it |
| YouTube.SearchNone | mykid-video-client/contexts/client-context.tsx:47-50 | the search finds nothing exactly when no position has a match |
| YouTube.FirstPattern | mykid-video-client/contexts/client-context.tsx:46-49 | the `for` loop over the patterns returns only video ids (which one, `FirstPatternInOrder` and `FirstPatternNone` say) |
| YouTube.FirstPatternInOrder | mykid-video-client/contexts/client-context.tsx:46-49 | the patterns are tried in order, and the first one that matches gives the result |
| YouTube.FirstPatternNone | mykid-video-client/contexts/client-context.tsx:46-50 | the result is `null` exactly when no pattern matches |
| YouTube.ExtractYouTubeVideoId | mykid-video-client/contexts/client-context.tsx:36-54 | any id returned has at least six characters, all from `[A-Za-z0-9_-]` |
| YouTube.SearchIgnoresTrim | mykid-video-client/contexts/client-context.tsx:38 | for a prefix without white space, searching the trimmed text finds exactly what searching the whole text finds |
| YouTube.TrimIsIrrelevant | mykid-video-client/contexts/client-context.tsx:38-49 | the id extracted from the trimmed URL is the one extracted from the URL as given |
| ClientContext.InitialConsistent | mykid-video-client/contexts/client-context.tsx:61-68 | the initial state is consistent: with no URL there is no video id, and speed 1 lies in [0.25, 2] |
| ClientContext.ClientProvider.constructor | mykid-video-client/contexts/client-context.tsx:61-68 | the provider starts with an empty code and the `useState` defaults, and its invariant holds |
| ClientContext.CanJoin | mykid-video-client/contexts/client-context.tsx:71 | `canJoin` holds exactly when the code is six ASCII digits |
| ClientContext.ClientJoinFrame | mykid-video-client/contexts/client-context.tsx:80 | the client app's join frame has type `join`, role `client` and the typed code |
| ClientContext.Receive | mykid-video-client/contexts/client-context.tsx:82-117 | the handler keeps the speed in [0.25, 2] and keeps the video id equal to the one extracted from the URL; it ignores an unparseable frame; a `play` with a string URL sets the URL, sets the id (empty or a video id) and turns on auto-play; a `speed` control clamps; only `joined` and `error` change the status |
| ClientContext.ApplyControl | mykid-video-client/contexts/client-context.tsx:92-111 | a `control` message changes only `isPlaying`, `playbackSpeed` and `autoPlay`; a changed speed lies in [0.25, 2]; `autoPlay` changes only by being turned off together with playing (`ControlActions` gives each action's effect) |
| ClientContext.StatusAndPresence | mykid-video-client/contexts/client-context.tsx:85-116 | `joined` sets the status to joined and `error` to error; `peer_status` sets both presence flags to the truthiness of its fields; nothing else changes |
| ClientContext.ControlActions | mykid-video-client/contexts/client-context.tsx:92-111 | `pause` clears playing, `resume` sets it, `stop` clears playing and auto-play, `speed` with a number sets the clamped speed; any other action changes nothing |
| ClientContext.UnrecognisedIgnored | mykid-video-client/contexts/client-context.tsx:85-116 | a message of an unknown type, or a `play` without a string URL, changes nothing |
| ClientContext.ReceiveAll | mykid-video-client/contexts/client-context.tsx:82-117 | handling frames one after another keeps the state consistent, and a stream of unparseable frames leaves it unchanged |
| ClientContext.ClientProvider.SetCode | mykid-video-client/contexts/client-context.tsx:61 | `setCode` replaces the code and leaves every other state variable as it was |
| ClientContext.ClientProvider.Connect | mykid-video-client/contexts/client-context.tsx:73-81 | without `canJoin` nothing changes and nothing is sent; otherwise the status becomes connecting and the join frame for the code is what the socket sends |
| ClientContext.ClientProvider.OnMessage | mykid-video-client/contexts/client-context.tsx:82-118 | the setter chain leaves the state variables equal to `Receive` of the old state and keeps them consistent |
| Pairing.ClientJoinAccepted | mykid-video-client/contexts/client-context.tsx:71-80 | the server accepts the client app's join exactly when `canJoin` held, and binds it to the `client` role under that code |
| Pairing.ForwardedCommandApplied | scripts/ws-server.ts:63-131 | every message the server forwards has on the client exactly the effect `Applied` describes; a forwarded speed is taken as it is |
| Pairing.PresenceApplied | scripts/ws-server.ts:162-167 | a presence broadcast sets the client's `peerStatus` to exactly what the server computed |
| Pairing.StatusReplies | mykid-video-client/contexts/client-context.tsx:85-116 | the server's `joined` reply moves the client app to joined; any of its errors moves it to error |

## Left out

- `scripts/start-both.ts` is not part of this model. It spawns processes, pipes their output and handles signals.
- The WebSocket transport is left out:
  - the `ws` library and the browser's `WebSocket`;
  - the text of frames, which reach the model as parsed JSON values or `Garbled`, and `JSON.stringify`'s text, which the model has as the JSON object `Wire` builds;
  - the delay between `close()` and the close event.
- A send is modelled as an attempted send. The transport drops a send to a socket that is not open, and the code swallows send exceptions. The model records every send the code makes.
- The closed rival's own close event is a separate `Relay.OnClose` call that may come later.
- Concurrency: each handler call is one atomic step.
- React machinery is left out: `useState`, `useRef`, `useCallback`, `useEffect` and the context provider. The client's state is a record plus a class holding the same variables.
- The client's `onerror` and `onclose` handlers are left out, and so is the stale `status` in the `onclose` closure.
- `connect` closing the previous socket and creating a new one is left out; `ClientProvider.Connect` returns the join frame the new socket sends once open.
- Environment lookups (`WS_PORT`, `EXPO_PUBLIC_WS_URL`) and `console.log` are left out.
- The `seek` control on the client only dispatches a DOM `CustomEvent`. That is a foreign call, so the model leaves the state unchanged for it.
- Numbers are `real`s, so JavaScript floating point, `NaN` and infinities are not modelled.
- Strings are sequences of Unicode scalar values, not UTF-16 code units.
- The server mutates room objects in place. The model has rooms as values in the `rooms` map, which is reassigned, and no other code holds a reference to a room.
- `String(inputUrl)` and the `try`/`catch` in `extractYouTubeVideoId` are left out, because the input is always a string, for which neither has an effect.
