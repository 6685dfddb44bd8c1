# Presence sync for the virtual classroom, modelled in Dafny

The classroom server keeps a process-wide registry `players` that maps each
socket.io connection id to `{ position, rotation }`. It has three handlers:

- `connection` sends the newcomer a `currentPlayers` snapshot of the registry, registers the
  newcomer at position (0,0,0) with rotation 0, and broadcasts `newPlayer` to every other connection.
- `playerMove` overwrites the sender's entry when the sender is registered, and relays
  `playerMoved` to every other connection.
- `disconnect` deletes the entry and emits `removePlayer` to the connections still open.

Node runs each handler to completion before the next one starts. The model is therefore a
sequential transition system. A `State` holds the registry (`map<Id, Player>`) and the set
of open connections. `Server.Step` runs one handler and returns the next state and the
emits it made, in order. An `Emission` is a recipient set and a message. `Server.Run`
composes a history of events from the empty registry and concatenates the emits into a log.
Positions are records of three `real`s and rotations are `real`s. They are only stored and
copied, never computed on.

Files:

- `presence.dfy` (module `Presence`): players, payloads, messages, emissions, state and events.
  It also defines the registry invariant `Registered` and the freshness assumption `Fresh`.
- `server.dfy` (module `Server`): the three handlers, dispatch, histories, and the invariants
  over histories.
- `replica.dfy` (module `Replica`): a reference client. It applies every message addressed to a
  connection, in order. The main theorem says that every open connection's picture equals the
  registry without that connection's own entry. The repository's client does not subscribe to
  these events, so this module is the independent definition the protocol is checked against.
  It is not a port of client code.
- `findings.dfy` (module `Findings`): the `playerMove` relay exactly as written, with the
  counterexample described under Findings.
- `scenario.dfy` (module `Scenario`): a two-player join / move / leave walk-through, with its
  exact message log.

Facts about `server/server.js` that shape the model:

- A connect whose id is already registered overwrites the entry (`server/server.js:25`). There is
  no duplicate check, so `Server.OnConnection` has no precondition. Freshness (`Presence.Fresh`,
  `Server.Admissible`) is a hypothesis only of the properties that need it: the snapshot
  excludes the newcomer, the registry grows by one, and peers converge. The key-set invariant
  holds without it.
- The move handler does not check the payload (`server/server.js:31-35`). It stores whatever
  position and rotation the payload carries and relays them.
- The relay at `server/server.js:35` lists the sender's id first and spreads the payload after it.
  An `id` field in the payload therefore replaces the sender's id (see Findings).
  `Findings.OnPlayerMoveAsWritten` models the relay as written. `Server.OnPlayerMove` is the
  corrected relay, which always names the sender. `Server.Step` and `Server.Run` use the
  corrected relay, so every property of whole histories is proved for the corrected relay. The two
  relays agree whenever the payload has no `id` field or carries the sender's own id.
- The event names are the ones the code emits: `currentPlayers`, `newPlayer`, `playerMoved`, `removePlayer`.
  `removePlayer` carries the bare id.
- `removePlayer` is sent with `io.emit`. socket.io has already removed the closing socket from
  its namespace when `disconnect` fires, so the recipients are the connections still open. A
  second `disconnect` for the same id leaves the state unchanged (`Server.OnDisconnect`), but if
  the handler ran again it would emit `removePlayer` again. socket.io fires `disconnect` only
  once per socket.

## Model

| member | source | states |
|---|---|---|
| Server.OnConnection | server/server.js:18-28 | The newcomer gets the registry as it was before the insert, and nothing else is sent to it. After the connect the newcomer is registered at spawn (origin, rotation 0) and is open. The key set grows by exactly the newcomer and every other entry is unchanged. `newPlayer` goes to every open connection except the newcomer and carries the newcomer's new entry. For a fresh id, the snapshot does not list the newcomer and the registry grows by one. The registry invariant is preserved. |
| Server.OnPlayerMove | server/server.js:31-37 | Corrected relay: it agrees with the code whenever the payload has no `id` field or carries the sender's own id (`Findings.OnPlayerMoveAsWritten`). A registered sender's entry becomes the payload's position and rotation. No other entry, no key and no open connection changes. Exactly one `playerMoved` is sent; it carries the sender's id and goes to every open connection but the sender. An unregistered sender changes nothing and nothing is emitted. The sender never receives its own move. |
| Server.OnDisconnect | server/server.js:40-44 | The id leaves both the registry and the open set, and every other entry is unchanged. Exactly one `removePlayer(id)` goes to the connections still open, and never to the leaving id. Removing an absent id leaves the state unchanged. The registry invariant is preserved. |
| Server.Step | server/server.js:18-45 | Every handler preserves the registry invariant. Only the entry of the event's own connection can change. Every recipient of an emit is an open connection. |
| Server.MoveAfterLeaveIsIgnored | server/server.js:32-42 | After a connection leaves, a move under its id changes nothing and reaches no one. |
| Server.RegistryTracksConnections | server/server.js:16-44 | After any history of connects, moves and disconnects, the registry's key set is exactly the set of open connections. Fresh ids are not required. |
| Server.StepNotAboutRecipient | server/server.js:22-43 | If the registry invariant holds and the id is fresh, no emit of a single handler tells a recipient about itself. |
| Server.NoConnectionHearsAboutItself | server/server.js:18-44 | Holds for the corrected relay. `Findings.SpoofedMoveReachesItsTarget` shows that it fails for the relay as written. Over any history whose connects use fresh ids: no snapshot lists its recipient; no `newPlayer`, `playerMoved` or `removePlayer` reaches the connection it is about. |
| Server.JoinsAddOneEntryEach | server/server.js:18-28 | Any number of distinct new connections, handled one after another, each add exactly one entry. The keys become the old keys plus the new ids, and the size grows by the number of ids. |
| Replica.NewcomerGetsTheRegistry | server/server.js:22-28 | After a fresh connect, the newcomer's picture is exactly the registry without its own entry, whatever it held before. The snapshot is the pre-insert registry, and the `newPlayer` broadcast does not reach the newcomer. |
| Replica.PeersLearnOfNewcomer | server/server.js:25-28 | After a connect, every other open connection whose picture matched the registry without itself still matches the registry without itself. It now includes the newcomer at spawn. |
| Replica.MoveKeepsPictures | server/server.js:31-37 | After a move, every open connection's picture still equals the registry without its own entry. |
| Replica.DisconnectKeepsPictures | server/server.js:40-44 | After a disconnect, every connection that is still open has a picture equal to the registry without its own entry. |
| Replica.StepKeepsPictures | server/server.js:18-44 | Any one admissible handler keeps every open connection's picture equal to the registry without its own entry. |
| Replica.EveryPeerSeesTheRegistry | server/server.js:18-44 | Holds for the corrected relay. `Findings.SpoofedMoveReachesItsTarget` and `Findings.GhostAfterLeave` show that it fails for the relay as written. After any history whose connects use fresh ids, every open connection that applies the messages it received, in order, sees exactly the registry without its own entry. |
| Findings.OnPlayerMoveAsWritten | server/server.js:31-37 | The relay as written makes the same registry update as `Server.OnPlayerMove`. The relayed `playerMoved` carries the id the payload claims, falling back to the sender's id. It agrees with `Server.OnPlayerMove` when the payload claims no id or the sender's own. |
| Findings.SpoofedMoveReachesItsTarget | server/server.js:35 | Counterexample. With a and b registered, a's move claiming `id: "b"` reaches b as a move of b itself. b's picture then lists b, so it no longer equals the registry without b. |
| Findings.GhostAfterLeave | server/server.js:32-42 | Counterexample. a leaves, and b and c stay. b's move claiming `id: "a"` does not put a back into the registry. It does reach c as a move of a, so c's picture shows the departed a and no longer equals the registry without c. |
| Scenario.TwoPlayerWalk | server/server.js:18-44 | A joins and gets an empty roster. B joins and gets a roster holding A at spawn, while A hears of B. A's move to (1,0,0), 0.5 reaches only B. A's departure reaches only B. B alone remains registered. |

## Left out

- The Express app, the HTTP server, socket.io `Server` construction, the CORS options,
  `server.listen` and `console.log` (`server/server.js:1-14, 19, 41, 47-49`). They are transport
  and I/O. The transport is modelled only as delivery of a message to a recipient set.
- The client under `client/src`. It is three.js rendering, input handling and floating-point
  camera maths. Its socket hook is commented out, and it listens for a `students_update` event
  the server never emits. The `Replica` module stands in for a client that applies the four
  server messages.
- Concurrency and delivery failure. Handlers are atomic steps and every broadcast is delivered
  to its whole recipient set.
- Payload shape. `MovePayload` always carries a position and a rotation. In the source, a missing
  field is stored as `undefined`. A number or string payload stores `undefined` for both fields,
  and the spread relays a string's characters as indexed fields. A `null` or missing payload makes
  `data.position` at `server/server.js:33` throw a TypeError inside the `playerMove` listener.
  Nothing in `server/server.js` catches it, so by Node's default the exception ends the server
  process, closing every connection and losing the registry. The model has no such payloads and
  no process crash.
- Payload fields other than `id`. The spread relays them too, but the model's `playerMoved`
  carries only id, position and rotation. The optional `claimedId` is the one extra field
  modelled, because it changes the message.
- Object aliasing. The snapshot and the `newPlayer` object share the registry's objects in the
  source. socket.io serialises them when it emits, so the model copies values at emit time.
- Server.OnPlayerMove: relays the sender's id even when the payload carries an `id` field. The
  source relays the payload's `id` instead (`server/server.js:35`). This is the corrected relay of
  the Findings row; `Findings.OnPlayerMoveAsWritten` is the relay as written.
- Per-connection ordering of moves is not stated as a separate property. It follows from
  `Server.Run` applying events one at a time in order.

## Findings

| source | as written | input that shows it | evidently intended | confidence | as-written member | corrected member |
|---|---|---|---|---|---|---|
| server/server.js:35 | The relayed `playerMoved` object puts the sender's id first and spreads the client's payload after it. An `id` field in the payload therefore replaces the sender's id. | Connections a and b are open and registered. a sends `playerMove` with position (1,0,0), rotation 0.5 and `id: "b"`. b receives `playerMoved` about b itself, and other clients would move b's avatar. | `playerMoved` always names the connection that sent the move, so no client can move another player's avatar on its peers' screens. | medium, not executed | Findings.OnPlayerMoveAsWritten, Findings.SpoofedMoveReachesItsTarget, Findings.GhostAfterLeave | Server.OnPlayerMove, Replica.EveryPeerSeesTheRegistry |
