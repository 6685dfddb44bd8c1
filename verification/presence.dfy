/** Data model of the presence-sync server: the registry of connected players,
    the move payload a client sends, and the messages the server emits.
    Positions and rotations are only stored and copied, never computed on. */
module Presence {

  /** A socket.io connection id. */
  type Id = string

  /** An optional payload field: absent, or present with a value. */
  datatype Option<T> = None | Some(value: T)

  datatype Vec3 = Vec3(x: real, y: real, z: real)

  /** One entry of the registry: `{ position, rotation }`. */
  datatype Player = Player(position: Vec3, rotation: real)

  /** The state every newcomer is registered with. */
  const Spawn: Player := Player(Vec3(0.0, 0.0, 0.0), 0.0)

  /** The `data` object of a `playerMove` event. Besides position and rotation,
      a client may put its own `id` field into the object; `claimedId` records it. */
  datatype MovePayload = MovePayload(position: Vec3, rotation: real, claimedId: Option<Id>)

  /** Client-bound messages, by socket.io event name. */
  datatype Message =
    | CurrentPlayers(players: map<Id, Player>)
    | NewPlayer(id: Id, player: Player)
    | PlayerMoved(id: Id, position: Vec3, rotation: real)
    | RemovePlayer(id: Id)

  /** One emit: a message delivered to a set of connections. */
  datatype Emission = Emission(to: set<Id>, msg: Message)

  /** The process-wide `players` object and the connections socket.io holds open. */
  datatype State = State(players: map<Id, Player>, open: set<Id>)

  const Init: State := State(map[], {})

  /** The three handlers the server installs. */
  datatype Event = Connect(id: Id) | Move(id: Id, data: MovePayload) | Disconnect(id: Id)

  /** The result of running one or more handlers: the new state and what was emitted, in order. */
  datatype Transition = Transition(next: State, out: seq<Emission>)

  /** The registry holds exactly one entry per open connection. */
  predicate Registered(s: State) {
    s.players.Keys == s.open
  }

  /** The transport never reuses the id of a connection that is still open. */
  predicate Fresh(s: State, e: Event) {
    e.Connect? ==> e.id !in s.open
  }
}
