/** A reference client: the picture of the other players that a connection
    builds by applying, in order, every message addressed to it. */
module Replica {
  import opened Presence
  import opened Server

  /** Fold one client-bound message into a client's picture of the others. */
  function Apply(view: map<Id, Player>, m: Message): map<Id, Player>
  {
    match m
    case CurrentPlayers(ps) => ps
    case NewPlayer(id, p) => view[id := p]
    case PlayerMoved(id, pos, rot) => view[id := Player(pos, rot)]
    case RemovePlayer(id) => view - {id}
  }

  /** Connection `c`'s picture after one emit: changed only if `c` is a recipient. */
  function Receive(view: map<Id, Player>, e: Emission, c: Id): map<Id, Player>
  {
    if c in e.to then Apply(view, e.msg) else view
  }

  /** The picture connection `c` holds after receiving its share of `log`, starting from `view`. */
  function Replay(view: map<Id, Player>, log: seq<Emission>, c: Id): map<Id, Player>
  {
    if log == [] then view else Receive(Replay(view, log[..|log| - 1], c), log[|log| - 1], c)
  }

  lemma ReplayPair(view: map<Id, Player>, a: Emission, b: Emission, c: Id)
    ensures Replay(view, [a, b], c) == Receive(Receive(view, a, c), b, c)
  {
    assert [a, b][..1] == [a] && [a][..0] == [];
    assert Replay(view, [a], c) == Receive(view, a, c);
  }

  lemma {:induction false} ReplayAppend(view: map<Id, Player>, a: seq<Emission>, b: seq<Emission>, c: Id)
    ensures Replay(view, a + b, c) == Replay(Replay(view, a, c), b, c)
  {
    if b == [] {
      assert a + b == a;
    } else {
      assert (a + b)[..|a + b| - 1] == a + b[..|b| - 1];
      ReplayAppend(view, a, b[..|b| - 1], c);
    }
  }

  /** A connect hands the newcomer the registry, which does not list it yet. */
  lemma NewcomerGetsTheRegistry(s: State, id: Id, view: map<Id, Player>)
    requires Registered(s) && id !in s.open
    ensures Replay(view, OnConnection(s, id).out, id) == OnConnection(s, id).next.players - {id}
  {
    var t := OnConnection(s, id);
    assert t.out == [t.out[0], t.out[1]];
    ReplayPair(view, t.out[0], t.out[1], id);
    assert Receive(view, t.out[0], id) == s.players;
    assert Receive(s.players, t.out[1], id) == s.players;
    assert s.players[id := Spawn] - {id} == s.players;
  }

  /** A connect adds the newcomer, at spawn, to every other open connection's picture. */
  lemma PeersLearnOfNewcomer(s: State, id: Id, view: map<Id, Player>, c: Id)
    requires c in s.open && c != id
    requires view == s.players - {c}
    ensures Replay(view, OnConnection(s, id).out, c) == OnConnection(s, id).next.players - {c}
  {
    var t := OnConnection(s, id);
    assert t.out == [t.out[0], t.out[1]];
    ReplayPair(view, t.out[0], t.out[1], c);
    assert Receive(view, t.out[0], c) == view;
    assert Receive(view, t.out[1], c) == view[id := Spawn];
    assert t.next.players == s.players[id := Spawn];
    assert (s.players - {c})[id := Spawn] == s.players[id := Spawn] - {c};
  }

  lemma MoveKeepsPictures(s: State, id: Id, data: MovePayload, view: map<Id, Player>, c: Id)
    requires c in s.open && view == s.players - {c}
    ensures Replay(view, OnPlayerMove(s, id, data).out, c) == OnPlayerMove(s, id, data).next.players - {c}
  {
  }

  lemma DisconnectKeepsPictures(s: State, id: Id, view: map<Id, Player>, c: Id)
    requires c in s.open - {id} && view == s.players - {c}
    ensures Replay(view, OnDisconnect(s, id).out, c) == OnDisconnect(s, id).next.players - {c}
  {
  }

  /** One handler keeps every open connection's picture equal to the registry
      without its own entry. */
  lemma StepKeepsPictures(s: State, e: Event, view: map<Id, Player>, c: Id)
    requires Registered(s) && Fresh(s, e)
    requires c in Step(s, e).next.open
    requires c in s.open ==> view == s.players - {c}
    ensures Replay(view, Step(s, e).out, c) == Step(s, e).next.players - {c}
  {
    match e
    case Connect(id) =>
      if c == id {
        NewcomerGetsTheRegistry(s, id, view);
      } else {
        PeersLearnOfNewcomer(s, id, view, c);
      }
    case Move(id, data) => MoveKeepsPictures(s, id, data, view, c);
    case Disconnect(id) => DisconnectKeepsPictures(s, id, view, c);
  }

  /** Every open connection that applies the messages it received sees exactly the
      registry minus itself, whatever admissible history led there. */
  lemma {:induction false} EveryPeerSeesTheRegistry(evs: seq<Event>, c: Id)
    requires Admissible(evs)
    requires c in Run(evs).next.open
    ensures Replay(map[], Run(evs).out, c) == Run(evs).next.players - {c}
  {
    if evs != [] {
      var prefix := evs[..|evs| - 1];
      var before := Run(prefix);
      var last := Step(before.next, evs[|evs| - 1]);
      RegistryTracksConnections(prefix);
      if c in before.next.open {
        EveryPeerSeesTheRegistry(prefix, c);
      }
      ReplayAppend(map[], before.out, last.out, c);
      StepKeepsPictures(before.next, evs[|evs| - 1], Replay(map[], before.out, c), c);
    }
  }
}
