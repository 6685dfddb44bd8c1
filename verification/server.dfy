/** The three socket handlers of the server as pure transitions over the
    registry, and the sequential composition of any number of them. */
module Server {
  import opened Presence

  /** `connection`: send the registry as it stands to the newcomer, register the
      newcomer at the spawn state (overwriting blindly), and announce it to every
      other open connection. */
  function OnConnection(s: State, id: Id): (t: Transition)
    ensures t.next.open == s.open + {id}
    ensures t.next.players.Keys == s.players.Keys + {id}
    ensures id in t.next.players && t.next.players[id] == Spawn
    ensures forall k :: k in s.players && k != id ==> t.next.players[k] == s.players[k]
    ensures |t.out| == 2
    ensures t.out[0].to == {id} && t.out[0].msg == CurrentPlayers(s.players)
    ensures t.out[1].to == t.next.open - {id}
    ensures t.out[1].msg == NewPlayer(id, t.next.players[id])
    ensures Registered(s) ==> Registered(t.next)
    ensures Registered(s) && id !in s.open ==>
              id !in t.out[0].msg.players && |t.next.players| == |s.players| + 1
  {
    var next := State(s.players[id := Spawn], s.open + {id});
    Transition(next, [Emission({id}, CurrentPlayers(s.players)),
                      Emission(s.open - {id}, NewPlayer(id, Spawn))])
  }

  /** `playerMove`: if the sender is registered, store the payload's position and
      rotation as its entry and relay them, tagged with the sender's id, to every
      other open connection; otherwise do nothing. */
  function OnPlayerMove(s: State, id: Id, data: MovePayload): (t: Transition)
    ensures t.next.open == s.open
    ensures t.next.players.Keys == s.players.Keys
    ensures forall k :: k in s.players && k != id ==> t.next.players[k] == s.players[k]
    ensures id in s.players ==>
              && t.next.players[id] == Player(data.position, data.rotation)
              && t.out == [Emission(s.open - {id}, PlayerMoved(id, data.position, data.rotation))]
    ensures id !in s.players ==> t.next == s && t.out == []
    ensures forall e :: e in t.out ==> id !in e.to
  {
    if id in s.players then
      var next := s.(players := s.players[id := Player(data.position, data.rotation)]);
      Transition(next, [Emission(s.open - {id}, PlayerMoved(id, data.position, data.rotation))])
    else
      Transition(s, [])
  }

  /** `disconnect`: drop the entry (a no-op when it is absent) and tell every
      connection still open that the player left. */
  function OnDisconnect(s: State, id: Id): (t: Transition)
    ensures t.next.open == s.open - {id}
    ensures t.next.players.Keys == s.players.Keys - {id}
    ensures forall k :: k in s.players && k != id ==> t.next.players[k] == s.players[k]
    ensures t.out == [Emission(t.next.open, RemovePlayer(id))]
    ensures id !in t.out[0].to
    ensures id !in s.open && id !in s.players ==> t.next == s
    ensures Registered(s) ==> Registered(t.next)
  {
    Transition(State(s.players - {id}, s.open - {id}), [Emission(s.open - {id}, RemovePlayer(id))])
  }

  /** Dispatch one event to its handler. Only the event's own connection's entry can change. */
  function Step(s: State, e: Event): (t: Transition)
    ensures Registered(s) ==> Registered(t.next)
    ensures forall k :: k in s.players && k != e.id ==> k in t.next.players && t.next.players[k] == s.players[k]
    ensures forall m :: m in t.out ==> m.to <= t.next.open
  {
    match e
    case Connect(id) => OnConnection(s, id)
    case Move(id, data) => OnPlayerMove(s, id, data)
    case Disconnect(id) => OnDisconnect(s, id)
  }

  /** Handlers run to completion one at a time, so a history of events is their
      composition from the empty registry; the log concatenates every emit. */
  function Run(evs: seq<Event>): Transition
  {
    if evs == [] then Transition(Init, [])
    else
      var before := Run(evs[..|evs| - 1]);
      var last := Step(before.next, evs[|evs| - 1]);
      Transition(last.next, before.out + last.out)
  }

  /** Once a connection has left, a move under its id touches nothing and reaches no one. */
  lemma MoveAfterLeaveIsIgnored(s: State, id: Id, data: MovePayload)
    ensures OnPlayerMove(OnDisconnect(s, id).next, id, data) == Transition(OnDisconnect(s, id).next, [])
  {
  }

  /** Appending one event runs its handler on the state the history left. */
  lemma RunSnoc(evs: seq<Event>, e: Event)
    ensures Run(evs + [e]).next == Step(Run(evs).next, e).next
    ensures Run(evs + [e]).out == Run(evs).out + Step(Run(evs).next, e).out
  {
  }

  /** Every connect in the history uses an id that is not open at that moment. */
  ghost predicate Admissible(evs: seq<Event>)
  {
    evs == [] ||
    (Admissible(evs[..|evs| - 1]) && Fresh(Run(evs[..|evs| - 1]).next, evs[|evs| - 1]))
  }

  /** Whatever happens, the registry's keys are exactly the open connections. */
  lemma {:induction false} RegistryTracksConnections(evs: seq<Event>)
    ensures Run(evs).next.players.Keys == Run(evs).next.open
  {
    if evs != [] {
      RegistryTracksConnections(evs[..|evs| - 1]);
    }
  }

  /** No emit tells a recipient about itself: the snapshot a newcomer receives
      never lists it, and joins, moves and leaves are never echoed to their subject. */
  predicate NotAboutRecipient(e: Emission)
  {
    match e.msg
    case CurrentPlayers(ps) => forall c :: c in e.to ==> c !in ps
    case NewPlayer(id, _) => id !in e.to
    case PlayerMoved(id, _, _) => id !in e.to
    case RemovePlayer(id) => id !in e.to
  }

  lemma StepNotAboutRecipient(s: State, e: Event)
    requires Registered(s) && Fresh(s, e)
    ensures forall m :: m in Step(s, e).out ==> NotAboutRecipient(m)
  {
  }

  lemma {:induction false} NoConnectionHearsAboutItself(evs: seq<Event>)
    requires Admissible(evs)
    ensures forall m :: m in Run(evs).out ==> NotAboutRecipient(m)
  {
    if evs != [] {
      var prefix := evs[..|evs| - 1];
      NoConnectionHearsAboutItself(prefix);
      RegistryTracksConnections(prefix);
      StepNotAboutRecipient(Run(prefix).next, evs[|evs| - 1]);
    }
  }

  /** A burst of connections, handled one after another in arrival order. */
  function JoinAll(s: State, ids: seq<Id>): State
  {
    if ids == [] then s else OnConnection(JoinAll(s, ids[..|ids| - 1]), ids[|ids| - 1]).next
  }

  /** However many distinct new connections arrive, each adds exactly one entry:
      none is lost and none is counted twice. */
  lemma {:induction false} JoinsAddOneEntryEach(s: State, ids: seq<Id>)
    requires Registered(s)
    requires forall i, j :: 0 <= i < j < |ids| ==> ids[i] != ids[j]
    requires forall i :: 0 <= i < |ids| ==> ids[i] !in s.open
    ensures Registered(JoinAll(s, ids))
    ensures forall k :: k in JoinAll(s, ids).players <==> k in s.players || k in ids
    ensures |JoinAll(s, ids).players| == |s.players| + |ids|
  {
    if ids != [] {
      var front := ids[..|ids| - 1];
      var last := ids[|ids| - 1];
      assert ids == front + [last];
      assert forall i :: 0 <= i < |front| ==> front[i] == ids[i];
      JoinsAddOneEntryEach(s, front);
      assert last !in front by {
        forall x | x in front ensures x != last {
          var k :| 0 <= k < |front| && front[k] == x;
          assert ids[k] == x;
        }
      }
    }
  }
}
