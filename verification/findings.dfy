/** The move relay exactly as the source writes it, and what goes wrong with it.
    The relayed object is built as `{ id: socket.id, ...data }`: the spread comes
    last, so an `id` field inside the client's payload replaces the sender's id. */
module Findings {
  import opened Presence
  import opened Server
  import opened Replica

  /** The `id` of the relayed object: the payload's own `id` field when it has one,
      otherwise the sender's. */
  function RelayedId(sender: Id, data: MovePayload): Id
  {
    match data.claimedId
    case Some(claimed) => claimed
    case None => sender
  }

  /** `playerMove` as written: the registry update is the sender's, but the relayed
      message carries whatever id the payload claims. */
  function OnPlayerMoveAsWritten(s: State, id: Id, data: MovePayload): (t: Transition)
    ensures t.next == OnPlayerMove(s, id, data).next
    ensures id in s.players ==>
              t.out == [Emission(s.open - {id}, PlayerMoved(RelayedId(id, data), data.position, data.rotation))]
    ensures id !in s.players ==> t.out == []
    ensures data.claimedId.None? || data.claimedId == Some(id) ==> t == OnPlayerMove(s, id, data)
  {
    if id in s.players then
      var next := s.(players := s.players[id := Player(data.position, data.rotation)]);
      Transition(next, [Emission(s.open - {id}, PlayerMoved(RelayedId(id, data), data.position, data.rotation))])
    else
      Transition(s, [])
  }

  /** Two players a and b; a sends a move whose payload says `id: "b"`. The relay
      reaches b announcing that b itself moved, so b's picture of the others now
      lists b, and no longer matches the registry. */
  lemma SpoofedMoveReachesItsTarget()
    ensures var s := State(map["a" := Spawn, "b" := Spawn], {"a", "b"});
            var t := OnPlayerMoveAsWritten(s, "a", MovePayload(Vec3(1.0, 0.0, 0.0), 0.5, Some("b")));
            && Registered(s)
            && !NotAboutRecipient(t.out[0])
            && "b" in Replay(s.players - {"b"}, t.out, "b")
            && Replay(s.players - {"b"}, t.out, "b") != t.next.players - {"b"}
  {
  }

  /** After a leaves, b and c remain. b sends a move whose payload says `id: "a"`.
      The registry does not get a back, but the relay tells c that a moved, so c's
      picture shows a ghost of the departed player. */
  lemma GhostAfterLeave()
    ensures var s := OnDisconnect(State(map["a" := Spawn, "b" := Spawn, "c" := Spawn], {"a", "b", "c"}), "a").next;
            var t := OnPlayerMoveAsWritten(s, "b", MovePayload(Vec3(1.0, 0.0, 0.0), 0.5, Some("a")));
            && Registered(s)
            && "a" !in t.next.players
            && "a" in Replay(s.players - {"c"}, t.out, "c")
            && Replay(s.players - {"c"}, t.out, "c") != t.next.players - {"c"}
  {
    var s := OnDisconnect(State(map["a" := Spawn, "b" := Spawn, "c" := Spawn], {"a", "b", "c"}), "a").next;
    assert "a" != "b" && "a" != "c" && "b" != "c";
    assert s.open == {"b", "c"};
    assert s.open - {"b"} == {"c"};
    assert "b" in s.players;
    var t := OnPlayerMoveAsWritten(s, "b", MovePayload(Vec3(1.0, 0.0, 0.0), 0.5, Some("a")));
    assert t.out == [Emission({"c"}, PlayerMoved("a", Vec3(1.0, 0.0, 0.0), 0.5))];
    assert t.out[..0] == [];
  }
}
