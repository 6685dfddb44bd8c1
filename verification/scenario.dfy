/** The join / move / leave walk-through of two players, A and B. */
module Scenario {
  import opened Presence
  import opened Server

  const Stride: MovePayload := MovePayload(Vec3(1.0, 0.0, 0.0), 0.5, None)

  /** The walk, built up one event at a time. */
  const JoinedA: seq<Event> := [Connect("A")]
  const JoinedB: seq<Event> := JoinedA + [Connect("B")]
  const MovedA: seq<Event> := JoinedB + [Move("A", Stride)]
  const Walk: seq<Event> := MovedA + [Disconnect("A")]

  /** The registry after each prefix of the walk. */
  const AfterA: State := State(map["A" := Spawn], {"A"})
  const AfterB: State := State(map["A" := Spawn, "B" := Spawn], {"A", "B"})
  const AfterMove: State := State(map["A" := Player(Stride.position, Stride.rotation), "B" := Spawn], {"A", "B"})
  const AfterLeave: State := State(map["B" := Spawn], {"B"})

  lemma JoinAStep()
    ensures Step(Init, Connect("A")) ==
      Transition(AfterA, [Emission({"A"}, CurrentPlayers(map[])), Emission({}, NewPlayer("A", Spawn))])
  {
    assert Init.open - {"A"} == {};
  }

  lemma JoinBStep()
    ensures Step(AfterA, Connect("B")) ==
      Transition(AfterB, [Emission({"B"}, CurrentPlayers(map["A" := Spawn])), Emission({"A"}, NewPlayer("B", Spawn))])
  {
    assert "A" != "B";
    assert {"A"} - {"B"} == {"A"};
  }

  lemma MoveAStep()
    ensures Step(AfterB, Move("A", Stride)) ==
      Transition(AfterMove, [Emission({"B"}, PlayerMoved("A", Vec3(1.0, 0.0, 0.0), 0.5))])
  {
    assert "A" != "B";
    assert {"A", "B"} - {"A"} == {"B"};
  }

  lemma LeaveAStep()
    ensures Step(AfterMove, Disconnect("A")) == Transition(AfterLeave, [Emission({"B"}, RemovePlayer("A"))])
  {
    assert "A" != "B";
    assert {"A", "B"} - {"A"} == {"B"};
    assert AfterMove.players - {"A"} == map["B" := Spawn];
  }

  /** A gets an empty roster; B gets a roster holding A at spawn while A hears of B;
      A's move reaches only B; A's departure reaches only B; B alone remains. */
  lemma TwoPlayerWalk()
    ensures Run(Walk).out == [
              Emission({"A"}, CurrentPlayers(map[])),
              Emission({}, NewPlayer("A", Spawn)),
              Emission({"B"}, CurrentPlayers(map["A" := Spawn])),
              Emission({"A"}, NewPlayer("B", Spawn)),
              Emission({"B"}, PlayerMoved("A", Vec3(1.0, 0.0, 0.0), 0.5)),
              Emission({"B"}, RemovePlayer("A"))]
    ensures Run(Walk).next == AfterLeave
  {
    assert JoinedA == [] + [Connect("A")];
    RunSnoc([], Connect("A"));
    JoinAStep();
    RunSnoc(JoinedA, Connect("B"));
    JoinBStep();
    RunSnoc(JoinedB, Move("A", Stride));
    MoveAStep();
    RunSnoc(MovedA, Disconnect("A"));
    LeaveAStep();
  }
}
