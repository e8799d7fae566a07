/** The authoritative room: a fixed-step accumulator, the input handler,
    the fixed tick, and join/leave, each proved against the functions of
    module Simulation. */
module Rooms {
  import opened Movement
  import opened Schema
  import opened Simulation

  const MapWidth: real := 800.0
  const MapHeight: real := 600.0

  /** Where a joining player is placed, given the two random draws in
      [0, 1): somewhere inside the 800 × 600 map, with an empty queue. */
  function SpawnPlayer(rx: real, ry: real): (p: PlayerView)
    requires 0.0 <= rx < 1.0 && 0.0 <= ry < 1.0
    ensures 0.0 <= p.x < MapWidth && 0.0 <= p.y < MapHeight
    ensures p.queue == []
  {
    PlayerView(rx * MapWidth, ry * MapHeight, [])
  }

  /** The body of the per-player callback of a fixed tick: shift inputs off
      the front of the queue and apply each, until `shift()` yields a falsy
      value (the queue ran empty, or a falsy entry was shifted off). */
  method DrainInputQueue(player: Player)
    modifies player
    ensures player.View() == Drain(old(player.View()))
  {
    ghost var start := player.View();
    // `shift()` on an empty array yields undefined, which is falsy
    var input: Payload := Falsy;
    if player.inputQueue != [] {
      input := player.inputQueue[0];
      player.inputQueue := player.inputQueue[1..];
    }
    while input.Command?
      invariant input.Command? ==>
                Drain(start) == Drain(Step(player.View(), input.input))
      invariant !input.Command? ==> player.View() == Drain(start)
      decreases |player.inputQueue| + (if input.Command? then 1 else 0)
    {
      player.x := player.x + Dx(input.input, Velocity);
      player.y := player.y + Dy(input.input, Velocity);
      input := Falsy;
      if player.inputQueue != [] {
        input := player.inputQueue[0];
        player.inputQueue := player.inputQueue[1..];
      }
    }
  }

  class MyRoom {
    const fixedTimeStep: real := 1000.0 / 60.0
    var state: MyRoomState
    /** The accumulator captured by the simulation-interval callback. */
    var elapsedTime: real

    ghost predicate Valid()
      reads this, state
    {
      state.Valid() && 0.0 <= elapsedTime < fixedTimeStep
    }

    /** Room creation: a fresh state and an empty accumulator. */
    constructor OnCreate()
      ensures Valid() && fresh(state)
      ensures state.mySynchronizedProperty == InitialGreeting
      ensures state.Snapshot() == map[]
      ensures elapsedTime == 0.0
    {
      state := new MyRoomState();
      elapsedTime := 0.0;
    }

    /** One real-time update of `deltaTime` ms: add it to the accumulator,
        then run whole fixed ticks while at least one step remains. */
    method OnSimulationInterval(deltaTime: real)
      requires Valid() && deltaTime >= 0.0
      modifies this`elapsedTime, state.players.Values
      ensures Valid()
      ensures state == old(state) && state.players == old(state.players)
      ensures elapsedTime == Leftover(old(elapsedTime) + deltaTime, fixedTimeStep)
      ensures state.Snapshot() ==
              Ticks(old(state.Snapshot()), TicksDue(old(elapsedTime) + deltaTime, fixedTimeStep))
    {
      ghost var total := elapsedTime + deltaTime;
      ghost var before := state.Snapshot();
      ghost var ran: nat := 0;
      AccumulatorSpec(total, fixedTimeStep);
      elapsedTime := elapsedTime + deltaTime;
      while elapsedTime >= fixedTimeStep
        invariant state.Valid()
        invariant state == old(state) && state.players == old(state.players)
        invariant elapsedTime >= 0.0
        invariant ran + TicksDue(elapsedTime, fixedTimeStep) == TicksDue(total, fixedTimeStep)
        invariant Leftover(elapsedTime, fixedTimeStep) == Leftover(total, fixedTimeStep)
        invariant state.Snapshot() == Ticks(before, ran)
        decreases TicksDue(elapsedTime, fixedTimeStep)
      {
        elapsedTime := elapsedTime - fixedTimeStep;
        FixedTick();
        ran := ran + 1;
      }
    }

    /** Message type 0 from `sessionId`: append the payload to the sender's
        queue and move the sender at once by the same rule a tick applies.
        The sender must have joined. */
    method OnInput(sessionId: string, data: Payload)
      requires Valid() && sessionId in state.players
      modifies state.players[sessionId]
      ensures Valid()
      ensures state.players == old(state.players)
      ensures state.Snapshot() ==
              old(state.Snapshot())[sessionId := Receive(old(state.Snapshot())[sessionId], data)]
      ensures state.mySynchronizedProperty == old(state.mySynchronizedProperty)
      ensures data.Falsy? ==> state.Synchronized() == old(state.Synchronized())
    {
      ghost var before := state.Snapshot();
      var player := state.players[sessionId];
      player.inputQueue := player.inputQueue + [data];
      if data.Command? {
        // the left/right and up/down choice is Movement.Axis
        player.x := player.x + Dx(data.input, Velocity);
        player.y := player.y + Dy(data.input, Velocity);
      }
      assert player.View() == Receive(before[sessionId], data);
      forall k | k in state.players && k != sessionId
        ensures state.Snapshot()[k] == before[k]
      {
        assert state.players[k] != player;
      }
      if data.Falsy? {
        FalsyInputNotSynchronized(before, sessionId);
      }
    }

    /** One fixed tick: drain every player's queue. The players map itself
        (its keys and the objects they name) is left as it was. */
    method FixedTick()
      requires state.Valid()
      modifies state.players.Values
      ensures state.Valid()
      ensures state.players == old(state.players)
      ensures state.Snapshot() == TickAll(old(state.Snapshot()))
    {
      var pending := state.players.Keys;
      while pending != {}
        invariant pending <= state.players.Keys
        invariant forall k :: k in state.players && k !in pending ==>
                    state.players[k].View() == Drain(old(state.players[k].View()))
        invariant forall k :: k in pending ==> state.players[k].View() == old(state.players[k].View())
        decreases pending
      {
        var k :| k in pending;
        DrainInputQueue(state.players[k]);
        pending := pending - {k};
      }
    }

    /** A client joins: a new player with an empty queue is stored under its
        session id at a position drawn from `rx`, `ry` in [0, 1). A player
        already stored under that id would be replaced. */
    method OnJoin(sessionId: string, rx: real, ry: real)
      requires Valid() && 0.0 <= rx < 1.0 && 0.0 <= ry < 1.0
      modifies state`players
      ensures Valid() && state == old(state)
      ensures state.mySynchronizedProperty == old(state.mySynchronizedProperty)
      ensures sessionId in state.players && fresh(state.players[sessionId])
      ensures state.Snapshot() == old(state.Snapshot())[sessionId := SpawnPlayer(rx, ry)]
    {
      var player := new Player();
      player.x := rx * MapWidth;
      player.y := ry * MapHeight;
      state.players := state.players[sessionId := player];
    }

    /** A client leaves: its entry, queue included, is removed; deleting an
        absent id changes nothing. */
    method OnLeave(sessionId: string)
      requires Valid()
      modifies state`players
      ensures Valid() && state == old(state)
      ensures state.mySynchronizedProperty == old(state.mySynchronizedProperty)
      ensures state.Snapshot() == old(state.Snapshot()) - {sessionId}
    {
      state.players := state.players - {sessionId};
    }
  }
}
