/** The browser client: a scene that mirrors the room's players as rendered
    entities, predicts its own entity's motion from the local keys, and
    smooths every other entity toward its last server-reported position. */
module Client {
  import opened Movement
  import opened Schema
  import Simulation

  datatype Option<T> = None | Some(value: T)

  /** Units the client moves its own entity per fixed tick. */
  const PredictionVelocity: real := 4.0

  /** The value of a rendered entity: where it is drawn and the position the
      server last reported for it (its `serverX`/`serverY` data). */
  datatype EntityView = EntityView(x: real, y: real, serverX: real, serverY: real)

  /** Linear interpolation from p0 toward p1 by the factor t, taken to be
      p0 + (p1 − p0)·t: the remaining distance to p1 is the old one scaled
      by exactly 1 − t. */
  function Linear(p0: real, p1: real, t: real): (r: real)
    ensures r - p1 == (1.0 - t) * (p0 - p1)
  {
    (p1 - p0) * t + p0
  }

  /** For a blend factor in [0, 1] the interpolated point lies between the
      two points: it never overshoots the target. */
  lemma LinearBetween(p0: real, p1: real, t: real)
    requires 0.0 <= t <= 1.0
    ensures p0 <= p1 ==> p0 <= Linear(p0, p1, t) <= p1
    ensures p1 <= p0 ==> p1 <= Linear(p0, p1, t) <= p0
  {
    var d := p1 - p0;
    assert Linear(p0, p1, t) == d * t + p0;
    assert d * (1.0 - t) == d - d * t;
    if d >= 0.0 {
      assert d * t >= 0.0;
      assert d * (1.0 - t) >= 0.0;
    } else {
      var e := -d;
      assert e * t >= 0.0 && d * t == -(e * t);
      assert e * (1.0 - t) >= 0.0 && d * (1.0 - t) == -(e * (1.0 - t));
    }
  }

  /** The own entity after one fixed tick: moved by the held keys. */
  function Predicted(e: EntityView, keys: Input): EntityView
  {
    e.(x := e.x + Dx(keys, PredictionVelocity), y := e.y + Dy(keys, PredictionVelocity))
  }

  /** A remote entity after one fixed tick: drawn closer to its server
      position. */
  function Interpolated(e: EntityView, t: real): EntityView
  {
    e.(x := Linear(e.x, e.serverX, t), y := Linear(e.y, e.serverY, t))
  }

  /** One client fixed tick over all entities: the entity under the own
      session id is predicted, every other one is interpolated. */
  function ClientTick(m: map<string, EntityView>, own: string, keys: Input, t: real): (r: map<string, EntityView>)
    ensures r.Keys == m.Keys
  {
    map k | k in m :: if k == own then Predicted(m[k], keys) else Interpolated(m[k], t)
  }

  /** The own entity is never interpolated: its new value does not depend on
      the blend factor, and its server position is kept. */
  lemma OwnEntityNotInterpolated(m: map<string, EntityView>, own: string, keys: Input, t1: real, t2: real)
    requires own in m
    ensures ClientTick(m, own, keys, t1)[own] == ClientTick(m, own, keys, t2)[own]
    ensures ClientTick(m, own, keys, t1)[own].serverX == m[own].serverX
    ensures ClientTick(m, own, keys, t1)[own].serverY == m[own].serverY
  {
  }

  /** Client ticks driven by one key sample each. */
  function ClientTicks(m: map<string, EntityView>, own: string, samples: seq<Input>, t: real): map<string, EntityView>
    decreases |samples|
  {
    if samples == [] then m
    else ClientTicks(ClientTick(m, own, samples[0], t), own, samples[1..], t)
  }

  function Pow(b: real, n: nat): real
  {
    if n == 0 then 1.0 else b * Pow(b, n - 1)
  }

  /** n interpolation steps of one coordinate toward a fixed target. */
  function Approach(x: real, target: real, t: real, n: nat): real
    decreases n
  {
    if n == 0 then x else Approach(Linear(x, target, t), target, t, n - 1)
  }

  /** After n steps the distance to the target is the initial one scaled by
      (1 − t)^n. */
  lemma {:induction false} ApproachDistance(x: real, target: real, t: real, n: nat)
    ensures Approach(x, target, t, n) - target == Pow(1.0 - t, n) * (x - target)
    decreases n
  {
    if n > 0 {
      var x1 := Linear(x, target, t);
      ApproachDistance(x1, target, t, n - 1);
      ScaleChain(Approach(x1, target, t, n - 1) - target, Pow(1.0 - t, n - 1), x1 - target,
                 1.0 - t, x - target, Pow(1.0 - t, n));
    }
  }

  /** A distance scaled by p after being scaled by b is scaled by b·p. */
  lemma ScaleChain(a: real, p: real, d1: real, b: real, d: real, q: real)
    requires a == p * d1
    requires d1 == b * d
    requires q == b * p
    ensures a == q * d
  {
  }

  /** Over any run of client ticks, whatever keys are held, a remote entity
      keeps its server position and each coordinate approaches it by one
      interpolation step per tick (so, by ApproachDistance, its distance to
      the server position shrinks by the factor 1 − t per tick). */
  lemma {:induction false} RemoteApproachesServer(m: map<string, EntityView>, own: string, samples: seq<Input>, t: real, k: string)
    requires k in m && k != own
    ensures k in ClientTicks(m, own, samples, t)
    ensures ClientTicks(m, own, samples, t)[k] ==
            EntityView(Approach(m[k].x, m[k].serverX, t, |samples|), Approach(m[k].y, m[k].serverY, t, |samples|),
                       m[k].serverX, m[k].serverY)
    decreases |samples|
  {
    if samples != [] {
      var m1 := ClientTick(m, own, samples[0], t);
      assert m1[k] == Interpolated(m[k], t);
      RemoteApproachesServer(m1, own, samples[1..], t, k);
    }
  }

  /** The prediction matches the server: an input received by the server and
      drained by its next tick moves the player exactly as the client moved
      its own entity for that input. */
  lemma PredictionMatchesServer(p: PlayerView, i: Input)
    requires p.queue == []
    ensures Simulation.Drain(Simulation.Receive(p, Command(i))).x == p.x + Dx(i, PredictionVelocity)
    ensures Simulation.Drain(Simulation.Receive(p, Command(i))).y == p.y + Dy(i, PredictionVelocity)
    ensures Simulation.Drain(Simulation.Receive(p, Command(i))).queue == []
  {
    Simulation.ReceiveThenDrain(p, i);
  }

  /** The client accumulator after one frame: at most one step is taken
      off, however long the frame was. */
  function FrameElapsed(elapsed: real, delta: real, step: real): (r: real)
    requires step > 0.0
    ensures r == elapsed + delta || r == elapsed + delta - step
    ensures r < step ==> elapsed + delta < 2.0 * step
  {
    var e := elapsed + delta;
    if e >= step then e - step else e
  }

  /** The accumulator after n frames of `delta` each. */
  function ElapsedAfter(elapsed: real, delta: real, step: real, n: nat): real
    requires step > 0.0
    decreases n
  {
    if n == 0 then elapsed else ElapsedAfter(FrameElapsed(elapsed, delta, step), delta, step, n - 1)
  }

  /** With frames longer than the step, the client runs one tick per frame
      and its accumulator grows by delta − step every frame without bound,
      where the server's `while` loop would keep it below one step. */
  lemma {:induction false} ClientBacklog(elapsed: real, delta: real, step: real, n: nat)
    requires step > 0.0 && elapsed >= 0.0 && delta >= step
    ensures ElapsedAfter(elapsed, delta, step, n) == elapsed + n as real * (delta - step)
    decreases n
  {
    if n > 0 {
      ClientBacklog(elapsed + delta - step, delta, step, n - 1);
    }
  }

  class Entity {
    var x: real
    var y: real
    var serverX: real
    var serverY: real

    /** A new sprite drawn at (x0, y0). */
    constructor (x0: real, y0: real)
      ensures x == x0 && y == y0
    {
      x, y := x0, y0;
    }

    function View(): EntityView
      reads this
    {
      EntityView(x, y, serverX, serverY)
    }
  }

  class GameScene {
    /** `room.sessionId` once the room is joined. */
    var roomSessionId: Option<string>
    var playerEntities: map<string, Entity>
    var currentPlayer: Entity?
    var elapsedTime: real
    const fixedTimeStep: real := 1000.0 / 60.0
    var frameCounter: int
    /** Blend factor of the remote interpolation. */
    const t: real := 0.4

    /** Entities are not shared between keys; before the room is joined no
        callback has run; the entity under the own session id is the current
        player, and no other key names it. */
    ghost predicate Valid()
      reads this`playerEntities, this`currentPlayer, this`roomSessionId
    {
      && (forall k, k' :: k in playerEntities && k' in playerEntities && k != k' ==>
            playerEntities[k] != playerEntities[k'])
      && (roomSessionId.None? ==> playerEntities == map[] && currentPlayer == null)
      && (roomSessionId.Some? && roomSessionId.value in playerEntities ==>
            playerEntities[roomSessionId.value] == currentPlayer)
      && (currentPlayer != null ==> roomSessionId.Some?)
      && (currentPlayer != null && roomSessionId.Some? ==>
            forall k :: k in playerEntities && k != roomSessionId.value ==> playerEntities[k] != currentPlayer)
    }

    function Entities(): map<string, EntityView>
      reads this`playerEntities, playerEntities.Values
    {
      map k | k in playerEntities :: playerEntities[k].View()
    }

    constructor ()
      ensures Valid()
      ensures roomSessionId == None && playerEntities == map[] && currentPlayer == null
      ensures elapsedTime == 0.0 && frameCounter == 0
    {
      roomSessionId := None;
      playerEntities := map[];
      currentPlayer := null;
      elapsedTime := 0.0;
      frameCounter := 0;
    }

    /** `create`: join a room (`joined` is its session id, or None when
        joining failed and the error was logged); the add and remove
        callbacks are registered only on success. */
    method Create(joined: Option<string>)
      requires Valid() && roomSessionId.None?
      modifies this
      ensures Valid()
      ensures roomSessionId == joined && playerEntities == map[] && currentPlayer == null
      ensures elapsedTime == old(elapsedTime) && frameCounter == old(frameCounter)
    {
      roomSessionId := joined;
    }

    /** `onAdd`: a player appeared in the room state. A new entity is drawn
        at its reported position, remembered as its server position, stored
        under its session id, and made the current player when the id is
        the own one. */
    method OnAdd(player: SyncedPlayer, sessionId: string)
      requires Valid() && roomSessionId.Some?
      modifies this
      ensures Valid()
      ensures roomSessionId == old(roomSessionId)
      ensures elapsedTime == old(elapsedTime) && frameCounter == old(frameCounter)
      ensures sessionId in playerEntities && fresh(playerEntities[sessionId])
      ensures playerEntities == old(playerEntities)[sessionId := playerEntities[sessionId]]
      ensures Entities() == old(Entities())[sessionId := EntityView(player.x, player.y, player.x, player.y)]
      ensures currentPlayer == if sessionId == roomSessionId.value then playerEntities[sessionId] else old(currentPlayer)
    {
      var entity := new Entity(player.x, player.y);
      entity.serverX := player.x;
      entity.serverY := player.y;
      playerEntities := playerEntities[sessionId := entity];
      if sessionId == roomSessionId.value {
        currentPlayer := entity;
      }
    }

    /** `onChange` of the player stored under `sessionId`: for a remote
        player the new server position is recorded on its entity; for the own
        player only the debug marker moves, which is not part of this model. */
    method OnChange(sessionId: string, player: SyncedPlayer)
      requires Valid() && sessionId in playerEntities
      modifies playerEntities[sessionId]
      ensures Valid()
      ensures Entities() ==
              if Some(sessionId) == roomSessionId then old(Entities())
              else old(Entities())[sessionId := old(Entities())[sessionId].(serverX := player.x, serverY := player.y)]
    {
      if Some(sessionId) != roomSessionId {
        var entity := playerEntities[sessionId];
        entity.serverX := player.x;
        entity.serverY := player.y;
      }
    }

    /** `onRemove`: forget the entity stored under `sessionId`, if any. */
    method OnRemove(sessionId: string)
      requires Valid()
      modifies this
      ensures Valid()
      ensures roomSessionId == old(roomSessionId) && currentPlayer == old(currentPlayer)
      ensures elapsedTime == old(elapsedTime) && frameCounter == old(frameCounter)
      ensures playerEntities == old(playerEntities) - {sessionId}
      ensures Entities() == old(Entities()) - {sessionId}
    {
      if sessionId in playerEntities {
        playerEntities := playerEntities - {sessionId};
      }
    }

    /** A render frame of `delta` ms while the keys are as given. Once the
        own player exists, the frame is counted and its time accumulated,
        and at most one fixed tick runs. Returns the input sent to the room,
        if any. */
    method Update(delta: real, keys: Input) returns (sent: Option<Input>)
      requires Valid()
      modifies this`elapsedTime, this`frameCounter, playerEntities.Values, currentPlayer
      ensures Valid()
      ensures old(currentPlayer) == null ==>
                && sent == None
                && elapsedTime == old(elapsedTime) && frameCounter == old(frameCounter)
                && Entities() == old(Entities())
      ensures old(currentPlayer) != null ==> frameCounter == old(frameCounter) + 1
      ensures old(currentPlayer) != null ==> elapsedTime == FrameElapsed(old(elapsedTime), delta, fixedTimeStep)
      ensures old(currentPlayer) != null && old(elapsedTime) + delta >= fixedTimeStep ==>
                && sent == Some(keys)
                && Entities() == ClientTick(old(Entities()), roomSessionId.value, keys, t)
                && currentPlayer.View() == Predicted(old(currentPlayer.View()), keys)
      ensures old(elapsedTime) + delta < fixedTimeStep ==>
                && sent == None
                && Entities() == old(Entities())
                && (currentPlayer != null ==> currentPlayer.View() == old(currentPlayer.View()))
    {
      sent := None;
      if currentPlayer == null {
        return;
      }
      frameCounter := frameCounter + 1;
      var accumulated := elapsedTime + delta;
      if accumulated >= fixedTimeStep {
        elapsedTime := accumulated - fixedTimeStep;
        sent := FixedTick(keys);
      } else {
        elapsedTime := accumulated;
        // only the two counters of the scene changed, no entity
        assert Entities() == old(Entities());
      }
    }

    /** One client fixed tick: send the keys, move the own entity by them,
        and draw every other entity closer to its server position. */
    method FixedTick(keys: Input) returns (sent: Option<Input>)
      requires Valid()
      modifies playerEntities.Values, currentPlayer
      ensures Valid()
      ensures currentPlayer == null ==> sent == None && Entities() == old(Entities())
      ensures currentPlayer != null ==>
                && sent == Some(keys)
                && currentPlayer.View() == Predicted(old(currentPlayer.View()), keys)
                && Entities() == ClientTick(old(Entities()), roomSessionId.value, keys, t)
    {
      if currentPlayer == null {
        return None;
      }
      sent := Some(keys);
      currentPlayer.x := currentPlayer.x + Dx(keys, PredictionVelocity);
      currentPlayer.y := currentPlayer.y + Dy(keys, PredictionVelocity);

      InterpolateRemotes(roomSessionId.value);
      forall k | k in playerEntities
        ensures Entities()[k] == ClientTick(old(Entities()), roomSessionId.value, keys, t)[k]
      {
        if k == roomSessionId.value {
          assert playerEntities[k] == currentPlayer;
        }
      }
    }

    /** The loop of a client fixed tick: every entity except the one under
        the own session id is drawn closer to its server position. */
    method InterpolateRemotes(own: string)
      requires Valid() && roomSessionId == Some(own)
      modifies playerEntities.Values
      ensures forall k :: k in playerEntities ==>
                playerEntities[k].View() ==
                  if k == own then old(playerEntities[k].View()) else Interpolated(old(playerEntities[k].View()), t)
      ensures currentPlayer != null ==> currentPlayer.View() == old(currentPlayer.View())
    {
      var pending := playerEntities.Keys;
      while pending != {}
        invariant pending <= playerEntities.Keys
        invariant forall k :: k in playerEntities ==>
                    playerEntities[k].View() ==
                      if k !in pending && k != own then Interpolated(old(playerEntities[k].View()), t)
                      else old(playerEntities[k].View())
        invariant currentPlayer != null ==> currentPlayer.View() == old(currentPlayer.View())
        decreases pending
      {
        var sessionId :| sessionId in pending;
        pending := pending - {sessionId};
        if sessionId == own {
          // the own entity is never interpolated
          continue;
        }
        var entity := playerEntities[sessionId];
        entity.x := Linear(entity.x, entity.serverX, t);
        entity.y := Linear(entity.y, entity.serverY, t);
      }
    }
  }
}
