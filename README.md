# Forest room: authoritative fixed-step simulation and client prediction

A Dafny model of the multiplayer core of the `forest` game. It covers three parts:

- **The server room** (`server/src/rooms/MyRoom.ts`). A simulation-interval callback adds each real-time delta to an accumulator. It then runs whole fixed ticks of 1000/60 ms. Each player has a queue of inputs. An input is appended to the queue when it arrives, and every tick drains every queue front-first. Players are created at a random spawn point when they join and deleted when they leave.
- **The room state records** (`server/src/rooms/schema/MyRoomState.ts`). A `Player` has `x`, `y` and a server-local `inputQueue`. A `MyRoomState` has a shared greeting string and the `players` map, keyed by session id.
- **The browser client** (`client/index.ts`). A scene mirrors the room's players as entities. Its frame loop runs at most one fixed tick per frame. In that tick it sends the keys and moves its own entity at once at velocity 4. Every other entity is interpolated toward the position the server last reported.

Layout:

- `movement.dfy` (module `Movement`): the input record and the left-beats-right, up-beats-down displacement rule.
- `schema.dfy` (module `Schema`): the `Player` and `MyRoomState` classes and their value views.
- `simulation.dfy` (module `Simulation`): the server's behaviour as functions on values, with lemmas. This covers receipt, drain, tick and the accumulator.
- `room.dfy` (module `Rooms`): the `MyRoom` class. Its methods update the objects in place and are proved against `Simulation`.
- `client.dfy` (module `Client`): the `GameScene` and `Entity` classes, plus the prediction and interpolation functions and lemmas about them.

Modelling choices:

- Positions and times are `real`. IEEE rounding is not modelled.
- Velocities are the source's constants: 2 on the server and 4 on the client.
- A queue entry is a `Payload`: either a truthy input object or a falsy value. The drain loop `while (input = inputQueue.shift())` shifts off entries and stops at the first falsy one. That falsy entry is consumed, and the entries after it stay queued for the next tick. `Simulation.DrainSpec` states this exactly.
- On receipt, a falsy payload is appended and moves nobody. For `false`, `0` and `""`, the property reads give `undefined`. For `null` and `undefined`, the handler throws after the push. Both leave the same state.
- `Math.random()` becomes the parameters `rx` and `ry` of `OnJoin`, each in [0, 1).
- The client's keyboard state becomes the `keys` parameter. `room.send` becomes the returned `sent` value.
- `Phaser.Math.Linear(p0, p1, t)` is taken to be `p0 + (p1 − p0)·t`, its documented definition. The library itself is not part of this model.
- The code is modelled where it departs from the intended design:
  - The input handler moves the player at once (`MyRoom.ts:29-43`), and the tick moves it again. Each input therefore moves its player 4 units per held axis, not 2, and position does change outside ticks. `Simulation.ReceiveThenDrain` and `Client.PredictionMatchesServer` show that this doubled move equals the client's predicted velocity of 4.
  - The client's frame loop uses `if`, not `while` (`client/index.ts:97-101`). At most one fixed tick runs per frame, so the client's accumulator can grow without bound (`Client.ClientBacklog`). The server's `while` keeps its accumulator below one step (`Simulation.AccumulatorSpec`).

## Model

| member | source | states |
|---|---|---|
| `Movement.OppositeKeysTieBreak` | server/src/rooms/MyRoom.ts:61-73 | holding left and right moves exactly as holding left alone. Holding up and down moves exactly as holding up alone. Left or up alone always gives −velocity on its axis |
| `Movement.AxisAdditive` | server/src/rooms/MyRoom.ts:29-43 | two moves of one input at speeds a and b equal one move at a + b. The direction chosen does not depend on the speed |
| `Schema.QueueIsNotSynchronized` | server/src/rooms/schema/MyRoomState.ts:3-7 | clients see only `x` and `y` of a player. Changing the input queue changes nothing they receive |
| `Schema.Player.constructor` | server/src/rooms/schema/MyRoomState.ts:3-7 | a new player has an empty input queue. Its position is left unset |
| `Schema.MyRoomState.constructor` | server/src/rooms/schema/MyRoomState.ts:9-12 | a new room state holds "Hello world" and an empty players map, and satisfies the one-object-per-key invariant |
| `Schema.QueuesAreNotSynchronized` | server/src/rooms/schema/MyRoomState.ts:3-12 | two players maps with the same session ids and the same x and y everywhere give clients the same synchronized map, whatever their input queues hold |
| `Simulation.FirstFalsy` | server/src/rooms/MyRoom.ts:60 | the drain stops at an index n ≤ length. Every entry before n is truthy. The entry at n, if there is one, is falsy |
| `Simulation.DrainSpec` | server/src/rooms/MyRoom.ts:56-74 | a drain moves x (and y) by the sum of ±2 over the truthy entries before the first falsy one. It leaves queued exactly the entries after that falsy entry, so the queue is consumed front-first |
| `Simulation.DrainTruthyQueue` | server/src/rooms/MyRoom.ts:60-74 | if every entry is truthy, a drain empties the queue and moves the player by the sum over all entries |
| `Simulation.ReceiveAppends` | server/src/rooms/MyRoom.ts:28 | receipt appends the payload at the back of the queue. Entries already queued keep their order (FIFO) |
| `Simulation.FalsyInputNotSynchronized` | server/src/rooms/MyRoom.ts:28-43 | receiving a falsy payload changes nothing clients see: it is queued but moves nobody |
| `Simulation.ReceiveThenDrain` | server/src/rooms/MyRoom.ts:28-43 | an input received and then drained moves its player by 4 on each held axis (2 on receipt, 2 in the tick), in addition to what the queued inputs do |
| `Simulation.TickAll` | server/src/rooms/MyRoom.ts:56 | a fixed tick neither adds nor removes a session id |
| `Simulation.TicksKeepKeys` | server/src/rooms/MyRoom.ts:56 | any number of ticks keeps the key set |
| `Simulation.TicksAdd` | server/src/rooms/MyRoom.ts:17-20 | a ticks followed by b ticks equals a + b ticks |
| `Simulation.TickSettles` | server/src/rooms/MyRoom.ts:56-75 | when every queued entry is truthy, a second tick right after a first one changes nothing, because the first emptied every queue |
| `Simulation.AccumulatorSpec` | server/src/rooms/MyRoom.ts:15-20 | from a non-negative accumulator the loop runs k = ⌊elapsed/step⌋ ticks and leaves elapsed − k·step, which lies in [0, step) |
| `Simulation.ChunkingIndependence` | server/src/rooms/MyRoom.ts:14-21 | feeding d after an earlier call runs, in total, as many ticks and leaves the same accumulator as feeding everything in one call |
| `Simulation.ChunkedCallsAgree` | server/src/rooms/MyRoom.ts:14-21 | calls with deltas d1 then d2, starting from 0, leave every player exactly as one call with d1 + d2 |
| `Rooms.SpawnPlayer` | server/src/rooms/MyRoom.ts:81-89 | a joining player is placed in [0, 800) × [0, 600) with an empty queue |
| `Rooms.DrainInputQueue` | server/src/rooms/MyRoom.ts:57-74 | the shift loop leaves the player equal to `Drain` of its old value |
| `Rooms.MyRoom.OnCreate` | server/src/rooms/MyRoom.ts:9-12 | a new room has a fresh state with the greeting and no players, and an accumulator at 0 |
| `Rooms.MyRoom.OnSimulationInterval` | server/src/rooms/MyRoom.ts:14-21 | the accumulator becomes `Leftover(old + delta)`, which stays in [0, step). The players become `TicksDue(old + delta)` fixed ticks of the old players. The players map is unchanged |
| `Rooms.MyRoom.OnInput` | server/src/rooms/MyRoom.ts:23-44 | for a joined sender, only the sender's player changes: the payload is appended to its queue, and a truthy payload moves it by ±2 per held axis at once. The greeting is unchanged, and a falsy payload leaves the whole synchronized state (greeting and positions) unchanged |
| `Rooms.MyRoom.FixedTick` | server/src/rooms/MyRoom.ts:53-76 | every player's value becomes its drained value. The players map (keys and objects) is unchanged |
| `Rooms.MyRoom.OnJoin` | server/src/rooms/MyRoom.ts:78-94 | exactly the key `sessionId` is set, to a fresh player at the spawn point with an empty queue. Other entries and the greeting are unchanged |
| `Rooms.MyRoom.OnLeave` | server/src/rooms/MyRoom.ts:96-99 | exactly the key `sessionId` is removed, or nothing changes if it is absent. Other entries and the greeting are unchanged |
| `Client.Linear` | client/index.ts:140-141 | one interpolation scales the remaining distance to the target by exactly 1 − t |
| `Client.LinearBetween` | client/index.ts:140-141 | for t in [0, 1] the interpolated point lies between the current and the server position. It never overshoots |
| `Client.ClientTick` | client/index.ts:114-142 | a client tick keeps the set of entity keys |
| `Client.OwnEntityNotInterpolated` | client/index.ts:129-133 | the entity under the own session id is not affected by the blend factor, and its server position is kept |
| `Client.ApproachDistance` | client/index.ts:140-141 | after n interpolation steps the distance to the target is the initial one times (1 − t)^n |
| `Client.RemoteApproachesServer` | client/index.ts:129-142 | over any run of ticks, whatever keys are held, a remote entity keeps its server position, and each coordinate takes one interpolation step per tick |
| `Client.PredictionMatchesServer` | client/index.ts:114-127 | for an idle player, the server's receipt plus drain of an input moves it exactly as the client's ±4 prediction does |
| `Client.FrameElapsed` | client/index.ts:95-101 | one frame takes at most one step off the accumulator. If the result is below a step, the old accumulator plus the frame's delta was below two steps |
| `Client.ClientBacklog` | client/index.ts:97-101 | with frames of at least one step, the accumulator grows by delta − step every frame |
| `Client.Entity.constructor` | client/index.ts:39 | a new entity is drawn at the given position |
| `Client.GameScene.constructor` | client/index.ts:10-12 | a new scene has no room, no entities and no current player. The field initialisers at lines 84-87 also give it a zero accumulator and frame counter |
| `Client.GameScene.Create` | client/index.ts:30-81 | joining records the room's session id, or nothing on failure. No entities exist yet |
| `Client.GameScene.OnAdd` | client/index.ts:37-47 | a fresh entity is stored under the session id, with its server position equal to the reported x and y. The map changes only at that key. The entity becomes the current player exactly when the id is the own one |
| `Client.GameScene.OnChange` | client/index.ts:53-64 | a remote player's change updates only that entity's serverX and serverY. The own player's change leaves every entity unchanged |
| `Client.GameScene.OnRemove` | client/index.ts:68-77 | the session id's entry is removed from the entity map if present, with no effect if absent. Other entries (keys and objects) are unchanged |
| `Client.GameScene.Update` | client/index.ts:90-102 | while there is no current player, nothing changes. Otherwise the frame counter goes up by exactly 1 and the delta is accumulated. If a step is due, exactly one step is subtracted and one client tick runs |
| `Client.GameScene.FixedTick` | client/index.ts:104-143 | with a current player, the keys are sent and the own entity moves by ±4 (left beats right, up beats down). Every other entity is interpolated. Without one, nothing happens |
| `Client.GameScene.InterpolateRemotes` | client/index.ts:129-142 | the loop interpolates every entity except the one under the own session id, which it leaves untouched |

## Left out

- Colyseus transport and schema diffing are left out. This covers room matchmaking, `maxClients = 4` enforcement, the timer behind `setSimulationInterval`, and the add/change/remove patch encoding with its snapshot-before-delta ordering. They belong to the framework, which is not part of this model. Callbacks are modelled as plain method calls.
- `Rooms.MyRoom.OnSimulationInterval` requires `deltaTime ≥ 0`. This is an assumption of the model: a negative delta would take the accumulator below 0 (`MyRoom.ts:15`), and that case is not modelled.
- `Rooms.MyRoom.OnInput` requires the sender to have joined. For an unknown session, `players.get` yields `undefined` and the push would throw. That exception is not modelled.
- The empty handler for the `"type"` message, `onDispose`, and all logging are left out. None of them changes state.
- Phaser rendering and input are left out: asset preload, sprite creation beyond the entity's position, `destroy`, keyboard polling, the game config and bootstrap. The debug rectangle that tracks the own player's server position is left out too.
- `Rooms.DrainInputQueue` and `Rooms.MyRoom.OnInput`: the `if`/`else if` displacement choice is written as `Movement.Dx`/`Movement.Dy` added to the position. When no key is held, the model adds 0 where the source skips the assignment. The value is the same.
- `Client.GameScene.OnChange` looks the entity up by session id. The source's closure captures the entity created by that player's `onAdd`. The two coincide while that entry is still in `playerEntities`, which holds for every change of a live player.
- `Client.Linear` assumes Phaser's `Linear` is exactly `p0 + (p1 − p0)·t` on reals. Floating-point rounding is not modelled anywhere.
- Queue length caps, defaults for malformed inputs, and a pending/joined handshake do not exist in the code and are not modelled.
