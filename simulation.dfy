/** The server's simulation as functions on player values: what receiving an
    input, draining a queue, one fixed tick and the time accumulator do. The
    room's methods are proved against these definitions. */
module Simulation {
  import opened Movement
  import opened Schema

  /** Units per input per axis, on receipt and again on each drain. */
  const Velocity: real := 2.0

  /** Apply one input to a player's position. */
  function Step(p: PlayerView, i: Input): PlayerView
  {
    p.(x := p.x + Dx(i, Velocity), y := p.y + Dy(i, Velocity))
  }

  /** Receipt of a message on channel 0: the payload is appended to the
      queue, and a truthy payload also moves the player at once. */
  function Receive(p: PlayerView, data: Payload): PlayerView
  {
    var moved := if data.Command? then Step(p, data.input) else p;
    moved.(queue := p.queue + [data])
  }

  /** The drain loop of one tick: shift entries off the front and apply them
      until the queue is empty or a falsy entry has been shifted off. */
  function Drain(p: PlayerView): PlayerView
    decreases |p.queue|
  {
    if p.queue == [] then p
    else
      var rest := p.(queue := p.queue[1..]);
      match p.queue[0]
      case Falsy => rest
      case Command(i) => Drain(Step(rest, i))
  }

  // ---------------------------------------------------------------------
  // A reference description of Drain: which entries it consumes, which it
  // leaves, and how far it moves the player.

  /** The index of the first falsy entry, or the length when there is none. */
  function FirstFalsy(q: seq<Payload>): (n: nat)
    ensures n <= |q|
    ensures forall j :: 0 <= j < n ==> q[j].Command?
    ensures n < |q| ==> q[n].Falsy?
  {
    if q == [] || q[0].Falsy? then 0 else 1 + FirstFalsy(q[1..])
  }

  /** The truthy entries a drain applies, in queue order. */
  function Consumed(q: seq<Payload>): seq<Payload>
  {
    q[..FirstFalsy(q)]
  }

  /** What a drain leaves queued: everything after the first falsy entry. */
  function Remaining(q: seq<Payload>): seq<Payload>
  {
    var n := FirstFalsy(q);
    if n < |q| then q[n + 1..] else []
  }

  predicate AllTruthy(q: seq<Payload>)
  {
    forall j :: 0 <= j < |q| ==> q[j].Command?
  }

  function PayloadDx(e: Payload, velocity: real): real
  {
    if e.Command? then Dx(e.input, velocity) else 0.0
  }

  function PayloadDy(e: Payload, velocity: real): real
  {
    if e.Command? then Dy(e.input, velocity) else 0.0
  }

  /** Total horizontal displacement of a run of entries. */
  function SumDx(q: seq<Payload>, velocity: real): real
  {
    if q == [] then 0.0 else PayloadDx(q[0], velocity) + SumDx(q[1..], velocity)
  }

  /** Total vertical displacement of a run of entries. */
  function SumDy(q: seq<Payload>, velocity: real): real
  {
    if q == [] then 0.0 else PayloadDy(q[0], velocity) + SumDy(q[1..], velocity)
  }

  /** A drain moves the player by the sum of the truthy entries before the
      first falsy one, and leaves exactly the entries after that falsy one. */
  lemma {:induction false} DrainSpec(p: PlayerView)
    ensures Drain(p) == PlayerView(p.x + SumDx(Consumed(p.queue), Velocity),
                                   p.y + SumDy(Consumed(p.queue), Velocity),
                                   Remaining(p.queue))
    decreases |p.queue|
  {
    var q := p.queue;
    if q == [] {
    } else if q[0].Falsy? {
      assert Consumed(q) == [];
    } else {
      var i := q[0].input;
      var next := Step(p.(queue := q[1..]), i);
      DrainSpec(next);
      assert FirstFalsy(q) == 1 + FirstFalsy(q[1..]);
      assert Consumed(q)[1..] == Consumed(q[1..]);
      assert Consumed(q) != [] && Consumed(q)[0] == q[0];
      assert Remaining(q) == Remaining(q[1..]);
    }
  }

  /** When every queued entry is truthy, a drain empties the queue and moves
      the player by the sum of all of them. */
  lemma DrainTruthyQueue(p: PlayerView)
    requires AllTruthy(p.queue)
    ensures Drain(p) == PlayerView(p.x + SumDx(p.queue, Velocity), p.y + SumDy(p.queue, Velocity), [])
  {
    DrainSpec(p);
    assert FirstFalsy(p.queue) == |p.queue|;
    assert Consumed(p.queue) == p.queue;
  }

  lemma {:induction false} SumAppend(q: seq<Payload>, e: Payload, velocity: real)
    ensures SumDx(q + [e], velocity) == SumDx(q, velocity) + PayloadDx(e, velocity)
    ensures SumDy(q + [e], velocity) == SumDy(q, velocity) + PayloadDy(e, velocity)
    decreases |q|
  {
    if q != [] {
      assert (q + [e])[1..] == q[1..] + [e];
      SumAppend(q[1..], e, velocity);
    }
  }

  /** Receipt appends at the back of the queue and leaves the entries already
      queued where they were (first in, first out). */
  lemma ReceiveAppends(p: PlayerView, data: Payload)
    ensures Receive(p, data).queue[..|p.queue|] == p.queue
    ensures Receive(p, data).queue[|p.queue|] == data
    ensures |Receive(p, data).queue| == |p.queue| + 1
  {
  }

  /** A falsy payload is queued but moves nobody, so the clients see no
      change at all when one arrives. */
  lemma {:induction false} FalsyInputNotSynchronized(s: map<string, PlayerView>, id: string)
    requires id in s
    ensures SyncedMap(s[id := Receive(s[id], Falsy)]) == SyncedMap(s)
  {
    QueuesAreNotSynchronized(s[id := Receive(s[id], Falsy)], s);
  }

  /** An input received and then drained moves its player twice the tick
      velocity, 4 units, on every axis whose key is held: once on receipt,
      once in the tick. */
  lemma ReceiveThenDrain(p: PlayerView, i: Input)
    requires AllTruthy(p.queue)
    ensures Drain(Receive(p, Command(i))) ==
            Drain(p).(x := Drain(p).x + Dx(i, 2.0 * Velocity), y := Drain(p).y + Dy(i, 2.0 * Velocity))
  {
    var r := Receive(p, Command(i));
    assert AllTruthy(r.queue);
    DrainTruthyQueue(p);
    DrainTruthyQueue(r);
    SumAppend(p.queue, Command(i), Velocity);
    AxisAdditive(i.left, i.right, Velocity, Velocity);
    AxisAdditive(i.up, i.down, Velocity, Velocity);
  }

  // ---------------------------------------------------------------------
  // One fixed tick over the whole room, and repeated ticks.

  /** One fixed tick: every player's queue is drained; no key is added or
      removed. */
  function TickAll(s: map<string, PlayerView>): (r: map<string, PlayerView>)
    ensures r.Keys == s.Keys
  {
    map k | k in s :: Drain(s[k])
  }

  /** n fixed ticks in a row. */
  function Ticks(s: map<string, PlayerView>, n: nat): map<string, PlayerView>
  {
    if n == 0 then s else TickAll(Ticks(s, n - 1))
  }

  lemma {:induction false} TicksKeepKeys(s: map<string, PlayerView>, n: nat)
    ensures Ticks(s, n).Keys == s.Keys
  {
    if n > 0 {
      TicksKeepKeys(s, n - 1);
    }
  }

  lemma {:induction false} TicksAdd(s: map<string, PlayerView>, a: nat, b: nat)
    ensures Ticks(Ticks(s, a), b) == Ticks(s, a + b)
  {
    if b > 0 {
      TicksAdd(s, a, b - 1);
    }
  }

  /** Once every queue holds only truthy entries, a second tick right after
      the first changes nothing: the first one drained everything. */
  lemma TickSettles(s: map<string, PlayerView>)
    requires forall k :: k in s ==> AllTruthy(s[k].queue)
    ensures TickAll(TickAll(s)) == TickAll(s)
  {
    forall k | k in s
      ensures Drain(Drain(s[k])) == Drain(s[k])
    {
      DrainTruthyQueue(s[k]);
    }
  }

  // ---------------------------------------------------------------------
  // The fixed-step accumulator of the simulation interval.

  /** Real division by a positive step: subtracting one step lowers the
      quotient by exactly one. */
  lemma DivShift(e: real, step: real)
    requires step > 0.0
    ensures (e - step) / step == e / step - 1.0
  {
    var q := e / step;
    var q1 := (e - step) / step;
    var a := q1 - q + 1.0;
    assert q * step == e;
    assert q1 * step == e - step;
    assert a * step == q1 * step - q * step + step;
    assert a > 0.0 ==> a * step > 0.0;
    assert a < 0.0 ==> a * step < 0.0;
  }

  /** Less than one step is less than one in quotient. */
  lemma DivBelowOne(e: real, step: real)
    requires step > 0.0 && 0.0 <= e < step
    ensures 0.0 <= e / step < 1.0
  {
    var q := e / step;
    assert q * step == e;
    assert q < 0.0 ==> q * step < 0.0;
    assert q >= 1.0 ==> q * step >= 1.0 * step;
  }

  /** How many fixed ticks `while (elapsed >= step) elapsed -= step` runs. */
  function TicksDue(elapsed: real, step: real): nat
    requires step > 0.0
    decreases if elapsed < step then 0 else (elapsed / step).Floor
  {
    if elapsed >= step then
      DivShift(elapsed, step);
      1 + TicksDue(elapsed - step, step)
    else 0
  }

  /** What that loop leaves in the accumulator. */
  function Leftover(elapsed: real, step: real): real
    requires step > 0.0
    decreases if elapsed < step then 0 else (elapsed / step).Floor
  {
    if elapsed >= step then
      DivShift(elapsed, step);
      Leftover(elapsed - step, step)
    else elapsed
  }

  /** With a non-negative accumulator the loop runs ⌊elapsed/step⌋ ticks and
      leaves elapsed − ticks·step, which is in [0, step). */
  lemma {:induction false} AccumulatorSpec(elapsed: real, step: real)
    requires step > 0.0 && elapsed >= 0.0
    ensures TicksDue(elapsed, step) == (elapsed / step).Floor
    ensures Leftover(elapsed, step) == elapsed - TicksDue(elapsed, step) as real * step
    ensures 0.0 <= Leftover(elapsed, step) < step
    decreases if elapsed < step then 0 else (elapsed / step).Floor
  {
    if elapsed >= step {
      DivShift(elapsed, step);
      AccumulatorSpec(elapsed - step, step);
    } else {
      DivBelowOne(elapsed, step);
    }
  }

  /** Chunking independence: feeding d after a first call leaves the same
      accumulator and runs, in total, the same number of ticks as feeding
      everything in one call. */
  lemma {:induction false} ChunkingIndependence(elapsed: real, d: real, step: real)
    requires step > 0.0 && d >= 0.0
    ensures TicksDue(elapsed, step) + TicksDue(Leftover(elapsed, step) + d, step) == TicksDue(elapsed + d, step)
    ensures Leftover(Leftover(elapsed, step) + d, step) == Leftover(elapsed + d, step)
    decreases if elapsed < step then 0 else (elapsed / step).Floor
  {
    if elapsed >= step {
      DivShift(elapsed, step);
      ChunkingIndependence(elapsed - step, d, step);
      assert TicksDue(elapsed, step) == 1 + TicksDue(elapsed - step, step);
      assert Leftover(elapsed, step) == Leftover(elapsed - step, step);
      DivShift(elapsed + d, step);
      assert TicksDue(elapsed + d, step) == 1 + TicksDue(elapsed + d - step, step);
      assert elapsed + d - step == elapsed - step + d;
    } else {
      assert TicksDue(elapsed, step) == 0 && Leftover(elapsed, step) == elapsed;
    }
  }

  /** Two calls with deltas d1 and d2 from an empty accumulator give the
      room the same players as one call with d1 + d2. */
  lemma ChunkedCallsAgree(s: map<string, PlayerView>, d1: real, d2: real, step: real)
    requires step > 0.0 && d1 >= 0.0 && d2 >= 0.0
    ensures Ticks(Ticks(s, TicksDue(d1, step)), TicksDue(Leftover(d1, step) + d2, step))
            == Ticks(s, TicksDue(d1 + d2, step))
  {
    var a := TicksDue(d1, step);
    var b := TicksDue(Leftover(d1, step) + d2, step);
    ChunkingIndependence(d1, d2, step);
    assert a + b == TicksDue(d1 + d2, step);
    TicksAdd(s, a, b);
  }
}
