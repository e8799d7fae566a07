/** Directional intent, shared by the server simulation and the client prediction. */
module Movement {

  /** One input message: the four cursor keys as the client sampled them. */
  datatype Input = Input(left: bool, right: bool, up: bool, down: bool)

  /** Signed displacement along one axis. The negative direction is tested
      first (an `if … else if` chain), so when both keys are held the
      negative one wins: left beats right, up beats down. */
  function Axis(negative: bool, positive: bool, velocity: real): real
  {
    if negative then -velocity else if positive then velocity else 0.0
  }

  /** Horizontal displacement of one input (left is negative x). */
  function Dx(i: Input, velocity: real): real
  {
    Axis(i.left, i.right, velocity)
  }

  /** Vertical displacement of one input (up is negative y). */
  function Dy(i: Input, velocity: real): real
  {
    Axis(i.up, i.down, velocity)
  }

  /** Tie-break: holding both opposite keys moves exactly as holding the
      first-tested one alone, on both axes. */
  lemma OppositeKeysTieBreak(i: Input, velocity: real)
    ensures i.left ==> Dx(i, velocity) == -velocity
    ensures i.up ==> Dy(i, velocity) == -velocity
    ensures Dx(Input(true, true, i.up, i.down), velocity) == Dx(Input(true, false, i.up, i.down), velocity)
    ensures Dy(Input(i.left, i.right, true, true), velocity) == Dy(Input(i.left, i.right, true, false), velocity)
  {
  }

  /** Two moves of one input at velocities a and b add up to a single move
      at velocity a + b: the direction chosen does not depend on the speed. */
  lemma AxisAdditive(negative: bool, positive: bool, a: real, b: real)
    ensures Axis(negative, positive, a) + Axis(negative, positive, b) == Axis(negative, positive, a + b)
  {
  }
}
