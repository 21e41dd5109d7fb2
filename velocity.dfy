/** Velocity arithmetic of the rules, in fixed point: one unit is a tenth of a
    cell per frame, so the source's 0.1 gravity step, 0.5 friction and 3.0 fall cap
    are whole numbers here. */
module Velocity {
  import opened Particles

  const GRAVITY_ACCELERATION: int := 1
  const FRICTION: int := 5

  /** The spreads of the moveable solids, 1.5 and 2.0. */
  const SAND_SPREAD: int := 15
  const GUNPOWDER_SPREAD: int := 20

  /** C's round() of v tenths: to the nearest whole cell count, halves away from zero. */
  function Round(v: int): (r: int)
    ensures v >= 0 ==> 0 <= r && 10 * r - 5 <= v < 10 * r + 5
    ensures v < 0 ==> r <= 0 && 10 * r - 5 < v <= 10 * r + 5
  {
    if v >= 0 then (v + 5) / 10 else -((-v + 5) / 10)
  }

  function Abs(n: int): (r: nat)
    ensures r == n || r == -n
  {
    if n < 0 then -n else n
  }

  /** The sign of v as xVelSign computes it: 1, 0 or -1. */
  function Sign(v: int): (r: int)
    ensures (v > 0 ==> r == 1) && (v == 0 ==> r == 0) && (v < 0 ==> r == -1)
  {
    if v > 0 then 1 else if v < 0 then -1 else 0
  }

  /** One gravity step, capped at MAX_VELOCITY. */
  function Accelerated(yVel: int): (r: int)
    requires 0 <= yVel <= MAX_VELOCITY
    ensures 0 < r <= MAX_VELOCITY && (r == yVel + GRAVITY_ACCELERATION || r == MAX_VELOCITY)
  {
    if yVel + GRAVITY_ACCELERATION < MAX_VELOCITY then yVel + GRAVITY_ACCELERATION else MAX_VELOCITY
  }

  /** Under the cap, a fall loop that runs round(yVel) + 1 times runs at most four
      times: round(3.0) + 1. */
  lemma FallSteps(yVel: int)
    requires 0 <= yVel <= MAX_VELOCITY
    ensures 1 <= Round(yVel) + 1 <= 4
    ensures yVel == 0 ==> Round(yVel) + 1 == 1
  {
  }

  /** The slide conversion of a blocked fall into sideways speed, yVel * dir / spread,
      truncated to tenths. */
  function SlideVelocity(yVel: int, dir: int, spread: int): (r: int)
    requires 0 <= yVel && (dir == 1 || dir == -1) && spread > 0
    ensures Sign(r) == 0 || Sign(r) == dir
    ensures Abs(r) * spread <= yVel * 10
  {
    dir * (yVel * 10 / spread)
  }
}
