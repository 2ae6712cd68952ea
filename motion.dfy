/** The motion model of `prediction`, over abstract sine and cosine. */
module Motion {
  import opened Particles

  /** Displacement along x on a straight line: `velocity * dt * cos(theta)`. */
  function LineDx(num: Numerics, theta: real, dt: real, velocity: real): real
  {
    velocity * dt * num.cos(theta)
  }

  /** Displacement along y on a straight line: `velocity * dt * sin(theta)`. */
  function LineDy(num: Numerics, theta: real, dt: real, velocity: real): real
  {
    velocity * dt * num.sin(theta)
  }

  /** Displacement along x on an arc of turn rate `yawRate`. */
  function ArcDx(num: Numerics, theta: real, dt: real, velocity: real, yawRate: real): real
    requires yawRate != 0.0
  {
    (velocity / yawRate) * (num.sin(theta + yawRate * dt) - num.sin(theta))
  }

  /** Displacement along y on an arc of turn rate `yawRate`. */
  function ArcDy(num: Numerics, theta: real, dt: real, velocity: real, yawRate: real): real
    requires yawRate != 0.0
  {
    (velocity / yawRate) * (num.cos(theta) - num.cos(theta + yawRate * dt))
  }

  /** The `yaw_rate == 0` branch: straight-line motion, no process noise, heading kept. */
  function MoveStraight(num: Numerics, p: Particle, dt: real, velocity: real): (r: Particle)
    ensures r == p.(x := r.x, y := r.y)
  {
    p.(x := p.x + LineDx(num, p.theta, dt, velocity),
       y := p.y + LineDy(num, p.theta, dt, velocity))
  }

  /**
   * The turning branch: motion along an arc, then the noise draws `nx`, `ny`,
   * `nt` added to x, y and theta.
   */
  function MoveTurning(num: Numerics, p: Particle, dt: real, velocity: real, yawRate: real,
                       nx: real, ny: real, nt: real): (r: Particle)
    requires yawRate != 0.0
    ensures r == p.(x := r.x, y := r.y, theta := r.theta)
    ensures r.theta == p.theta + yawRate * dt + nt
  {
    p.(x := p.x + ArcDx(num, p.theta, dt, velocity, yawRate) + nx,
       y := p.y + ArcDy(num, p.theta, dt, velocity, yawRate) + ny,
       theta := p.theta + yawRate * dt + nt)
  }

  /** Along a straight line from the origin at heading 0, the particle moves `velocity * dt` along x. */
  lemma StraightFromOrigin(num: Numerics, p: Particle, dt: real, velocity: real)
    requires num.cos(0.0) == 1.0 && num.sin(0.0) == 0.0
    requires p.x == 0.0 && p.y == 0.0 && p.theta == 0.0
    ensures MoveStraight(num, p, dt, velocity).x == velocity * dt
    ensures MoveStraight(num, p, dt, velocity).y == 0.0
    ensures MoveStraight(num, p, dt, velocity).theta == 0.0
  {
  }
}
