/**
 * The particle object of the TypeScript front end (src/models/Particle.ts):
 * a mutable record whose constructor fills missing or zero radius, charge
 * and mass from the particle's kind, and whose `update` keeps it on the
 * canvas by clamping first and moving afterwards.
 *
 * JavaScript numbers are modelled by `real`. The constructor's random
 * default velocity is not modelled: the velocity is always given.
 */
module TsParticles {
  import opened Wrappers

  datatype Kind = Proton | Neutron | Electron

  datatype OrbitalType = NoOrbital | S | P | D | F | G

  /**
   * JavaScript's `given || fallback` on an optional number: an absent value
   * and a zero both give way to the fallback. (NaN, the third falsy number,
   * has no counterpart in `real`.)
   */
  function OrDefault(given: Option<real>, fallback: real): (r: real)
    ensures given.Some? && given.value != 0.0 ==> r == given.value
    ensures given.None? || given.value == 0.0 ==> r == fallback
  {
    match given
    case Some(v) => if v != 0.0 then v else fallback
    case None => fallback
  }

  /** The radius a particle gets: the given one unless it is absent or zero, else 10 for an electron and 20 otherwise. */
  function InitialRadius(kind: Kind, given: Option<real>): (r: real)
    ensures r != 0.0
    ensures given.Some? && given.value != 0.0 ==> r == given.value
    ensures (given.None? || given.value == 0.0) && kind == Electron ==> r == 10.0
    ensures (given.None? || given.value == 0.0) && kind != Electron ==> r == 20.0
  {
    OrDefault(given, if kind == Electron then 10.0 else 20.0)
  }

  /**
   * The charge a particle gets. Since a given zero falls back to the kind's
   * charge, only a neutron without a nonzero given charge ends up neutral.
   */
  function InitialCharge(kind: Kind, given: Option<real>): (r: real)
    ensures r == 0.0 <==> kind == Neutron && (given.None? || given.value == 0.0)
    ensures given.Some? && given.value != 0.0 ==> r == given.value
    ensures (given.None? || given.value == 0.0) && kind == Proton ==> r == 1.0
    ensures (given.None? || given.value == 0.0) && kind == Electron ==> r == -1.0
  {
    OrDefault(given, if kind == Proton then 1.0 else if kind == Electron then -1.0 else 0.0)
  }

  /** The mass a particle gets: never zero, 0.0005 for an electron and 3 otherwise unless a nonzero one is given. */
  function InitialMass(kind: Kind, given: Option<real>): (r: real)
    ensures r != 0.0
    ensures given.Some? && given.value != 0.0 ==> r == given.value
    ensures (given.None? || given.value == 0.0) && kind == Electron ==> r == 0.0005
    ensures (given.None? || given.value == 0.0) && kind != Electron ==> r == 3.0
  {
    OrDefault(given, if kind == Electron then 0.0005 else 3.0)
  }

  /** The position and velocity of a particle along one axis. */
  datatype Motion = Motion(pos: real, vel: real)

  /** The far-wall test of `update`: past the wall, the particle is put against it and bounces at 90% speed. */
  function FarWall(m: Motion, radius: real, limit: real): Motion {
    if m.pos + radius > limit then Motion(limit - radius, m.vel * -0.9) else m
  }

  /** The near-wall test of `update`, the same at coordinate 0. */
  function NearWall(m: Motion, radius: real): Motion {
    if m.pos - radius < 0.0 then Motion(radius, m.vel * -0.9) else m
  }

  /** One axis of the wall test in `update`: the far wall first, then the near wall. */
  function Clamp(m: Motion, radius: real, limit: real): Motion {
    NearWall(FarWall(m, radius, limit), radius)
  }

  /** A particle that fits between the walls ends the wall test between them, against the wall it crossed. */
  lemma ClampLaws(m: Motion, radius: real, limit: real)
    ensures var r := Clamp(m, radius, limit);
            && (2.0 * radius <= limit ==> radius <= r.pos <= limit - radius)
            && (radius <= m.pos <= limit - radius ==> r == m)
            && (2.0 * radius <= limit && m.pos + radius > limit ==> r == Motion(limit - radius, m.vel * -0.9))
            && (2.0 * radius <= limit && m.pos - radius < 0.0 ==> r == Motion(radius, m.vel * -0.9))
  {
  }

  /** The `*= damping` of `update`. */
  function Damp(vel: real, damping: real): real {
    vel * damping
  }

  /**
   * One axis of `update`: the wall test, then the move by the (possibly
   * reflected) velocity, then damping. Unlike the Rust engine, the move
   * comes after the wall test, so a fast particle can end the frame past a
   * wall.
   */
  function Axis(m: Motion, radius: real, limit: real, damping: real): Motion {
    var clamped := Clamp(m, radius, limit);
    Motion(clamped.pos + clamped.vel, Damp(clamped.vel, damping))
  }

  /**
   * What one axis of `update` does: with no wall touched the particle moves
   * by its velocity; a particle past a wall is put back against it and then
   * moves by the reversed velocity at 90% speed, so the move always starts
   * between the walls. Damping scales only the velocity.
   */
  lemma AxisLaws(m: Motion, radius: real, limit: real, damping: real)
    ensures var r := Axis(m, radius, limit, damping);
            && (radius <= m.pos <= limit - radius ==> r == Motion(m.pos + m.vel, m.vel * damping))
            && (2.0 * radius <= limit && m.pos + radius > limit ==>
                  r == Motion(limit - radius + m.vel * -0.9, m.vel * -0.9 * damping))
            && (2.0 * radius <= limit && m.pos - radius < 0.0 ==>
                  r == Motion(radius + m.vel * -0.9, m.vel * -0.9 * damping))
            && (2.0 * radius <= limit ==> radius <= r.pos - Clamp(m, radius, limit).vel <= limit - radius)
  {
    ClampLaws(m, radius, limit);
  }

  /** A particle of the TypeScript front end. Only the position and the velocity change after construction. */
  class Particle {
    var x: real
    var y: real
    const kind: Kind
    const orbitalType: OrbitalType
    const radius: real
    const charge: real
    const mass: real
    var dx: real
    var dy: real

    /** The constructor: absent or zero radius, charge and mass take the kind's defaults; the orbital type defaults to none. */
    constructor(x: real, y: real, kind: Kind, orbitalType: Option<OrbitalType>,
                radius: Option<real>, charge: Option<real>, mass: Option<real>, dx: real, dy: real)
      ensures this.x == x && this.y == y && this.kind == kind && this.dx == dx && this.dy == dy
      ensures this.orbitalType == orbitalType.GetOr(NoOrbital)
      ensures this.radius == InitialRadius(kind, radius)
      ensures this.charge == InitialCharge(kind, charge)
      ensures this.mass == InitialMass(kind, mass)
    {
      this.x := x;
      this.y := y;
      this.kind := kind;
      this.orbitalType := orbitalType.GetOr(NoOrbital);
      this.radius := OrDefault(radius, if kind == Electron then 10.0 else 20.0);
      this.charge := OrDefault(charge, if kind == Proton then 1.0 else if kind == Electron then -1.0 else 0.0);
      this.mass := OrDefault(mass, if kind == Electron then 0.0005 else 3.0);
      this.dx := dx;
      this.dy := dy;
    }

    /** `update`: the four wall tests in order, then the move, then damping; nothing but x, y, dx and dy changes. */
    method Update(canvasWidth: real, canvasHeight: real, damping: real)
      modifies this`x, this`y, this`dx, this`dy
      ensures Motion(x, dx) == Axis(Motion(old(x), old(dx)), radius, canvasWidth, damping)
      ensures Motion(y, dy) == Axis(Motion(old(y), old(dy)), radius, canvasHeight, damping)
    {
      if x + radius > canvasWidth {
        x := canvasWidth - radius;
        dx := dx * -0.9;
      }
      if x - radius < 0.0 {
        x := radius;
        dx := dx * -0.9;
      }
      if y + radius > canvasHeight {
        y := canvasHeight - radius;
        dy := dy * -0.9;
      }
      if y - radius < 0.0 {
        y := radius;
        dy := dy * -0.9;
      }
      x := x + dx;
      y := y + dy;
      dx := Damp(dx, damping);
      dy := Damp(dy, damping);
    }
  }
}
