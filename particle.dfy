/**
 * The particle record of the Rust engine (src/particle.rs): its kind, its
 * kinematic state and its orbit assignment, the constructor `Particle::new`,
 * the per-frame `Particle::update` and `distance_to`.
 *
 * Floating point `f64` is modelled by `real`. The square root and the
 * trigonometric functions the engine calls are not modelled: they are
 * carried as the fields of a `MathOps` value that callers supply, and the
 * few laws a proof needs are stated as predicates on it.
 */
module Particles {
  import opened Wrappers

  datatype ParticleType = Proton | Neutron | Electron

  /** An orbital slot: (subshell kind, principal level, orbital index, position in the orbital). */
  datatype Slot = Slot(subshell: char, level: nat, orbital: nat, pos: nat)

  datatype Particle = Particle(
    x: real, y: real,
    dx: real, dy: real,
    ptype: ParticleType,
    radius: real,
    charge: real,
    mass: real,
    orbitingAround: Option<nat>,     // index of the particle this one orbits
    orbitalPosition: Option<Slot>)

  /** The library functions of `f64` that the engine uses, left uninterpreted. */
  datatype MathOps = MathOps(
    sqrt: real -> real,
    sin: real -> real,
    cos: real -> real,
    atan2: (real, real) -> real)
  {
    function Sqrt(v: real): real { sqrt(v) }
    function Sin(a: real): real { sin(a) }
    function Cos(a: real): real { cos(a) }
    function Atan2(y: real, x: real): real { atan2(y, x) }
  }

  /** The laws of the square root that the proofs rely on. */
  ghost predicate SqrtLaws(m: MathOps) {
    && m.Sqrt(0.0) == 0.0
    && forall v :: 0.0 <= v ==> 0.0 <= m.Sqrt(v)
  }

  function Max(a: real, b: real): (r: real)
    ensures a <= r && b <= r && (r == a || r == b)
  {
    if a < b then b else a
  }

  /** `Particle::new`: radius and charge follow from the kind; the particle starts at rest and free. */
  function NewParticle(x: real, y: real, ptype: ParticleType, mass: real): (p: Particle)
    ensures p.x == x && p.y == y && p.ptype == ptype && p.mass == mass
    ensures p.dx == 0.0 && p.dy == 0.0
    ensures p.orbitingAround == None && p.orbitalPosition == None
    ensures ptype == Electron ==> p.radius == 10.0 && p.charge == -1.0
    ensures ptype == Proton ==> p.radius == 20.0 && p.charge == 1.0
    ensures ptype == Neutron ==> p.radius == 20.0 && p.charge == 0.0
  {
    var (radius, charge) :=
      match ptype
      case Proton => (20.0, 1.0)
      case Neutron => (20.0, 0.0)
      case Electron => (10.0, -1.0);
    Particle(x, y, 0.0, 0.0, ptype, radius, charge, mass, None, None)
  }

  /** `distance_to`: Euclidean distance, measured from `p` to `q`. */
  function DistanceTo(m: MathOps, p: Particle, q: Particle): real {
    var dx := p.x - q.x;
    var dy := p.y - q.y;
    m.Sqrt(dx * dx + dy * dy)
  }

  /** The separation the engine's pair loops compute (from `p` towards `q`, before any flooring). */
  function Separation(m: MathOps, p: Particle, q: Particle): real {
    var dx := q.x - p.x;
    var dy := q.y - p.y;
    m.Sqrt(dx * dx + dy * dy)
  }

  lemma DistanceSymmetric(m: MathOps, p: Particle, q: Particle)
    ensures DistanceTo(m, p, q) == DistanceTo(m, q, p)
    ensures Separation(m, p, q) == DistanceTo(m, p, q)
  {
    assert (p.x - q.x) * (p.x - q.x) == (q.x - p.x) * (q.x - p.x);
    assert (p.y - q.y) * (p.y - q.y) == (q.y - p.y) * (q.y - p.y);
  }

  lemma DistanceLaws(m: MathOps, p: Particle, q: Particle)
    requires SqrtLaws(m)
    ensures DistanceTo(m, p, p) == 0.0
    ensures 0.0 <= DistanceTo(m, p, q)
  {
    var dx := p.x - q.x;
    var dy := p.y - q.y;
    assert 0.0 <= dx * dx + dy * dy;
  }

  /** The wall reflection factor, chosen per kind in the source; both kinds use -1. */
  function Reflection(ptype: ParticleType): real {
    match ptype
    case Electron => -1.0
    case _ => -1.0
  }

  /**
   * One axis of `Particle::update` before damping: move by the velocity, then
   * test the far wall, then the near wall, reflecting the velocity at each
   * wall that is hit.
   */
  function BounceAxis(pos: real, vel: real, radius: real, limit: real, reflection: real): (r: (real, real))
    requires reflection == -1.0
    ensures r.1 == vel || r.1 == -vel
    ensures 2.0 * radius <= limit ==> radius <= r.0 <= limit - radius
    ensures radius <= pos + vel <= limit - radius ==> r == (pos + vel, vel)
    ensures 2.0 * radius <= limit && pos + vel + radius > limit ==> r == (limit - radius, -vel)
    ensures 2.0 * radius <= limit && pos + vel - radius < 0.0 ==> r == (radius, -vel)
    ensures 2.0 * radius > limit && pos + vel + radius > limit ==> r == (radius, vel)
  {
    var p1 := pos + vel;
    var hitFar := p1 + radius > limit;
    var p2 := if hitFar then limit - radius else p1;
    var v2 := if hitFar then vel * reflection else vel;
    var hitNear := p2 - radius < 0.0;
    var p3 := if hitNear then radius else p2;
    var v3 := if hitNear then v2 * reflection else v2;
    assert v2 == if hitFar then -vel else vel;
    assert v3 == if hitNear then -v2 else v2;
    (p3, v3)
  }

  /** The `*= damping` of `Particle::update`. */
  function Damp(vel: real, damping: real): real {
    vel * damping
  }

  /**
   * `Particle::update` as a function of the old particle: both axes bounce,
   * the velocity is then scaled by `damping`, and nothing else changes.
   */
  function Moved(p: Particle, width: real, height: real, damping: real): (q: Particle)
    ensures q == p.(x := q.x, y := q.y, dx := q.dx, dy := q.dy)
  {
    var alongX := BounceAxis(p.x, p.dx, p.radius, width, Reflection(p.ptype));
    var alongY := BounceAxis(p.y, p.dy, p.radius, height, Reflection(p.ptype));
    p.(x := alongX.0, y := alongY.0, dx := Damp(alongX.1, damping), dy := Damp(alongY.1, damping))
  }

  /**
   * What a frame's move does to one particle: a particle that fits the
   * canvas ends inside it; one that does not reach a wall moves by its
   * velocity; one that crosses a wall is put against it with its velocity
   * reversed; in every case the velocity is then damped.
   */
  lemma MovedLaws(p: Particle, width: real, height: real, damping: real)
    ensures var q := Moved(p, width, height, damping);
            && (q.dx == p.dx * damping || q.dx == -p.dx * damping)
            && (q.dy == p.dy * damping || q.dy == -p.dy * damping)
            && (2.0 * p.radius <= width ==> p.radius <= q.x <= width - p.radius)
            && (2.0 * p.radius <= height ==> p.radius <= q.y <= height - p.radius)
            && (p.radius <= p.x + p.dx <= width - p.radius ==> q.x == p.x + p.dx && q.dx == p.dx * damping)
            && (p.radius <= p.y + p.dy <= height - p.radius ==> q.y == p.y + p.dy && q.dy == p.dy * damping)
            && (2.0 * p.radius <= width && p.x + p.dx + p.radius > width ==>
                  q.x == width - p.radius && q.dx == -p.dx * damping)
            && (2.0 * p.radius <= width && p.x + p.dx - p.radius < 0.0 ==>
                  q.x == p.radius && q.dx == -p.dx * damping)
            && (2.0 * p.radius <= height && p.y + p.dy + p.radius > height ==>
                  q.y == height - p.radius && q.dy == -p.dy * damping)
            && (2.0 * p.radius <= height && p.y + p.dy - p.radius < 0.0 ==>
                  q.y == p.radius && q.dy == -p.dy * damping)
  {
    var alongX := BounceAxis(p.x, p.dx, p.radius, width, Reflection(p.ptype));
    var alongY := BounceAxis(p.y, p.dy, p.radius, height, Reflection(p.ptype));
    assert -alongX.1 * damping == -(alongX.1 * damping);
    assert -alongY.1 * damping == -(alongY.1 * damping);
  }

  /** `Particle::update`: the step-wise moves, wall tests and damping of the source, in order. */
  method Update(p: Particle, canvasWidth: real, canvasHeight: real, damping: real) returns (q: Particle)
    ensures q == Moved(p, canvasWidth, canvasHeight, damping)
  {
    var x, y, dx, dy := p.x, p.y, p.dx, p.dy;
    x := x + dx;
    y := y + dy;
    var reflection := Reflection(p.ptype);
    assert reflection == -1.0;
    if x + p.radius > canvasWidth {
      x := canvasWidth - p.radius;
      dx := dx * reflection;
    }
    if x - p.radius < 0.0 {
      x := p.radius;
      dx := dx * reflection;
    }
    assert (x, dx) == BounceAxis(p.x, p.dx, p.radius, canvasWidth, reflection);
    if y + p.radius > canvasHeight {
      y := canvasHeight - p.radius;
      dy := dy * reflection;
    }
    if y - p.radius < 0.0 {
      y := p.radius;
      dy := dy * reflection;
    }
    assert (y, dy) == BounceAxis(p.y, p.dy, p.radius, canvasHeight, reflection);
    dx := Damp(dx, damping);
    dy := Damp(dy, damping);
    q := p.(x := x, y := y, dx := dx, dy := dy);
    assert q == Moved(p, canvasWidth, canvasHeight, damping);
  }
}
