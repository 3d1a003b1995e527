/**
 * The force model of the Rust engine (src/physics.rs): the tunable
 * parameter record and its defaults, the nuclear and Coulomb force scalars,
 * the orbit target of `calculate_orbital_motion` and `apply_force`.
 */
module Physics {
  import opened Particles

  /** The fifteen tunables. `energy_level` is a `u32` that no operation reads or writes after construction. */
  datatype PhysicsParams = PhysicsParams(
    nuclearForce: real,
    nuclearRange: real,
    nuclearAttractive: real,
    nuclearDamping: real,
    protonRepulsion: real,
    coulombForce: real,
    orbitalSpeed: real,
    orbitalRadius: real,
    minOrbitalRadius: real,
    maxOrbitalRadius: real,
    electronRepulsion: real,
    nuclearMass: real,
    electronMass: real,
    electronDamping: real,
    energyLevel: nat)

  /** `PhysicsParams::default`. */
  function DefaultParams(): PhysicsParams {
    PhysicsParams(
      nuclearForce := 25.0,
      nuclearRange := 40.0,
      nuclearAttractive := 30.0,
      nuclearDamping := 1.0,
      protonRepulsion := 15.0,
      coulombForce := 3.0,
      orbitalSpeed := 8.0,
      orbitalRadius := 100.0,
      minOrbitalRadius := 50.0,
      maxOrbitalRadius := 150.0,
      electronRepulsion := 2.0,
      nuclearMass := 3.0,
      electronMass := 0.01,
      electronDamping := 1.0,
      energyLevel := 1)
  }

  /**
   * The defaults make the system conservative: both damping factors are 1,
   * so a frame's bounce step never changes the magnitude of either velocity
   * component, whatever the kind of the particle. The masses are positive,
   * so every force accelerates.
   */
  lemma DefaultsAreConservative(p: Particle, width: real, height: real)
    ensures DefaultParams().nuclearDamping == 1.0 && DefaultParams().electronDamping == 1.0
    ensures DefaultParams().nuclearRange == 40.0
    ensures DefaultParams().nuclearMass == 3.0 && DefaultParams().electronMass == 0.01
    ensures var d := if p.ptype == Electron then DefaultParams().electronDamping else DefaultParams().nuclearDamping;
            var q := Moved(p, width, height, d);
            (q.dx == p.dx || q.dx == -p.dx) && (q.dy == p.dy || q.dy == -p.dy)
  {
  }

  /** `calculate_nuclear_force`: attraction only in the inner half of the range, falling linearly with distance. */
  function NuclearForce(distance: real, params: PhysicsParams): (r: real)
    requires 0.0 <= distance
    ensures distance > params.nuclearRange ==> r == 0.0
    ensures distance >= params.nuclearRange * 0.5 ==> r == 0.0
    ensures distance < params.nuclearRange * 0.5 ==>
              r == params.nuclearAttractive * (1.0 - distance / params.nuclearRange)
  {
    if distance > params.nuclearRange then
      0.0
    else
      var attractive :=
        if distance < params.nuclearRange * 0.5 then
          params.nuclearAttractive * (1.0 - distance / params.nuclearRange)
        else
          0.0;
      attractive
  }

  /** Inside half the range the attraction lies between half and all of `nuclear_attractive`. */
  lemma NuclearForceBounds(distance: real, params: PhysicsParams)
    requires 0.0 <= distance < params.nuclearRange * 0.5
    requires 0.0 <= params.nuclearAttractive
    ensures params.nuclearAttractive / 2.0 <= NuclearForce(distance, params) <= params.nuclearAttractive
    ensures 0.0 < params.nuclearAttractive ==> params.nuclearAttractive / 2.0 < NuclearForce(distance, params)
  {
    var a, f := params.nuclearAttractive, distance / params.nuclearRange;
    assert 0.0 <= f < 0.5 by {
      assert distance == f * params.nuclearRange;
    }
    var r := NuclearForce(distance, params);
    assert r == a * (1.0 - f);
    ScaledBetween(a, f);
    assert a / 2.0 <= r <= a;
  }

  /** Scaling a non-negative `a` by 1 − f for f in [0, 1/2) keeps it in [a/2, a], strictly above a/2 when a > 0. */
  lemma ScaledBetween(a: real, f: real)
    requires 0.0 <= a && 0.0 <= f < 0.5
    ensures a / 2.0 <= a * (1.0 - f) <= a
    ensures 0.0 < a ==> a / 2.0 < a * (1.0 - f)
  {
    assert a * (1.0 - f) - a / 2.0 == a * (0.5 - f);
    assert 0.0 <= a * f;
    if 0.0 < a {
      assert 0.0 < a * (0.5 - f);
    }
  }

  const CoulombConstant: real := 8.9875e9

  /** `calculate_coulomb_force`: zero below unit distance, otherwise k q1 q2 / d^2 scaled by `coulomb_force` and 1e-15. */
  function CoulombForce(distance: real, charge1: real, charge2: real, params: PhysicsParams): (r: real)
    ensures distance < 1.0 ==> r == 0.0
  {
    if distance < 1.0 then
      0.0
    else
      var coulomb := (CoulombConstant * charge1 * charge2) / (distance * distance) * params.coulombForce * 1e-15;
      coulomb
  }

  /** Like charges repel and unlike ones attract: the sign of the result is the sign of the charge product. */
  lemma CoulombSign(distance: real, charge1: real, charge2: real, params: PhysicsParams)
    requires 1.0 <= distance && 0.0 < params.coulombForce
    ensures CoulombForce(distance, charge1, charge2, params) == CoulombForce(distance, charge2, charge1, params)
    ensures CoulombForce(distance, charge1, charge2, params) > 0.0 <==> charge1 * charge2 > 0.0
    ensures CoulombForce(distance, charge1, charge2, params) < 0.0 <==> charge1 * charge2 < 0.0
  {
    var q := charge1 * charge2;
    var dd := distance * distance;
    assert 1.0 <= dd;
    assert CoulombConstant * charge1 * charge2 == CoulombConstant * q;
    assert CoulombConstant * charge2 * charge1 == CoulombConstant * q;
    var scaled := (CoulombConstant * q) / dd;
    assert q > 0.0 ==> scaled > 0.0;
    assert q < 0.0 ==> scaled < 0.0;
    assert q == 0.0 ==> scaled == 0.0;
    var cf := params.coulombForce * 1e-15;
    assert 0.0 < cf;
    assert CoulombForce(distance, charge1, charge2, params) == scaled * params.coulombForce * 1e-15;
    assert scaled * params.coulombForce * 1e-15 == scaled * cf;
    assert scaled > 0.0 ==> scaled * cf > 0.0;
    assert scaled < 0.0 ==> scaled * cf < 0.0;
  }

  /**
   * The physics half of `calculate_orbital_motion`: the tangential speed
   * grows with the square root of the orbital index and the target radius
   * by 30 per index.
   */
  function OrbitalTarget(m: MathOps, orbitalIndex: nat, params: PhysicsParams): (r: (real, real))
    ensures r.1 >= params.orbitalRadius
  {
    var targetRadius := params.orbitalRadius + (orbitalIndex as real * 30.0);
    var speed := params.orbitalSpeed * m.Sqrt(orbitalIndex as real + 1.0);
    (speed, targetRadius)
  }

  /** Successive orbits are spaced 30 apart, starting at `orbital_radius`. */
  lemma OrbitalTargetSpacing(m: MathOps, i: nat, j: nat, params: PhysicsParams)
    ensures OrbitalTarget(m, j, params).1 - OrbitalTarget(m, i, params).1 == 30.0 * (j as real - i as real)
    ensures OrbitalTarget(m, 0, params).1 == params.orbitalRadius
  {
  }

  /** Division as the model uses it where the divisor is a mass; see README for a zero mass. */
  function DivByMass(a: real, mass: real): real {
    if mass == 0.0 then 0.0 else a / mass
  }

  /** `apply_force`: the velocity gains force over mass (Newton's second law over one frame); nothing else changes. */
  function ApplyForce(p: Particle, fx: real, fy: real): (q: Particle)
    ensures q == p.(dx := q.dx, dy := q.dy)
    ensures p.mass != 0.0 ==> p.mass * (q.dx - p.dx) == fx && p.mass * (q.dy - p.dy) == fy
  {
    p.(dx := p.dx + DivByMass(fx, p.mass), dy := p.dy + DivByMass(fy, p.mass))
  }
}
