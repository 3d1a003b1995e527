/**
 * The pairwise force pass of the engine (`calculate_forces` in
 * src/simulation.rs) as functions: the force of one pair, its accumulation
 * over all pairs i < j with equal and opposite contributions, and the
 * application of the accumulated forces to the velocities.
 */
module Forces {
  import opened Particles
  import opened Physics

  type Force = (real, real)

  predicate IsNucleon(p: Particle) {
    p.ptype == Proton || p.ptype == Neutron
  }

  /**
   * The scalar force between two particles at (floored) distance `d`:
   * nuclear attraction between nucleons, extra repulsion between protons and
   * between electrons, and Coulomb only when both charges are nonzero.
   */
  function ForceMagnitude(pi: Particle, pj: Particle, d: real, params: PhysicsParams): (r: real)
    requires 1.0 <= d
  {
    var nuclear :=
      if IsNucleon(pi) && IsNucleon(pj) then
        NuclearForce(d, params)
        - (if pi.ptype == Proton && pj.ptype == Proton then params.protonRepulsion / (d + 0.1) else 0.0)
      else 0.0;
    var coulomb :=
      if pi.charge != 0.0 && pj.charge != 0.0 then CoulombForce(d, pi.charge, pj.charge, params) else 0.0;
    var electronic :=
      if pi.ptype == Electron && pj.ptype == Electron then params.electronRepulsion / (d + 0.1) else 0.0;
    nuclear + coulomb - electronic
  }

  /** A force of size `mag` along the displacement (dx, dy) of length `d`. */
  function Directed(mag: real, dx: real, dy: real, d: real): Force
    requires d != 0.0
  {
    ((mag * dx) / d, (mag * dy) / d)
  }

  /** The force the pair (i, j) adds to particle i; particle j receives its negation. */
  function PairForce(m: MathOps, pi: Particle, pj: Particle, params: PhysicsParams): Force {
    var distance := Max(Separation(m, pi, pj), 1.0);
    Directed(ForceMagnitude(pi, pj, distance, params), pj.x - pi.x, pj.y - pi.y, distance)
  }

  /** The pair force spelled out component by component, as the accumulation loop computes it. */
  lemma PairForceComponents(m: MathOps, pi: Particle, pj: Particle, params: PhysicsParams,
                            dx: real, dy: real, distance: real, magnitude: real)
    requires dx == pj.x - pi.x && dy == pj.y - pi.y
    requires distance == Max(Separation(m, pi, pj), 1.0)
    requires magnitude == ForceMagnitude(pi, pj, distance, params)
    ensures PairForce(m, pi, pj, params) == ((magnitude * dx) / distance, (magnitude * dy) / distance)
  {
    DirectedComponents(magnitude, dx, dy, distance);
    assert PairForce(m, pi, pj, params) == Directed(magnitude, dx, dy, distance);
  }

  lemma DirectedComponents(mag: real, dx: real, dy: real, d: real)
    requires 1.0 <= d
    ensures Directed(mag, dx, dy, d) == ((mag * dx) / d, (mag * dy) / d)
  {
  }

  /** The scalar force does not depend on the order of the pair. */
  lemma ForceMagnitudeSymmetric(pi: Particle, pj: Particle, d: real, params: PhysicsParams)
    requires 1.0 <= d
    ensures ForceMagnitude(pi, pj, d, params) == ForceMagnitude(pj, pi, d, params)
  {
    assert CoulombConstant * pi.charge * pj.charge == CoulombConstant * pj.charge * pi.charge;
  }

  lemma DirectedNegates(mag: real, dx: real, dy: real, d: real)
    requires d != 0.0
    ensures Directed(mag, -dx, -dy, d) == (-Directed(mag, dx, dy, d).0, -Directed(mag, dx, dy, d).1)
  {
    NegatedQuotient(mag * dx, d);
    NegatedQuotient(mag * dy, d);
    assert mag * -dx == -(mag * dx);
    assert mag * -dy == -(mag * dy);
  }

  lemma NegatedQuotient(a: real, d: real)
    requires d != 0.0
    ensures (-a) / d == -(a / d)
  {
    var q := a / d;
    assert q * d == a;
    assert (-q) * d == -a;
  }

  /** Swapping the two particles of a pair negates the pair force: equal and opposite. */
  lemma PairForceAntisymmetric(m: MathOps, pi: Particle, pj: Particle, params: PhysicsParams)
    ensures PairForce(m, pj, pi, params) == (-PairForce(m, pi, pj, params).0, -PairForce(m, pi, pj, params).1)
  {
    DistanceSymmetric(m, pi, pj);
    DistanceSymmetric(m, pj, pi);
    var d := Max(Separation(m, pi, pj), 1.0);
    ForceMagnitudeSymmetric(pi, pj, d, params);
    DirectedNegates(ForceMagnitude(pi, pj, d, params), pj.x - pi.x, pj.y - pi.y, d);
  }

  /** Two protons beyond the nuclear range feel no nuclear attraction, only the repulsions. */
  lemma FarProtonsOnlyRepel(pi: Particle, pj: Particle, d: real, params: PhysicsParams)
    requires pi.ptype == Proton && pj.ptype == Proton && pi.charge != 0.0 && pj.charge != 0.0
    requires 1.0 <= d && d > params.nuclearRange
    ensures ForceMagnitude(pi, pj, d, params) ==
            CoulombForce(d, pi.charge, pj.charge, params) - params.protonRepulsion / (d + 0.1)
  {
  }

  /**
   * A neutral particle takes part in no Coulomb term, whatever the kinds:
   * nucleons then feel only the nuclear part (less the proton repulsion),
   * two electrons only their repulsion, and a nucleon with an electron
   * nothing at all.
   */
  lemma NeutralHasNoCoulomb(pi: Particle, pj: Particle, d: real, params: PhysicsParams)
    requires 1.0 <= d && (pi.charge == 0.0 || pj.charge == 0.0)
    ensures IsNucleon(pi) && IsNucleon(pj) && !(pi.ptype == Proton && pj.ptype == Proton) ==>
              ForceMagnitude(pi, pj, d, params) == NuclearForce(d, params)
    ensures pi.ptype == Proton && pj.ptype == Proton ==>
              ForceMagnitude(pi, pj, d, params) == NuclearForce(d, params) - params.protonRepulsion / (d + 0.1)
    ensures pi.ptype == Electron && pj.ptype == Electron ==>
              ForceMagnitude(pi, pj, d, params) == -(params.electronRepulsion / (d + 0.1))
    ensures IsNucleon(pi) != IsNucleon(pj) ==> ForceMagnitude(pi, pj, d, params) == 0.0
  {
  }

  /** Adds force f to slot i and subtracts it from slot j. */
  function AddPair(forces: seq<Force>, i: nat, j: nat, f: Force): (r: seq<Force>)
    requires i < |forces| && j < |forces| && i != j
    ensures |r| == |forces|
  {
    forces[i := (forces[i].0 + f.0, forces[i].1 + f.1)][j := (forces[j].0 - f.0, forces[j].1 - f.1)]
  }

  /**
   * What is left of the accumulation loop from pair (i, j) on, starting
   * from the partial sums `forces`: the rest of row i, then rows i+1, ...
   */
  function ForcesFrom(m: MathOps, params: PhysicsParams, ps: seq<Particle>, forces: seq<Force>, i: nat, j: nat): (r: seq<Force>)
    requires |forces| == |ps| && i < j
    ensures |r| == |ps|
    decreases |ps| - i, |ps| - j
  {
    if i >= |ps| then forces
    else if j >= |ps| then ForcesFrom(m, params, ps, forces, i + 1, i + 2)
    else ForcesFrom(m, params, ps, AddPair(forces, i, j, PairForce(m, ps[i], ps[j], params)), i, j + 1)
  }

  lemma ForcesFromPair(m: MathOps, params: PhysicsParams, ps: seq<Particle>, forces: seq<Force>, i: nat, j: nat)
    requires |forces| == |ps| && i < j < |ps|
    ensures ForcesFrom(m, params, ps, forces, i, j)
         == ForcesFrom(m, params, ps, AddPair(forces, i, j, PairForce(m, ps[i], ps[j], params)), i, j + 1)
  {
  }

  lemma ForcesFromRowEnd(m: MathOps, params: PhysicsParams, ps: seq<Particle>, forces: seq<Force>, i: nat, j: nat)
    requires |forces| == |ps| && i < j && i < |ps| <= j
    ensures ForcesFrom(m, params, ps, forces, i, j) == ForcesFrom(m, params, ps, forces, i + 1, i + 2)
  {
  }

  function Zeros(n: nat): (r: seq<Force>)
    ensures |r| == n && forall k :: 0 <= k < n ==> r[k] == (0.0, 0.0)
  {
    seq(n, _ => (0.0, 0.0))
  }

  /** The accumulated force on every particle. */
  function NetForces(m: MathOps, params: PhysicsParams, ps: seq<Particle>): (r: seq<Force>)
    ensures |r| == |ps|
  {
    ForcesFrom(m, params, ps, Zeros(|ps|), 0, 1)
  }

  function SumX(fs: seq<Force>): real {
    if fs == [] then 0.0 else fs[0].0 + SumX(fs[1..])
  }

  function SumY(fs: seq<Force>): real {
    if fs == [] then 0.0 else fs[0].1 + SumY(fs[1..])
  }

  lemma {:induction false} SumXUpdate(fs: seq<Force>, k: nat, f: Force)
    requires k < |fs|
    ensures SumX(fs[k := f]) == SumX(fs) - fs[k].0 + f.0
  {
    if k > 0 {
      SumXUpdate(fs[1..], k - 1, f);
      assert fs[k := f][1..] == fs[1..][k - 1 := f];
    }
  }

  lemma {:induction false} SumYUpdate(fs: seq<Force>, k: nat, f: Force)
    requires k < |fs|
    ensures SumY(fs[k := f]) == SumY(fs) - fs[k].1 + f.1
  {
    if k > 0 {
      SumYUpdate(fs[1..], k - 1, f);
      assert fs[k := f][1..] == fs[1..][k - 1 := f];
    }
  }

  lemma {:induction false} SumZeros(n: nat)
    ensures SumX(Zeros(n)) == 0.0 && SumY(Zeros(n)) == 0.0
  {
    if n > 0 {
      SumZeros(n - 1);
      assert Zeros(n)[1..] == Zeros(n - 1);
    }
  }

  /** One pair's two contributions cancel in the totals. */
  lemma AddPairKeepsSums(forces: seq<Force>, i: nat, j: nat, f: Force)
    requires i < |forces| && j < |forces| && i != j
    ensures SumX(forces[i := (forces[i].0 + f.0, forces[i].1 + f.1)][j := (forces[j].0 - f.0, forces[j].1 - f.1)]) == SumX(forces)
    ensures SumY(forces[i := (forces[i].0 + f.0, forces[i].1 + f.1)][j := (forces[j].0 - f.0, forces[j].1 - f.1)]) == SumY(forces)
  {
    var fi := (forces[i].0 + f.0, forces[i].1 + f.1);
    var fj := (forces[j].0 - f.0, forces[j].1 - f.1);
    var step := forces[i := fi];
    SumXUpdate(forces, i, fi);
    SumXUpdate(step, j, fj);
    SumYUpdate(forces, i, fi);
    SumYUpdate(step, j, fj);
  }

  lemma {:induction false} ForcesFromKeepsSums(m: MathOps, params: PhysicsParams, ps: seq<Particle>, forces: seq<Force>, i: nat, j: nat)
    requires |forces| == |ps| && i < j
    ensures SumX(ForcesFrom(m, params, ps, forces, i, j)) == SumX(forces)
    ensures SumY(ForcesFrom(m, params, ps, forces, i, j)) == SumY(forces)
    decreases |ps| - i, |ps| - j
  {
    if i >= |ps| {
    } else if j >= |ps| {
      ForcesFromKeepsSums(m, params, ps, forces, i + 1, i + 2);
    } else {
      var f := PairForce(m, ps[i], ps[j], params);
      AddPairKeepsSums(forces, i, j, f);
      ForcesFromKeepsSums(m, params, ps, AddPair(forces, i, j, f), i, j + 1);
    }
  }

  /** Newton's third law over the whole pass: the accumulated forces add up to zero. */
  lemma NetForceIsZero(m: MathOps, params: PhysicsParams, ps: seq<Particle>)
    ensures SumX(NetForces(m, params, ps)) == 0.0
    ensures SumY(NetForces(m, params, ps)) == 0.0
  {
    SumZeros(|ps|);
    ForcesFromKeepsSums(m, params, ps, Zeros(|ps|), 0, 1);
  }

  /** The second loop of `calculate_forces`: each particle takes its own accumulated force. */
  function ApplyForces(ps: seq<Particle>, forces: seq<Force>): (r: seq<Particle>)
    requires |forces| == |ps|
    ensures |r| == |ps|
    ensures forall k :: 0 <= k < |ps| ==> r[k] == ps[k].(dx := r[k].dx, dy := r[k].dy)
    ensures forall k :: 0 <= k < |ps| && ps[k].mass != 0.0 ==>
              ps[k].mass * (r[k].dx - ps[k].dx) == forces[k].0 && ps[k].mass * (r[k].dy - ps[k].dy) == forces[k].1
  {
    seq(|ps|, k requires 0 <= k < |ps| => ApplyForce(ps[k], forces[k].0, forces[k].1))
  }
}
