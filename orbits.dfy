/**
 * `apply_orbital_mechanics` (src/simulation.rs): every neutron that orbits a
 * proton is placed on a circle of radius 45 around it, and every electron
 * that orbits a nucleus and holds a slot follows the orbital curve of that
 * slot. All targets are computed from the positions before the pass and
 * buffered; the buffer is then written back in order.
 */
module Orbits {
  import opened Wrappers
  import opened Particles
  import opened Shells
  import opened Capture

  /** Kinematic state (x, y, dx, dy). */
  type Kinematics = (real, real, real, real)

  /** sin² + cos² = 1, the only trigonometric law used here. */
  ghost predicate TrigLaws(m: MathOps) {
    forall a :: m.Sin(a) * m.Sin(a) + m.Cos(a) * m.Cos(a) == 1.0
  }

  /**
   * The neutron's new state: on the circle of radius 45 around the proton, in
   * the direction of the angle from the neutron towards the proton, moving
   * with the proton plus a tangential speed of 2.5.
   */
  function NeutronOrbit(m: MathOps, proton: Particle, neutron: Particle): (r: Kinematics) {
    var dx := proton.x - neutron.x;
    var dy := proton.y - neutron.y;
    var angle := m.Atan2(dy, dx);
    var radius := 45.0;
    var speed := 2.5;
    (proton.x + radius * m.Cos(angle), proton.y + radius * m.Sin(angle),
     proton.dx - speed * m.Sin(angle), proton.dy + speed * m.Cos(angle))
  }

  /** The neutron lands at distance 45 from its proton. */
  lemma NeutronOnCircle(m: MathOps, proton: Particle, neutron: Particle)
    requires TrigLaws(m)
    ensures var r := NeutronOrbit(m, proton, neutron);
            (r.0 - proton.x) * (r.0 - proton.x) + (r.1 - proton.y) * (r.1 - proton.y) == 2025.0
  {
    var angle := m.Atan2(proton.y - neutron.y, proton.x - neutron.x);
    var s, c := m.Sin(angle), m.Cos(angle);
    assert s * s + c * c == 1.0;
    assert (45.0 * c) * (45.0 * c) + (45.0 * s) * (45.0 * s) == 2025.0 * (s * s + c * c);
  }

  /** Relative to its proton the neutron moves along the circle: its relative velocity is tangential. */
  lemma NeutronVelocityTangential(m: MathOps, proton: Particle, neutron: Particle)
    ensures var r := NeutronOrbit(m, proton, neutron);
            (r.2 - proton.dx) * (r.0 - proton.x) + (r.3 - proton.dy) * (r.1 - proton.y) == 0.0
  {
    var angle := m.Atan2(proton.y - neutron.y, proton.x - neutron.x);
    var s, c := m.Sin(angle), m.Cos(angle);
    assert (-2.5 * s) * (45.0 * c) + (2.5 * c) * (45.0 * s) == 0.0;
  }

  /** Where the pass sends particle k, if anywhere; hosts outside the vector are ignored. */
  function Target(m: MathOps, ps: seq<Particle>, k: nat, time: real): (r: Option<Kinematics>)
    requires k < |ps|
    ensures r.Some? ==> ps[k].orbitingAround.Some? && ps[k].orbitingAround.value < |ps|
    ensures r.Some? ==> ps[k].ptype == Neutron || (ps[k].ptype == Electron && ps[k].orbitalPosition.Some?)
  {
    var p := ps[k];
    if p.ptype == Neutron && p.orbitingAround.Some? && p.orbitingAround.value < |ps| then
      Some(NeutronOrbit(m, ps[p.orbitingAround.value], p))
    else if p.ptype == Electron && p.orbitingAround.Some? && p.orbitalPosition.Some?
            && p.orbitingAround.value < |ps| then
      var nucleus := ps[p.orbitingAround.value];
      var s := p.orbitalPosition.value;
      Some(OrbitalMotion(m, nucleus.x, nucleus.y, s.subshell, s.level, s.orbital, s.pos, time))
    else None
  }

  /** Exactly the neutrons and slotted electrons whose host lies inside the vector receive a target. */
  lemma HasTarget(m: MathOps, ps: seq<Particle>, k: nat, time: real)
    requires k < |ps|
    ensures Target(m, ps, k, time).Some? <==>
              && ps[k].orbitingAround.Some? && ps[k].orbitingAround.value < |ps|
              && (ps[k].ptype == Neutron || (ps[k].ptype == Electron && ps[k].orbitalPosition.Some?))
  {
  }

  function WithKinematics(p: Particle, t: Kinematics): Particle {
    p.(x := t.0, y := t.1, dx := t.2, dy := t.3)
  }

  /** A particle moved to its target, if it has one. */
  function Retarget(p: Particle, t: Option<Kinematics>): Particle {
    match t
    case Some(s) => WithKinematics(p, s)
    case None => p
  }

  /** Particle k after the pass: it takes its target if it has one, and only its kinematics change. */
  function Overridden(m: MathOps, ps: seq<Particle>, k: nat, time: real): (q: Particle)
    requires k < |ps|
    ensures q == ps[k].(x := q.x, y := q.y, dx := q.dx, dy := q.dy)
    ensures ps[k].orbitingAround.None? || ps[k].ptype == Proton ==> q == ps[k]
  {
    Retarget(ps[k], Target(m, ps, k, time))
  }

  /** The effect of the whole pass, every particle overridden from the same snapshot. */
  function OrbitalOverride(m: MathOps, ps: seq<Particle>, time: real): (r: seq<Particle>)
    ensures |r| == |ps|
    ensures forall k :: 0 <= k < |ps| ==> r[k] == Overridden(m, ps, k, time)
  {
    seq(|ps|, k requires 0 <= k < |ps| => Overridden(m, ps, k, time))
  }

  /** An electron in orbit is placed by its slot's curve around where its nucleus was. */
  lemma ElectronFollowsSlot(m: MathOps, ps: seq<Particle>, k: nat, time: real)
    requires HostsValid(ps) && k < |ps| && ps[k].ptype == Electron && ps[k].orbitingAround.Some?
    ensures ps[k].orbitingAround.value < |ps| && ps[k].orbitalPosition.Some?
    ensures var n := ps[ps[k].orbitingAround.value];
            var s := ps[k].orbitalPosition.value;
            var t := OrbitalMotion(m, n.x, n.y, s.subshell, s.level, s.orbital, s.pos, time);
            OrbitalOverride(m, ps, time)[k] == WithKinematics(ps[k], t)
  {
    assert WellHosted(ps, k);
    assert OrbitalOverride(m, ps, time)[k] == Overridden(m, ps, k, time);
  }

  /** A neutron in orbit is placed on its circle around where its proton was. */
  lemma NeutronFollowsHost(m: MathOps, ps: seq<Particle>, k: nat, time: real)
    requires HostsValid(ps) && k < |ps| && ps[k].ptype == Neutron && ps[k].orbitingAround.Some?
    ensures ps[k].orbitingAround.value < |ps| && ps[ps[k].orbitingAround.value].ptype == Proton
    ensures OrbitalOverride(m, ps, time)[k] == WithKinematics(ps[k], NeutronOrbit(m, ps[ps[k].orbitingAround.value], ps[k]))
  {
    assert WellHosted(ps, k);
    assert OrbitalOverride(m, ps, time)[k] == Overridden(m, ps, k, time);
  }

  /**
   * After the pass an orbiting neutron lies at distance 45 from its proton,
   * which the pass leaves where it was, and moves tangentially relative to it.
   */
  lemma NeutronOrbitsAfterPass(m: MathOps, ps: seq<Particle>, k: nat, time: real)
    requires TrigLaws(m)
    requires HostsValid(ps) && k < |ps| && ps[k].ptype == Neutron && ps[k].orbitingAround.Some?
    ensures ps[k].orbitingAround.value < |ps|
    ensures var r := OrbitalOverride(m, ps, time);
            var n, h := r[k], r[ps[k].orbitingAround.value];
            && h == ps[ps[k].orbitingAround.value]
            && (n.x - h.x) * (n.x - h.x) + (n.y - h.y) * (n.y - h.y) == 2025.0
            && (n.dx - h.dx) * (n.x - h.x) + (n.dy - h.dy) * (n.y - h.y) == 0.0
  {
    var h := ps[k].orbitingAround.value;
    NeutronFollowsHost(m, ps, k, time);
    assert OrbitalOverride(m, ps, time)[h] == Overridden(m, ps, h, time);
    NeutronOnCircle(m, ps[h], ps[k]);
    NeutronVelocityTangential(m, ps[h], ps[k]);
  }

  /** The pass changes no orbit field, so host validity survives it. */
  lemma OverrideKeepsHosts(m: MathOps, ps: seq<Particle>, time: real)
    requires HostsValid(ps)
    ensures HostsValid(OrbitalOverride(m, ps, time))
  {
    var r := OrbitalOverride(m, ps, time);
    forall k | 0 <= k < |r|
      ensures WellHosted(r, k)
    {
      assert WellHosted(ps, k);
      if r[k].orbitingAround.Some? {
        assert r[r[k].orbitingAround.value].ptype == ps[r[k].orbitingAround.value].ptype;
      }
    }
  }

  /** One buffered update: (index, x, y, dx, dy). */
  datatype OrbitUpdate = OrbitUpdate(idx: nat, state: Kinematics)

  /** The targets of particles 0 .. n-1, all taken from the same snapshot. */
  function Targets(m: MathOps, ps: seq<Particle>, time: real, n: nat): (ts: seq<Option<Kinematics>>)
    requires n <= |ps|
    ensures |ts| == n
  {
    if n == 0 then [] else Targets(m, ps, time, n - 1) + [Target(m, ps, n - 1, time)]
  }

  lemma {:induction false} TargetsAt(m: MathOps, ps: seq<Particle>, time: real, n: nat, k: nat)
    requires k < n <= |ps|
    ensures Targets(m, ps, time, n)[k] == Target(m, ps, k, time)
  {
    if k < n - 1 {
      TargetsAt(m, ps, time, n - 1, k);
    }
  }

  /** The buffer after the first loop has looked at the targets of particles 0 .. i-1. */
  function Pending(ts: seq<Option<Kinematics>>, i: nat): (r: seq<OrbitUpdate>)
    requires i <= |ts|
  {
    if i == 0 then []
    else
      Pending(ts, i - 1) +
      match ts[i - 1]
      case Some(t) => [OrbitUpdate(i - 1, t)]
      case None => []
  }

  /** One pass of the first loop: the buffer for i particles grows by particle i's update, if any. */
  lemma PendingNext(ts: seq<Option<Kinematics>>, i: nat, buffer: seq<OrbitUpdate>, target: Option<Kinematics>)
    requires i < |ts| && buffer == Pending(ts, i) && target == ts[i]
    ensures (if target.Some? then buffer + [OrbitUpdate(i, target.value)] else buffer) == Pending(ts, i + 1)
  {
  }

  /** Writing one update back; indices past the end are skipped. */
  function Write(ps: seq<Particle>, u: OrbitUpdate): (r: seq<Particle>)
    ensures |r| == |ps|
  {
    if u.idx < |ps| then ps[u.idx := WithKinematics(ps[u.idx], u.state)] else ps
  }

  /** Writing a buffer back in order. */
  function ApplyUpdates(ps: seq<Particle>, us: seq<OrbitUpdate>): (r: seq<Particle>)
    ensures |r| == |ps|
  {
    if us == [] then ps else Write(ApplyUpdates(ps, us[..|us| - 1]), us[|us| - 1])
  }

  /** Looking at particle i-1 either appends its update to the buffer or leaves the buffer as it was. */
  lemma PendingStep(ps: seq<Particle>, ts: seq<Option<Kinematics>>, i: nat)
    requires |ts| == |ps| && 0 < i <= |ps|
    requires ApplyUpdates(ps, Pending(ts, i - 1))[i - 1] == ps[i - 1]
    ensures ApplyUpdates(ps, Pending(ts, i)) == ApplyUpdates(ps, Pending(ts, i - 1))[i - 1 := Retarget(ps[i - 1], ts[i - 1])]
  {
    var before := Pending(ts, i - 1);
    var us := Pending(ts, i);
    match ts[i - 1]
    case Some(t) =>
      assert us == before + [OrbitUpdate(i - 1, t)];
      assert us[..|us| - 1] == before;
    case None =>
      assert us == before;
  }

  /** The first i particles of r hold their targets and the rest are as in ps. */
  predicate Retargeted(ps: seq<Particle>, ts: seq<Option<Kinematics>>, r: seq<Particle>, i: nat)
    requires |ts| == |ps| == |r| && i <= |ps|
  {
    && (forall k :: 0 <= k < i ==> r[k] == Retarget(ps[k], ts[k]))
    && (forall k :: i <= k < |ps| ==> r[k] == ps[k])
  }

  lemma RetargetedStep(ps: seq<Particle>, ts: seq<Option<Kinematics>>, prev: seq<Particle>, i: nat)
    requires |ts| == |ps| == |prev| && 0 < i <= |ps|
    requires Retargeted(ps, ts, prev, i - 1)
    ensures Retargeted(ps, ts, prev[i - 1 := Retarget(ps[i - 1], ts[i - 1])], i)
  {
  }

  /** After i steps the first i particles hold their targets and the rest are untouched. */
  lemma {:induction false} PendingPrefix(ps: seq<Particle>, ts: seq<Option<Kinematics>>, i: nat)
    requires |ts| == |ps| && i <= |ps|
    ensures Retargeted(ps, ts, ApplyUpdates(ps, Pending(ts, i)), i)
  {
    if i > 0 {
      PendingPrefix(ps, ts, i - 1);
      var prev := ApplyUpdates(ps, Pending(ts, i - 1));
      assert prev[i - 1] == ps[i - 1];
      PendingStep(ps, ts, i);
      RetargetedStep(ps, ts, prev, i);
    }
  }

  /** Buffering the targets and writing them back is the same as overriding every particle at once. */
  lemma PendingApplied(m: MathOps, ps: seq<Particle>, time: real)
    ensures ApplyUpdates(ps, Pending(Targets(m, ps, time, |ps|), |ps|)) == OrbitalOverride(m, ps, time)
  {
    var ts := Targets(m, ps, time, |ps|);
    PendingPrefix(ps, ts, |ps|);
    var r := ApplyUpdates(ps, Pending(ts, |ps|));
    assert Retargeted(ps, ts, r, |ps|);
    forall k | 0 <= k < |ps|
      ensures r[k] == OrbitalOverride(m, ps, time)[k]
    {
      TargetsAt(m, ps, time, |ps|, k);
      assert r[k] == Retarget(ps[k], ts[k]);
    }
  }
}
