/**
 * The `Simulation` object of src/simulation.rs: the particle vector, the
 * canvas size, the tunable parameters and the orbital clock, with the
 * operations that change them. Every pass over the vector is a loop proved
 * against the function of the same name in Forces, Capture, Orbits and
 * Nuclei; the class invariant is that every orbit reference is valid.
 */
module Simulations {
  import opened Wrappers
  import opened Particles
  import opened Physics
  import opened Shells
  import opened Forces
  import opened Capture
  import opened Orbits
  import opened Nuclei

  /** The mass `add_particle` gives each kind. */
  function MassFor(ptype: ParticleType, params: PhysicsParams): (r: real)
    ensures ptype == Electron ==> r == params.electronMass
    ensures ptype != Electron ==> r == params.nuclearMass
  {
    match ptype
    case Proton => params.nuclearMass
    case Neutron => params.nuclearMass
    case Electron => params.electronMass
  }

  /** The damping `update` applies to each kind. */
  function DampingFor(ptype: ParticleType, params: PhysicsParams): (r: real)
    ensures ptype == Electron ==> r == params.electronDamping
    ensures ptype != Electron ==> r == params.nuclearDamping
  {
    if ptype == Electron then params.electronDamping else params.nuclearDamping
  }

  /** Member k of a ring of `count` nucleons around (x, y), evenly spaced by angle. */
  function RingMember(m: MathOps, x: real, y: real, k: nat, divisor: nat, radius: real,
                      ptype: ParticleType, params: PhysicsParams): (p: Particle)
    requires 0 < divisor
    ensures p.ptype == ptype && p.mass == MassFor(ptype, params)
    ensures p.orbitingAround == None && p.orbitalPosition == None && p.dx == 0.0 && p.dy == 0.0
  {
    var angle := (k as real * 2.0 * PI) / divisor as real;
    NewParticle(x + m.Cos(angle) * radius, y + m.Sin(angle) * radius, ptype, MassFor(ptype, params))
  }

  /** The first `count` members of a ring. */
  function Ring(m: MathOps, x: real, y: real, count: nat, divisor: nat, radius: real,
                ptype: ParticleType, params: PhysicsParams): (r: seq<Particle>)
    requires count == 0 || 0 < divisor
    ensures |r| == count
    ensures forall k :: 0 <= k < count ==> r[k] == RingMember(m, x, y, k, divisor, radius, ptype, params)
  {
    seq(count, k requires 0 <= k < count => RingMember(m, x, y, k, divisor, radius, ptype, params))
  }

  /**
   * The electron `add_nucleus_with_charge` places in a table slot: on the
   * circle of the slot's base radius around (x, y), at the slot's angle
   * offset plus its orbital's orientation.
   */
  function ElectronInSlot(m: MathOps, x: real, y: real, slot: Slot, host: Option<nat>, params: PhysicsParams): (p: Particle)
    ensures p.ptype == Electron && p.orbitingAround == host && p.orbitalPosition == Some(slot)
    ensures p.mass == params.electronMass && p.dx == 0.0 && p.dy == 0.0
  {
    var (orbitalRadius, _, angleOffset) := OrbitalParameters(slot.subshell, slot.level, slot.orbital);
    var totalAngle := angleOffset + OrbitalAngle(slot.subshell, slot.orbital);
    var electron := NewParticle(x + orbitalRadius * m.Cos(totalAngle), y + orbitalRadius * m.Sin(totalAngle),
                                Electron, params.electronMass);
    electron.(orbitalPosition := Some(slot), orbitingAround := host)
  }

  /** The k-th electron of a new nucleus, if the orbital table has a slot for it. */
  function NucleusElectron(m: MathOps, x: real, y: real, k: nat, host: Option<nat>, params: PhysicsParams): (r: Option<Particle>)
    ensures r.Some? <==> k < Capacity
    ensures r.Some? ==> r.value.ptype == Electron && r.value.orbitingAround == host
                        && r.value.orbitalPosition == OrbitalInfo(k) && r.value.mass == params.electronMass
  {
    match OrbitalInfo(k)
    case None => None
    case Some(slot) => Some(ElectronInSlot(m, x, y, slot, host, params))
  }

  /** The electrons pushed by the first `e` iterations of the electron loop. */
  lemma NucleusElectronsStep(m: MathOps, x: real, y: real, e: nat, host: Option<nat>, params: PhysicsParams)
    ensures NucleusElectron(m, x, y, e, host, params).None? ==>
              NucleusElectrons(m, x, y, e + 1, host, params) == NucleusElectrons(m, x, y, e, host, params)
    ensures NucleusElectron(m, x, y, e, host, params).Some? ==>
              NucleusElectrons(m, x, y, e + 1, host, params)
              == NucleusElectrons(m, x, y, e, host, params) + [NucleusElectron(m, x, y, e, host, params).value]
  {
  }

  function NucleusElectrons(m: MathOps, x: real, y: real, e: nat, host: Option<nat>, params: PhysicsParams): seq<Particle> {
    if e == 0 then []
    else
      NucleusElectrons(m, x, y, e - 1, host, params) +
      match NucleusElectron(m, x, y, e - 1, host, params)
      case Some(p) => [p]
      case None => []
  }

  function Min(a: nat, b: nat): nat {
    if a < b then a else b
  }

  /** At most 70 electrons are placed; electron k holds slot k of the table and the given host. */
  lemma {:induction false} NucleusElectronsShape(m: MathOps, x: real, y: real, e: nat, host: Option<nat>, params: PhysicsParams)
    ensures var es := NucleusElectrons(m, x, y, e, host, params);
            && |es| == Min(e, Capacity)
            && forall k :: 0 <= k < |es| ==>
                 es[k].ptype == Electron && es[k].orbitingAround == host && es[k].orbitalPosition == OrbitalInfo(k)
  {
    if e > 0 {
      NucleusElectronsShape(m, x, y, e - 1, host, params);
      var prev := NucleusElectrons(m, x, y, e - 1, host, params);
      var next := NucleusElectron(m, x, y, e - 1, host, params);
      if next.Some? {
        var es := prev + [next.value];
        assert NucleusElectrons(m, x, y, e, host, params) == es;
        assert |prev| == e - 1;
        forall k | 0 <= k < |es|
          ensures es[k].ptype == Electron && es[k].orbitingAround == host && es[k].orbitalPosition == OrbitalInfo(k)
        {
          if k < |prev| {
            assert es[k] == prev[k];
          } else {
            assert es[k] == next.value;
          }
        }
      } else {
        assert NucleusElectrons(m, x, y, e, host, params) == prev;
      }
    }
  }

  /** Everything `add_nucleus_with_charge` appends, for a vector that had `base` particles. */
  function NucleusBatch(m: MathOps, base: nat, x: real, y: real, protons: nat, neutrons: nat, electrons: nat,
                        params: PhysicsParams): seq<Particle> {
    Ring(m, x, y, protons, protons, 40.0, Proton, params)
    + Ring(m, x, y, neutrons, if neutrons < 1 then 1 else neutrons, 40.0 * 1.2, Neutron, params)
    + NucleusElectrons(m, x, y, electrons, if protons > 0 then Some(base) else None, params)
  }

  lemma AppendThree<T>(s: seq<T>, a: seq<T>, b: seq<T>, c: seq<T>)
    ensures s + a + b + c == s + (a + b + c)
  {
  }

  /**
   * The batch is `protons` protons, then `neutrons` neutrons, then
   * min(electrons, 70) electrons, each electron holding its table slot and,
   * when there is a proton, orbiting the first proton of the batch.
   */
  lemma NucleusBatchShape(m: MathOps, base: nat, x: real, y: real, protons: nat, neutrons: nat, electrons: nat,
                          params: PhysicsParams)
    ensures var b := NucleusBatch(m, base, x, y, protons, neutrons, electrons, params);
            && |b| == protons + neutrons + Min(electrons, Capacity)
            && (forall k :: 0 <= k < protons ==> b[k].ptype == Proton && b[k].orbitingAround.None?)
            && (forall k :: protons <= k < protons + neutrons ==> b[k].ptype == Neutron && b[k].orbitingAround.None?)
            && (forall k :: protons + neutrons <= k < |b| ==>
                  && b[k].ptype == Electron
                  && b[k].orbitalPosition == OrbitalInfo(k - protons - neutrons)
                  && b[k].orbitingAround == (if protons > 0 then Some(base) else None))
  {
    NucleusElectronsShape(m, x, y, electrons, if protons > 0 then Some(base) else None, params);
  }

  /** Appending a nucleus keeps every orbit reference valid. */
  lemma NucleusBatchValid(m: MathOps, ps: seq<Particle>, x: real, y: real, protons: nat, neutrons: nat, electrons: nat,
                          params: PhysicsParams)
    requires HostsValid(ps)
    ensures HostsValid(ps + NucleusBatch(m, |ps|, x, y, protons, neutrons, electrons, params))
  {
    var b := NucleusBatch(m, |ps|, x, y, protons, neutrons, electrons, params);
    NucleusBatchShape(m, |ps|, x, y, protons, neutrons, electrons, params);
    var r := ps + b;
    forall k | 0 <= k < |r|
      ensures WellHosted(r, k)
    {
      if k < |ps| {
        assert WellHosted(ps, k);
        assert r[k] == ps[k];
        if r[k].orbitingAround.Some? {
          assert r[r[k].orbitingAround.value] == ps[r[k].orbitingAround.value];
        }
      } else {
        var e := k - |ps| - protons - neutrons;
        if e >= 0 {
          OrdinalRoundTrip(e);
          if protons > 0 {
            assert r[|ps|] == b[0];
          }
        }
      }
    }
  }

  /** The same particles, kinds and orbit fields: host validity carries over. */
  lemma HostsTransfer(ps: seq<Particle>, qs: seq<Particle>)
    requires HostsValid(ps) && |qs| == |ps|
    requires forall k :: 0 <= k < |ps| ==>
               qs[k].ptype == ps[k].ptype && qs[k].orbitingAround == ps[k].orbitingAround
               && qs[k].orbitalPosition == ps[k].orbitalPosition
    ensures HostsValid(qs)
  {
    forall k | 0 <= k < |qs|
      ensures WellHosted(qs, k)
    {
      assert WellHosted(ps, k);
    }
  }

  /** The final loop of `update`: every particle moves, bounces and is damped according to its kind. */
  function MoveAll(ps: seq<Particle>, width: real, height: real, params: PhysicsParams): (r: seq<Particle>)
    ensures |r| == |ps|
    ensures forall k :: 0 <= k < |ps| ==> r[k] == Moved(ps[k], width, height, DampingFor(ps[k].ptype, params))
  {
    seq(|ps|, k requires 0 <= k < |ps| => Moved(ps[k], width, height, DampingFor(ps[k].ptype, params)))
  }

  /**
   * One frame of `update` for the clock value `time` it has just set: forces,
   * then captures, then orbit placement, then motion.
   */
  function Step(m: MathOps, params: PhysicsParams, width: real, height: real, time: real, ps: seq<Particle>): (r: seq<Particle>)
    ensures |r| == |ps|
  {
    var pushed := ApplyForces(ps, NetForces(m, params, ps));
    MoveAll(OrbitalOverride(m, Captures(m, pushed), time), width, height, params)
  }

  /** `Step` keeps every orbit reference valid, and an orbiting electron keeps its nucleus and its slot. */
  lemma StepKeepsHosts(m: MathOps, params: PhysicsParams, width: real, height: real, time: real, ps: seq<Particle>)
    requires HostsValid(ps)
    ensures HostsValid(Step(m, params, width, height, time, ps))
    ensures forall k :: 0 <= k < |ps| && ps[k].ptype == Electron && ps[k].orbitingAround.Some? ==>
              Step(m, params, width, height, time, ps)[k].orbitingAround == ps[k].orbitingAround
              && Step(m, params, width, height, time, ps)[k].orbitalPosition == ps[k].orbitalPosition
    ensures forall k :: 0 <= k < |ps| ==> Step(m, params, width, height, time, ps)[k].ptype == ps[k].ptype
  {
    var pushed := ApplyForces(ps, NetForces(m, params, ps));
    HostsTransfer(ps, pushed);
    var captured := Captures(m, pushed);
    CapturesKeep(m, pushed);
    var placed := OrbitalOverride(m, captured, time);
    OverrideKeepsHosts(m, captured, time);
    var moved := MoveAll(placed, width, height, params);
    HostsTransfer(placed, moved);
    forall k | 0 <= k < |ps|
      ensures moved[k].ptype == ps[k].ptype
      ensures ps[k].ptype == Electron && ps[k].orbitingAround.Some? ==>
                moved[k].orbitingAround == ps[k].orbitingAround && moved[k].orbitalPosition == ps[k].orbitalPosition
    {
      assert Keeps(pushed[k], captured[k]);
      assert placed[k] == Overridden(m, captured, k, time);
    }
  }

  /** After a frame, every particle that fits the canvas lies inside it. */
  lemma StepStaysOnCanvas(m: MathOps, params: PhysicsParams, width: real, height: real, time: real, ps: seq<Particle>)
    ensures forall k :: 0 <= k < |ps| && 2.0 * ps[k].radius <= width && 2.0 * ps[k].radius <= height ==>
              var q := Step(m, params, width, height, time, ps)[k];
              q.radius <= q.x <= width - q.radius && q.radius <= q.y <= height - q.radius
  {
    var pushed := ApplyForces(ps, NetForces(m, params, ps));
    var captured := Captures(m, pushed);
    CapturesKeep1(m, pushed);
    var placed := OrbitalOverride(m, captured, time);
    forall k | 0 <= k < |ps|
      ensures placed[k].radius == ps[k].radius
    {
      assert placed[k] == Overridden(m, captured, k, time);
    }
  }

  lemma StepKeepsOrbit(m: MathOps, params: PhysicsParams, width: real, height: real, time: real, ps: seq<Particle>, k: nat)
    requires HostsValid(ps) && k < |ps| && ps[k].ptype == Electron && ps[k].orbitingAround.Some?
    ensures var r := Step(m, params, width, height, time, ps);
            HostsValid(r) && r[k].ptype == Electron
            && r[k].orbitingAround == ps[k].orbitingAround && r[k].orbitalPosition == ps[k].orbitalPosition
  {
    StepKeepsHosts(m, params, width, height, time, ps);
  }

  lemma CapturesKeep1(m: MathOps, ps: seq<Particle>)
    ensures forall k :: 0 <= k < |ps| ==> Captures(m, ps)[k].radius == ps[k].radius
  {
    CaptureFromBodies(m, ps, 0, 1);
  }

  /** The capture loop never changes anything but orbit fields, whatever the state of the references. */
  lemma {:induction false} CaptureFromBodies(m: MathOps, ps: seq<Particle>, i: nat, j: nat)
    requires i < j
    ensures forall k :: 0 <= k < |ps| ==> SameBody(ps[k], CaptureFrom(m, ps, i, j)[k])
    decreases |ps| - i, |ps| - j
  {
    if i >= |ps| {
    } else if j >= |ps| {
      CaptureFromBodies(m, ps, i + 1, i + 2);
    } else {
      PairStepKeeps(m, ps, i, j);
      CaptureFromBodies(m, PairStep(m, ps, i, j), i, j + 1);
    }
  }

  /** One frame as a value: `Step` with the engine's parameters fixed, taking the clock and the particles. */
  function Frame(m: MathOps, params: PhysicsParams, width: real, height: real): (real, seq<Particle>) -> seq<Particle> {
    (t, ps) => Step(m, params, width, height, t, ps)
  }

  /** `count` runs of `frame`, the clock advancing by 0.05 before each. */
  function Iterate(frame: (real, seq<Particle>) -> seq<Particle>, time: real, ps: seq<Particle>, count: nat): seq<Particle>
    decreases count
  {
    if count == 0 then ps
    else Iterate(frame, time + 0.05, frame(time + 0.05, ps), count - 1)
  }

  /** A property every frame keeps holds after any number of frames. */
  lemma {:induction false} IterateKeeps(frame: (real, seq<Particle>) -> seq<Particle>, keep: seq<Particle> -> bool,
                                        time: real, ps: seq<Particle>, count: nat)
    requires keep(ps)
    requires forall t, qs :: keep(qs) ==> keep(frame(t, qs))
    ensures keep(Iterate(frame, time, ps, count))
    decreases count
  {
    if count > 0 {
      IterateKeeps(frame, keep, time + 0.05, frame(time + 0.05, ps), count - 1);
    }
  }

  /** n frames of the simulation from the clock `time`. */
  function Steps(m: MathOps, params: PhysicsParams, width: real, height: real, time: real, ps: seq<Particle>, n: nat): seq<Particle> {
    Iterate(Frame(m, params, width, height), time, ps, n)
  }

  /** Once captured, an electron stays with its nucleus and its slot for as long as the simulation runs. */
  lemma CapturedStaysCaptured(m: MathOps, params: PhysicsParams, width: real, height: real, time: real,
                              ps: seq<Particle>, n: nat, k: nat)
    requires HostsValid(ps) && k < |ps| && ps[k].ptype == Electron && ps[k].orbitingAround.Some?
    ensures var r := Steps(m, params, width, height, time, ps, n);
            k < |r| && HostsValid(r) && r[k].ptype == Electron
            && r[k].orbitingAround == ps[k].orbitingAround && r[k].orbitalPosition == ps[k].orbitalPosition
  {
    var held := (qs: seq<Particle>) =>
      k < |qs| && HostsValid(qs) && qs[k].ptype == Electron
      && qs[k].orbitingAround == ps[k].orbitingAround && qs[k].orbitalPosition == ps[k].orbitalPosition;
    var frame := Frame(m, params, width, height);
    forall t, qs | held(qs)
      ensures held(frame(t, qs))
    {
      StepKeepsOrbit(m, params, width, height, t, qs, k);
    }
    IterateKeeps(frame, held, time, ps, n);
  }

  class Simulation {
    var particles: seq<Particle>
    const canvasWidth: real
    const canvasHeight: real
    var params: PhysicsParams
    var timeStep: real
    /** The square root and trigonometric functions of the platform. */
    const math: MathOps

    ghost predicate Valid()
      reads this
    {
      HostsValid(particles)
    }

    /** `Simulation::new`: empty, default parameters, clock at zero. */
    constructor(canvasWidth: real, canvasHeight: real, math: MathOps)
      ensures Valid()
      ensures particles == [] && params == DefaultParams() && timeStep == 0.0
      ensures this.canvasWidth == canvasWidth && this.canvasHeight == canvasHeight && this.math == math
    {
      this.canvasWidth := canvasWidth;
      this.canvasHeight := canvasHeight;
      this.math := math;
      particles := [];
      params := DefaultParams();
      timeStep := 0.0;
    }

    /** `add_particle`: a free particle at rest, with the mass of its kind. */
    method AddParticle(x: real, y: real, ptype: ParticleType)
      modifies this`particles
      requires Valid()
      ensures Valid()
      ensures particles == old(particles) + [NewParticle(x, y, ptype, MassFor(ptype, params))]
    {
      var mass := match ptype
        case Proton => params.nuclearMass
        case Neutron => params.nuclearMass
        case Electron => params.electronMass;
      particles := particles + [NewParticle(x, y, ptype, mass)];
      assert WellHosted(particles, |particles| - 1);
      forall k | 0 <= k < |particles|
        ensures WellHosted(particles, k)
      {
        if k < |old(particles)| {
          assert WellHosted(old(particles), k);
        }
      }
    }

    /** `add_particle_with_velocity`: as `add_particle`, with the given initial velocity. */
    method AddParticleWithVelocity(x: real, y: real, ptype: ParticleType, dx: real, dy: real)
      modifies this`particles
      requires Valid()
      ensures Valid()
      ensures particles == old(particles) + [NewParticle(x, y, ptype, MassFor(ptype, params)).(dx := dx, dy := dy)]
    {
      var mass := match ptype
        case Proton => params.nuclearMass
        case Neutron => params.nuclearMass
        case Electron => params.electronMass;
      var particle := NewParticle(x, y, ptype, mass);
      particle := particle.(dx := dx, dy := dy);
      particles := particles + [particle];
      forall k | 0 <= k < |particles|
        ensures WellHosted(particles, k)
      {
        if k < |old(particles)| {
          assert WellHosted(old(particles), k);
        }
      }
    }

    /** `add_nucleus`: a neutral nucleus, that is `add_nucleus_with_charge` with charge 0. */
    method AddNucleus(x: real, y: real, protons: nat, neutrons: nat, electrons: nat)
      modifies this`particles
      requires Valid()
      ensures Valid()
      ensures particles == old(particles) + NucleusBatch(math, |old(particles)|, x, y, protons, neutrons, electrons, params)
    {
      AddNucleusWithCharge(x, y, protons, neutrons, electrons, 0);
    }

    /**
     * `add_nucleus_with_charge`: a ring of protons, a wider ring of neutrons,
     * then one electron per table slot up to the requested number, each
     * already in its slot. The charge argument has no effect.
     */
    method AddNucleusWithCharge(x: real, y: real, protons: nat, neutrons: nat, electrons: nat, charge: int)
      modifies this`particles
      requires Valid()
      ensures Valid()
      ensures particles == old(particles) + NucleusBatch(math, |old(particles)|, x, y, protons, neutrons, electrons, params)
    {
      var radius := 40.0;
      var protonStartIndex := |particles|;
      ghost var host := if protons > 0 then Some(protonStartIndex) else None;
      ghost var protonRing := Ring(math, x, y, protons, protons, 40.0, Proton, params);
      ghost var neutronRing := Ring(math, x, y, neutrons, if neutrons < 1 then 1 else neutrons, 40.0 * 1.2, Neutron, params);
      ghost var shell := NucleusElectrons(math, x, y, electrons, host, params);
      AddRing(x, y, protons, protons, radius, Proton);
      assert particles == old(particles) + protonRing;
      AddRing(x, y, neutrons, if neutrons < 1 then 1 else neutrons, radius * 1.2, Neutron);
      assert particles == old(particles) + protonRing + neutronRing;
      AddNucleusElectrons(x, y, electrons, if protons > 0 then Some(protonStartIndex) else None);
      assert particles == old(particles) + protonRing + neutronRing + shell;
      assert protonRing + neutronRing + shell == NucleusBatch(math, |old(particles)|, x, y, protons, neutrons, electrons, params);
      AppendThree(old(particles), protonRing, neutronRing, shell);
      NucleusBatchValid(math, old(particles), x, y, protons, neutrons, electrons, params);
    }

    /** One nucleon loop of `add_nucleus_with_charge`: `count` particles evenly spaced on a circle. */
    method AddRing(x: real, y: real, count: nat, divisor: nat, radius: real, ptype: ParticleType)
      modifies this`particles
      requires count == 0 || 0 < divisor
      requires Valid()
      ensures Valid()
      ensures particles == old(particles) + Ring(math, x, y, count, divisor, radius, ptype, params)
    {
      var i := 0;
      while i < count
        invariant i <= count && Valid()
        invariant particles == old(particles) + Ring(math, x, y, i, divisor, radius, ptype, params)
      {
        var angle := (i as real * 2.0 * PI) / divisor as real;
        var px := x + math.Cos(angle) * radius;
        var py := y + math.Sin(angle) * radius;
        AddParticle(px, py, ptype);
        assert px == x + math.Cos(angle) * radius;
        assert py == y + math.Sin(angle) * radius;
        assert RingMember(math, x, y, i, divisor, radius, ptype, params) == NewParticle(px, py, ptype, MassFor(ptype, params));
        assert Ring(math, x, y, i + 1, divisor, radius, ptype, params)
            == Ring(math, x, y, i, divisor, radius, ptype, params) + [RingMember(math, x, y, i, divisor, radius, ptype, params)];
        i := i + 1;
      }
    }

    /** The electron loop of `add_nucleus_with_charge`: electron i takes slot i while the table lasts. */
    method AddNucleusElectrons(x: real, y: real, electrons: nat, host: Option<nat>)
      modifies this`particles
      ensures particles == old(particles) + NucleusElectrons(math, x, y, electrons, host, params)
    {
      var i := 0;
      while i < electrons
        invariant i <= electrons
        invariant particles == old(particles) + NucleusElectrons(math, x, y, i, host, params)
      {
        NucleusElectronsStep(math, x, y, i, host, params);
        var info := OrbitalInfo(i);
        if info.Some? {
          var electron := PlaceElectron(x, y, info.value, host);
          particles := particles + [electron];
        }
        i := i + 1;
      }
    }

    /** The electron the third loop of `add_nucleus_with_charge` builds for one table slot. */
    method PlaceElectron(x: real, y: real, slot: Slot, host: Option<nat>) returns (electron: Particle)
      ensures electron == ElectronInSlot(math, x, y, slot, host, params)
    {
      var (orbitalRadius, _, angleOffset) := OrbitalParameters(slot.subshell, slot.level, slot.orbital);
      var orbitalAngleOffset := OrbitalAngle(slot.subshell, slot.orbital);
      var totalAngle := angleOffset + orbitalAngleOffset;
      var px := x + orbitalRadius * math.Cos(totalAngle);
      var py := y + orbitalRadius * math.Sin(totalAngle);
      electron := NewParticle(px, py, Electron, params.electronMass);
      electron := electron.(orbitalPosition := Some(slot));
      if host.Some? {
        electron := electron.(orbitingAround := host);
      }
    }

    /** `clear`: every particle is removed; parameters and clock stay. */
    method Clear()
      modifies this`particles
      ensures Valid()
      ensures particles == []
    {
      particles := [];
    }

    /** `update`: advance the clock, then one frame. */
    method Update()
      modifies this`particles, this`timeStep
      requires Valid()
      ensures Valid()
      ensures timeStep == old(timeStep) + 0.05
      ensures particles == Step(math, params, canvasWidth, canvasHeight, timeStep, old(particles))
    {
      timeStep := timeStep + 0.05;
      ghost var start := particles;
      CalculateForces();
      HostsTransfer(start, particles);
      HandleFusionsAndOrbits();
      ghost var placed := particles;
      MoveParticles();
      HostsTransfer(placed, particles);
    }

    /** The last loop of `update`: each particle moves with the damping of its kind. */
    method MoveParticles()
      modifies this`particles
      ensures particles == MoveAll(old(particles), canvasWidth, canvasHeight, params)
    {
      var k := 0;
      while k < |particles|
        invariant k <= |particles| == |old(particles)|
        invariant forall t :: 0 <= t < k ==>
                    particles[t] == Moved(old(particles)[t], canvasWidth, canvasHeight, DampingFor(old(particles)[t].ptype, params))
        invariant forall t :: k <= t < |particles| ==> particles[t] == old(particles)[t]
      {
        var particle := particles[k];
        var damping := if particle.ptype == Electron then params.electronDamping else params.nuclearDamping;
        var moved := Particles.Update(particle, canvasWidth, canvasHeight, damping);
        particles := particles[k := moved];
        k := k + 1;
      }
    }

    /** `calculate_forces`: accumulate every pair's force, then apply each particle's total. */
    method CalculateForces()
      modifies this`particles
      ensures particles == ApplyForces(old(particles), NetForces(math, params, old(particles)))
    {
      var forces := AccumulateForces();
      var n := |particles|;
      var k := 0;
      while k < n
        invariant k <= n && |particles| == n
        invariant forall t :: 0 <= t < k ==> particles[t] == ApplyForce(old(particles)[t], forces[t].0, forces[t].1)
        invariant forall t :: k <= t < n ==> particles[t] == old(particles)[t]
      {
        particles := particles[k := ApplyForce(particles[k], forces[k].0, forces[k].1)];
        k := k + 1;
      }
    }

    /** The pair loop of `calculate_forces`: each pair adds its force to i and subtracts it from j. */
    method AccumulateForces() returns (forces: seq<Force>)
      ensures forces == NetForces(math, params, particles)
    {
      var ps := particles;
      var n := |ps|;
      forces := Zeros(n);
      var i := 0;
      while i < n
        invariant i <= n && |forces| == n
        invariant ForcesFrom(math, params, ps, forces, i, i + 1) == NetForces(math, params, ps)
      {
        var j := i + 1;
        while j < n
          invariant i < j <= n && |forces| == n
          invariant ForcesFrom(math, params, ps, forces, i, j) == NetForces(math, params, ps)
        {
          var forceX, forceY := PairForceOf(ps[i], ps[j]);
          ForcesFromPair(math, params, ps, forces, i, j);
          forces := AddPair(forces, i, j, (forceX, forceY));
          j := j + 1;
        }
        ForcesFromRowEnd(math, params, ps, forces, i, j);
        i := i + 1;
      }
    }

    /** The body of the pair loop: the distance, floored at 1, the scalar force, and its two components. */
    method PairForceOf(particleI: Particle, particleJ: Particle) returns (forceX: real, forceY: real)
      ensures (forceX, forceY) == PairForce(math, particleI, particleJ, params)
    {
      var dx := particleJ.x - particleI.x;
      var dy := particleJ.y - particleI.y;
      var distance := Max(Separation(math, particleI, particleJ), 1.0);
      var forceMagnitude := ForceMagnitude(particleI, particleJ, distance, params);
      forceX := (forceMagnitude * dx) / distance;
      forceY := (forceMagnitude * dy) / distance;
      PairForceComponents(math, particleI, particleJ, params, dx, dy, distance, forceMagnitude);
    }

    /** The electrons orbiting particle h, counted as the source's filter does. */
    method CountOrbiting(h: nat) returns (count: nat)
      ensures count == CountHosted(particles, h)
    {
      count := 0;
      var k := 0;
      while k < |particles|
        invariant k <= |particles|
        invariant count == CountHosted(particles[..k], h)
      {
        assert particles[..k + 1][..k] == particles[..k];
        if particles[k].orbitingAround == Some(h) && particles[k].ptype == Electron {
          count := count + 1;
        }
        k := k + 1;
      }
      assert particles[..|particles|] == particles;
    }

    /** One iteration (i, j) of the capture loop. */
    method CapturePair(i: nat, j: nat)
      modifies this`particles
      requires i < j < |particles|
      ensures particles == PairStep(math, old(particles), i, j)
    {
      var piType, pjType := particles[i].ptype, particles[j].ptype;
      var distance := Separation(math, particles[i], particles[j]);

      if (piType == Proton && pjType == Neutron) || (piType == Neutron && pjType == Proton) {
        if distance < 60.0 && distance > 15.0 {
          var heavier, lighter := if piType == Proton then i else j, if piType == Proton then j else i;
          particles := particles[lighter := particles[lighter].(orbitingAround := Some(heavier))];
        }
      }

      if (piType == Electron && pjType == Proton) || (piType == Proton && pjType == Electron) {
        var electron, proton := if piType == Electron then i else j, if piType == Electron then j else i;
        if particles[electron].orbitingAround.None? && particles[electron].orbitalPosition.Some?
           && distance < 80.0 && distance > 10.0 {
          particles := particles[electron := particles[electron].(orbitingAround := Some(proton))];
        } else if particles[electron].orbitingAround.None? && particles[electron].orbitalPosition.None?
                  && distance < 80.0 && distance > 10.0 {
          var electronCount := CountOrbiting(proton);
          var info := OrbitalInfo(electronCount);
          if info.Some? {
            particles := particles[electron := particles[electron].(orbitingAround := Some(proton), orbitalPosition := info)];
          }
        }
      }
    }

    /** `handle_fusions_and_orbits`: the capture loop over all pairs, then the orbit pass. */
    method HandleFusionsAndOrbits()
      modifies this`particles
      requires Valid()
      ensures Valid()
      ensures particles == OrbitalOverride(math, Captures(math, old(particles)), timeStep)
    {
      CapturesKeep(math, particles);
      CaptureAllPairs();
      ghost var captured := particles;
      ApplyOrbitalMechanics();
      OverrideKeepsHosts(math, captured, timeStep);
    }

    /** The pair loops of `handle_fusions_and_orbits`: every pair i < j in index order. */
    method CaptureAllPairs()
      modifies this`particles
      ensures particles == Captures(math, old(particles))
    {
      ghost var captured := Captures(math, particles);
      var n := |particles|;
      var i := 0;
      while i < n
        invariant i <= n && |particles| == n
        invariant CaptureFrom(math, particles, i, i + 1) == captured
      {
        CaptureRow(i);
        i := i + 1;
      }
    }

    /** The inner pair loop for particle i: the pairs (i, j) for every j > i, in order. */
    method CaptureRow(i: nat)
      modifies this`particles
      requires i < |particles|
      ensures |particles| == |old(particles)|
      ensures CaptureFrom(math, particles, i + 1, i + 2) == CaptureFrom(math, old(particles), i, i + 1)
    {
      var n := |particles|;
      var j := i + 1;
      while j < n
        invariant i < j <= n && |particles| == n
        invariant CaptureFrom(math, particles, i, j) == CaptureFrom(math, old(particles), i, i + 1)
      {
        CaptureFromPair(math, particles, i, j);
        CapturePair(i, j);
        j := j + 1;
      }
      CaptureFromRowEnd(math, particles, i, j);
    }

    /** `apply_orbital_mechanics`: compute every target from the current snapshot, then write them back. */
    method ApplyOrbitalMechanics()
      modifies this`particles
      ensures particles == OrbitalOverride(math, old(particles), timeStep)
    {
      var updates := CollectOrbitUpdates();
      ghost var snapshot := particles;
      WriteOrbitUpdates(updates);
      PendingApplied(math, snapshot, timeStep);
    }

    /** The first loop of `apply_orbital_mechanics`: one update per orbiting neutron or slotted electron. */
    method CollectOrbitUpdates() returns (updates: seq<OrbitUpdate>)
      ensures updates == Pending(Targets(math, particles, timeStep, |particles|), |particles|)
    {
      ghost var targets := Targets(math, particles, timeStep, |particles|);
      var n := |particles|;
      updates := [];
      var i := 0;
      while i < n
        invariant i <= n
        invariant updates == Pending(targets, i)
      {
        var target := OrbitTarget(i);
        TargetsAt(math, particles, timeStep, n, i);
        PendingNext(targets, i, updates, target);
        if target.Some? {
          updates := updates + [OrbitUpdate(i, target.value)];
        }
        i := i + 1;
      }
    }

    /**
     * The body of that loop for particle i: a neutron with an in-range host
     * circles it, an electron with an in-range host and a slot follows its
     * slot's curve around it, and nothing else moves.
     */
    method OrbitTarget(i: nat) returns (target: Option<Kinematics>)
      requires i < |particles|
      ensures target == Target(math, particles, i, timeStep)
    {
      var n := |particles|;
      var particle := particles[i];
      target := None;
      if particle.ptype == Neutron && particle.orbitingAround.Some? {
        var protonIdx := particle.orbitingAround.value;
        if protonIdx < n {
          target := Some(NeutronOrbit(math, particles[protonIdx], particle));
        }
      }
      if particle.ptype == Electron && particle.orbitingAround.Some? && particle.orbitalPosition.Some? {
        var slot := particle.orbitalPosition.value;
        var protonIdx := particle.orbitingAround.value;
        if protonIdx < n {
          var proton := particles[protonIdx];
          target := Some(OrbitalMotion(math, proton.x, proton.y, slot.subshell, slot.level, slot.orbital, slot.pos, timeStep));
        }
      }
    }

    /** The second loop of `apply_orbital_mechanics`: the buffered updates written back in order. */
    method WriteOrbitUpdates(updates: seq<OrbitUpdate>)
      modifies this`particles
      ensures particles == ApplyUpdates(old(particles), updates)
    {
      var k := 0;
      while k < |updates|
        invariant k <= |updates|
        invariant particles == ApplyUpdates(old(particles), updates[..k])
      {
        assert updates[..k + 1][..k] == updates[..k];
        var u := updates[k];
        if u.idx < |particles| {
          particles := particles[u.idx := WithKinematics(particles[u.idx], u.state)];
        }
        k := k + 1;
      }
      assert updates[..|updates|] == updates;
    }

    /** `detect_nuclei`: the proton-anchored grouping of the current particles. */
    method DetectNuclei() returns (nuclei: seq<Nucleus>)
      ensures nuclei == NucleiOf(math, particles)
      ensures Partition(math, particles, nuclei)
    {
      nuclei := [];
      var used: set<nat> := {};
      var i := 0;
      while i < |particles|
        invariant i <= |particles|
        invariant Scan(math, particles, i, used, nuclei) == NucleiOf(math, particles)
      {
        if particles[i].ptype == Proton && i !in used {
          ghost var usedBefore := used;
          var nucleus := Nucleus([i], [], []);
          used := used + {i};
          var j := 0;
          while j < |particles|
            invariant j <= |particles|
            invariant Gather(math, particles, i, j, used, nucleus) == Gather(math, particles, i, 0, usedBefore + {i}, Nucleus([i], [], []))
          {
            if j !in used && i != j {
              var distance := DistanceTo(math, particles[i], particles[j]);
              if distance < 100.0 {
                match particles[j].ptype
                case Proton =>
                  nucleus := nucleus.(protons := nucleus.protons + [j]);
                  used := used + {j};
                case Neutron =>
                  nucleus := nucleus.(neutrons := nucleus.neutrons + [j]);
                  used := used + {j};
                case Electron =>
                  nucleus := nucleus.(electrons := nucleus.electrons + [j]);
              }
            }
            j := j + 1;
          }
          if |nucleus.protons| > 0 {
            nuclei := nuclei + [nucleus];
          }
        }
        i := i + 1;
      }
      NucleiPartition(math, particles);
    }
  }
}
