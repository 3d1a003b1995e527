/**
 * The capture pass of `handle_fusions_and_orbits` (src/simulation.rs): for
 * every pair i < j, a neutron within (15, 60) of a proton starts orbiting
 * it, and a free electron within (10, 80) of a proton is captured, keeping
 * its orbital slot if it has one or taking the next slot of the shell table
 * otherwise. Only the orbit fields ever change.
 */
module Capture {
  import opened Wrappers
  import opened Particles
  import opened Shells

  /** The indices of the electrons orbiting particle `h`. */
  function Hosted(ps: seq<Particle>, h: nat): set<nat> {
    set k: nat | k < |ps| && ps[k].orbitingAround == Some(h) && ps[k].ptype == Electron
  }

  /** Removing the last particle removes at most its own index from `Hosted`. */
  lemma HostedSplit(ps: seq<Particle>, h: nat)
    requires ps != []
    ensures var n := |ps| - 1;
            Hosted(ps, h) == Hosted(ps[..n], h) +
              (if ps[n].orbitingAround == Some(h) && ps[n].ptype == Electron then {n} else {})
  {
    var n := |ps| - 1;
    assert forall k :: 0 <= k < n ==> ps[..n][k] == ps[k];
  }

  /** The electrons currently orbiting particle `h`, counted over the whole vector. */
  function CountHosted(ps: seq<Particle>, h: nat): (r: nat)
    ensures r <= |ps|
  {
    if ps == [] then 0
    else
      var last := ps[|ps| - 1];
      CountHosted(ps[..|ps| - 1], h) + (if last.orbitingAround == Some(h) && last.ptype == Electron then 1 else 0)
  }

  /** The count is the number of electrons whose host is `h`. */
  lemma {:induction false} CountHostedIsCardinality(ps: seq<Particle>, h: nat)
    ensures CountHosted(ps, h) == |Hosted(ps, h)|
  {
    if ps != [] {
      var n := |ps| - 1;
      CountHostedIsCardinality(ps[..n], h);
      HostedSplit(ps, h);
      assert n !in Hosted(ps[..n], h);
    }
  }

  /** Particle k's orbit fields are consistent with the vector it lives in. */
  predicate WellHosted(ps: seq<Particle>, k: nat)
    requires k < |ps|
  {
    var p := ps[k];
    && (p.orbitingAround.Some? ==>
          p.orbitingAround.value < |ps| && p.ptype != Proton && ps[p.orbitingAround.value].ptype == Proton)
    && (p.orbitalPosition.Some? ==> p.ptype == Electron && TableSlot(p.orbitalPosition.value))
    && (p.ptype == Electron && p.orbitingAround.Some? ==> p.orbitalPosition.Some?)
  }

  /**
   * Hosts are protons inside the vector, protons orbit nothing, only electrons
   * hold orbital slots, those slots come from the shell table, and an orbiting
   * electron always has its slot.
   */
  predicate HostsValid(ps: seq<Particle>) {
    forall k :: 0 <= k < |ps| ==> WellHosted(ps, k)
  }

  /** q differs from p at most in its orbit fields. */
  predicate SameBody(p: Particle, q: Particle) {
    q == p.(orbitingAround := q.orbitingAround, orbitalPosition := q.orbitalPosition)
  }

  /**
   * What a capture step may do to one particle: touch only the orbit fields,
   * never a proton and never an electron that already orbits, never drop a
   * host and never change a slot once assigned.
   */
  predicate Keeps(p: Particle, q: Particle) {
    && SameBody(p, q)
    && (p.ptype == Proton ==> q == p)
    && (p.ptype == Electron && p.orbitingAround.Some? ==> q == p)
    && (p.orbitingAround.Some? ==> q.orbitingAround.Some?)
    && (p.orbitalPosition.Some? ==> q.orbitalPosition == p.orbitalPosition)
  }

  lemma KeepsTransitive(p: Particle, q: Particle, r: Particle)
    requires Keeps(p, q) && Keeps(q, r)
    ensures Keeps(p, r)
  {
  }

  /**
   * The electron rule for electron e and proton h at separation d: an
   * electron that is free but already holds a slot is just attached; a free
   * electron without a slot takes the shell-table slot numbered by how many
   * electrons h already holds, unless the table is exhausted.
   */
  function ElectronRule(ps: seq<Particle>, e: nat, h: nat, d: real): (r: seq<Particle>)
    requires e < |ps| && h < |ps|
    ensures |r| == |ps|
    ensures forall k :: 0 <= k < |ps| && k != e ==> r[k] == ps[k]
    ensures ps[e].orbitingAround.None? && ps[e].orbitalPosition.Some? && 10.0 < d < 80.0 ==>
              r[e] == ps[e].(orbitingAround := Some(h))
    ensures ps[e].orbitingAround.None? && ps[e].orbitalPosition.None? && 10.0 < d < 80.0 ==>
              if CountHosted(ps, h) < Capacity
              then r[e] == ps[e].(orbitingAround := Some(h), orbitalPosition := OrbitalInfo(CountHosted(ps, h)))
              else r[e] == ps[e]
    ensures ps[e].orbitingAround.Some? || !(10.0 < d < 80.0) ==> r == ps
  {
    var p := ps[e];
    if p.orbitingAround.None? && p.orbitalPosition.Some? && d < 80.0 && d > 10.0 then
      ps[e := p.(orbitingAround := Some(h))]
    else if p.orbitingAround.None? && p.orbitalPosition.None? && d < 80.0 && d > 10.0 then
      match OrbitalInfo(CountHosted(ps, h))
      case Some(slot) => ps[e := p.(orbitingAround := Some(h), orbitalPosition := Some(slot))]
      case None => ps
    else ps
  }

  /** One iteration (i, j) of the capture loop; kinds and separation come from the pair. */
  function PairStep(m: MathOps, ps: seq<Particle>, i: nat, j: nat): (r: seq<Particle>)
    requires i < j < |ps|
    ensures |r| == |ps|
    ensures forall k :: 0 <= k < |ps| && k != i && k != j ==> r[k] == ps[k]
    ensures ps[i].ptype == Proton && ps[j].ptype == Neutron && 15.0 < Separation(m, ps[i], ps[j]) < 60.0 ==>
              r[j] == ps[j].(orbitingAround := Some(i))
    ensures ps[i].ptype == Neutron && ps[j].ptype == Proton && 15.0 < Separation(m, ps[i], ps[j]) < 60.0 ==>
              r[i] == ps[i].(orbitingAround := Some(j))
    ensures (&& ((ps[i].ptype == Proton && ps[j].ptype == Neutron) || (ps[i].ptype == Neutron && ps[j].ptype == Proton))
             && !(15.0 < Separation(m, ps[i], ps[j]) < 60.0)) ==> r == ps
    ensures ps[i].ptype == Proton && ps[j].ptype == Electron ==>
              r == ElectronRule(ps, j, i, Separation(m, ps[i], ps[j]))
    ensures ps[i].ptype == Electron && ps[j].ptype == Proton ==>
              r == ElectronRule(ps, i, j, Separation(m, ps[i], ps[j]))
    ensures (|| ps[i].ptype == ps[j].ptype
             || (ps[i].ptype == Neutron && ps[j].ptype == Electron)
             || (ps[i].ptype == Electron && ps[j].ptype == Neutron)) ==> r == ps
  {
    var ti, tj := ps[i].ptype, ps[j].ptype;
    var d := Separation(m, ps[i], ps[j]);
    var ps1 :=
      if (ti == Proton && tj == Neutron) || (ti == Neutron && tj == Proton) then
        if d < 60.0 && d > 15.0 then
          var (heavier, lighter) := if ti == Proton then (i, j) else (j, i);
          ps[lighter := ps[lighter].(orbitingAround := Some(heavier))]
        else ps
      else ps;
    if (ti == Electron && tj == Proton) || (ti == Proton && tj == Electron) then
      var (electron, proton) := if ti == Electron then (i, j) else (j, i);
      ElectronRule(ps1, electron, proton, d)
    else ps1
  }

  /**
   * The capture loop from iteration (i, j) on: the rest of row i, then rows
   * i+1, i+2, ... Each pair sees the effects of the pairs before it.
   */
  function CaptureFrom(m: MathOps, ps: seq<Particle>, i: nat, j: nat): (r: seq<Particle>)
    requires i < j
    ensures |r| == |ps|
    decreases |ps| - i, |ps| - j
  {
    if i >= |ps| then ps
    else if j >= |ps| then CaptureFrom(m, ps, i + 1, i + 2)
    else CaptureFrom(m, PairStep(m, ps, i, j), i, j + 1)
  }

  lemma CaptureFromPair(m: MathOps, ps: seq<Particle>, i: nat, j: nat)
    requires i < j < |ps|
    ensures CaptureFrom(m, ps, i, j) == CaptureFrom(m, PairStep(m, ps, i, j), i, j + 1)
  {
  }

  lemma CaptureFromRowEnd(m: MathOps, ps: seq<Particle>, i: nat, j: nat)
    requires i < j && i < |ps| <= j
    ensures CaptureFrom(m, ps, i, j) == CaptureFrom(m, ps, i + 1, i + 2)
  {
  }

  /** The whole capture loop. */
  function Captures(m: MathOps, ps: seq<Particle>): (r: seq<Particle>)
    ensures |r| == |ps|
  {
    CaptureFrom(m, ps, 0, 1)
  }

  lemma PairStepKeeps(m: MathOps, ps: seq<Particle>, i: nat, j: nat)
    requires i < j < |ps|
    ensures forall k :: 0 <= k < |ps| ==> Keeps(ps[k], PairStep(m, ps, i, j)[k])
  {
  }

  /** A capture step keeps every host a proton of the vector and every slot a table slot. */
  lemma PairStepValid(m: MathOps, ps: seq<Particle>, i: nat, j: nat)
    requires i < j < |ps| && HostsValid(ps)
    ensures HostsValid(PairStep(m, ps, i, j))
  {
    var r := PairStep(m, ps, i, j);
    var c := CountHosted(ps, i);
    var c' := CountHosted(ps, j);
    if c < Capacity { OrdinalRoundTrip(c); }
    if c' < Capacity { OrdinalRoundTrip(c'); }
    forall k | 0 <= k < |r|
      ensures WellHosted(r, k)
    {
      assert WellHosted(ps, k);
      if r[k].orbitingAround.Some? {
        var h := r[k].orbitingAround.value;
        assert WellHosted(ps, h) || h == i || h == j;
        assert r[h].ptype == ps[h].ptype;
      }
    }
  }

  /** The whole pass keeps hosts valid and treats every particle according to `Keeps`. */
  lemma {:induction false} CaptureFromKeeps(m: MathOps, ps: seq<Particle>, i: nat, j: nat)
    requires i < j && HostsValid(ps)
    ensures HostsValid(CaptureFrom(m, ps, i, j))
    ensures forall k :: 0 <= k < |ps| ==> Keeps(ps[k], CaptureFrom(m, ps, i, j)[k])
    decreases |ps| - i, |ps| - j
  {
    if i >= |ps| {
    } else if j >= |ps| {
      CaptureFromKeeps(m, ps, i + 1, i + 2);
    } else {
      var ps1 := PairStep(m, ps, i, j);
      PairStepKeeps(m, ps, i, j);
      PairStepValid(m, ps, i, j);
      CaptureFromKeeps(m, ps1, i, j + 1);
      var r := CaptureFrom(m, ps1, i, j + 1);
      forall k | 0 <= k < |ps|
        ensures Keeps(ps[k], r[k])
      {
        KeepsTransitive(ps[k], ps1[k], r[k]);
      }
    }
  }

  /**
   * The capture pass never moves anything, never frees an orbiting electron,
   * never reassigns a slot, never touches a proton, and keeps hosts valid.
   */
  lemma CapturesKeep(m: MathOps, ps: seq<Particle>)
    requires HostsValid(ps)
    ensures HostsValid(Captures(m, ps))
    ensures forall k :: 0 <= k < |ps| ==> Keeps(ps[k], Captures(m, ps)[k])
  {
    CaptureFromKeeps(m, ps, 0, 1);
  }
}
