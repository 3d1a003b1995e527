/**
 * `detect_nuclei` (src/simulation.rs): protons are taken as anchors in index
 * order; each anchor gathers every not-yet-used particle within distance 100
 * of it. Protons and neutrons gathered are marked used, electrons are not,
 * so an electron may be listed by several nuclei.
 */
module Nuclei {
  import opened Particles

  datatype Nucleus = Nucleus(protons: seq<nat>, neutrons: seq<nat>, electrons: seq<nat>)

  /**
   * One pass of the inner loop of `detect_nuclei`: particle j is considered
   * for the nucleus of anchor i. Used particles and the anchor itself are
   * skipped; a particle within 100 joins the nucleus by kind, and protons and
   * neutrons become used.
   */
  function GatherStep(m: MathOps, ps: seq<Particle>, i: nat, j: nat, used: set<nat>, nuc: Nucleus): (r: (set<nat>, Nucleus))
    requires i < |ps| && j < |ps|
  {
    if j in used || i == j || DistanceTo(m, ps[i], ps[j]) >= 100.0 then (used, nuc)
    else
      match ps[j].ptype
      case Proton => (used + {j}, nuc.(protons := nuc.protons + [j]))
      case Neutron => (used + {j}, nuc.(neutrons := nuc.neutrons + [j]))
      case Electron => (used, nuc.(electrons := nuc.electrons + [j]))
  }

  /** The inner loop of `detect_nuclei` from index j on, for anchor i. */
  function Gather(m: MathOps, ps: seq<Particle>, i: nat, j: nat, used: set<nat>, nuc: Nucleus): (r: (set<nat>, Nucleus))
    requires i < |ps|
    decreases |ps| - j
  {
    if j >= |ps| then (used, nuc)
    else
      var next := GatherStep(m, ps, i, j, used, nuc);
      Gather(m, ps, i, j + 1, next.0, next.1)
  }

  /** The outer loop of `detect_nuclei` from index i on. */
  function Scan(m: MathOps, ps: seq<Particle>, i: nat, used: set<nat>, acc: seq<Nucleus>): (r: seq<Nucleus>)
    decreases |ps| - i
  {
    if i >= |ps| then acc
    else if ps[i].ptype != Proton || i in used then Scan(m, ps, i + 1, used, acc)
    else
      var (used', nuc) := Gather(m, ps, i, 0, used + {i}, Nucleus([i], [], []));
      Scan(m, ps, i + 1, used', if |nuc.protons| > 0 then acc + [nuc] else acc)
  }

  function NucleiOf(m: MathOps, ps: seq<Particle>): seq<Nucleus> {
    Scan(m, ps, 0, {}, [])
  }

  function AllProtons(ns: seq<Nucleus>): seq<nat> {
    if ns == [] then [] else AllProtons(ns[..|ns| - 1]) + ns[|ns| - 1].protons
  }

  function AllNeutrons(ns: seq<Nucleus>): seq<nat> {
    if ns == [] then [] else AllNeutrons(ns[..|ns| - 1]) + ns[|ns| - 1].neutrons
  }

  function ProtonsIn(ps: seq<Particle>, used: set<nat>): set<nat> {
    set k | k in used && k < |ps| && ps[k].ptype == Proton
  }

  function NeutronsIn(ps: seq<Particle>, used: set<nat>): set<nat> {
    set k | k in used && k < |ps| && ps[k].ptype == Neutron
  }

  function ProtonIndices(ps: seq<Particle>): set<nat> {
    set k: nat | k < |ps| && ps[k].ptype == Proton
  }

  /** Every index of `idx` from position `from` on names a particle of `kind` within 100 of `anchor`. */
  predicate Members(m: MathOps, ps: seq<Particle>, anchor: Particle, idx: seq<nat>, from: nat, kind: ParticleType) {
    forall k :: from <= k < |idx| ==> idx[k] < |ps| && ps[idx[k]].ptype == kind && DistanceTo(m, anchor, ps[idx[k]]) < 100.0
  }

  /**
   * A well-formed nucleus: it is anchored at a proton, every listed index has
   * the listed kind, and every member but the anchor lies within 100 of it.
   */
  predicate NucleusOk(m: MathOps, ps: seq<Particle>, n: Nucleus) {
    && |n.protons| > 0 && n.protons[0] < |ps| && ps[n.protons[0]].ptype == Proton
    && Members(m, ps, ps[n.protons[0]], n.protons, 1, Proton)
    && Members(m, ps, ps[n.protons[0]], n.neutrons, 0, Neutron)
    && Members(m, ps, ps[n.protons[0]], n.electrons, 0, Electron)
  }

  lemma MembersAppend(m: MathOps, ps: seq<Particle>, anchor: Particle, idx: seq<nat>, from: nat, kind: ParticleType, j: nat)
    requires Members(m, ps, anchor, idx, from, kind)
    requires j < |ps| && ps[j].ptype == kind && DistanceTo(m, anchor, ps[j]) < 100.0
    ensures Members(m, ps, anchor, idx + [j], from, kind)
  {
  }

  /** What both loops keep about the nuclei found so far and the used set. */
  predicate Accounted(ps: seq<Particle>, used: set<nat>, protons: seq<nat>, neutrons: seq<nat>) {
    && (forall k :: k in used ==> k < |ps| && ps[k].ptype != Electron)
    && multiset(protons) == multiset(ProtonsIn(ps, used))
    && multiset(neutrons) == multiset(NeutronsIn(ps, used))
  }

  lemma MarkProton(ps: seq<Particle>, used: set<nat>, protons: seq<nat>, neutrons: seq<nat>, j: nat)
    requires Accounted(ps, used, protons, neutrons)
    requires j < |ps| && j !in used && ps[j].ptype == Proton
    ensures Accounted(ps, used + {j}, protons + [j], neutrons)
  {
    assert ProtonsIn(ps, used + {j}) == ProtonsIn(ps, used) + {j};
    assert NeutronsIn(ps, used + {j}) == NeutronsIn(ps, used);
    assert multiset(ProtonsIn(ps, used) + {j}) == multiset(ProtonsIn(ps, used)) + multiset{j};
  }

  lemma MarkNeutron(ps: seq<Particle>, used: set<nat>, protons: seq<nat>, neutrons: seq<nat>, j: nat)
    requires Accounted(ps, used, protons, neutrons)
    requires j < |ps| && j !in used && ps[j].ptype == Neutron
    ensures Accounted(ps, used + {j}, protons, neutrons + [j])
  {
    assert ProtonsIn(ps, used + {j}) == ProtonsIn(ps, used);
    assert NeutronsIn(ps, used + {j}) == NeutronsIn(ps, used) + {j};
    assert multiset(NeutronsIn(ps, used) + {j}) == multiset(NeutronsIn(ps, used)) + multiset{j};
  }

  /** What the inner loop keeps while anchor i gathers its nucleus. */
  predicate GatherInv(m: MathOps, ps: seq<Particle>, i: nat, used: set<nat>, nuc: Nucleus, acc: seq<Nucleus>) {
    && i < |ps| && i in used && |nuc.protons| > 0 && nuc.protons[0] == i
    && NucleusOk(m, ps, nuc)
    && Accounted(ps, used, AllProtons(acc) + nuc.protons, AllNeutrons(acc) + nuc.neutrons)
  }

  lemma GatherStepKeeps(m: MathOps, ps: seq<Particle>, i: nat, j: nat, used: set<nat>, nuc: Nucleus, acc: seq<Nucleus>)
    requires GatherInv(m, ps, i, used, nuc, acc) && j < |ps|
    ensures used <= GatherStep(m, ps, i, j, used, nuc).0
    ensures GatherInv(m, ps, i, GatherStep(m, ps, i, j, used, nuc).0, GatherStep(m, ps, i, j, used, nuc).1, acc)
  {
    if j in used || i == j || DistanceTo(m, ps[i], ps[j]) >= 100.0 {
    } else {
      match ps[j].ptype
      case Proton =>
        MembersAppend(m, ps, ps[i], nuc.protons, 1, Proton, j);
        MarkProton(ps, used, AllProtons(acc) + nuc.protons, AllNeutrons(acc) + nuc.neutrons, j);
        assert AllProtons(acc) + (nuc.protons + [j]) == AllProtons(acc) + nuc.protons + [j];
      case Neutron =>
        MembersAppend(m, ps, ps[i], nuc.neutrons, 0, Neutron, j);
        MarkNeutron(ps, used, AllProtons(acc) + nuc.protons, AllNeutrons(acc) + nuc.neutrons, j);
        assert AllNeutrons(acc) + (nuc.neutrons + [j]) == AllNeutrons(acc) + nuc.neutrons + [j];
      case Electron =>
        MembersAppend(m, ps, ps[i], nuc.electrons, 0, Electron, j);
    }
  }

  /**
   * The inner loop keeps the accounting, keeps the nucleus well formed, and
   * only grows `used`; the loop's result is handed back as (used', nuc').
   */
  lemma {:induction false} GatherKeeps(m: MathOps, ps: seq<Particle>, i: nat, j: nat, used: set<nat>, nuc: Nucleus, acc: seq<Nucleus>)
    returns (used': set<nat>, nuc': Nucleus)
    requires GatherInv(m, ps, i, used, nuc, acc)
    ensures (used', nuc') == Gather(m, ps, i, j, used, nuc)
    ensures used <= used' && GatherInv(m, ps, i, used', nuc', acc)
    decreases |ps| - j
  {
    if j < |ps| {
      GatherStepKeeps(m, ps, i, j, used, nuc, acc);
      var next := GatherStep(m, ps, i, j, used, nuc);
      used', nuc' := GatherKeeps(m, ps, i, j + 1, next.0, next.1, acc);
    } else {
      used', nuc' := used, nuc;
    }
  }

  /** Anchors are listed in increasing index order and all lie below `bound`. */
  predicate AnchorsBelow(ns: seq<Nucleus>, bound: nat) {
    && (forall k :: 0 <= k < |ns| ==> |ns[k].protons| > 0 && ns[k].protons[0] < bound)
    && (forall a, b :: 0 <= a < b < |ns| ==> ns[a].protons[0] < ns[b].protons[0])
  }

  predicate ScanInv(m: MathOps, ps: seq<Particle>, i: nat, used: set<nat>, acc: seq<Nucleus>) {
    && Accounted(ps, used, AllProtons(acc), AllNeutrons(acc))
    && (forall k :: 0 <= k < i && k < |ps| && ps[k].ptype == Proton ==> k in used)
    && (forall k :: 0 <= k < |acc| ==> NucleusOk(m, ps, acc[k]))
    && AnchorsBelow(acc, i)
  }

  lemma AnchorsExtend(ns: seq<Nucleus>, n: Nucleus, i: nat)
    requires AnchorsBelow(ns, i) && |n.protons| > 0 && n.protons[0] == i
    ensures AnchorsBelow(ns + [n], i + 1)
  {
  }

  lemma AllOfAppend(ns: seq<Nucleus>, n: Nucleus)
    ensures AllProtons(ns + [n]) == AllProtons(ns) + n.protons
    ensures AllNeutrons(ns + [n]) == AllNeutrons(ns) + n.neutrons
  {
    assert (ns + [n])[..|ns + [n]| - 1] == ns;
  }

  /** Opening the nucleus of a fresh anchor i sets up the inner loop's invariant. */
  lemma AnchorStart(m: MathOps, ps: seq<Particle>, i: nat, used: set<nat>, acc: seq<Nucleus>)
    requires ScanInv(m, ps, i, used, acc)
    requires i < |ps| && ps[i].ptype == Proton && i !in used
    ensures GatherInv(m, ps, i, used + {i}, Nucleus([i], [], []), acc)
  {
    MarkProton(ps, used, AllProtons(acc), AllNeutrons(acc), i);
    assert AllProtons(acc) + [i] == AllProtons(acc) + Nucleus([i], [], []).protons;
    assert AllNeutrons(acc) == AllNeutrons(acc) + Nucleus([i], [], []).neutrons;
  }

  lemma ProtonsStayUsed(ps: seq<Particle>, i: nat, used: set<nat>, used': set<nat>)
    requires forall k :: 0 <= k < i && k < |ps| && ps[k].ptype == Proton ==> k in used
    requires used <= used' && i in used'
    ensures forall k :: 0 <= k < i + 1 && k < |ps| && ps[k].ptype == Proton ==> k in used'
  {
  }

  lemma NucleiStayOk(m: MathOps, ps: seq<Particle>, acc: seq<Nucleus>, nuc: Nucleus)
    requires forall k :: 0 <= k < |acc| ==> NucleusOk(m, ps, acc[k])
    requires NucleusOk(m, ps, nuc)
    ensures forall k :: 0 <= k < |acc + [nuc]| ==> NucleusOk(m, ps, (acc + [nuc])[k])
  {
    var acc' := acc + [nuc];
    forall k | 0 <= k < |acc'|
      ensures NucleusOk(m, ps, acc'[k])
    {
      if k < |acc| {
        assert acc'[k] == acc[k];
      }
    }
  }

  /** Closing the nucleus of anchor i restores the outer loop's invariant for i + 1. */
  lemma AnchorClose(m: MathOps, ps: seq<Particle>, i: nat, used: set<nat>, used': set<nat>, nuc: Nucleus, acc: seq<Nucleus>)
    requires ScanInv(m, ps, i, used, acc) && i < |ps|
    requires GatherInv(m, ps, i, used', nuc, acc) && used <= used'
    ensures ScanInv(m, ps, i + 1, used', acc + [nuc])
  {
    AllOfAppend(acc, nuc);
    AnchorsExtend(acc, nuc, i);
    ProtonsStayUsed(ps, i, used, used');
    NucleiStayOk(m, ps, acc, nuc);
  }

  /** Gathering the nucleus of a fresh anchor i keeps the outer loop's invariant for i + 1. */
  lemma AnchorKeeps(m: MathOps, ps: seq<Particle>, i: nat, used: set<nat>, acc: seq<Nucleus>)
    requires ScanInv(m, ps, i, used, acc)
    requires i < |ps| && ps[i].ptype == Proton && i !in used
    ensures var (used', nuc') := Gather(m, ps, i, 0, used + {i}, Nucleus([i], [], []));
            |nuc'.protons| > 0 && ScanInv(m, ps, i + 1, used', acc + [nuc'])
  {
    AnchorStart(m, ps, i, used, acc);
    var used', nuc' := GatherKeeps(m, ps, i, 0, used + {i}, Nucleus([i], [], []), acc);
    AnchorClose(m, ps, i, used, used', nuc', acc);
  }

  /** What the finished scan guarantees. */
  ghost predicate Partition(m: MathOps, ps: seq<Particle>, ns: seq<Nucleus>) {
    && multiset(AllProtons(ns)) == multiset(ProtonIndices(ps))
    && (forall k :: multiset(AllNeutrons(ns))[k] <= 1)
    && (forall k :: 0 <= k < |ns| ==> NucleusOk(m, ps, ns[k]))
    && AnchorsBelow(ns, |ps|)
  }

  lemma FinishedScan(m: MathOps, ps: seq<Particle>, i: nat, used: set<nat>, acc: seq<Nucleus>)
    requires ScanInv(m, ps, i, used, acc) && |ps| <= i
    ensures Partition(m, ps, acc)
  {
    assert ProtonsIn(ps, used) == ProtonIndices(ps);
    forall k
      ensures multiset(AllNeutrons(acc))[k] <= 1
    {
      assert multiset(AllNeutrons(acc))[k] == multiset(NeutronsIn(ps, used))[k];
    }
    forall k | 0 <= k < |acc|
      ensures acc[k].protons[0] < |ps|
    {
      assert NucleusOk(m, ps, acc[k]);
    }
  }

  lemma SkipKeeps(m: MathOps, ps: seq<Particle>, i: nat, used: set<nat>, acc: seq<Nucleus>)
    requires ScanInv(m, ps, i, used, acc)
    requires i < |ps| && (ps[i].ptype != Proton || i in used)
    ensures ScanInv(m, ps, i + 1, used, acc)
  {
  }

  lemma {:induction false} ScanKeeps(m: MathOps, ps: seq<Particle>, i: nat, used: set<nat>, acc: seq<Nucleus>)
    requires ScanInv(m, ps, i, used, acc)
    ensures Partition(m, ps, Scan(m, ps, i, used, acc))
    decreases |ps| - i
  {
    if i >= |ps| {
      FinishedScan(m, ps, i, used, acc);
    } else if ps[i].ptype != Proton || i in used {
      SkipKeeps(m, ps, i, used, acc);
      ScanKeeps(m, ps, i + 1, used, acc);
    } else {
      AnchorKeeps(m, ps, i, used, acc);
      var (used', nuc') := Gather(m, ps, i, 0, used + {i}, Nucleus([i], [], []));
      assert Scan(m, ps, i, used, acc) == Scan(m, ps, i + 1, used', acc + [nuc']);
      ScanKeeps(m, ps, i + 1, used', acc + [nuc']);
    }
  }

  /**
   * Every proton belongs to exactly one nucleus, no neutron to more than
   * one, every nucleus is anchored at a proton with its members within
   * distance 100 of the anchor, and anchors come in increasing order.
   */
  lemma NucleiPartition(m: MathOps, ps: seq<Particle>)
    ensures Partition(m, ps, NucleiOf(m, ps))
  {
    assert ProtonsIn(ps, {}) == {};
    assert NeutronsIn(ps, {}) == {};
    ScanKeeps(m, ps, 0, {}, []);
  }
}
