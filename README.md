# Atomic particle simulation, modelled in Dafny

The repository has two parts:

- a 2-D toy simulation of protons, neutrons and electrons, written in Rust and compiled to WebAssembly;
- a smaller TypeScript front end with its own force pass and particle object.

This project models the engine's core:

- **The particle record** (`src/particle.rs`): `Particle::new`, `Particle::update` and `distance_to`.
- **The force scalars and tunables** (`src/physics.rs`): `PhysicsParams` and its defaults, the nuclear and Coulomb forces, the orbit target, and `apply_force`.
- **The `Simulation` object** (`src/simulation.rs`):
  - adding particles and whole nuclei;
  - the hand-enumerated shell table that assigns electrons to orbital slots;
  - the frame `update`. It advances the clock, then runs the pairwise force pass, then the capture pass (electrons and neutrons start orbiting protons), then the orbit pass (orbiting particles are placed on their curves), then wall bouncing;
  - `detect_nuclei`, which groups particles around proton anchors.
- **The host-facing `SimulationEngine`** (`src/lib.rs`): particle-type codes, setters, and the JSON text handed to the page.
- **The TypeScript force pass** (`simulacion-atomica/src/utils/physicsUtils.ts`).
- **The TypeScript particle class** (`src/models/Particle.ts`).

## How the model is organised

Floating-point numbers are modelled as `real`.

**Platform maths.** The square root, sine, cosine, arctangent and exponential are not computed. They are the fields of a `MathOps` (Rust) or `TsMath` (TypeScript) value that the caller supplies. Where a proof needs a law (√0 = 0, √v ≥ 0, eˣ > 0, sin² + cos² = 1), the law is a predicate that the lemma requires.

**Rust particles are values.** A Rust `Particle` is a value stored by value in a `Vec`, so it is a `datatype`. `Particle::update` is a method on values, proved equal to the function `Moved`.

**The `Simulation` object is a class.** It holds `particles: seq<Particle>`. Each pass over the vector is written as the loops of the source, and each loop is proved against a function that describes the same pass:

| pass | specification function |
|---|---|
| the two loops of `calculate_forces` | `Forces.NetForces`, then `Forces.ApplyForces` |
| the capture loop | `Capture.Captures` |
| `apply_orbital_mechanics` | `Orbits.OrbitalOverride` |
| `detect_nuclei` | `Nuclei.NucleiOf` |

The lemmas are then proved about those functions:

- the forces add up to zero;
- capture only ever adds hosts and slots;
- the nuclei partition the protons.

The class invariant `Valid()` says that every orbit reference points at a proton inside the vector, and that every slot comes from the shell table.

**TypeScript particles are objects.** A TypeScript `Particle` is an object updated in place, so it is a `class`. `calculateForces` runs over an `array<Particle>`. It is proved against `TsForces`, a function on value snapshots (`Body`). Total momentum is proved to be conserved.

Modules, in dependency order:

| module | contents |
|---|---|
| `Wrappers` | `Option` |
| `Particles` | the Rust particle |
| `Physics` | the tunables and the force scalars |
| `Shells` | the shell table |
| `Forces` | the force pass |
| `Capture` | the capture pass |
| `Orbits` | the orbit pass |
| `Nuclei` | `detect_nuclei` |
| `Simulations` | the `Simulation` class, `Step`, and multi-frame facts |
| `Engine` | `SimulationEngine` and the JSON text |
| `TsParticles` | the TypeScript particle |
| `TsPhysics` | the TypeScript force pass |

## Model

| member | source | states |
|---|---|---|
| Particles.NewParticle | src/particle.rs:25-44 | Radius and charge follow from the kind: a proton is (20, +1), a neutron (20, 0), an electron (10, −1). The particle starts at rest, with no host and no slot. |
| Particles.DistanceSymmetric | src/particle.rs:79-83 | `distance_to` is symmetric. The separation the pair loops compute equals it. |
| Particles.DistanceLaws | src/particle.rs:79-83 | Given the laws of the square root, the distance from a particle to itself is 0, and every distance is non-negative. |
| Particles.DistanceTo | src/particle.rs:79-83 | `distance_to`: the square root of the squared separation. Its symmetry and laws are stated by `Particles.DistanceSymmetric` and `Particles.DistanceLaws`. |
| Particles.BounceAxis | src/particle.rs:48-72 | For one axis, after the move:<br>- the velocity keeps its magnitude;<br>- a particle that fits ends inside the walls;<br>- with no wall crossed, the position is old + velocity;<br>- crossing the far or near wall puts it against that wall with the velocity reversed. |
| Particles.Moved | src/particle.rs:46-77 | `update` changes only x, y, dx and dy. |
| Particles.MovedLaws | src/particle.rs:46-77 | Per axis:<br>- the new velocity is ± the old one times `damping`;<br>- canvas bounds hold whenever the particle fits;<br>- with no wall hit, the position is x + dx and the velocity dx·damping;<br>- at each of the four walls the particle is clamped to the wall and its velocity becomes −dx·damping. |
| Particles.Update | src/particle.rs:46-77 | The step-wise move, wall tests and damping of the source compute exactly `Moved`. |
| Physics.DefaultsAreConservative | src/physics.rs:20-39 | In the defaults, both damping factors are 1, the range is 40, and the masses are 3 and 0.01. With these defaults, a frame's bounce never changes the magnitude of a velocity component. |
| Physics.DefaultParams | src/physics.rs:20-39 | The default tunables. Their values are stated by `Physics.DefaultsAreConservative`. |
| Physics.NuclearForce | src/physics.rs:45-61 | The force is 0 beyond the range, and 0 from half the range on. Inside half the range it is `attractive · (1 − d/range)`. |
| Physics.NuclearForceBounds | src/physics.rs:54-58 | Inside half the range, with attractive ≥ 0, the force lies in [attractive/2, attractive]. When attractive > 0 the lower bound is strict. |
| Physics.CoulombForce | src/physics.rs:63-76 | Below unit distance the force is 0. |
| Physics.CoulombSign | src/physics.rs:69-75 | For d ≥ 1 and `coulomb_force` > 0, the force is symmetric in the charges, and its sign is the sign of charge1·charge2 (like charges repel, unlike ones attract). |
| Physics.OrbitalTarget | src/physics.rs:78-88 | The target radius is never below `orbital_radius`. |
| Physics.OrbitalTargetSpacing | src/physics.rs:83 | Target radii start at `orbital_radius` and are spaced 30 apart per orbital index. |
| Physics.ApplyForce | src/physics.rs:90-100 | Only dx and dy change. For a nonzero mass, mass·Δdx = fx and mass·Δdy = fy. |
| Shells.OrbitalsCount | src/simulation.rs:229-237 | Every subshell has an odd number of orbitals, between 1 and 7. |
| Shells.MaxElectronsSublevel | src/simulation.rs:240-248 | A subshell holds two electrons per orbital. |
| Shells.OrbitalInfo | src/simulation.rs:127-226 | There is a slot exactly for ordinals below 70. Each slot:<br>- has position < 2;<br>- has an orbital index below its subshell's orbital count;<br>- is an s, p, d or f subshell of level 1 to 6. |
| Shells.BlockStarts | src/simulation.rs:130-222 | The fill-order blocks start at 0, 2, 4, 10, 12, 18, 20, 30, 36, 38, 48, 54 and 56, and end at 70. |
| Shells.FillOrderBlocks | src/simulation.rs:133-222 | The if-chain agrees with the fill order 1s 2s 2p 3s 3p 4s 3d 4p 5s 4d 5p 6s 4f. Each block covers `get_max_electrons_sublevel` consecutive ordinals, filled two per orbital. |
| Shells.OrdinalRoundTrip | src/simulation.rs:127-226 | Every ordinal below 70 gets a table slot, and the slot's ordinal is that ordinal again. |
| Shells.SlotRoundTrip | src/simulation.rs:127-226 | Every table slot is handed out, to exactly the ordinal `SlotOrdinal` names. |
| Shells.OrbitalInfoInjective | src/simulation.rs:127-226 | Distinct ordinals below 70 receive distinct slots. |
| Shells.OrbitalAngle | src/simulation.rs:251-274 | The orientation is non-negative. For an orbital index inside its subshell it is below 2π. |
| Shells.BaseRadius | src/simulation.rs:278-299 | The base radius is at least 50, and at most 275 for levels 1 to 4. The same function serves as the identical copy of this table in `calculate_orbital_motion` (src/simulation.rs:1120-1141). |
| Shells.OrbitalParameters | src/simulation.rs:277-319 | The radius is the base radius. The base speed lies in [2, 4]. The angle offset lies in [0, 2π) for an orbital index inside the subshell. |
| Shells.OrbitalMotion | src/simulation.rs:1119-1220 | `calculate_orbital_motion`: the s, p, d and f curves, and the circle for any other letter. Its rigidity is stated by `Shells.OrbitalMotionFollowsNucleus`, and the s partners by `Shells.SOrbitalPartners`. |
| Shells.OrbitalMotionFollowsNucleus | src/simulation.rs:1119-1220 | Moving the nucleus by (a, b) moves the electron's computed position by (a, b) and leaves its velocity unchanged, for every subshell. |
| Shells.SOrbitalPartners | src/simulation.rs:1144-1153 | The two electrons of an s orbital circle half a turn apart, at the subshell's base radius. |
| Capture.CountHosted | src/simulation.rs:409-411 | The count of electrons orbiting a particle never exceeds the number of particles. |
| Capture.CountHostedIsCardinality | src/simulation.rs:409-411 | The count is the number of indices whose particle is an electron orbiting `h`. |
| Capture.ElectronRule | src/simulation.rs:386-418 | Only the electron changes. When it is free and 10 < d < 80:<br>- if it already holds a slot, it is attached to the proton;<br>- if it has no slot, it takes the table slot numbered by the proton's hosted-electron count;<br>- if the table is exhausted, it is left unchanged.<br>An electron that already orbits, or is out of range, is untouched. |
| Capture.PairStep | src/simulation.rs:363-418 | For a proton and a neutron with 15 < d < 60, the neutron's host becomes the proton. Outside that range the pair changes nothing. A proton/electron pair, in either order, applies `ElectronRule` to the electron at the pair's separation. Pairs of one kind, and neutron/electron pairs, change nothing. No other particle changes. |
| Capture.Captures | src/simulation.rs:348-420 | The capture pass keeps the number of particles. |
| Capture.PairStepKeeps | src/simulation.rs:372-418 | One capture step changes only orbit fields. It never touches a proton or an orbiting electron, never drops a host, and never changes an assigned slot. |
| Capture.PairStepValid | src/simulation.rs:372-418 | One capture step keeps every host a proton inside the vector, and every slot a table slot. |
| Capture.CaptureFromKeeps | src/simulation.rs:348-420 | The rest of the pass, from any pair on, keeps hosts valid and treats every particle according to `Keeps`. |
| Capture.CapturesKeep | src/simulation.rs:348-420 | The whole pass moves nothing, frees no electron, reassigns no slot, touches no proton, and keeps hosts valid. |
| Orbits.NeutronOnCircle | src/simulation.rs:452-462 | Given sin² + cos² = 1, an orbiting neutron is placed at distance 45 from its proton. |
| Orbits.NeutronVelocityTangential | src/simulation.rs:457-464 | Relative to its proton, the neutron's new velocity is perpendicular to its offset. |
| Orbits.NeutronOrbit | src/simulation.rs:443-466 | The neutron's target: radius 45 at the angle `atan2` gives from the neutron towards the proton, moving with the proton plus a tangential speed of 2.5. Its geometry is stated by `Orbits.NeutronOnCircle` and `Orbits.NeutronVelocityTangential`. |
| Orbits.Target | src/simulation.rs:439-493 | Only two kinds of particle receive a target: a neutron with an in-range host, and an electron with an in-range host and a slot. |
| Orbits.HasTarget | src/simulation.rs:439-493 | Both directions: a particle receives a target exactly when it is a neutron with an in-range host, or an electron with an in-range host and a slot. |
| Orbits.Overridden | src/simulation.rs:439-503 | The pass changes only x, y, dx and dy. A free particle or a proton is untouched. |
| Orbits.OrbitalOverride | src/simulation.rs:435-504 | Every particle is overridden from the same snapshot. |
| Orbits.ElectronFollowsSlot | src/simulation.rs:473-487 | With valid hosts, an orbiting electron is placed by its slot's curve around its nucleus's position. |
| Orbits.NeutronFollowsHost | src/simulation.rs:443-469 | With valid hosts, an orbiting neutron's host is a proton in the vector, and the pass places the neutron by `NeutronOrbit` around that proton's position before the pass. |
| Orbits.NeutronOrbitsAfterPass | src/simulation.rs:435-504 | Given sin² + cos² = 1, after the pass an orbiting neutron lies at distance 45 from its proton, which the pass leaves in place, and its velocity relative to the proton is tangential. |
| Orbits.OverrideKeepsHosts | src/simulation.rs:435-504 | The orbit pass keeps host validity. |
| Orbits.PendingNext | src/simulation.rs:466-487 | One pass of the first loop appends the particle's update exactly when it has a target. |
| Orbits.Write | src/simulation.rs:496-502 | Writing an update keeps the length. An update whose index is out of range is skipped. |
| Orbits.ApplyUpdates | src/simulation.rs:496-503 | Writing the buffer back keeps the length. |
| Orbits.PendingStep | src/simulation.rs:439-503 | Buffering one more particle's update and writing it back retargets exactly that particle. |
| Orbits.PendingPrefix | src/simulation.rs:439-503 | After i particles, the first i hold their targets and the rest are untouched. |
| Orbits.PendingApplied | src/simulation.rs:435-504 | Buffering all targets and writing them back equals overriding every particle from one snapshot. |
| Forces.PairForceComponents | src/simulation.rs:515-553 | The loop's component-wise computation is the pair force. |
| Forces.ForceMagnitude | src/simulation.rs:519-550 | The scalar pair force. Its symmetry and special cases are stated by `Forces.ForceMagnitudeSymmetric`, `Forces.FarProtonsOnlyRepel` and `Forces.NeutralHasNoCoulomb`. |
| Forces.PairForce | src/simulation.rs:515-553 | The force the pair adds to particle i. Its components and antisymmetry are stated by `Forces.PairForceComponents` and `Forces.PairForceAntisymmetric`. |
| Forces.ForceMagnitudeSymmetric | src/simulation.rs:519-550 | The scalar force does not depend on the order of the pair. |
| Forces.PairForceAntisymmetric | src/simulation.rs:510-558 | Swapping the pair negates the force: equal and opposite. |
| Forces.FarProtonsOnlyRepel | src/simulation.rs:522-543 | Beyond the nuclear range, two protons feel only Coulomb minus the proton repulsion. |
| Forces.NeutralHasNoCoulomb | src/simulation.rs:519-550 | With either charge 0, whatever the kinds, no Coulomb term is added:<br>- two nucleons feel only the nuclear force, less the proton repulsion for two protons;<br>- two electrons feel only their repulsion;<br>- a nucleon and an electron feel nothing. |
| Forces.AddPair | src/simulation.rs:555-558 | Accumulating a pair keeps the number of force slots. |
| Forces.ForcesFrom | src/simulation.rs:510-560 | The rest of the accumulation keeps one force slot per particle. Its sums are stated by `Forces.ForcesFromKeepsSums`. |
| Forces.NetForces | src/simulation.rs:506-560 | The accumulated forces, one per particle. They sum to zero, as `Forces.NetForceIsZero` states. |
| Forces.AddPairKeepsSums | src/simulation.rs:555-558 | What is added to slot i is subtracted from slot j, so the totals do not change. |
| Forces.ForcesFromKeepsSums | src/simulation.rs:510-560 | The rest of the accumulation, from any pair on, keeps both totals. |
| Forces.NetForceIsZero | src/simulation.rs:506-560 | Newton's third law over the whole pass: the accumulated forces sum to zero on both axes. |
| Forces.ApplyForces | src/simulation.rs:562-564 | Each particle changes only its velocity. For a nonzero mass, mass·Δv is its accumulated force. |
| Nuclei.GatherStepKeeps | src/simulation.rs:585-606 | One inner iteration:<br>- keeps the nucleus well formed;<br>- keeps the used set equal to the protons and neutrons listed so far;<br>- only grows the used set. |
| Nuclei.GatherKeeps | src/simulation.rs:585-606 | The whole inner loop keeps that invariant. |
| Nuclei.AnchorKeeps | src/simulation.rs:572-611 | Gathering a fresh anchor keeps the outer loop's invariant. |
| Nuclei.SkipKeeps | src/simulation.rs:573-575 | Skipping a used particle or a non-proton keeps the outer loop's invariant. |
| Nuclei.ScanKeeps | src/simulation.rs:572-611 | The outer loop ends in a partition. |
| Nuclei.NucleiPartition | src/simulation.rs:567-614 | Every proton is in exactly one nucleus, and no neutron is in more than one. Each nucleus is anchored at a proton, with every member within 100 of the anchor. Anchors ascend. |
| Nuclei.Gather | src/simulation.rs:585-606 | The inner loop of `detect_nuclei`. Its invariant is stated by `Nuclei.GatherKeeps`. |
| Nuclei.Scan | src/simulation.rs:572-611 | The outer loop of `detect_nuclei`. Its invariant is stated by `Nuclei.ScanKeeps`. |
| Nuclei.NucleiOf | src/simulation.rs:567-614 | `detect_nuclei` as a function. That its result partitions the protons is stated by `Nuclei.NucleiPartition`. |
| Simulations.MassFor | src/simulation.rs:33-36 | Electrons get `electron_mass`; protons and neutrons get `nuclear_mass`. |
| Simulations.DampingFor | src/simulation.rs:334-338 | Electrons use `electron_damping`; the others use `nuclear_damping`. |
| Simulations.RingMember | src/simulation.rs:77-90 | A ring member has the given kind and that kind's mass, and is at rest with no host. |
| Simulations.Ring | src/simulation.rs:77-90 | A ring of `count` particles holds exactly the ring members, in order. |
| Simulations.ElectronInSlot | src/simulation.rs:95-117 | The placed electron holds its slot and the given host, with electron mass, at rest. |
| Simulations.NucleusElectron | src/simulation.rs:93-118 | Electron k exists exactly when k < 70. It holds slot k of the table and the given host. |
| Simulations.NucleusElectronsStep | src/simulation.rs:93-119 | One iteration of the electron loop appends electron k exactly when the table has slot k. |
| Simulations.NucleusElectronsShape | src/simulation.rs:93-119 | min(e, 70) electrons are pushed. Electron k holds slot k and the given host. |
| Simulations.NucleusBatchShape | src/simulation.rs:62-120 | The batch is `protons` free protons, then `neutrons` free neutrons, then min(electrons, 70) electrons. Electron k holds slot k, and orbits the first new proton when there is one. |
| Simulations.NucleusBatchValid | src/simulation.rs:62-120 | Appending a nucleus keeps every orbit reference valid. |
| Simulations.MoveAll | src/simulation.rs:330-340 | Each particle moves with the damping of its kind. |
| Simulations.Step | src/simulation.rs:321-341 | One frame keeps the number of particles. |
| Simulations.StepKeepsHosts | src/simulation.rs:321-341 | A frame keeps hosts valid and keeps every kind. An orbiting electron keeps its host and its slot. |
| Simulations.StepStaysOnCanvas | src/simulation.rs:321-341 | After a frame, every particle that fits the canvas lies inside it. |
| Simulations.StepKeepsOrbit | src/simulation.rs:321-341 | One frame keeps a given orbiting electron's host and slot. |
| Simulations.CapturesKeep1 | src/simulation.rs:348-420 | The capture pass never changes a radius, whatever the state of the references. |
| Simulations.CaptureFromBodies | src/simulation.rs:348-420 | The capture pass changes only orbit fields, whatever the state of the references. |
| Simulations.IterateKeeps | src/lib.rs:29-31 | A property that every frame keeps holds after any number of frames. |
| Simulations.CapturedStaysCaptured | src/simulation.rs:321-341 | Once captured, an electron keeps its nucleus and its slot for every later frame. |
| Simulations.Simulation.constructor | src/simulation.rs:22-30 | The simulation starts empty, with default parameters and the clock at 0. |
| Simulations.Simulation.AddParticle | src/simulation.rs:32-38 | Exactly one free particle at rest, with the mass of its kind, is appended. |
| Simulations.Simulation.AddParticleWithVelocity | src/simulation.rs:40-49 | The same, with the given velocity. |
| Simulations.Simulation.AddNucleus | src/simulation.rs:51-60 | The same batch as `add_nucleus_with_charge` is appended, and earlier particles are unchanged. |
| Simulations.Simulation.AddNucleusWithCharge | src/simulation.rs:62-120 | Exactly `NucleusBatch` is appended, whatever the charge. Earlier particles are unchanged, and `Valid` is kept. |
| Simulations.Simulation.AddRing | src/simulation.rs:77-90 | A nucleon loop appends exactly the ring. |
| Simulations.Simulation.AddNucleusElectrons | src/simulation.rs:93-119 | The electron loop appends exactly the table's electrons. |
| Simulations.Simulation.PlaceElectron | src/simulation.rs:95-117 | The loop body builds the electron in its slot. |
| Simulations.Simulation.Clear | src/simulation.rs:122-124 | All particles are removed. |
| Simulations.Simulation.Update | src/simulation.rs:321-341 | The clock advances by 0.05, the particles become one `Step` of the old ones, and `Valid` is kept. |
| Simulations.Simulation.MoveParticles | src/simulation.rs:330-340 | The last loop of `update` computes `MoveAll`. |
| Simulations.Simulation.CalculateForces | src/simulation.rs:506-565 | Each velocity receives the particle's accumulated force over its mass. |
| Simulations.Simulation.AccumulateForces | src/simulation.rs:508-560 | The pair loops compute `NetForces`. |
| Simulations.Simulation.PairForceOf | src/simulation.rs:512-553 | The loop body computes the pair force. |
| Simulations.Simulation.CountOrbiting | src/simulation.rs:409-411 | The filter counts the electrons orbiting the proton. |
| Simulations.Simulation.CapturePair | src/simulation.rs:363-418 | One capture iteration computes `PairStep`. |
| Simulations.Simulation.HandleFusionsAndOrbits | src/simulation.rs:343-433 | The capture pass, then the orbit pass. `Valid` is kept. |
| Simulations.Simulation.CaptureAllPairs | src/simulation.rs:348-420 | The pair loops compute `Captures`. |
| Simulations.Simulation.CaptureRow | src/simulation.rs:358-419 | One row of the capture loop. |
| Simulations.Simulation.ApplyOrbitalMechanics | src/simulation.rs:435-504 | Buffering and writing back compute `OrbitalOverride`. |
| Simulations.Simulation.CollectOrbitUpdates | src/simulation.rs:439-493 | The first loop buffers one update per particle that has a target, in index order. |
| Simulations.Simulation.OrbitTarget | src/simulation.rs:440-492 | The body of that loop computes the particle's target. |
| Simulations.Simulation.WriteOrbitUpdates | src/simulation.rs:496-503 | The second loop writes the buffer back in order. |
| Simulations.Simulation.DetectNuclei | src/simulation.rs:567-614 | It changes nothing, returns `NucleiOf`, and the result is a partition as in `NucleiPartition`. |
| Engine.DecodeType | src/lib.rs:40-45 | 0 decodes to a proton, 1 to a neutron, and 2 or any other code to an electron (both directions). |
| Engine.TypeCode | src/lib.rs:157-161 | The emitted code is at most 2 and decodes back to the kind. |
| Engine.TypeCodeRoundTrip | src/lib.rs:51-56 | Encoding after decoding is the identity on codes 0, 1 and 2. |
| Engine.NatToString | src/lib.rs:177-182 | A count prints as non-empty decimal digits with no leading zero. |
| Engine.NatToStringRoundTrip | src/lib.rs:177-182 | Reading a printed count back gives the count. |
| Engine.DigitsRoundTrip | src/lib.rs:177-182 | Every digit string without a leading zero is the printed form of its value. |
| Engine.JoinStep | src/lib.rs:173-182 | One iteration of the loop adds a comma (except before the first record) and the record. |
| Engine.NucleiJson | src/lib.rs:170-186 | The text is bracketed, and no nuclei gives `[]`. |
| Engine.RecordBraces | src/lib.rs:177-182 | A record opens and closes exactly one object. |
| Engine.NucleusRecord | src/lib.rs:177-182 | One nucleus's JSON object. Its braces are stated by `Engine.RecordBraces`. |
| Engine.JoinRecords | src/lib.rs:172-184 | The comma-joined records. Their braces are stated by `Engine.JoinedObjects`. |
| Engine.JoinedObjects | src/lib.rs:172-184 | The joined records hold one `{` and one `}` per nucleus. |
| Engine.NucleiJsonObjects | src/lib.rs:170-186 | The nuclei text holds exactly as many `{` and `}` as there are nuclei. |
| Engine.ParticleData | src/lib.rs:151-167 | The text is empty exactly when the index is out of range, and otherwise a braced record. |
| Engine.WriteNuclei | src/lib.rs:172-185 | The loop builds exactly `NucleiJson`, with one `{` and one `}` per nucleus. |
| Engine.SimulationEngine.constructor | src/lib.rs:21-26 | A fresh, empty simulation with default parameters. |
| Engine.SimulationEngine.Update | src/lib.rs:29-31 | One frame of the simulation. |
| Engine.SimulationEngine.AddParticle | src/lib.rs:39-47 | The code is decoded and a free particle of that kind is appended. |
| Engine.SimulationEngine.AddParticleWithVelocity | src/lib.rs:50-58 | The same, with the given velocity. |
| Engine.SimulationEngine.AddNucleus | src/lib.rs:61-63 | It delegates to the charge-0 nucleus batch. |
| Engine.SimulationEngine.AddIon | src/lib.rs:66-68 | It forwards the charge, and the batch equals the neutral one. |
| Engine.SimulationEngine.Clear | src/lib.rs:71-73 | All particles are removed. |
| Engine.SimulationEngine.SetNuclearForce | src/lib.rs:76-78 | Exactly `nuclear_force` changes. |
| Engine.SimulationEngine.SetNuclearRange | src/lib.rs:81-83 | Exactly `nuclear_range` changes. |
| Engine.SimulationEngine.SetNuclearAttractive | src/lib.rs:86-88 | Exactly `nuclear_attractive` changes. |
| Engine.SimulationEngine.SetNuclearDamping | src/lib.rs:91-93 | Exactly `nuclear_damping` changes. |
| Engine.SimulationEngine.SetProtonRepulsion | src/lib.rs:96-98 | Exactly `proton_repulsion` changes. |
| Engine.SimulationEngine.SetCoulombForce | src/lib.rs:101-103 | Exactly `coulomb_force` changes. |
| Engine.SimulationEngine.SetOrbitalSpeed | src/lib.rs:106-108 | Exactly `orbital_speed` changes. |
| Engine.SimulationEngine.SetOrbitalRadius | src/lib.rs:111-113 | Exactly `orbital_radius` changes. |
| Engine.SimulationEngine.SetMinOrbitalRadius | src/lib.rs:116-118 | Exactly `min_orbital_radius` changes. |
| Engine.SimulationEngine.SetMaxOrbitalRadius | src/lib.rs:121-123 | Exactly `max_orbital_radius` changes. |
| Engine.SimulationEngine.SetElectronRepulsion | src/lib.rs:126-128 | Exactly `electron_repulsion` changes. |
| Engine.SimulationEngine.SetNuclearMass | src/lib.rs:131-133 | Exactly `nuclear_mass` changes. |
| Engine.SimulationEngine.SetElectronMass | src/lib.rs:136-138 | Exactly `electron_mass` changes. |
| Engine.SimulationEngine.SetElectronDamping | src/lib.rs:141-143 | Exactly `electron_damping` changes. |
| Engine.SimulationEngine.GetParticleCount | src/lib.rs:146-148 | The number of particles. |
| Engine.SimulationEngine.GetParticleData | src/lib.rs:151-167 | The record of the particle, empty exactly when the index is out of range. |
| Engine.SimulationEngine.GetNucleiData | src/lib.rs:170-186 | The JSON of the detected nuclei, with one object per nucleus. |
| TsParticles.OrDefault | src/models/Particle.ts:42-44 | `given \|\| fallback`: an absent value and a zero both give the fallback. |
| TsParticles.InitialRadius | src/models/Particle.ts:42 | The radius is never 0. It defaults to 10 for an electron and 20 otherwise; a given nonzero value is kept. |
| TsParticles.InitialCharge | src/models/Particle.ts:43 | The charge is 0 exactly for a neutron without a nonzero charge. It defaults to +1 for a proton and −1 for an electron. |
| TsParticles.InitialMass | src/models/Particle.ts:44 | The mass is never 0. It defaults to 0.0005 for an electron and 3 otherwise. |
| TsParticles.ClampLaws | src/models/Particle.ts:50-66 | A particle that fits ends the wall test between the walls. An inside particle is untouched. A particle past a wall is put against it, with velocity ×(−0.9). |
| TsParticles.Clamp | src/models/Particle.ts:50-66 | The wall test of one axis, stated by `TsParticles.ClampLaws`. |
| TsParticles.Axis | src/models/Particle.ts:49-75 | One axis of `update`, stated by `TsParticles.AxisLaws`. |
| TsParticles.AxisLaws | src/models/Particle.ts:49-75 | The move happens after the clamp. With no wall hit the particle moves by dx, then dx·damping. Past a wall it moves from the wall by −0.9·dx. The move starts between the walls. |
| TsParticles.Particle.constructor | src/models/Particle.ts:27-47 | The fields take the given values, or the kind's defaults through `\|\|`. |
| TsParticles.Particle.Update | src/models/Particle.ts:49-75 | Each axis becomes `Axis` of its old position and velocity. Nothing else changes. |
| TsPhysics.InverseSquare | simulacion-atomica/src/utils/physicsUtils.ts:22 | Coulomb's law with a positive numerator is positive. |
| TsPhysics.TotalForce | simulacion-atomica/src/utils/physicsUtils.ts:18-45 | The force is:<br>- positive for proton/proton, proton/electron and electron/electron pairs;<br>- 0 for neutron/neutron and neutron/electron pairs;<br>- 0 for a proton/neutron pair at or beyond the range;<br>- negative for a proton/neutron pair within the range. |
| TsPhysics.TotalForceSymmetric | simulacion-atomica/src/utils/physicsUtils.ts:20-45 | The force does not depend on the order of the two kinds. |
| TsPhysics.Separation | simulacion-atomica/src/utils/physicsUtils.ts:12-13 | Coincident particles have zero separation. |
| TsPhysics.LengthOfReversed | simulacion-atomica/src/utils/physicsUtils.ts:14 | Reversing a separation keeps its length. |
| TsPhysics.Recoil | simulacion-atomica/src/utils/physicsUtils.ts:52-53 | Only the velocity changes, and the momentum drops by the force. |
| TsPhysics.Thrust | simulacion-atomica/src/utils/physicsUtils.ts:54-55 | Only the velocity changes, and the momentum rises by the force. |
| TsPhysics.Kick | simulacion-atomica/src/utils/physicsUtils.ts:47-56 | Only bodies i and j change, and only in their velocities. |
| TsPhysics.Row | simulacion-atomica/src/utils/physicsUtils.ts:11-57 | Positions, kinds and masses are unchanged. |
| TsPhysics.Rows | simulacion-atomica/src/utils/physicsUtils.ts:10-58 | Positions, kinds and masses are unchanged. |
| TsPhysics.TsForces | simulacion-atomica/src/utils/physicsUtils.ts:9-61 | Positions, kinds and masses are unchanged. |
| TsPhysics.KickMomentum | simulacion-atomica/src/utils/physicsUtils.ts:47-56 | A pair's update keeps the total momentum. |
| TsPhysics.RowMomentum | simulacion-atomica/src/utils/physicsUtils.ts:11-57 | A row keeps the total momentum. |
| TsPhysics.RowsMomentum | simulacion-atomica/src/utils/physicsUtils.ts:10-58 | The remaining rows keep the total momentum. |
| TsPhysics.TsForcesMomentum | simulacion-atomica/src/utils/physicsUtils.ts:9-61 | The pass conserves Σ mass·dx and Σ mass·dy. |
| TsPhysics.InertPairs | simulacion-atomica/src/utils/physicsUtils.ts:20-47 | Neutron/neutron and neutron/electron pairs are skipped. |
| TsPhysics.CoincidentPairs | simulacion-atomica/src/utils/physicsUtils.ts:16 | A pair at zero distance is skipped. |
| TsPhysics.PairPushAntisymmetric | simulacion-atomica/src/utils/physicsUtils.ts:12-50 | Seen from the other body, the pair's force is the opposite one. |
| TsPhysics.KickSymmetric | simulacion-atomica/src/utils/physicsUtils.ts:47-56 | A pair's effect does not depend on which body is visited first. |
| TsPhysics.ThrustAlong | simulacion-atomica/src/utils/physicsUtils.ts:52-55 | Along the separation, the velocity change is ±(mag/mass)·\|s\|². |
| TsPhysics.PushSign | simulacion-atomica/src/utils/physicsUtils.ts:52-55 | A positive push moves j away and i back along s. A negative push does the reverse. |
| TsPhysics.PushMagnitude | simulacion-atomica/src/utils/physicsUtils.ts:18-50 | The push is `mag`·s, with mag > 0 for charged pairs and mag < 0 for proton/neutron pairs. |
| TsPhysics.PushDirection | simulacion-atomica/src/utils/physicsUtils.ts:20-56 | Charged pairs are pushed apart along the separation. Proton/neutron pairs within range are pulled together. |
| TsPhysics.PairDirection | simulacion-atomica/src/utils/physicsUtils.ts:47-56 | The same, stated on one iteration of the inner loop. |
| TsPhysics.Bodies | simulacion-atomica/src/utils/physicsUtils.ts:9 | The snapshot lists the array's particles in order. Nonzero masses carry over. |
| TsPhysics.ApplyPair | simulacion-atomica/src/utils/physicsUtils.ts:47-56 | In place, the two objects take `Kick`. |
| TsPhysics.ApplyRow | simulacion-atomica/src/utils/physicsUtils.ts:11-57 | In place, the array takes `Row`. |
| TsPhysics.CalculateForces | simulacion-atomica/src/utils/physicsUtils.ts:9-61 | It returns the same array, and its particles take `TsForces` of their old snapshot. |

## Left out

**Rendering and I/O.** Not modelled:

- `render`, the `draw_*` helpers and the element symbol and colour tables in `src/simulation.rs`;
- the panic hook;
- the page, the animation loop and the drawing code of the front ends.

**Platform mathematics.** `sqrt`, `sin`, `cos`, `atan2` and `exp` are uninterpreted. Only the laws named in the lemmas are assumed of them, as requirements. Floating-point rounding, infinities and NaN have no counterpart in `real`.

**Decimal formatting of `f64`.** In `get_particle_data` this formatting is a function supplied to the engine (`formatReal`). Counts (`usize`) are printed by the model itself.

**The shell table's size.** The code's table ends after 4f, at 70 electrons. Consequently:

- `add_nucleus_with_charge` silently drops electrons from ordinal 70 on;
- a capture that finds the table exhausted leaves the electron free.

**Neutron hosts.** A neutron's host is overwritten by every later in-range proton pair of the capture loop, so it ends the pass attached to the last such proton.

**`to_remove`.** It is never filled in `handle_fusions_and_orbits`, so the removal loop at its end is a no-op. It is not modelled. The pass is proved to keep the number of particles.

**`charge` in `add_nucleus_with_charge`.** The argument is accepted and has no effect. The model states this: the batch does not depend on it.

**`energy_level`** is a tunable that nothing reads or writes after construction. It is carried but never used.

**Physics.ApplyForce:** a zero mass (which Rust would turn into an infinite or NaN velocity) is modelled as no change, through `DivByMass`. Every contract about a mass's effect assumes the mass is nonzero.

**Loop bodies as methods.** Several of the source's loop bodies are separate methods here:

- the ring loops;
- the electron loop;
- the capture row;
- the force pair;
- the orbit target.

The loops keep their order and their effect.

**TsParticles.Particle.constructor:** the random default velocity is not modelled. The velocity is always given. The fields that `Particle.ts` never reassigns after construction (`type`, `orbitalType`, `radius`, `charge`, `mass`) are constant fields.

**TsPhysics.CalculateForces:**

- It requires that no particle object appears twice in the array (`Distinct`). An array holding the same object twice would make a pair alias itself, and that case is not modelled.
- It requires that every mass is nonzero (`Massive`). The constructor guarantees this, because a zero or absent mass falls back to a nonzero default.

**Proton–electron force in the TypeScript front end.** As written, it is the negated product of opposite charges, scaled by 500. That is positive, so a proton and an electron are pushed apart, like two protons. The model follows the code, and `TsPhysics.PushDirection` states the repulsion.
