/**
 * The host-facing wrapper of the Rust engine (src/lib.rs): `SimulationEngine`
 * owns one `Simulation` and exposes it to the page. It decodes the page's
 * integer particle-type codes, forwards the add and clear operations, assigns
 * one tunable per setter, and serialises particles and detected nuclei as
 * JSON text.
 *
 * The decimal formatting of `f64` values is not modelled: it is a function
 * supplied to the engine. The decimal formatting of counts (`usize`) is.
 */
module Engine {
  import opened Particles
  import opened Physics
  import opened Nuclei
  import opened Simulations

  /** The page's particle-type code: 0, 1 and 2 name a kind, and every other code means an electron. */
  function DecodeType(code: nat): (t: ParticleType)
    ensures t == Proton <==> code == 0
    ensures t == Neutron <==> code == 1
    ensures t == Electron <==> code >= 2
  {
    match code
    case 0 => Proton
    case 1 => Neutron
    case 2 => Electron
    case _ => Electron
  }

  /** The code `get_particle_data` writes for a kind; decoding it gives the kind back. */
  function TypeCode(t: ParticleType): (code: nat)
    ensures code <= 2
    ensures DecodeType(code) == t
  {
    match t
    case Proton => 0
    case Neutron => 1
    case Electron => 2
  }

  /** Encoding after decoding is the identity on the three codes that name a kind. */
  lemma TypeCodeRoundTrip(code: nat)
    requires code <= 2
    ensures TypeCode(DecodeType(code)) == code
  {
  }

  // Decimal text of a count

  predicate IsDigit(c: char) {
    '0' <= c <= '9'
  }

  predicate AllDigits(s: string) {
    forall k :: 0 <= k < |s| ==> IsDigit(s[k])
  }

  function DigitChar(d: nat): (c: char)
    requires d < 10
    ensures IsDigit(c) && c as int - '0' as int == d
  {
    ('0' as int + d) as char
  }

  /** The decimal text Rust's `{}` prints for a `usize`: no sign and no leading zero. */
  function NatToString(n: nat): (s: string)
    ensures |s| > 0 && AllDigits(s)
    ensures |s| > 1 ==> s[0] != '0'
    decreases n
  {
    if n < 10 then [DigitChar(n)] else NatToString(n / 10) + [DigitChar(n % 10)]
  }

  /** The number a string of decimal digits denotes. */
  function DigitsValue(s: string): nat
    requires AllDigits(s)
  {
    if s == [] then 0 else DigitsValue(s[..|s| - 1]) * 10 + (s[|s| - 1] as int - '0' as int)
  }

  /** Reading back the text of a count gives the count. */
  lemma {:induction false} NatToStringRoundTrip(n: nat)
    ensures DigitsValue(NatToString(n)) == n
    decreases n
  {
    var s := NatToString(n);
    if n >= 10 {
      NatToStringRoundTrip(n / 10);
      assert s[..|s| - 1] == NatToString(n / 10);
    }
  }

  /** A digit string with a nonzero first digit denotes a positive number. */
  lemma {:induction false} LeadingDigitPositive(s: string)
    requires |s| > 0 && AllDigits(s) && s[0] != '0'
    ensures DigitsValue(s) > 0
    decreases |s|
  {
    if |s| > 1 {
      LeadingDigitPositive(s[..|s| - 1]);
    }
  }

  /** Every digit string without a leading zero is the text of its value: the printed form is canonical. */
  lemma {:induction false} DigitsRoundTrip(s: string)
    requires |s| > 0 && AllDigits(s) && (|s| > 1 ==> s[0] != '0')
    ensures NatToString(DigitsValue(s)) == s
    decreases |s|
  {
    if |s| > 1 {
      var init := s[..|s| - 1];
      var d := s[|s| - 1] as int - '0' as int;
      LeadingDigitPositive(init);
      DigitsRoundTrip(init);
      var v := DigitsValue(s);
      assert v == DigitsValue(init) * 10 + d;
      assert v / 10 == DigitsValue(init) && v % 10 == d;
      assert DigitChar(d) == s[|s| - 1];
      assert s == init + [s[|s| - 1]];
    }
  }

  // JSON records

  /** The three member counts of a nucleus, as the keys and values of a JSON object. */
  function RecordFields(nuc: Nucleus): string {
    "\"protons\":" + NatToString(|nuc.protons|)
      + ",\"neutrons\":" + NatToString(|nuc.neutrons|)
      + ",\"electrons\":" + NatToString(|nuc.electrons|)
  }

  /** The record `get_nuclei_data` writes for one nucleus. */
  function NucleusRecord(nuc: Nucleus): string {
    "{" + RecordFields(nuc) + "}"
  }

  /** The records of a list of nuclei, in order, separated by commas. */
  function JoinRecords(ns: seq<Nucleus>): string {
    if |ns| == 0 then ""
    else if |ns| == 1 then NucleusRecord(ns[0])
    else JoinRecords(ns[..|ns| - 1]) + "," + NucleusRecord(ns[|ns| - 1])
  }

  /** Joining one more record appends a comma (unless it is the first) and the record. */
  lemma JoinStep(ns: seq<Nucleus>, i: nat)
    requires i < |ns|
    ensures "[" + JoinRecords(ns[..i + 1]) == "[" + JoinRecords(ns[..i]) + (if i > 0 then "," else "") + NucleusRecord(ns[i])
  {
    assert ns[..i + 1][..i] == ns[..i];
  }

  /** The whole text `get_nuclei_data` returns. */
  function NucleiJson(ns: seq<Nucleus>): (s: string)
    ensures |s| >= 2 && s[0] == '[' && s[|s| - 1] == ']'
    ensures ns == [] ==> s == "[]"
  {
    "[" + JoinRecords(ns) + "]"
  }

  /** Occurrences of c in a joined text are the occurrences in its parts. */
  lemma CountAppend(a: string, b: string, c: char)
    ensures multiset(a + b)[c] == multiset(a)[c] + multiset(b)[c]
  {
  }

  lemma Absent(s: string, c: char)
    requires c !in s
    ensures multiset(s)[c] == 0
  {
  }

  /** The counts and keys of a record hold no brace. */
  lemma FieldsNoBrace(nuc: Nucleus, c: char)
    requires c == '{' || c == '}'
    ensures c !in RecordFields(nuc)
  {
    var p, n, e := NatToString(|nuc.protons|), NatToString(|nuc.neutrons|), NatToString(|nuc.electrons|);
    assert c !in p && c !in n && c !in e;
    assert c !in "\"protons\":" && c !in ",\"neutrons\":" && c !in ",\"electrons\":";
  }

  /** Each record opens and closes exactly one object. */
  lemma RecordBraces(nuc: Nucleus, c: char)
    requires c == '{' || c == '}'
    ensures multiset(NucleusRecord(nuc))[c] == 1
  {
    var fields := RecordFields(nuc);
    FieldsNoBrace(nuc, c);
    Absent(fields, c);
    CountAppend("{", fields, c);
    CountAppend("{" + fields, "}", c);
  }

  /** The joined records hold one `{` and one `}` per nucleus. */
  lemma {:induction false} JoinedObjects(ns: seq<Nucleus>, c: char)
    requires c == '{' || c == '}'
    ensures multiset(JoinRecords(ns))[c] == |ns|
    decreases |ns|
  {
    if |ns| > 1 {
      var init := JoinRecords(ns[..|ns| - 1]);
      JoinedObjects(ns[..|ns| - 1], c);
      RecordBraces(ns[|ns| - 1], c);
      CountAppend(init, ",", c);
      CountAppend(init + ",", NucleusRecord(ns[|ns| - 1]), c);
    } else if |ns| == 1 {
      RecordBraces(ns[0], c);
    }
  }

  /** The nuclei text holds one object per nucleus: as many `{` and `}` as there are nuclei. */
  lemma NucleiJsonObjects(ns: seq<Nucleus>)
    ensures multiset(NucleiJson(ns))['{'] == |ns|
    ensures multiset(NucleiJson(ns))['}'] == |ns|
  {
    JoinedObjects(ns, '{');
    JoinedObjects(ns, '}');
    CountAppend("[", JoinRecords(ns), '{');
    CountAppend("[" + JoinRecords(ns), "]", '{');
    CountAppend("[", JoinRecords(ns), '}');
    CountAppend("[" + JoinRecords(ns), "]", '}');
  }

  /**
   * The record `get_particle_data` writes for particle `index`, or the empty
   * text when there is none. `fmt` is the decimal formatting of an `f64`.
   */
  function ParticleData(fmt: real -> string, ps: seq<Particle>, index: nat): (s: string)
    ensures s == "" <==> index >= |ps|
    ensures index < |ps| ==> s[0] == '{' && s[|s| - 1] == '}'
  {
    if index < |ps| then
      var p := ps[index];
      "{\"x\":" + fmt(p.x) + ",\"y\":" + fmt(p.y)
        + ",\"type\":" + NatToString(TypeCode(p.ptype))
        + ",\"radius\":" + fmt(p.radius) + "}"
    else ""
  }

  /** `SimulationEngine`: the simulation the page drives. */
  class SimulationEngine {
    const simulation: Simulation
    /** Decimal formatting of an `f64`, as the host prints it. */
    const formatReal: real -> string

    ghost predicate Valid()
      reads this, simulation
    {
      simulation.Valid()
    }

    /** `SimulationEngine::new`: a fresh, empty simulation of the given canvas size. */
    constructor(canvasWidth: real, canvasHeight: real, math: MathOps, formatReal: real -> string)
      ensures Valid() && fresh(simulation)
      ensures simulation.particles == [] && simulation.params == DefaultParams() && simulation.timeStep == 0.0
      ensures simulation.canvasWidth == canvasWidth && simulation.canvasHeight == canvasHeight
      ensures this.formatReal == formatReal
    {
      simulation := new Simulation(canvasWidth, canvasHeight, math);
      this.formatReal := formatReal;
    }

    /** `update`: one frame of the simulation. */
    method Update()
      modifies simulation`particles, simulation`timeStep
      requires Valid()
      ensures Valid()
      ensures simulation.timeStep == old(simulation.timeStep) + 0.05
      ensures simulation.particles ==
              Step(simulation.math, simulation.params, simulation.canvasWidth, simulation.canvasHeight,
                   simulation.timeStep, old(simulation.particles))
    {
      simulation.Update();
    }

    /** `add_particle`: the code is decoded, then a free particle at rest is appended. */
    method AddParticle(x: real, y: real, particleType: nat)
      modifies simulation`particles
      requires Valid()
      ensures Valid()
      ensures simulation.particles == old(simulation.particles) +
              [NewParticle(x, y, DecodeType(particleType), MassFor(DecodeType(particleType), simulation.params))]
    {
      var ptype := DecodeType(particleType);
      simulation.AddParticle(x, y, ptype);
    }

    /** `add_particle_with_velocity`: the code is decoded, then a free particle with that velocity is appended. */
    method AddParticleWithVelocity(x: real, y: real, particleType: nat, dx: real, dy: real)
      modifies simulation`particles
      requires Valid()
      ensures Valid()
      ensures simulation.particles == old(simulation.particles) +
              [NewParticle(x, y, DecodeType(particleType), MassFor(DecodeType(particleType), simulation.params)).(dx := dx, dy := dy)]
    {
      var ptype := DecodeType(particleType);
      simulation.AddParticleWithVelocity(x, y, ptype, dx, dy);
    }

    /** `add_nucleus`: a neutral nucleus, through `add_nucleus_with_charge` with charge 0. */
    method AddNucleus(x: real, y: real, protons: nat, neutrons: nat, electrons: nat)
      modifies simulation`particles
      requires Valid()
      ensures Valid()
      ensures simulation.particles == old(simulation.particles) +
              NucleusBatch(simulation.math, |old(simulation.particles)|, x, y, protons, neutrons, electrons, simulation.params)
    {
      simulation.AddNucleus(x, y, protons, neutrons, electrons);
    }

    /** `add_ion`: the charge is passed on, and the batch is the same as for a neutral nucleus. */
    method AddIon(x: real, y: real, protons: nat, neutrons: nat, electrons: nat, charge: int)
      modifies simulation`particles
      requires Valid()
      ensures Valid()
      ensures simulation.particles == old(simulation.particles) +
              NucleusBatch(simulation.math, |old(simulation.particles)|, x, y, protons, neutrons, electrons, simulation.params)
    {
      simulation.AddNucleusWithCharge(x, y, protons, neutrons, electrons, charge);
    }

    /** `clear`: every particle is removed; parameters and clock stay. */
    method Clear()
      modifies simulation`particles
      ensures Valid()
      ensures simulation.particles == []
    {
      simulation.Clear();
    }

    // The setters: each assigns one tunable and nothing else.

    method SetNuclearForce(force: real)
      modifies simulation`params
      ensures simulation.params == old(simulation.params).(nuclearForce := force)
    {
      simulation.params := simulation.params.(nuclearForce := force);
    }

    method SetNuclearRange(range: real)
      modifies simulation`params
      ensures simulation.params == old(simulation.params).(nuclearRange := range)
    {
      simulation.params := simulation.params.(nuclearRange := range);
    }

    method SetNuclearAttractive(force: real)
      modifies simulation`params
      ensures simulation.params == old(simulation.params).(nuclearAttractive := force)
    {
      simulation.params := simulation.params.(nuclearAttractive := force);
    }

    method SetNuclearDamping(damping: real)
      modifies simulation`params
      ensures simulation.params == old(simulation.params).(nuclearDamping := damping)
    {
      simulation.params := simulation.params.(nuclearDamping := damping);
    }

    method SetProtonRepulsion(repulsion: real)
      modifies simulation`params
      ensures simulation.params == old(simulation.params).(protonRepulsion := repulsion)
    {
      simulation.params := simulation.params.(protonRepulsion := repulsion);
    }

    method SetCoulombForce(force: real)
      modifies simulation`params
      ensures simulation.params == old(simulation.params).(coulombForce := force)
    {
      simulation.params := simulation.params.(coulombForce := force);
    }

    method SetOrbitalSpeed(speed: real)
      modifies simulation`params
      ensures simulation.params == old(simulation.params).(orbitalSpeed := speed)
    {
      simulation.params := simulation.params.(orbitalSpeed := speed);
    }

    method SetOrbitalRadius(radius: real)
      modifies simulation`params
      ensures simulation.params == old(simulation.params).(orbitalRadius := radius)
    {
      simulation.params := simulation.params.(orbitalRadius := radius);
    }

    method SetMinOrbitalRadius(radius: real)
      modifies simulation`params
      ensures simulation.params == old(simulation.params).(minOrbitalRadius := radius)
    {
      simulation.params := simulation.params.(minOrbitalRadius := radius);
    }

    method SetMaxOrbitalRadius(radius: real)
      modifies simulation`params
      ensures simulation.params == old(simulation.params).(maxOrbitalRadius := radius)
    {
      simulation.params := simulation.params.(maxOrbitalRadius := radius);
    }

    method SetElectronRepulsion(repulsion: real)
      modifies simulation`params
      ensures simulation.params == old(simulation.params).(electronRepulsion := repulsion)
    {
      simulation.params := simulation.params.(electronRepulsion := repulsion);
    }

    method SetNuclearMass(mass: real)
      modifies simulation`params
      ensures simulation.params == old(simulation.params).(nuclearMass := mass)
    {
      simulation.params := simulation.params.(nuclearMass := mass);
    }

    method SetElectronMass(mass: real)
      modifies simulation`params
      ensures simulation.params == old(simulation.params).(electronMass := mass)
    {
      simulation.params := simulation.params.(electronMass := mass);
    }

    method SetElectronDamping(damping: real)
      modifies simulation`params
      ensures simulation.params == old(simulation.params).(electronDamping := damping)
    {
      simulation.params := simulation.params.(electronDamping := damping);
    }

    /** `get_particle_count`. */
    method GetParticleCount() returns (count: nat)
      ensures count == |simulation.particles|
    {
      count := |simulation.particles|;
    }

    /** `get_particle_data`: the record of particle `index`, empty exactly when there is no such particle. */
    method GetParticleData(index: nat) returns (data: string)
      ensures data == ParticleData(formatReal, simulation.particles, index)
      ensures data == "" <==> index >= |simulation.particles|
    {
      if index < |simulation.particles| {
        var particle := simulation.particles[index];
        data := "{\"x\":" + formatReal(particle.x) + ",\"y\":" + formatReal(particle.y)
          + ",\"type\":" + NatToString(TypeCode(particle.ptype))
          + ",\"radius\":" + formatReal(particle.radius) + "}";
      } else {
        data := "";
      }
    }

    /** `get_nuclei_data`: one record per detected nucleus, in order, inside brackets. */
    method GetNucleiData() returns (json: string)
      ensures json == NucleiJson(NucleiOf(simulation.math, simulation.particles))
      ensures multiset(json)['{'] == |NucleiOf(simulation.math, simulation.particles)|
    {
      var nuclei := simulation.DetectNuclei();
      json := WriteNuclei(nuclei);
    }
  }

  /** The loop of `get_nuclei_data` that writes the detected nuclei out as a JSON array. */
  method WriteNuclei(nuclei: seq<Nucleus>) returns (json: string)
    ensures json == NucleiJson(nuclei)
    ensures multiset(json)['{'] == |nuclei| && multiset(json)['}'] == |nuclei|
  {
    json := "[";
    var i := 0;
    while i < |nuclei|
      invariant i <= |nuclei|
      invariant json == "[" + JoinRecords(nuclei[..i])
    {
      JoinStep(nuclei, i);
      if i > 0 {
        json := json + ",";
      }
      json := json + NucleusRecord(nuclei[i]);
      i := i + 1;
    }
    json := json + "]";
    assert nuclei[..i] == nuclei;
    NucleiJsonObjects(nuclei);
  }
}
