/**
 * The shell-assignment table of the engine (src/simulation.rs): which
 * subshell, level, orbital and position the n-th electron of an atom takes,
 * the per-subshell orbital counts and capacities, orbital orientations, the
 * base radius of each subshell and the motion of an electron in its slot.
 */
module Shells {
  import opened Wrappers
  import opened Particles

  /** `std::f64::consts::PI`, written out. */
  const PI: real := 3.141592653589793

  /** `get_orbitals_count`: s, p, d and f hold 1, 3, 5 and 7 orbitals; any other letter counts as one. */
  function OrbitalsCount(subshell: char): (r: nat)
    ensures 1 <= r <= 7 && r % 2 == 1
  {
    match subshell
    case 's' => 1
    case 'p' => 3
    case 'd' => 5
    case 'f' => 7
    case _ => 1
  }

  /** `get_max_electrons_sublevel`: each orbital holds two electrons. */
  function MaxElectronsSublevel(subshell: char): (r: nat)
    ensures r == 2 * OrbitalsCount(subshell)
  {
    match subshell
    case 's' => 2
    case 'p' => 6
    case 'd' => 10
    case 'f' => 14
    case _ => 2
  }

  /** The slot of the electron `e - start` places into the subshell (kind, level): two per orbital. */
  function InBlock(kind: char, level: nat, start: nat, e: nat): Slot
    requires start <= e
  {
    Slot(kind, level, (e - start) / 2, (e - start) % 2)
  }

  /**
   * `get_orbital_info`: the hand-enumerated fill order 1s 2s 2p 3s 3p 4s 3d
   * 4p 5s 4d 5p 6s 4f, each block starting where the previous one ends.
   * The blocks add up to 70 electrons; from ordinal 70 on there is no slot.
   */
  function OrbitalInfo(e: nat): (r: Option<Slot>)
    ensures r.Some? <==> e < Capacity
    ensures r.Some? ==> r.value.pos < 2 && r.value.orbital < OrbitalsCount(r.value.subshell)
    ensures r.Some? ==> r.value.subshell in "spdf" && 1 <= r.value.level <= 6
  {
    if e < 2 then Some(Slot('s', 1, 0, e))
    else if e < 2 + 2 then Some(Slot('s', 2, 0, e - 2))
    else if e < 4 + 6 then Some(InBlock('p', 2, 4, e))
    else if e < 10 + 2 then Some(Slot('s', 3, 0, e - 10))
    else if e < 12 + 6 then Some(InBlock('p', 3, 12, e))
    else if e < 18 + 2 then Some(Slot('s', 4, 0, e - 18))
    else if e < 20 + 10 then Some(InBlock('d', 3, 20, e))
    else if e < 30 + 6 then Some(InBlock('p', 4, 30, e))
    else if e < 36 + 2 then Some(Slot('s', 5, 0, e - 36))
    else if e < 38 + 10 then Some(InBlock('d', 4, 38, e))
    else if e < 48 + 6 then Some(InBlock('p', 5, 48, e))
    else if e < 54 + 2 then Some(Slot('s', 6, 0, e - 54))
    else if e < 56 + 14 then Some(InBlock('f', 4, 56, e))
    else None
  }

  /** The fill order as data: (subshell kind, principal level) per block. */
  const FillOrder: seq<(char, nat)> :=
    [('s', 1), ('s', 2), ('p', 2), ('s', 3), ('p', 3), ('s', 4), ('d', 3),
     ('p', 4), ('s', 5), ('d', 4), ('p', 5), ('s', 6), ('f', 4)]

  /** The first ordinal of block `b`: the capacities of the blocks before it, added up. */
  function BlockStart(b: nat): nat
    requires b <= |FillOrder|
  {
    if b == 0 then 0 else BlockStart(b - 1) + MaxElectronsSublevel(FillOrder[b - 1].0)
  }

  /** Total number of electrons the table places. */
  const Capacity: nat := 70

  lemma BlockStarts()
    ensures BlockStart(0) == 0 && BlockStart(1) == 2 && BlockStart(2) == 4 && BlockStart(3) == 10
    ensures BlockStart(4) == 12 && BlockStart(5) == 18 && BlockStart(6) == 20 && BlockStart(7) == 30
    ensures BlockStart(8) == 36 && BlockStart(9) == 38 && BlockStart(10) == 48 && BlockStart(11) == 54
    ensures BlockStart(12) == 56 && BlockStart(13) == Capacity
  {
  }

  /**
   * The if-chain agrees with the data-driven table: every block `b` of the
   * fill order covers exactly `MaxElectronsSublevel` consecutive ordinals,
   * filled two per orbital, and together the blocks cover 0 .. Capacity.
   */
  lemma {:induction false} FillOrderBlocks(b: nat, e: nat)
    requires b < |FillOrder|
    requires BlockStart(b) <= e < BlockStart(b) + MaxElectronsSublevel(FillOrder[b].0)
    ensures BlockStart(b + 1) == BlockStart(b) + MaxElectronsSublevel(FillOrder[b].0)
    ensures OrbitalInfo(e) == Some(InBlock(FillOrder[b].0, FillOrder[b].1, BlockStart(b), e))
  {
    BlockStarts();
  }

  /** The block that holds ordinal `e`. */
  function BlockOfOrdinal(e: nat): (b: nat)
    requires e < Capacity
    ensures b < |FillOrder|
    ensures BlockStart(b) <= e < BlockStart(b) + MaxElectronsSublevel(FillOrder[b].0)
  {
    BlockStarts();
    if e < 2 then 0 else if e < 4 then 1 else if e < 10 then 2 else if e < 12 then 3
    else if e < 18 then 4 else if e < 20 then 5 else if e < 30 then 6 else if e < 36 then 7
    else if e < 38 then 8 else if e < 48 then 9 else if e < 54 then 10 else if e < 56 then 11
    else 12
  }

  /** The position of (kind, level) in the fill order, if it is there. */
  function BlockIndex(kind: char, level: nat): (r: Option<nat>)
    ensures r.Some? ==> r.value < |FillOrder| && FillOrder[r.value] == (kind, level)
    ensures r.None? ==> (kind, level) !in FillOrder
  {
    IndexFrom(kind, level, 0)
  }

  function IndexFrom(kind: char, level: nat, b: nat): (r: Option<nat>)
    requires b <= |FillOrder|
    ensures r.Some? ==> b <= r.value < |FillOrder| && FillOrder[r.value] == (kind, level)
    ensures r.None? ==> forall k :: b <= k < |FillOrder| ==> FillOrder[k] != (kind, level)
    decreases |FillOrder| - b
  {
    if b == |FillOrder| then None
    else if FillOrder[b] == (kind, level) then Some(b)
    else IndexFrom(kind, level, b + 1)
  }

  /** A slot the table can hand out: its subshell is in the fill order and its orbital and position fit the subshell. */
  predicate TableSlot(s: Slot) {
    && BlockIndex(s.subshell, s.level).Some?
    && s.pos < 2
    && s.orbital < OrbitalsCount(s.subshell)
  }

  /** The ordinal of a table slot: its block's start, two per orbital before it, plus its position. */
  function SlotOrdinal(s: Slot): (e: nat)
    requires TableSlot(s)
  {
    BlockStart(BlockIndex(s.subshell, s.level).value) + 2 * s.orbital + s.pos
  }

  /** Every ordinal below the capacity gets a table slot, and the slot gives the ordinal back. */
  lemma OrdinalRoundTrip(e: nat)
    requires e < Capacity
    ensures OrbitalInfo(e).Some? && TableSlot(OrbitalInfo(e).value)
    ensures SlotOrdinal(OrbitalInfo(e).value) == e
  {
    var b := BlockOfOrdinal(e);
    FillOrderBlocks(b, e);
    var s := OrbitalInfo(e).value;
    var (kind, level) := FillOrder[b];
    assert s == InBlock(kind, level, BlockStart(b), e);
    // the fill order never repeats a (kind, level) pair, so the lookup finds b
    assert forall k, k' :: 0 <= k < k' < |FillOrder| ==> FillOrder[k] != FillOrder[k'];
    assert BlockIndex(kind, level) == Some(b);
    var off := e - BlockStart(b);
    assert off == 2 * (off / 2) + off % 2;
  }

  lemma InBlockAt(kind: char, level: nat, start: nat, orbital: nat, pos: nat)
    requires pos < 2
    ensures InBlock(kind, level, start, start + 2 * orbital + pos) == Slot(kind, level, orbital, pos)
  {
  }

  lemma BlockEndsWithinCapacity(b: nat)
    requires b < |FillOrder|
    ensures BlockStart(b) + MaxElectronsSublevel(FillOrder[b].0) <= Capacity
  {
    BlockStarts();
    assert BlockStart(b) + MaxElectronsSublevel(FillOrder[b].0) == BlockStart(b + 1);
  }

  /** Every table slot is handed out, to exactly the ordinal `SlotOrdinal` names. */
  lemma SlotRoundTrip(s: Slot)
    requires TableSlot(s)
    ensures SlotOrdinal(s) < Capacity
    ensures OrbitalInfo(SlotOrdinal(s)) == Some(s)
  {
    var b := BlockIndex(s.subshell, s.level).value;
    var e := SlotOrdinal(s);
    assert FillOrder[b] == (s.subshell, s.level);
    assert 2 * s.orbital + s.pos < MaxElectronsSublevel(s.subshell);
    BlockEndsWithinCapacity(b);
    FillOrderBlocks(b, e);
    InBlockAt(s.subshell, s.level, BlockStart(b), s.orbital, s.pos);
  }

  /** Distinct ordinals receive distinct slots: no two electrons of one atom share a slot through the table. */
  lemma OrbitalInfoInjective(e1: nat, e2: nat)
    requires e1 < Capacity && e2 < Capacity && e1 != e2
    ensures OrbitalInfo(e1) != OrbitalInfo(e2)
  {
    OrdinalRoundTrip(e1);
    OrdinalRoundTrip(e2);
  }

  /** `get_orbital_angle`: the orientation of an orbital within its subshell. */
  function OrbitalAngle(subshell: char, orbitalIdx: nat): (r: real)
    ensures 0.0 <= r
    ensures orbitalIdx < OrbitalsCount(subshell) ==> r < 2.0 * PI
  {
    var orbitalsCount := OrbitalsCount(subshell);
    match subshell
    case 's' => 0.0
    case 'p' =>
      (match orbitalIdx
       case 0 => 0.0
       case 1 => PI / 2.0
       case 2 => PI
       case _ => 0.0)
    case 'd' => (orbitalIdx as real * 2.0 * PI) / orbitalsCount as real
    case 'f' => (orbitalIdx as real * 2.0 * PI) / orbitalsCount as real
    case _ => 0.0
  }

  /**
   * The base radius per (principal level, subshell kind). The source writes
   * this table twice, in `get_orbital_parameters` and again in
   * `calculate_orbital_motion`; the two copies are identical and both are
   * this function.
   */
  function BaseRadius(subshell: char, level: nat): (r: real)
    ensures 50.0 <= r
    ensures 1 <= level <= 4 ==> r <= 275.0
  {
    match level
    case 1 => 50.0
    case 2 =>
      (match subshell
       case 's' => 75.0
       case 'p' => 100.0
       case _ => 85.0)
    case 3 =>
      (match subshell
       case 's' => 125.0
       case 'p' => 150.0
       case 'd' => 175.0
       case _ => 140.0)
    case 4 =>
      (match subshell
       case 's' => 200.0
       case 'p' => 225.0
       case 'd' => 250.0
       case 'f' => 275.0
       case _ => 215.0)
    case _ => 100.0 + (level as real * 25.0)
  }

  /**
   * `get_orbital_parameters`: (base radius, base speed, angle offset). s is
   * fastest and f slowest; the offset spreads a subshell's orbitals evenly
   * around the circle.
   */
  function OrbitalParameters(orbitalType: char, level: nat, orbitalIdx: nat): (r: (real, real, real))
    ensures r.0 == BaseRadius(orbitalType, level)
    ensures 2.0 <= r.1 <= 4.0
    ensures 0.0 <= r.2
    ensures orbitalIdx < OrbitalsCount(orbitalType) ==> r.2 < 2.0 * PI
  {
    var baseRadius := BaseRadius(orbitalType, level);
    var baseSpeed :=
      match orbitalType
      case 's' => 4.0
      case 'p' => 3.0
      case 'd' => 2.5
      case 'f' => 2.0
      case _ => 3.0;
    var angleOffset :=
      match orbitalType
      case 's' => 0.0
      case 'p' => (orbitalIdx as real) * 2.0 * PI / 3.0
      case 'd' => (orbitalIdx as real) * 2.0 * PI / 5.0
      case 'f' => (orbitalIdx as real) * 2.0 * PI / 7.0
      case _ => 0.0;
    (baseRadius, baseSpeed, angleOffset)
  }

  /**
   * `calculate_orbital_motion`: (x, y, dx, dy) of an electron in its slot
   * around a nucleus at (nx, ny) at simulation time `time`. The curves are
   * transcribed with `sin` and `cos` left uninterpreted.
   */
  function OrbitalMotion(m: MathOps, nx: real, ny: real, subshell: char, level: nat,
                         orbitalIdx: nat, pos: nat, time: real): (r: (real, real, real, real))
  {
    var baseRadius := BaseRadius(subshell, level);
    match subshell
    case 's' =>
      var angle := time + pos as real * PI;
      var speed := 4.0;
      (nx + baseRadius * m.Cos(angle), ny + baseRadius * m.Sin(angle),
       -speed * m.Sin(angle), speed * m.Cos(angle))
    case 'p' =>
      var baseAngle := (orbitalIdx as real) * 2.0 * PI / 3.0;
      var t := time * 2.0;
      var figure8x := baseRadius * 0.4 * m.Sin(t);
      var figure8y := baseRadius * 0.8 * m.Cos(t) * 0.5;
      var speed := 3.5;
      (nx + m.Cos(baseAngle) * figure8x - m.Sin(baseAngle) * figure8y,
       ny + m.Sin(baseAngle) * figure8x + m.Cos(baseAngle) * figure8y,
       speed * m.Cos(figure8x) * m.Cos(baseAngle) - speed * m.Sin(figure8y) * m.Sin(baseAngle),
       speed * m.Cos(figure8x) * m.Sin(baseAngle) + speed * m.Sin(figure8y) * m.Cos(baseAngle))
    case 'd' =>
      var baseAngle := (orbitalIdx as real) * 2.0 * PI / 5.0;
      var petal := time * 1.5;
      var r := baseRadius * 0.6 * (1.0 + 0.5 * m.Cos(5.0 * petal));
      var speed := 2.8;
      (nx + r * m.Cos(baseAngle + petal), ny + r * m.Sin(baseAngle + petal),
       -speed * m.Sin(baseAngle + petal) + speed * 0.5 * m.Sin(5.0 * petal) * m.Cos(baseAngle + petal),
       speed * m.Cos(baseAngle + petal) + speed * 0.5 * m.Sin(5.0 * petal) * m.Sin(baseAngle + petal))
    case 'f' =>
      var baseAngle := (orbitalIdx as real) * 2.0 * PI / 7.0;
      var c := time * 1.2;
      var r1 := baseRadius * 0.4;
      var r2 := baseRadius * 0.3;
      var speed := 2.2;
      (nx + r1 * m.Cos(baseAngle + c) + r2 * m.Cos(baseAngle - c * 1.5),
       ny + r1 * m.Sin(baseAngle + c) + r2 * m.Sin(baseAngle - c * 1.5),
       -speed * r1 * m.Sin(baseAngle + c) + speed * r2 * 1.5 * m.Sin(baseAngle - c * 1.5),
       speed * r1 * m.Cos(baseAngle + c) - speed * r2 * 1.5 * m.Cos(baseAngle - c * 1.5))
    case _ =>
      var angle := time;
      var speed := 3.0;
      (nx + baseRadius * m.Cos(angle), ny + baseRadius * m.Sin(angle),
       -speed * m.Sin(angle), speed * m.Cos(angle))
  }

  /**
   * The motion is rigid in the nucleus position: moving the nucleus by
   * (ax, ay) moves the electron's position by the same amount and leaves
   * its velocity alone.
   */
  lemma OrbitalMotionFollowsNucleus(m: MathOps, nx: real, ny: real, ax: real, ay: real,
                                    subshell: char, level: nat, orbitalIdx: nat, pos: nat, time: real)
    ensures var a := OrbitalMotion(m, nx, ny, subshell, level, orbitalIdx, pos, time);
            var b := OrbitalMotion(m, nx + ax, ny + ay, subshell, level, orbitalIdx, pos, time);
            b.0 == a.0 + ax && b.1 == a.1 + ay && b.2 == a.2 && b.3 == a.3
  {
  }

  /** The two electrons of an s orbital circle half a turn apart, on the radius of their subshell. */
  lemma SOrbitalPartners(m: MathOps, nx: real, ny: real, level: nat, time: real)
    ensures var a := OrbitalMotion(m, nx, ny, 's', level, 0, 0, time);
            var b := OrbitalMotion(m, nx, ny, 's', level, 0, 1, time);
            var a' := OrbitalMotion(m, nx, ny, 's', level, 0, 0, time + PI);
            b == a'
    ensures var a := OrbitalMotion(m, nx, ny, 's', level, 0, 0, time);
            a.0 - nx == BaseRadius('s', level) * m.Cos(time)
  {
    var angle := time + PI;
    assert time + (1 as real) * PI == angle && angle + (0 as real) * PI == angle;
    assert time + (0 as real) * PI == time;
    var b := OrbitalMotion(m, nx, ny, 's', level, 0, 1, time);
    var a' := OrbitalMotion(m, nx, ny, 's', level, 0, 0, time + PI);
    assert b.0 == a'.0 && b.1 == a'.1 && b.2 == a'.2 && b.3 == a'.3;
  }
}
