/**
 * The force pass of the TypeScript front end (`calculateForces` in
 * simulacion-atomica/src/utils/physicsUtils.ts): for every pair i < j of
 * particles it computes a Coulomb-like or short-range nuclear force from the
 * two kinds and their scaled separation, and, unless the pair coincides or
 * the force is zero, pushes the two velocities in opposite directions,
 * each by the force over its own mass. The particles are updated in place.
 */
module TsPhysics {
  import opened Wrappers
  import opened TsParticles

  /** `Math.sqrt` and `Math.exp`, which the model does not compute. */
  datatype TsMath = TsMath(sqrt: real -> real, exp: real -> real)
  {
    function Sqrt(v: real): real { sqrt(v) }
    function Exp(v: real): real { exp(v) }
  }

  /** The one law of the exponential the sign of the nuclear force needs. */
  ghost predicate ExpLaws(tm: TsMath) {
    forall v :: 0.0 < tm.Exp(v)
  }

  /** Coulomb's constant in N·m²/C². */
  const CoulombK: real := 8987500000.0
  /** The charge of a proton in coulombs. */
  const ProtonCharge: real := 0.0000000000000000001602
  /** The charge of an electron in coulombs. */
  const ElectronCharge: real := -0.0000000000000000001602
  /** Canvas units to metres (picometres). */
  const Scale: real := 0.000000000001
  /** The reach of the nuclear force: 40 canvas units, scaled. */
  const NuclearRange: real := 40.0 * Scale

  lemma SquarePositive(d: real)
    requires d != 0.0
    ensures d * d > 0.0
  {
    if d < 0.0 {
      assert d * d == (-d) * (-d);
    }
  }

  /** A proton and a neutron, in either order: the pair the nuclear force acts on. */
  predicate NuclearPair(a: Kind, b: Kind) {
    (a == Proton && b == Neutron) || (a == Neutron && b == Proton)
  }

  /** Coulomb's law: `c / (distance * distance)`, positive for a positive `c`. */
  function InverseSquare(c: real, distance: real): (r: real)
    requires distance != 0.0
    ensures c > 0.0 ==> r > 0.0
  {
    SquarePositive(distance);
    c / (distance * distance)
  }

  /**
   * The total force between a particle of kind `a` and one of kind `b` at
   * scaled distance `distance`; positive pushes the two apart. Two protons
   * and two electrons repel (the latter a thousandfold), a proton and an
   * electron also come out positive (the sign of the product of the charges
   * is negated, then scaled by 500), a proton and a neutron attract inside
   * the nuclear range, and every other pair feels nothing.
   */
  function TotalForce(tm: TsMath, a: Kind, b: Kind, distance: real): (r: real)
    requires distance != 0.0
    ensures a == Proton && b == Proton ==> r > 0.0
    ensures (a == Proton && b == Electron) || (a == Electron && b == Proton) ==> r > 0.0
    ensures a == Electron && b == Electron ==> r > 0.0
    ensures a == Neutron && b == Neutron ==> r == 0.0
    ensures (a == Neutron && b == Electron) || (a == Electron && b == Neutron) ==> r == 0.0
    ensures NuclearPair(a, b) && NuclearRange <= distance ==> r == 0.0
    ensures NuclearPair(a, b) && distance < NuclearRange && ExpLaws(tm) ==> r < 0.0
  {
    if a == Proton && b == Proton then
      InverseSquare(CoulombK * ProtonCharge * ProtonCharge, distance)
    else if (a == Proton && b == Electron) || (a == Electron && b == Proton) then
      InverseSquare(-(CoulombK * ProtonCharge * ElectronCharge), distance) * 500.0
    else if a == Electron && b == Electron then
      InverseSquare(CoulombK * ElectronCharge * ElectronCharge, distance) * 1000.0
    else if NuclearPair(a, b) then
      if distance < NuclearRange then -30.0 * tm.Exp(-distance / NuclearRange) else 0.0
    else
      0.0
  }

  /** The force depends on the two kinds, not on their order. */
  lemma TotalForceSymmetric(tm: TsMath, a: Kind, b: Kind, distance: real)
    requires distance != 0.0
    ensures TotalForce(tm, a, b, distance) == TotalForce(tm, b, a, distance)
  {
  }

  /** What the force pass knows of a particle. */
  datatype Body = Body(x: real, y: real, kind: Kind, mass: real, dx: real, dy: real)

  /** A force, or the change of a velocity, in two dimensions. */
  datatype Vec = Vec(x: real, y: real)

  /** The separation from `bi` to `bj`, scaled to metres. */
  function Separation(bi: Body, bj: Body): (s: Vec)
    ensures bi.x == bj.x && bi.y == bj.y ==> s == Vec(0.0, 0.0)
  {
    Vec((bj.x - bi.x) * Scale, (bj.y - bi.y) * Scale)
  }

  function SquaredLength(s: Vec): real {
    s.x * s.x + s.y * s.y
  }

  /** The length of a separation. */
  function Length(tm: TsMath, s: Vec): real {
    tm.Sqrt(SquaredLength(s))
  }

  /** Reversing a separation keeps its length. */
  lemma LengthOfReversed(tm: TsMath, s: Vec)
    ensures Length(tm, Vec(-s.x, -s.y)) == Length(tm, s)
  {
    var t := Vec(-s.x, -s.y);
    assert t.x * t.x == s.x * s.x;
    assert t.y * t.y == s.y * s.y;
    assert SquaredLength(t) == SquaredLength(s);
  }

  /** A force of size `magnitude` per unit of separation, along the separation `s`. */
  function Directed(magnitude: real, s: Vec): Vec {
    Vec(magnitude * s.x, magnitude * s.y)
  }

  /**
   * The force (fx, fy) that the pair exerts, to be taken from body `bi` and
   * given to body `bj`, or None when the pass skips the pair: at distance
   * zero, and when the total force is zero.
   */
  function PairPush(tm: TsMath, bi: Body, bj: Body): Option<Vec> {
    var s := Separation(bi, bj);
    var distance := Length(tm, s);
    if distance == 0.0 then None
    else
      var total := TotalForce(tm, bi.kind, bj.kind, distance);
      if total == 0.0 then None
      else
        Some(Directed(total / distance, s))
  }

  /** The momentum of one body along each axis. */
  function MomentumOfX(b: Body): real { b.mass * b.dx }
  function MomentumOfY(b: Body): real { b.mass * b.dy }

  /** `-=` of the force over the body's own mass on the velocity. */
  function Recoil(b: Body, f: Vec): (r: Body)
    requires b.mass != 0.0
    ensures r == b.(dx := r.dx, dy := r.dy)
    ensures MomentumOfX(r) == MomentumOfX(b) - f.x && MomentumOfY(r) == MomentumOfY(b) - f.y
  {
    b.(dx := b.dx - f.x / b.mass, dy := b.dy - f.y / b.mass)
  }

  /** `+=` of the force over the body's own mass on the velocity. */
  function Thrust(b: Body, f: Vec): (r: Body)
    requires b.mass != 0.0
    ensures r == b.(dx := r.dx, dy := r.dy)
    ensures MomentumOfX(r) == MomentumOfX(b) + f.x && MomentumOfY(r) == MomentumOfY(b) + f.y
  {
    b.(dx := b.dx + f.x / b.mass, dy := b.dy + f.y / b.mass)
  }

  predicate NonzeroMasses(bs: seq<Body>) {
    forall k :: 0 <= k < |bs| ==> bs[k].mass != 0.0
  }

  /** Only the velocity of a body may differ. */
  predicate SameBody(p: Body, q: Body) {
    p.x == q.x && p.y == q.y && p.kind == q.kind && p.mass == q.mass
  }

  predicate SameBodies(ps: seq<Body>, qs: seq<Body>) {
    |ps| == |qs| && forall k :: 0 <= k < |ps| ==> SameBody(ps[k], qs[k])
  }

  /** One iteration of the inner loop: body i recoils and body j is pushed by the pair's force; no other body changes. */
  function Kick(tm: TsMath, bs: seq<Body>, i: nat, j: nat): (r: seq<Body>)
    requires i < |bs| && j < |bs| && i != j && NonzeroMasses(bs)
    ensures SameBodies(bs, r) && NonzeroMasses(r)
    ensures forall k :: 0 <= k < |bs| && k != i && k != j ==> r[k] == bs[k]
  {
    match PairPush(tm, bs[i], bs[j])
    case None => bs
    case Some(f) => bs[i := Recoil(bs[i], f)][j := Thrust(bs[j], f)]
  }

  /** The inner loop of row i from column j on: body i meets bodies j, j+1, ... in turn. */
  function Row(tm: TsMath, bs: seq<Body>, i: nat, j: nat): (r: seq<Body>)
    requires i < j && NonzeroMasses(bs)
    ensures SameBodies(bs, r) && NonzeroMasses(r)
    decreases |bs| - j
  {
    if j >= |bs| || i >= |bs| then bs
    else Row(tm, Kick(tm, bs, i, j), i, j + 1)
  }

  lemma RowStep(tm: TsMath, bs: seq<Body>, i: nat, j: nat)
    requires i < j < |bs| && NonzeroMasses(bs)
    ensures Row(tm, bs, i, j) == Row(tm, Kick(tm, bs, i, j), i, j + 1)
  {
  }

  /** The outer loop from row i on: each row runs over the bodies the previous rows left. */
  function Rows(tm: TsMath, bs: seq<Body>, i: nat): (r: seq<Body>)
    requires NonzeroMasses(bs)
    ensures SameBodies(bs, r) && NonzeroMasses(r)
    decreases |bs| - i
  {
    if i >= |bs| then bs
    else Rows(tm, Row(tm, bs, i, i + 1), i + 1)
  }

  /** `calculateForces` on the bodies: every pair i < j once, row by row. */
  function TsForces(tm: TsMath, bs: seq<Body>): (r: seq<Body>)
    requires NonzeroMasses(bs)
    ensures SameBodies(bs, r)
  {
    Rows(tm, bs, 0)
  }

  function MomentumX(bs: seq<Body>): real {
    if bs == [] then 0.0 else MomentumOfX(bs[0]) + MomentumX(bs[1..])
  }

  function MomentumY(bs: seq<Body>): real {
    if bs == [] then 0.0 else MomentumOfY(bs[0]) + MomentumY(bs[1..])
  }

  lemma {:induction false} MomentumUpdate(bs: seq<Body>, k: nat, b: Body)
    requires k < |bs|
    ensures MomentumX(bs[k := b]) == MomentumX(bs) - MomentumOfX(bs[k]) + MomentumOfX(b)
    ensures MomentumY(bs[k := b]) == MomentumY(bs) - MomentumOfY(bs[k]) + MomentumOfY(b)
  {
    if k > 0 {
      MomentumUpdate(bs[1..], k - 1, b);
      assert bs[k := b][1..] == bs[1..][k - 1 := b];
    }
  }

  /** A kick changes no total momentum: what body i loses, body j gains. */
  lemma KickMomentum(tm: TsMath, bs: seq<Body>, i: nat, j: nat)
    requires i < |bs| && j < |bs| && i != j && NonzeroMasses(bs)
    ensures MomentumX(Kick(tm, bs, i, j)) == MomentumX(bs)
    ensures MomentumY(Kick(tm, bs, i, j)) == MomentumY(bs)
  {
    match PairPush(tm, bs[i], bs[j])
    case None =>
    case Some(f) =>
      var mid := bs[i := Recoil(bs[i], f)];
      MomentumUpdate(bs, i, Recoil(bs[i], f));
      MomentumUpdate(mid, j, Thrust(bs[j], f));
      assert Kick(tm, bs, i, j) == mid[j := Thrust(bs[j], f)];
  }

  lemma {:induction false} RowMomentum(tm: TsMath, bs: seq<Body>, i: nat, j: nat)
    requires i < j && NonzeroMasses(bs)
    ensures MomentumX(Row(tm, bs, i, j)) == MomentumX(bs)
    ensures MomentumY(Row(tm, bs, i, j)) == MomentumY(bs)
    decreases |bs| - j
  {
    if j < |bs| && i < |bs| {
      KickMomentum(tm, bs, i, j);
      RowMomentum(tm, Kick(tm, bs, i, j), i, j + 1);
    }
  }

  lemma {:induction false} RowsMomentum(tm: TsMath, bs: seq<Body>, i: nat)
    requires NonzeroMasses(bs)
    ensures MomentumX(Rows(tm, bs, i)) == MomentumX(bs)
    ensures MomentumY(Rows(tm, bs, i)) == MomentumY(bs)
    decreases |bs| - i
  {
    if i < |bs| {
      RowMomentum(tm, bs, i, i + 1);
      RowsMomentum(tm, Row(tm, bs, i, i + 1), i + 1);
    }
  }

  /** The force pass conserves total momentum (the sum of mass times velocity) on both axes. */
  lemma TsForcesMomentum(tm: TsMath, bs: seq<Body>)
    requires NonzeroMasses(bs)
    ensures MomentumX(TsForces(tm, bs)) == MomentumX(bs)
    ensures MomentumY(TsForces(tm, bs)) == MomentumY(bs)
  {
    RowsMomentum(tm, bs, 0);
  }

  /** Two neutrons, or a neutron and an electron, never act on each other. */
  lemma InertPairs(tm: TsMath, bi: Body, bj: Body)
    requires (bi.kind == Neutron && bj.kind != Proton) || (bj.kind == Neutron && bi.kind != Proton)
    ensures PairPush(tm, bi, bj) == None
  {
  }

  /** Two particles at the same place are skipped, whatever their kinds. */
  lemma CoincidentPairs(tm: TsMath, bi: Body, bj: Body)
    requires bi.x == bj.x && bi.y == bj.y && tm.Sqrt(0.0) == 0.0
    ensures PairPush(tm, bi, bj) == None
  {
    assert SquaredLength(Vec(0.0, 0.0)) == 0.0;
  }

  lemma NegatedQuotient(a: real, d: real)
    requires d != 0.0
    ensures (-a) / d == -(a / d)
  {
    var q := a / d;
    assert q * d == a;
    assert (-q) * d == -a;
  }

  /** Seen from the other body the pair exerts the opposite force. */
  lemma PairPushAntisymmetric(tm: TsMath, bi: Body, bj: Body)
    ensures PairPush(tm, bj, bi).None? == PairPush(tm, bi, bj).None?
    ensures PairPush(tm, bi, bj).Some? ==>
              PairPush(tm, bj, bi).value == Vec(-PairPush(tm, bi, bj).value.x, -PairPush(tm, bi, bj).value.y)
  {
    var s := Separation(bi, bj);
    assert Separation(bj, bi) == Vec(-s.x, -s.y);
    LengthOfReversed(tm, s);
    var distance := Length(tm, s);
    if distance != 0.0 {
      TotalForceSymmetric(tm, bi.kind, bj.kind, distance);
      var magnitude := TotalForce(tm, bi.kind, bj.kind, distance) / distance;
      assert magnitude * -s.x == -(magnitude * s.x);
      assert magnitude * -s.y == -(magnitude * s.y);
    }
  }

  /** The effect of a pair does not depend on which of the two the loop visits first. */
  lemma KickSymmetric(tm: TsMath, bs: seq<Body>, i: nat, j: nat)
    requires i < |bs| && j < |bs| && i != j && NonzeroMasses(bs)
    ensures Kick(tm, bs, i, j) == Kick(tm, bs, j, i)
  {
    PairPushAntisymmetric(tm, bs[i], bs[j]);
    match PairPush(tm, bs[i], bs[j])
    case None =>
    case Some(f) =>
      var g := PairPush(tm, bs[j], bs[i]).value;
      NegatedQuotient(f.x, bs[i].mass);
      NegatedQuotient(f.y, bs[i].mass);
      NegatedQuotient(f.x, bs[j].mass);
      NegatedQuotient(f.y, bs[j].mass);
      assert Recoil(bs[i], f) == Thrust(bs[i], g);
      assert Thrust(bs[j], f) == Recoil(bs[j], g);
  }

  /** The laws of `Math.sqrt` the direction of a push relies on. */
  ghost predicate SqrtLaws(tm: TsMath) {
    forall v :: 0.0 <= v ==> 0.0 <= tm.Sqrt(v)
  }

  /** The dot product of a velocity change and a separation. */
  function Along(v: Vec, s: Vec): real {
    v.x * s.x + v.y * s.y
  }

  /** How the velocity of a body changed. */
  function Change(before: Body, after: Body): Vec {
    Vec(after.dx - before.dx, after.dy - before.dy)
  }

  lemma ScaledQuotient(mag: real, c: real, m: real)
    requires m != 0.0
    ensures (mag * c) / m == (mag / m) * c
  {
    var q := mag / m;
    assert q * m == mag;
    assert (q * c) * m == mag * c;
  }

  /**
   * A push of size `mag` along `s` over a positive mass changes the velocity
   * along `s` by `mag / m` times the squared length of `s`.
   */
  lemma ThrustAlong(b: Body, mag: real, s: Vec)
    requires b.mass > 0.0
    ensures var q := mag / b.mass;
            && Along(Change(b, Thrust(b, Directed(mag, s))), s) == q * SquaredLength(s)
            && Along(Change(b, Recoil(b, Directed(mag, s))), s) == -(q * SquaredLength(s))
  {
    ScaledQuotient(mag, s.x, b.mass);
    ScaledQuotient(mag, s.y, b.mass);
  }

  lemma QuotientSign(a: real, d: real)
    requires 0.0 < d
    ensures a > 0.0 ==> a / d > 0.0
    ensures a < 0.0 ==> a / d < 0.0
  {
    var q := a / d;
    assert q * d == a;
  }

  lemma SignOfProduct(q: real, l: real)
    requires 0.0 <= l
    ensures q > 0.0 ==> q * l >= 0.0
    ensures q < 0.0 ==> q * l <= 0.0
  {
  }

  lemma SquaredLengthNonnegative(s: Vec)
    ensures 0.0 <= SquaredLength(s)
  {
    assert 0.0 <= s.x * s.x;
    assert 0.0 <= s.y * s.y;
  }

  /** A push along `s` changes the velocity along `s`: forwards for `+=`, backwards for `-=`, flipped when the push is negative. */
  lemma PushSign(b: Body, mag: real, s: Vec)
    requires b.mass > 0.0
    ensures var f := Directed(mag, s);
            mag > 0.0 ==> Along(Change(b, Recoil(b, f)), s) <= 0.0 && Along(Change(b, Thrust(b, f)), s) >= 0.0
    ensures var f := Directed(mag, s);
            mag < 0.0 ==> Along(Change(b, Recoil(b, f)), s) >= 0.0 && Along(Change(b, Thrust(b, f)), s) <= 0.0
  {
    ThrustAlong(b, mag, s);
    QuotientSign(mag, b.mass);
    SquaredLengthNonnegative(s);
    SignOfProduct(mag / b.mass, SquaredLength(s));
  }

  /**
   * When the pass does push a pair, it pushes by `Directed(mag, s)` along
   * the pair's separation `s`, where `mag` is positive for two charged
   * particles and negative for a proton and a neutron.
   */
  lemma PushMagnitude(tm: TsMath, bi: Body, bj: Body) returns (mag: real)
    requires SqrtLaws(tm) && ExpLaws(tm) && PairPush(tm, bi, bj).Some?
    ensures PairPush(tm, bi, bj).value == Directed(mag, Separation(bi, bj))
    ensures bi.kind != Neutron && bj.kind != Neutron ==> mag > 0.0
    ensures NuclearPair(bi.kind, bj.kind) ==> mag < 0.0
  {
    var s := Separation(bi, bj);
    var distance := Length(tm, s);
    SquaredLengthNonnegative(s);
    var total := TotalForce(tm, bi.kind, bj.kind, distance);
    mag := total / distance;
    QuotientSign(total, distance);
  }

  /**
   * Which way the pass pushes two bodies of positive mass: two charged
   * particles (a proton and an electron included) have their velocities
   * changed away from each other along their separation, and a proton and
   * a neutron inside the nuclear range towards each other.
   */
  lemma PushDirection(tm: TsMath, bi: Body, bj: Body)
    requires bi.mass > 0.0 && bj.mass > 0.0 && SqrtLaws(tm) && ExpLaws(tm)
    ensures var s := Separation(bi, bj);
            var p := PairPush(tm, bi, bj);
            p.Some? && bi.kind != Neutron && bj.kind != Neutron ==>
              Along(Change(bi, Recoil(bi, p.value)), s) <= 0.0 && Along(Change(bj, Thrust(bj, p.value)), s) >= 0.0
    ensures var s := Separation(bi, bj);
            var p := PairPush(tm, bi, bj);
            p.Some? && NuclearPair(bi.kind, bj.kind) ==>
              Along(Change(bi, Recoil(bi, p.value)), s) >= 0.0 && Along(Change(bj, Thrust(bj, p.value)), s) <= 0.0
  {
    if PairPush(tm, bi, bj).Some? {
      var mag := PushMagnitude(tm, bi, bj);
      PushSign(bi, mag, Separation(bi, bj));
      PushSign(bj, mag, Separation(bi, bj));
    }
  }

  /** `PushDirection` for one iteration of the inner loop: the pair's two bodies in the sequence. */
  lemma PairDirection(tm: TsMath, bs: seq<Body>, i: nat, j: nat)
    requires i < |bs| && j < |bs| && i != j && NonzeroMasses(bs)
    requires bs[i].mass > 0.0 && bs[j].mass > 0.0 && SqrtLaws(tm) && ExpLaws(tm)
    ensures var s := Separation(bs[i], bs[j]);
            var r := Kick(tm, bs, i, j);
            bs[i].kind != Neutron && bs[j].kind != Neutron ==>
              Along(Change(bs[i], r[i]), s) <= 0.0 && Along(Change(bs[j], r[j]), s) >= 0.0
    ensures var s := Separation(bs[i], bs[j]);
            var r := Kick(tm, bs, i, j);
            NuclearPair(bs[i].kind, bs[j].kind) ==>
              Along(Change(bs[i], r[i]), s) >= 0.0 && Along(Change(bs[j], r[j]), s) <= 0.0
  {
    match PairPush(tm, bs[i], bs[j])
    case None =>
      assert Kick(tm, bs, i, j) == bs;
    case Some(f) =>
      PushDirection(tm, bs[i], bs[j]);
      assert Kick(tm, bs, i, j)[i] == Recoil(bs[i], f);
      assert Kick(tm, bs, i, j)[j] == Thrust(bs[j], f);
  }

  /** The body the force pass sees in a particle object. */
  function BodyOf(p: Particle): Body
    reads p
  {
    Body(p.x, p.y, p.kind, p.mass, p.dx, p.dy)
  }

  /** No particle in the array has mass zero, as the constructor guarantees. */
  predicate Massive(a: array<Particle>)
    reads a
  {
    forall k :: 0 <= k < a.Length ==> a[k].mass != 0.0
  }

  /** The bodies of the particles in the array, in order. */
  function Bodies(a: array<Particle>): (r: seq<Body>)
    reads a, set k | 0 <= k < a.Length :: a[k]
    ensures |r| == a.Length && forall k :: 0 <= k < a.Length ==> r[k] == BodyOf(a[k])
    ensures Massive(a) ==> NonzeroMasses(r)
  {
    seq(a.Length, k requires 0 <= k < a.Length reads a, set m | 0 <= m < a.Length :: a[m] => BodyOf(a[k]))
  }

  /** No particle object appears twice in the array. */
  predicate Distinct(a: array<Particle>)
    reads a
  {
    forall p, q :: 0 <= p < q < a.Length ==> a[p] != a[q]
  }

  /** The body of one inner iteration, in place on the pair's two objects. */
  method ApplyPair(tm: TsMath, a: array<Particle>, i: nat, j: nat)
    requires i < j < a.Length && Distinct(a) && Massive(a)
    modifies a[i], a[j]
    ensures Bodies(a) == Kick(tm, old(Bodies(a)), i, j)
  {
    var push := PairPush(tm, BodyOf(a[i]), BodyOf(a[j]));
    if push.Some? {
      var f := push.value;
      a[i].dx := a[i].dx - f.x / a[i].mass;
      a[i].dy := a[i].dy - f.y / a[i].mass;
      a[j].dx := a[j].dx + f.x / a[j].mass;
      a[j].dy := a[j].dy + f.y / a[j].mass;
    }
  }

  /** One run of the inner loop: row i of the pass, in place. */
  method ApplyRow(tm: TsMath, a: array<Particle>, i: nat)
    requires i < a.Length && Distinct(a) && Massive(a)
    modifies set k | 0 <= k < a.Length :: a[k]
    ensures Bodies(a) == Row(tm, old(Bodies(a)), i, i + 1)
  {
    ghost var target := Row(tm, Bodies(a), i, i + 1);
    var j := i + 1;
    while j < a.Length
      invariant i < j <= a.Length
      invariant Row(tm, Bodies(a), i, j) == target
    {
      ghost var before := Bodies(a);
      RowStep(tm, before, i, j);
      ApplyPair(tm, a, i, j);
      j := j + 1;
    }
  }

  /**
   * `calculateForces`: the double loop over all pairs i < j, updating the
   * particles' velocities in place and returning the same array.
   */
  method CalculateForces(tm: TsMath, particles: array<Particle>) returns (result: array<Particle>)
    requires Distinct(particles) && Massive(particles)
    modifies set k | 0 <= k < particles.Length :: particles[k]
    ensures result == particles
    ensures Bodies(particles) == TsForces(tm, old(Bodies(particles)))
  {
    ghost var target := TsForces(tm, Bodies(particles));
    var i := 0;
    while i < particles.Length
      invariant 0 <= i <= particles.Length
      invariant Rows(tm, Bodies(particles), i) == target
    {
      ApplyRow(tm, particles, i);
      i := i + 1;
    }
    result := particles;
  }
}
