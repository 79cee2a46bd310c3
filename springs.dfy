/** The spring model of the implicit cloth solver.

    `cloth_calc_spring_force` turns one spring and the current positions and velocities
    into a force and two 3x3 Jacobian blocks, and marks the spring NEEDED when it is
    active; `cloth_apply_spring_force` scatters an active spring into the global force
    vector and into the two block-sparse Jacobians dF/dV and dF/dX. */
module Springs {
  import opened LinAlg
  import opened LongVector
  import opened BlockSparse

  /** FLT_EPSILON, 2^-23. */
  const FltEpsilon: real := 0.00000011920928955078125

  /** ALMOST_ZERO, which the cloth header defines as FLT_EPSILON. */
  const AlmostZero: real := FltEpsilon

  /** The spring type bits the force routine tests. */
  datatype SpringKind = Structural | Shear | Bending | Goal | Sewing

  /** The fields of a `ClothSpring` the force routines read: its type bits, its two
      vertices, the spring slot of its off-diagonal block, its rest length and stiffness. */
  datatype Spring = Spring(kinds: set<SpringKind>, ij: nat, kl: nat, matrixIndex: nat,
                           restlen: real, stiffness: real)

  /** The simulation settings the force routine reads. */
  datatype ClothParams = ClothParams(structural: real, maxStruct: real, bending: real, maxBend: real,
                                     goalspring: real, goalfrict: real, cdis: real,
                                     avgSpringLen: real, maxSewing: real, noCompress: bool)

  /** The goal data of vertex `ij` for a goal spring: the target position at the end and at
      the start of the step, and the goal weight. */
  datatype GoalAnchor = GoalAnchor(xconst: Vec3, xold: Vec3, goal: real)

  /** What `cloth_calc_spring_force` leaves in the spring: the force, the position and the
      velocity Jacobians and the NEEDED flag. */
  datatype SpringState = SpringState(f: Vec3, dfdx: Mat3, dfdv: Mat3, needed: bool)

  /** An inactive spring: everything cleared. */
  const Idle: SpringState := SpringState(ZeroV, Zero, Zero, false)

  function Abs(a: real): real { if a < 0.0 then -a else a }

  // ----------------------------------------------------------------------------------
  // The bending polynomial of Choi and Ko and its piecewise-linear guard.
  // ----------------------------------------------------------------------------------

  /** A polynomial by its coefficients, lowest degree first, evaluated at x. */
  function Eval(c: seq<real>, x: real): real
    decreases |c|
  {
    if |c| == 0 then 0.0 else c[0] + x * Eval(c[1..], x)
  }

  /** The coefficients of the derivative of a polynomial. */
  function Derivative(c: seq<real>): seq<real>
  {
    if |c| <= 1 then [] else seq(|c| - 1, i requires 0 <= i < |c| - 1 => (i + 1) as real * c[i + 1])
  }

  /** The bending curve as a quartic in x = length / L, lowest degree first. */
  const FbCoefficients: seq<real> := [-9.713, 23.116, -39.083, 34.193, -11.541]

  /** `fb`: the bending curve at x = length / L. */
  function Fb(length: real, L: real): real
  {
    var x := Quot(length, L);
    var xx := x * x;
    var xxx := xx * x;
    var xxxx := xxx * x;
    -11.541 * xxxx + 34.193 * xxx - 39.083 * xx + 23.116 * x - 9.713
  }

  /** `fbderiv`: the slope of the bending curve at x = length / L. */
  function FbDeriv(length: real, L: real): real
  {
    var x := Quot(length, L);
    var xx := x * x;
    var xxx := xx * x;
    -46.164 * xxx + 102.579 * xx - 78.166 * x + 23.116
  }

  /** Horner's form of a quartic. */
  lemma EvalQuartic(a0: real, a1: real, a2: real, a3: real, a4: real, x: real)
    ensures Eval([a0, a1, a2, a3, a4], x) == a0 + x * (a1 + x * (a2 + x * (a3 + x * a4)))
  {
    assert [a0, a1, a2, a3, a4][1..] == [a1, a2, a3, a4];
    assert [a1, a2, a3, a4][1..] == [a2, a3, a4];
    assert [a2, a3, a4][1..] == [a3, a4];
    assert [a3, a4][1..] == [a4];
    assert [a4][1..] == [];
    assert Eval([a4], x) == a4 + x * Eval([], x) == a4;
    assert Eval([a3, a4], x) == a3 + x * a4;
    assert Eval([a2, a3, a4], x) == a2 + x * (a3 + x * a4);
    assert Eval([a1, a2, a3, a4], x) == a1 + x * (a2 + x * (a3 + x * a4));
  }

  /** Horner's form of a cubic. */
  lemma EvalCubic(a0: real, a1: real, a2: real, a3: real, x: real)
    ensures Eval([a0, a1, a2, a3], x) == a0 + x * (a1 + x * (a2 + x * a3))
  {
    assert [a0, a1, a2, a3][1..] == [a1, a2, a3];
    assert [a1, a2, a3][1..] == [a2, a3];
    assert [a2, a3][1..] == [a3];
    assert [a3][1..] == [];
    assert Eval([a3], x) == a3 + x * Eval([], x) == a3;
    assert Eval([a2, a3], x) == a2 + x * a3;
    assert Eval([a1, a2, a3], x) == a1 + x * (a2 + x * a3);
  }

  /** `fb` evaluates the quartic whose coefficients are `FbCoefficients`. */
  lemma FbIsQuartic(length: real, L: real)
    ensures Fb(length, L) == Eval(FbCoefficients, Quot(length, L))
  {
    var x := Quot(length, L);
    EvalQuartic(-9.713, 23.116, -39.083, 34.193, -11.541, x);
    QuarticPowers(x);
  }

  lemma QuarticPowers(x: real)
    ensures -11.541 * (((x * x) * x) * x) + 34.193 * ((x * x) * x) - 39.083 * (x * x) + 23.116 * x - 9.713
         == -9.713 + x * (23.116 + x * (-39.083 + x * (34.193 + x * -11.541)))
  {
  }

  lemma CubicPowers(x: real)
    ensures -46.164 * ((x * x) * x) + 102.579 * (x * x) - 78.166 * x + 23.116
         == 23.116 + x * (-78.166 + x * (102.579 + x * -46.164))
  {
  }

  /** `fbderiv` evaluates the derivative, in x, of the quartic `fb` evaluates: its
      coefficients are those of `fb` times their degrees. */
  lemma FbDerivIsDerivative(length: real, L: real)
    ensures FbDeriv(length, L) == Eval(Derivative(FbCoefficients), Quot(length, L))
  {
    var x := Quot(length, L);
    var d := Derivative(FbCoefficients);
    assert d == [23.116, -78.166, 102.579, -46.164] by {
      assert |d| == 4;
      assert d[0] == 1.0 * 23.116;
      assert d[1] == 2.0 * -39.083;
      assert d[2] == 3.0 * 34.193;
      assert d[3] == 4.0 * -11.541;
    }
    EvalCubic(23.116, -78.166, 102.579, -46.164, x);
    CubicPowers(x);
  }

  /** The guard of `fbstar`: the linear bound lies strictly above the scaled curve. */
  predicate LinearBranch(length: real, L: real, kb: real, cb: real)
  {
    kb * Fb(length, L) < cb * (length - L)
  }

  /** `fbstar`: the bending force magnitude, the larger of the scaled curve and the linear
      bound cb (length - L). */
  function FbStar(length: real, L: real, kb: real, cb: real): (r: real)
    ensures r >= kb * Fb(length, L) && r >= cb * (length - L)
    ensures r == kb * Fb(length, L) || r == cb * (length - L)
  {
    if LinearBranch(length, L, kb, cb) then cb * (length - L) else kb * Fb(length, L)
  }

  /** `fbstar_jacobi`: the slope of the branch `fbstar` takes. */
  function FbStarJacobi(length: real, L: real, kb: real, cb: real): real
  {
    if LinearBranch(length, L, kb, cb) then cb else kb * FbDeriv(length, L)
  }

  /** The bending Jacobian always follows the branch whose value the force used: where the
      linear bound is strictly larger it is cb, the slope of cb (length - L); otherwise
      (also on a tie) it is kb times the slope of the curve. */
  lemma JacobianFollowsForceBranch(length: real, L: real, kb: real, cb: real)
    ensures FbStar(length, L, kb, cb) > kb * Fb(length, L) ==> FbStarJacobi(length, L, kb, cb) == cb
    ensures FbStar(length, L, kb, cb) == kb * Fb(length, L)
            ==> FbStarJacobi(length, L, kb, cb) == kb * FbDeriv(length, L)
  {
  }

  // ----------------------------------------------------------------------------------
  // Direction and Jacobian blocks.
  // ----------------------------------------------------------------------------------

  /** `length` is the Euclidean length of the spring's extent X[kl] - X[ij]. */
  predicate SpringLength(X: seq<Vec3>, s: Spring, length: real)
    requires s.ij < |X| && s.kl < |X|
  {
    var extent := Sub(X[s.kl], X[s.ij]);
    0.0 <= length && length * length == Dot(extent, extent)
  }

  /** The unit direction of the extent, or the zero vector when the spring has (almost)
      zero length. */
  function Direction(extent: Vec3, length: real): (d: Vec3)
    requires 0.0 <= length && length * length == Dot(extent, extent)
    ensures length <= AlmostZero ==> d == ZeroV
    ensures length > AlmostZero ==> Dot(d, d) == 1.0 && Scale(d, length) == extent
  {
    if length > AlmostZero then
      var d := Scale(extent, 1.0 / length);
      assert Dot(d, d) == 1.0 by { UnitDirection(extent, length); }
      d
    else Scale(extent, 0.0)
  }

  lemma UnitDirection(extent: Vec3, length: real)
    requires 0.0 < length && length * length == Dot(extent, extent)
    ensures Dot(Scale(extent, 1.0 / length), Scale(extent, 1.0 / length)) == 1.0
  {
    var q := 1.0 / length;
    var d := Scale(extent, q);
    DotScale(extent, q, d);
    DotScale(extent, q, extent);
    assert Dot(extent, d) == Dot(d, extent);
    assert Dot(d, d) == q * (q * Dot(extent, extent));
    assert q * length == 1.0;
  }

  /** `dfdx_spring`: the position Jacobian of a structural spring,
      -k ((I - dir dir^T) L / length - I). */
  function DfdxSpring(dir: Vec3, length: real, L: real, k: real): (m: Mat3)
    ensures Symmetric(m)
  {
    var scaled := MatScale(RankOneComplement(dir), Quot(L, length));
    RankOneComplementSymmetric(dir);
    MatScaleSymmetric(RankOneComplement(dir), Quot(L, length));
    IdentitySymmetric();
    MatSubSymmetric(scaled, Identity);
    MatScaleSymmetric(MatSub(scaled, Identity), -k);
    MatScale(MatSub(scaled, Identity), -k)
  }

  /** `dfdv_damp`: the velocity Jacobian of the spring damping, dir dir^T damping. */
  function DfdvDamp(dir: Vec3, damping: real): (m: Mat3)
    ensures Symmetric(m)
  {
    OuterSelfSymmetric(dir);
    MatScaleSymmetric(Outer(dir, dir), damping);
    MatScale(Outer(dir, dir), damping)
  }

  /** `dfdx_spring_type2`: the position Jacobian of a bending spring, dir dir^T times the
      slope `fbstar_jacobi`. */
  function DfdxSpringType2(dir: Vec3, length: real, L: real, kb: real, cb: real): (m: Mat3)
    ensures Symmetric(m)
  {
    OuterSelfSymmetric(dir);
    MatScaleSymmetric(Outer(dir, dir), FbStarJacobi(length, L, kb, cb));
    MatScale(Outer(dir, dir), FbStarJacobi(length, L, kb, cb))
  }

  /** Along the spring the structural Jacobian is the stiffness k: a stretch of the spring
      by `e dir` changes the force k (length - L) dir by k e dir. */
  lemma StructuralJacobianAlong(dir: Vec3, length: real, L: real, k: real)
    requires Dot(dir, dir) == 1.0
    ensures MulRows(DfdxSpring(dir, length, L, k), dir) == Scale(dir, k)
  {
    var q := Quot(L, length);
    var P := RankOneComplement(dir);
    RankOneComplementSymmetric(dir);
    RankOneComplementApplied(dir, dir);
    SymmetricConventionsAgree(P, dir);
    RemoveUnit(dir, Dot(dir, dir));
    JacobianApplied(P, q, k, dir);
    ScaleZero(k * q);
    SubZeroRight(Scale(dir, k));
  }

  /** Across the spring the structural Jacobian is k (1 - L / length): turning the spring
      keeps its length and only turns the force k (length - L) dir. */
  lemma StructuralJacobianAcross(dir: Vec3, length: real, L: real, k: real, w: Vec3)
    requires Dot(dir, w) == 0.0
    ensures MulRows(DfdxSpring(dir, length, L, k), w) == Scale(w, k * (1.0 - Quot(L, length)))
  {
    ComplementFixesNormal(dir, w);
    JacobianOnFixed(RankOneComplement(dir), Quot(L, length), k, w);
  }

  /** I - dir dir^T fixes every vector normal to dir. */
  lemma ComplementFixesNormal(dir: Vec3, w: Vec3)
    requires Dot(dir, w) == 0.0
    ensures MulRows(RankOneComplement(dir), w) == w
  {
    RankOneComplementSymmetric(dir);
    RankOneComplementApplied(dir, w);
    SymmetricConventionsAgree(RankOneComplement(dir), w);
    RemoveNothing(w, dir, Dot(dir, w));
  }

  /** On a vector that P fixes, -k (P q - I) is the scaling by k (1 - q). */
  lemma JacobianOnFixed(P: Mat3, q: real, k: real, w: Vec3)
    requires MulRows(P, w) == w
    ensures MulRows(MatScale(MatSub(MatScale(P, q), Identity), -k), w) == Scale(w, k * (1.0 - q))
  {
    JacobianApplied(P, q, k, w);
    ScaleDifference(w, k, q);
  }

  /** Removing a unit component: d - d c is zero when c is 1. */
  lemma RemoveUnit(d: Vec3, c: real)
    requires c == 1.0
    ensures Sub(d, Scale(d, c)) == ZeroV
  {
  }

  /** Removing nothing: w - d c is w when c is 0. */
  lemma RemoveNothing(w: Vec3, d: Vec3, c: real)
    requires c == 0.0
    ensures Sub(w, Scale(d, c)) == w
  {
  }

  lemma ScaleZero(s: real)
    ensures Scale(ZeroV, s) == ZeroV
  {
  }

  lemma SubZeroRight(a: Vec3)
    ensures Sub(a, ZeroV) == a
  {
  }

  /** -k (P q - I) applied to v is k v - k q (P v). */
  lemma JacobianApplied(P: Mat3, q: real, k: real, v: Vec3)
    ensures MulRows(MatScale(MatSub(MatScale(P, q), Identity), -k), v)
         == Sub(Scale(v, k), Scale(MulRows(P, v), k * q))
  {
    MulRowsIdentity(v);
    var u := MulRows(P, v);
    MulRowsScale(P, q, v);
    MulRowsMatSubAdd(MatScale(P, q), Identity, v);
    MulRowsScale(MatSub(MatScale(P, q), Identity), -k, v);
    NegatedScale(u, v, q, k);
  }

  lemma NegatedScale(u: Vec3, v: Vec3, q: real, k: real)
    ensures Scale(Sub(Scale(u, q), v), -k) == Sub(Scale(v, k), Scale(u, k * q))
  {
    assert (u.x * q - v.x) * -k == v.x * k - u.x * (k * q);
    assert (u.y * q - v.y) * -k == v.y * k - u.y * (k * q);
    assert (u.z * q - v.z) * -k == v.z * k - u.z * (k * q);
  }

  lemma ScaleDifference(w: Vec3, k: real, q: real)
    ensures Sub(Scale(w, k), Scale(w, k * q)) == Scale(w, k * (1.0 - q))
  {
    assert w.x * k - w.x * (k * q) == w.x * (k * (1.0 - q));
    assert w.y * k - w.y * (k * q) == w.y * (k * (1.0 - q));
    assert w.z * k - w.z * (k * q) == w.z * (k * (1.0 - q));
  }

  /** The damping Jacobian is exact: applied to the relative velocity it gives the
      damping force dir (damping (vel . dir)) the stretch branch adds. */
  lemma DampingJacobianExact(dir: Vec3, damping: real, vel: Vec3)
    ensures MulRows(DfdvDamp(dir, damping), vel) == Scale(dir, AxialDamping(damping, vel, dir))
  {
    MulRowsScale(Outer(dir, dir), damping, vel);
    MulRowsOuterSelf(dir, vel);
    var e := Dot(dir, vel);
    assert e == Dot(vel, dir);
    assert AxialDamping(damping, vel, dir) == damping * e;
    ScaleScale(dir, e, damping);
  }

  // ----------------------------------------------------------------------------------
  // cloth_calc_spring_force
  // ----------------------------------------------------------------------------------

  /** The spring is structural, shear or sewing: it takes the stretch branch. */
  predicate Stretchy(s: Spring)
  {
    Structural in s.kinds || Shear in s.kinds || Sewing in s.kinds
  }

  /** When the force routine marks a spring NEEDED: a stretch spring when stretched (or
      always, with compression switched off), a goal spring always, a bending spring when
      compressed. */
  predicate Needed(p: ClothParams, s: Spring, length: real)
  {
    if Stretchy(s) then length > s.restlen || p.noCompress
    else Goal in s.kinds || length < s.restlen
  }

  /** A spring constant scaled between its setting k and the maximum by the spring's own
      stiffness: k + stiffness |kmax - k|. */
  function Scaling(k: real, kmax: real, stiffness: real): real
  {
    k + stiffness * Abs(kmax - k)
  }

  /** The sewing tension, clamped from above by `max_sewing` so that a long sewing spring
      does not pull the cloth through a collider. */
  function SewingTension(force: real, maxSewing: real): (r: real)
    ensures r <= maxSewing
    ensures force <= maxSewing ==> r == force
    ensures force > maxSewing ==> r == maxSewing
  {
    if force > maxSewing then maxSewing else force
  }

  /** The spring constant of a stretch spring per unit of the average spring length. */
  function StretchStiffness(p: ClothParams, s: Spring): real
  {
    Quot(Scaling(p.structural, p.maxStruct, s.stiffness), p.avgSpringLen + FltEpsilon)
  }

  /** The tension of a stretched spring, k (length - L), capped for a sewing spring. */
  function StretchTension(p: ClothParams, s: Spring, length: real): (t: real)
    ensures Sewing in s.kinds ==> t <= p.maxSewing
    ensures Sewing !in s.kinds || StretchStiffness(p, s) * (length - s.restlen) <= p.maxSewing
            ==> t == StretchStiffness(p, s) * (length - s.restlen)
  {
    var force := StretchStiffness(p, s) * (length - s.restlen);
    if Sewing in s.kinds then SewingTension(force, p.maxSewing) else force
  }

  /** The damping along the spring: a coefficient times the relative velocity along it. */
  function AxialDamping(coefficient: real, vel: Vec3, dir: Vec3): real
  {
    coefficient * Dot(vel, dir)
  }

  /** The stretch branch (structural, shear and sewing springs). */
  function StretchForce(p: ClothParams, s: Spring, dir: Vec3, vel: Vec3, length: real): (st: SpringState)
  {
    if length > s.restlen || p.noCompress then
      var stretch := Scale(dir, StretchTension(p, s, length));
      var damping := Scale(dir, AxialDamping(p.cdis, vel, dir));
      SpringState(Add(stretch, damping), DfdxSpring(dir, length, s.restlen, StretchStiffness(p, s)),
                  DfdvDamp(dir, p.cdis), true)
    else Idle
  }

  /** An active stretch spring: its tension and its damping, both along the spring. */
  lemma StretchForceActive(p: ClothParams, s: Spring, dir: Vec3, vel: Vec3, length: real)
    requires length > s.restlen || p.noCompress
    ensures StretchForce(p, s, dir, vel, length).f
         == Add(Scale(dir, StretchTension(p, s, length)), Scale(dir, AxialDamping(p.cdis, vel, dir)))
  {
  }

  /** Where the goal of a vertex lies at `time` within the step: linearly between its old
      and its new goal position. */
  function GoalTarget(a: GoalAnchor, time: real): (t: Vec3)
    ensures time == 0.0 ==> t == a.xold
    ensures time == 1.0 ==> t == a.xconst
  {
    Add(Scale(Sub(a.xconst, a.xold), time), a.xold)
  }

  /** The goal branch: a pull of vertex ij towards its goal target plus a damping along the
      spring direction; no Jacobian is recorded. */
  function GoalForce(p: ClothParams, s: Spring, a: GoalAnchor, xij: Vec3, dir: Vec3, vel: Vec3,
                     time: real): SpringState
  {
    var extent := Sub(xij, GoalTarget(a, time));
    var k := Quot(a.goal * Scaling(p.goalspring, p.maxStruct, s.stiffness), p.avgSpringLen + FltEpsilon);
    var damping := Scale(dir, AxialDamping(p.goalfrict * 0.01, vel, dir));
    SpringState(Add(Scale(extent, -k), damping), Zero, Zero, true)
  }

  /** The bending branch: active only under compression, with kb = cb. */
  function BendForce(p: ClothParams, s: Spring, dir: Vec3, length: real): SpringState
  {
    if length < s.restlen then
      var k := Quot(Scaling(p.bending, p.maxBend, s.stiffness), 20.0 * (p.avgSpringLen + FltEpsilon));
      SpringState(Scale(dir, FbStar(length, s.restlen, k, k)),
                  DfdxSpringType2(dir, length, s.restlen, k, k), Zero, true)
    else Idle
  }

  /** `cloth_calc_spring_force`: the spring's force and Jacobians from the positions X and
      velocities V; `length` is the length of X[kl] - X[ij], `time` the fraction of the step
      for the goal target. */
  function CalcSpringForce(p: ClothParams, s: Spring, X: seq<Vec3>, V: seq<Vec3>, length: real,
                           a: GoalAnchor, time: real): (st: SpringState)
    requires s.ij < |X| && s.kl < |X| && |V| == |X|
    requires SpringLength(X, s, length)
    ensures st.needed <==> Needed(p, s, length)
    ensures !st.needed ==> st == Idle
    ensures Symmetric(st.dfdx) && Symmetric(st.dfdv)
    ensures !Stretchy(s) ==> st.dfdv == Zero
    ensures !Stretchy(s) && Goal in s.kinds ==> st.dfdx == Zero
  {
    var dir := Direction(Sub(X[s.kl], X[s.ij]), length);
    var vel := Sub(V[s.kl], V[s.ij]);
    if Stretchy(s) then StretchForce(p, s, dir, vel, length)
    else if Goal in s.kinds then GoalForce(p, s, a, X[s.ij], dir, vel, time)
    else BendForce(p, s, dir, length)
  }

  /** Apart from the goal pull, a spring force acts along the spring: it is the spring
      direction times a tension (and zero for a spring of almost zero length). */
  lemma SpringForceIsAxial(p: ClothParams, s: Spring, X: seq<Vec3>, V: seq<Vec3>, length: real,
                           a: GoalAnchor, time: real)
    requires s.ij < |X| && s.kl < |X| && |V| == |X|
    requires SpringLength(X, s, length)
    requires Stretchy(s) || Goal !in s.kinds
    ensures exists t: real :: CalcSpringForce(p, s, X, V, length, a, time).f
                              == Scale(Direction(Sub(X[s.kl], X[s.ij]), length), t)
  {
    var dir := Direction(Sub(X[s.kl], X[s.ij]), length);
    var vel := Sub(V[s.kl], V[s.ij]);
    var st := CalcSpringForce(p, s, X, V, length, a, time);
    if !st.needed {
      assert st.f == Scale(dir, 0.0);
    } else if Stretchy(s) {
      var tension := StretchTension(p, s, length);
      assert st == StretchForce(p, s, dir, vel, length);
      StretchForceActive(p, s, dir, vel, length);
      ScaleSum(dir, tension, AxialDamping(p.cdis, vel, dir));
    } else {
      assert st == BendForce(p, s, dir, length);
    }
  }

  /** An active sewing spring pulls with a tension of at most `max_sewing` beyond its
      damping: the force is dir t + dir (Cdis (vel . dir)) with t <= max_sewing. */
  lemma SewingTensionCapped(p: ClothParams, s: Spring, X: seq<Vec3>, V: seq<Vec3>, length: real,
                            a: GoalAnchor, time: real)
    requires s.ij < |X| && s.kl < |X| && |V| == |X|
    requires SpringLength(X, s, length)
    requires Sewing in s.kinds && Needed(p, s, length)
    ensures exists t: real :: t <= p.maxSewing &&
              CalcSpringForce(p, s, X, V, length, a, time).f
              == Add(Scale(Direction(Sub(X[s.kl], X[s.ij]), length), t),
                     Scale(Direction(Sub(X[s.kl], X[s.ij]), length),
                           AxialDamping(p.cdis, Sub(V[s.kl], V[s.ij]), Direction(Sub(X[s.kl], X[s.ij]), length))))
  {
    var dir := Direction(Sub(X[s.kl], X[s.ij]), length);
    var vel := Sub(V[s.kl], V[s.ij]);
    var t := StretchTension(p, s, length);
    assert CalcSpringForce(p, s, X, V, length, a, time) == StretchForce(p, s, dir, vel, length);
    StretchForceActive(p, s, dir, vel, length);
  }

  // ----------------------------------------------------------------------------------
  // cloth_apply_spring_force
  // ----------------------------------------------------------------------------------

  /** The force vector after an active spring: f is added at ij and, unless the spring is a
      goal spring, subtracted at kl. */
  function ForceAfter(F: seq<Vec3>, s: Spring, st: SpringState): (r: seq<Vec3>)
    requires s.ij < |F| && s.kl < |F|
    ensures |r| == |F|
  {
    if !st.needed then F
    else
      var F1 := F[s.ij := Add(F[s.ij], st.f)];
      if Goal in s.kinds then F1 else F1[s.kl := Sub(F1[s.kl], st.f)]
  }

  /** Block `k` with `J` subtracted from its matrix. */
  function SubBlock(b: seq<Block>, k: nat, J: Mat3): (r: seq<Block>)
    requires k < |b|
    ensures |r| == |b|
  {
    b[k := b[k].(m := MatSub(b[k].m, J))]
  }

  /** Block `k` with `J` added to its matrix. */
  function AddBlock(b: seq<Block>, k: nat, J: Mat3): (r: seq<Block>)
    requires k < |b|
    ensures |r| == |b|
  {
    b[k := b[k].(m := MatAdd(b[k].m, J))]
  }

  /** The scatter of one spring Jacobian: subtracted from the diagonal blocks `first` and
      `second` (in that order), added to the spring's own block `mi`. */
  function Scatter(b: seq<Block>, first: nat, second: nat, mi: nat, J: Mat3): (r: seq<Block>)
    requires first < |b| && second < |b| && mi < |b|
    ensures |r| == |b|
  {
    AddBlock(SubBlock(SubBlock(b, first, J), second, J), mi, J)
  }

  /** dF/dV after the spring: bending springs contribute no velocity Jacobian. */
  function DfdvAfter(b: seq<Block>, s: Spring, st: SpringState): (r: seq<Block>)
    requires s.ij < |b| && s.kl < |b| && s.matrixIndex < |b|
    ensures |r| == |b|
  {
    if st.needed && Bending !in s.kinds then Scatter(b, s.ij, s.kl, s.matrixIndex, st.dfdv) else b
  }

  /** dF/dX after the spring (the diagonal blocks are visited kl first). */
  function DfdxAfter(b: seq<Block>, s: Spring, st: SpringState): (r: seq<Block>)
    requires s.ij < |b| && s.kl < |b| && s.matrixIndex < |b|
    ensures |r| == |b|
  {
    if st.needed then Scatter(b, s.kl, s.ij, s.matrixIndex, st.dfdx) else b
  }

  /** `cloth_apply_spring_force`: scatter an active spring into lF, dFdV and dFdX. */
  method ApplySpringForce(s: Spring, st: SpringState, lF: array<Vec3>, dFdV: array<Block>, dFdX: array<Block>)
    requires s.ij < lF.Length && s.kl < lF.Length
    requires s.ij < dFdV.Length && s.kl < dFdV.Length && s.matrixIndex < dFdV.Length
    requires s.ij < dFdX.Length && s.kl < dFdX.Length && s.matrixIndex < dFdX.Length
    requires dFdV != dFdX
    modifies lF, dFdV, dFdX
    ensures lF[..] == ForceAfter(old(lF[..]), s, st)
    ensures dFdV[..] == DfdvAfter(old(dFdV[..]), s, st)
    ensures dFdX[..] == DfdxAfter(old(dFdX[..]), s, st)
  {
    if st.needed {
      if Bending !in s.kinds {
        dFdV[s.ij] := dFdV[s.ij].(m := MatSub(dFdV[s.ij].m, st.dfdv));
        dFdV[s.kl] := dFdV[s.kl].(m := MatSub(dFdV[s.kl].m, st.dfdv));
        dFdV[s.matrixIndex] := dFdV[s.matrixIndex].(m := MatAdd(dFdV[s.matrixIndex].m, st.dfdv));
      }
      lF[s.ij] := Add(lF[s.ij], st.f);
      if Goal !in s.kinds {
        lF[s.kl] := Sub(lF[s.kl], st.f);
      }
      dFdX[s.kl] := dFdX[s.kl].(m := MatSub(dFdX[s.kl].m, st.dfdx));
      dFdX[s.ij] := dFdX[s.ij].(m := MatSub(dFdX[s.ij].m, st.dfdx));
      dFdX[s.matrixIndex] := dFdX[s.matrixIndex].(m := MatAdd(dFdX[s.matrixIndex].m, st.dfdx));
    }
  }

  /** The scatter of a spring touches only its two vertices and its own block: every other
      force entry and every other Jacobian block is left as it was. */
  lemma ScatterTouchesOnlySpringSlots(F: seq<Vec3>, b: seq<Block>, s: Spring, st: SpringState, k: nat)
    requires s.ij < |F| && s.kl < |F|
    requires s.ij < |b| && s.kl < |b| && s.matrixIndex < |b|
    ensures k < |F| && k != s.ij && k != s.kl ==> ForceAfter(F, s, st)[k] == F[k]
    ensures k < |b| && k != s.ij && k != s.kl && k != s.matrixIndex ==>
              DfdxAfter(b, s, st)[k] == b[k] && DfdvAfter(b, s, st)[k] == b[k]
  {
  }

  /** A spring between two different vertices pushes them apart (or together) with equal
      and opposite forces, except a goal spring, which pulls only its own vertex. */
  lemma ScatterForceEntries(F: seq<Vec3>, s: Spring, st: SpringState)
    requires s.ij < |F| && s.kl < |F| && s.ij != s.kl && st.needed
    ensures ForceAfter(F, s, st)[s.ij] == Add(F[s.ij], st.f)
    ensures Goal !in s.kinds ==> ForceAfter(F, s, st)[s.kl] == Sub(F[s.kl], st.f)
    ensures Goal in s.kinds ==> ForceAfter(F, s, st)[s.kl] == F[s.kl]
  {
  }

  // ----------------------------------------------------------------------------------
  // Action and reaction.
  // ----------------------------------------------------------------------------------

  /** The sum of all the entries of a long vector. */
  function VecSum(a: seq<Vec3>): Vec3
    decreases |a|
  {
    if |a| == 0 then ZeroV else Add(VecSum(a[..|a| - 1]), a[|a| - 1])
  }

  /** Replacing one entry changes the sum by the difference. */
  lemma {:induction false} VecSumUpdate(a: seq<Vec3>, i: nat, v: Vec3)
    requires i < |a|
    ensures VecSum(a[i := v]) == Add(Sub(VecSum(a), a[i]), v)
    decreases |a|
  {
    var n := |a| - 1;
    if i == n {
      assert a[i := v][..n] == a[..n];
    } else {
      assert a[i := v][..n] == a[..n][i := v];
      VecSumUpdate(a[..n], i, v);
    }
  }

  /** Action and reaction: an ordinary spring pushes its two vertices with opposite forces,
      so the total force is unchanged; only a goal spring (anchored outside the cloth) adds
      its force to the total. */
  lemma TotalForceConserved(F: seq<Vec3>, s: Spring, st: SpringState)
    requires s.ij < |F| && s.kl < |F|
    ensures Goal !in s.kinds || !st.needed ==> VecSum(ForceAfter(F, s, st)) == VecSum(F)
    ensures Goal in s.kinds && st.needed ==> VecSum(ForceAfter(F, s, st)) == Add(VecSum(F), st.f)
  {
    if st.needed {
      var F1 := F[s.ij := Add(F[s.ij], st.f)];
      VecSumUpdate(F, s.ij, Add(F[s.ij], st.f));
      if Goal !in s.kinds {
        VecSumUpdate(F1, s.kl, Sub(F1[s.kl], st.f));
      }
    }
  }

  /** Subtracting or adding a block matrix changes the product term by the block times the
      vector. */
  lemma MulRowsMatSubAdd(m: Mat3, J: Mat3, v: Vec3)
    ensures MulRows(MatSub(m, J), v) == Sub(MulRows(m, v), MulRows(J, v))
    ensures MulRows(MatAdd(m, J), v) == Add(MulRows(m, v), MulRows(J, v))
  {
  }

  /** A new matrix in block `k`: the first pass changes at the block's column by the
      difference of the two products. */
  lemma {:induction false} SpringSumUpdate(b: seq<Block>, v: seq<Vec3>, x: nat, hi: nat, k: nat, m2: Mat3)
    requires ProductReady(b, |v|) && b[0].vcount <= hi <= |b| && k < |b|
    ensures ProductReady(b[k := b[k].(m := m2)], |v|)
    ensures SpringSum(b[k := b[k].(m := m2)], v, x, hi)
         == if b[0].vcount <= k < hi && b[k].c == x
            then Add(SpringSum(b, v, x, hi), Sub(MulRows(m2, v[b[k].r]), MulRows(b[k].m, v[b[k].r])))
            else SpringSum(b, v, x, hi)
    decreases hi
  {
    var b2 := b[k := b[k].(m := m2)];
    assert b2[0].vcount == b[0].vcount && b2[0].scount == b[0].scount;
    if hi > b[0].vcount {
      SpringSumUpdate(b, v, x, hi - 1, k, m2);
    }
  }

  /** A new matrix in block `k`: the second pass changes at the block's row. */
  lemma {:induction false} BlockSumUpdate(b: seq<Block>, v: seq<Vec3>, x: nat, hi: nat, k: nat, m2: Mat3)
    requires ProductReady(b, |v|) && hi <= |b| && k < |b|
    ensures ProductReady(b[k := b[k].(m := m2)], |v|)
    ensures BlockSum(b[k := b[k].(m := m2)], v, x, hi)
         == if k < hi && b[k].r == x
            then Add(BlockSum(b, v, x, hi), Sub(MulRows(m2, v[b[k].c]), MulRows(b[k].m, v[b[k].c])))
            else BlockSum(b, v, x, hi)
    decreases hi
  {
    var b2 := b[k := b[k].(m := m2)];
    assert b2[0].vcount == b[0].vcount && b2[0].scount == b[0].scount;
    if hi > 0 {
      BlockSumUpdate(b, v, x, hi - 1, k, m2);
    }
  }

  /** On a constant vector, subtracting J from diagonal block `d` lowers product entry `d`
      by J c and leaves the others alone. */
  lemma DiagonalUpdateOnConstant(b: seq<Block>, n: nat, c: Vec3, d: nat, J: Mat3, x: nat)
    requires ProductReady(b, n) && DiagonalTags(b) && d < n && x < n
    ensures ProductReady(SubBlock(b, d, J), n) && DiagonalTags(SubBlock(b, d, J))
    ensures SparseProduct(SubBlock(b, d, J), Constant(c, n))[x]
         == if x == d then Sub(SparseProduct(b, Constant(c, n))[x], MulRows(J, c))
            else SparseProduct(b, Constant(c, n))[x]
  {
    var v := Constant(c, n);
    SpringSumUpdate(b, v, x, |b|, d, MatSub(b[d].m, J));
    BlockSumUpdate(b, v, x, |b|, d, MatSub(b[d].m, J));
    MulRowsMatSubAdd(b[d].m, J, c);
  }

  /** On a constant vector, adding J to the spring block `mi` tagged (ij, kl) raises product
      entries ij and kl by J c (both when ij == kl). */
  lemma SpringUpdateOnConstant(b: seq<Block>, n: nat, c: Vec3, mi: nat, J: Mat3, x: nat)
    requires ProductReady(b, n) && n <= mi < |b| && x < n
    ensures ProductReady(AddBlock(b, mi, J), n)
    ensures SparseProduct(AddBlock(b, mi, J), Constant(c, n))[x]
         == Add(Add(SparseProduct(b, Constant(c, n))[x],
                    if b[mi].c == x then MulRows(J, c) else ZeroV),
                if b[mi].r == x then MulRows(J, c) else ZeroV)
  {
    var v := Constant(c, n);
    SpringSumUpdate(b, v, x, |b|, mi, MatAdd(b[mi].m, J));
    BlockSumUpdate(b, v, x, |b|, mi, MatAdd(b[mi].m, J));
    MulRowsMatSubAdd(b[mi].m, J, c);
  }

  /** A scattered spring Jacobian ignores a rigid translation: the product of the matrix
      with a constant vector (every vertex moved, or moving, by the same c) is what it was,
      because the diagonal blocks lose what the spring block gains. */
  lemma ScatterIgnoresTranslation(b: seq<Block>, n: nat, ij: nat, kl: nat, first: nat, second: nat, mi: nat,
                                  J: Mat3, c: Vec3)
    requires ProductReady(b, n) && DiagonalTags(b)
    requires ij < n && kl < n && n <= mi < |b|
    requires b[mi].r == ij && b[mi].c == kl
    requires (first == ij && second == kl) || (first == kl && second == ij)
    ensures ProductReady(Scatter(b, first, second, mi, J), n)
    ensures SparseProduct(Scatter(b, first, second, mi, J), Constant(c, n)) == SparseProduct(b, Constant(c, n))
  {
    var v := Constant(c, n);
    var b1 := SubBlock(b, first, J);
    var b2 := SubBlock(b1, second, J);
    var b3 := AddBlock(b2, mi, J);
    forall x | 0 <= x < n
      ensures SparseProduct(b3, v)[x] == SparseProduct(b, v)[x]
    {
      DiagonalUpdateOnConstant(b, n, c, first, J, x);
      DiagonalUpdateOnConstant(b1, n, c, second, J, x);
      SpringUpdateOnConstant(b2, n, c, mi, J, x);
      assert b2[mi] == b[mi].(m := b2[mi].m);
      TranslationCancels(SparseProduct(b, v)[x], MulRows(J, c), x, first, second, b2[mi].r, b2[mi].c);
    }
    DiagonalUpdateOnConstant(b, n, c, first, J, 0);
    DiagonalUpdateOnConstant(b1, n, c, second, J, 0);
    SpringUpdateOnConstant(b2, n, c, mi, J, 0);
  }

  /** Entry x of the product after a scatter: J c taken off at `first` and `second`, added
      back at the spring block's column c and row r, which are the same two vertices. */
  lemma TranslationCancels(p: Vec3, u: Vec3, x: nat, first: nat, second: nat, r: nat, c: nat)
    requires (first == r && second == c) || (first == c && second == r)
    ensures Add(Add(if x == second then Sub(if x == first then Sub(p, u) else p, u)
                    else (if x == first then Sub(p, u) else p),
                    if c == x then u else ZeroV),
                if r == x then u else ZeroV) == p
  {
  }

  /** The Jacobians a spring leaves in dF/dX and dF/dV ignore rigid translations, as the
      force of a spring depends only on the difference of its two ends. */
  lemma SpringJacobiansIgnoreTranslation(b: seq<Block>, n: nat, s: Spring, st: SpringState, c: Vec3)
    requires ProductReady(b, n) && DiagonalTags(b)
    requires s.ij < n && s.kl < n && n <= s.matrixIndex < |b|
    requires b[s.matrixIndex].r == s.ij && b[s.matrixIndex].c == s.kl
    ensures ProductReady(DfdxAfter(b, s, st), n) && ProductReady(DfdvAfter(b, s, st), n)
    ensures SparseProduct(DfdxAfter(b, s, st), Constant(c, n)) == SparseProduct(b, Constant(c, n))
    ensures SparseProduct(DfdvAfter(b, s, st), Constant(c, n)) == SparseProduct(b, Constant(c, n))
  {
    ScatterIgnoresTranslation(b, n, s.ij, s.kl, s.kl, s.ij, s.matrixIndex, st.dfdx, c);
    ScatterIgnoresTranslation(b, n, s.ij, s.kl, s.ij, s.kl, s.matrixIndex, st.dfdv, c);
  }

  /** A scatter keeps the layout, and adding a symmetric block keeps every spring block
      symmetric, which is what makes the untransposed product the symmetric one. */
  lemma ScatterKeepsSymmetry(b: seq<Block>, first: nat, second: nat, mi: nat, J: Mat3)
    requires |b| > 0 && first < b[0].vcount && second < b[0].vcount && b[0].vcount <= mi < |b|
    requires SymmetricSpringBlocks(b) && Symmetric(J)
    ensures SameLayout(b, Scatter(b, first, second, mi, J))
    ensures SymmetricSpringBlocks(Scatter(b, first, second, mi, J))
  {
    var r := Scatter(b, first, second, mi, J);
    assert r[0].vcount == b[0].vcount;
    forall k | b[0].vcount <= k < |r|
      ensures Symmetric(r[k].m)
    {
      if k == mi {
        assert Symmetric(b[mi].m);
      }
    }
  }
}
