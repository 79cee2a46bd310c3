/** Dense 3-vectors and 3x3 matrices over the reals: the per-vertex algebra that the
    block-sparse matrix, the constraint filter and the spring model are built from.

    A matrix is stored row by row, like the C array `float m[3][3]` (row `i` is `m[i]`).
    Two matrix-vector products appear in the solver and they use different conventions:
    - `MulRows(m, v)` is row i dotted with v (the file's `mul_fmatrix_fvector`, used by
      `muladd_fmatrix_fvector` in the sparse product, and BLI's `mul_transposed_m3_v3`);
    - `MulCols(m, v)` is column i dotted with v (the file's `mul_fvector_fmatrix`, and
      BLI's `mul_m3_v3`, which `filter` uses).
    They agree exactly on symmetric matrices. */
module LinAlg {

  datatype Vec3 = Vec3(x: real, y: real, z: real)

  /** Row-major 3x3 matrix: r0, r1, r2 are the C rows m[0], m[1], m[2]. */
  datatype Mat3 = Mat3(r0: Vec3, r1: Vec3, r2: Vec3)

  const ZeroV: Vec3 := Vec3(0.0, 0.0, 0.0)
  const Zero: Mat3 := Mat3(ZeroV, ZeroV, ZeroV)
  const Identity: Mat3 := Mat3(Vec3(1.0, 0.0, 0.0), Vec3(0.0, 1.0, 0.0), Vec3(0.0, 0.0, 1.0))

  function Add(a: Vec3, b: Vec3): Vec3 { Vec3(a.x + b.x, a.y + b.y, a.z + b.z) }

  function Sub(a: Vec3, b: Vec3): Vec3 { Vec3(a.x - b.x, a.y - b.y, a.z - b.z) }

  function Scale(a: Vec3, s: real): Vec3 { Vec3(a.x * s, a.y * s, a.z * s) }

  function Dot(a: Vec3, b: Vec3): real { a.x * b.x + a.y * b.y + a.z * b.z }

  /** Component `axis` of a vector, as `vec[axis]` in C. */
  function Get(a: Vec3, axis: nat): real
    requires axis < 3
  {
    if axis == 0 then a.x else if axis == 1 then a.y else a.z
  }

  /** Row convention: component i is row i dotted with v. */
  function MulRows(m: Mat3, v: Vec3): Vec3 { Vec3(Dot(m.r0, v), Dot(m.r1, v), Dot(m.r2, v)) }

  /** Column convention: component i is column i dotted with v. */
  function MulCols(m: Mat3, v: Vec3): Vec3
  {
    Vec3(m.r0.x * v.x + m.r1.x * v.y + m.r2.x * v.z,
         m.r0.y * v.x + m.r1.y * v.y + m.r2.y * v.z,
         m.r0.z * v.x + m.r1.z * v.y + m.r2.z * v.z)
  }

  function Transpose(m: Mat3): Mat3
  {
    Mat3(Vec3(m.r0.x, m.r1.x, m.r2.x), Vec3(m.r0.y, m.r1.y, m.r2.y), Vec3(m.r0.z, m.r1.z, m.r2.z))
  }

  function MatAdd(a: Mat3, b: Mat3): Mat3 { Mat3(Add(a.r0, b.r0), Add(a.r1, b.r1), Add(a.r2, b.r2)) }

  function MatSub(a: Mat3, b: Mat3): Mat3 { Mat3(Sub(a.r0, b.r0), Sub(a.r1, b.r1), Sub(a.r2, b.r2)) }

  function MatScale(a: Mat3, s: real): Mat3 { Mat3(Scale(a.r0, s), Scale(a.r1, s), Scale(a.r2, s)) }

  /** Outer product a b^T: row i is b scaled by a[i] (the file's `mul_fvectorT_fvector`). */
  function Outer(a: Vec3, b: Vec3): Mat3 { Mat3(Scale(b, a.x), Scale(b, a.y), Scale(b, a.z)) }

  /** Row i of the product a b: the rows of b combined with the weights of row i of a. */
  function RowTimes(w: Vec3, b: Mat3): Vec3
  {
    Add(Add(Scale(b.r0, w.x), Scale(b.r1, w.y)), Scale(b.r2, w.z))
  }

  /** The matrix product a b. */
  function MatMul(a: Mat3, b: Mat3): Mat3 { Mat3(RowTimes(a.r0, b), RowTimes(a.r1, b), RowTimes(a.r2, b)) }

  predicate Symmetric(m: Mat3) { m == Transpose(m) }

  /** A projector: applying it twice is applying it once. */
  predicate Idempotent(m: Mat3) { MatMul(m, m) == m }

  /** A float quotient whose divisor may be zero (where the float division would give an
      infinity or NaN): the model yields 0 there. */
  function Quot(a: real, b: real): (q: real)
    ensures b == 0.0 ==> q == 0.0
  {
    if b == 0.0 then 0.0 else a / b
  }

  /** Away from a zero divisor `Quot` is the exact quotient. */
  lemma QuotExact(a: real, b: real)
    requires b != 0.0
    ensures Quot(a, b) * b == a
  {
  }

  lemma AddZeroRight(a: Vec3)
    ensures Add(a, ZeroV) == a && Add(ZeroV, a) == a
  {
  }

  lemma MulRowsZero(v: Vec3)
    ensures MulRows(Zero, v) == ZeroV
  {
  }

  lemma MulRowsIdentity(v: Vec3)
    ensures MulRows(Identity, v) == v
  {
  }

  /** The two product conventions differ by a transpose. */
  lemma MulColsIsTransposedRows(m: Mat3, v: Vec3)
    ensures MulCols(m, v) == MulRows(Transpose(m), v)
  {
  }

  /** On a symmetric block the two conventions give the same vector. */
  lemma SymmetricConventionsAgree(m: Mat3, v: Vec3)
    requires Symmetric(m)
    ensures MulCols(m, v) == MulRows(m, v)
  {
    MulColsIsTransposedRows(m, v);
  }

  /** `MulCols` is linear in its vector argument. */
  lemma MulColsLinear(m: Mat3, a: Vec3, b: Vec3, s: real)
    ensures MulCols(m, Add(a, Scale(b, s))) == Add(MulCols(m, a), Scale(MulCols(m, b), s))
  {
    MulColsAdd(m, a, Scale(b, s));
    MulColsScale(m, b, s);
  }

  /** `MulRows` is linear in its vector argument. */
  lemma MulRowsLinear(m: Mat3, a: Vec3, b: Vec3, s: real)
    ensures MulRows(m, Add(a, Scale(b, s))) == Add(MulRows(m, a), Scale(MulRows(m, b), s))
  {
    MulRowsAdd(m, a, Scale(b, s));
    MulRowsScaleVector(m, b, s);
  }

  lemma MulRowsAdd(m: Mat3, a: Vec3, b: Vec3)
    ensures MulRows(m, Add(a, b)) == Add(MulRows(m, a), MulRows(m, b))
  {
    DotAdd(m.r0, a, b);
    DotAdd(m.r1, a, b);
    DotAdd(m.r2, a, b);
  }

  lemma MulRowsScaleVector(m: Mat3, a: Vec3, s: real)
    ensures MulRows(m, Scale(a, s)) == Scale(MulRows(m, a), s)
  {
    DotScaleRight(m.r0, a, s);
    DotScaleRight(m.r1, a, s);
    DotScaleRight(m.r2, a, s);
  }

  lemma MulColsAdd(m: Mat3, a: Vec3, b: Vec3)
    ensures MulCols(m, Add(a, b)) == Add(MulCols(m, a), MulCols(m, b))
  {
    MulColsIsTransposedRows(m, Add(a, b));
    MulColsIsTransposedRows(m, a);
    MulColsIsTransposedRows(m, b);
    MulRowsAdd(Transpose(m), a, b);
  }

  lemma MulColsScale(m: Mat3, a: Vec3, s: real)
    ensures MulCols(m, Scale(a, s)) == Scale(MulCols(m, a), s)
  {
    MulColsIsTransposedRows(m, Scale(a, s));
    MulColsIsTransposedRows(m, a);
    MulRowsScaleVector(Transpose(m), a, s);
  }

  lemma DotAdd(p: Vec3, a: Vec3, b: Vec3)
    ensures Dot(p, Add(a, b)) == Dot(p, a) + Dot(p, b)
  {
    var t := Add(a, b);
    AddThrough(p, a, b, t.x, t.y, t.z);
  }

  lemma DotScaleRight(p: Vec3, a: Vec3, s: real)
    ensures Dot(p, Scale(a, s)) == Dot(p, a) * s
  {
    var t := Scale(a, s);
    ScaleThrough(p, a, t.x, t.y, t.z, Dot(p, a), s);
  }

  /** The scalar core of `DotAdd`, with the components of a + b as plain numbers. */
  lemma AddThrough(p: Vec3, a: Vec3, b: Vec3, x: real, y: real, z: real)
    requires x == a.x + b.x && y == a.y + b.y && z == a.z + b.z
    ensures p.x * x + p.y * y + p.z * z == (p.x * a.x + p.y * a.y + p.z * a.z) + (p.x * b.x + p.y * b.y + p.z * b.z)
  {
  }

  /** The scalar core of `DotScaleRight`, with the components of a s and p . a as plain
      numbers. */
  lemma ScaleThrough(p: Vec3, a: Vec3, x: real, y: real, z: real, d: real, s: real)
    requires x == a.x * s && y == a.y * s && z == a.z * s
    requires d == p.x * a.x + p.y * a.y + p.z * a.z
    ensures p.x * x + p.y * y + p.z * z == d * s
  {
  }

  /** Regrouping two scaled sums with a common factor. */
  lemma AddScaleInterchange(a: Vec3, b: Vec3, c: Vec3, d: Vec3, s: real)
    ensures Add(Add(a, Scale(b, s)), Add(c, Scale(d, s))) == Add(Add(a, c), Scale(Add(b, d), s))
  {
  }

  /** Subtracting a scaled step is adding the step scaled by the negated factor. */
  lemma SubAddScale(b: Vec3, a: Vec3, c: Vec3, s: real)
    ensures Sub(b, Add(a, Scale(c, s))) == Add(Sub(b, a), Scale(c, -s))
  {
  }

  /** Moving a scaled step past a subtraction. */
  lemma AddScaleSub(a: Vec3, c: Vec3, z: Vec3, s: real)
    ensures Sub(Add(a, Scale(c, s)), z) == Add(Sub(a, z), Scale(c, s))
  {
  }

  /** The row product of the combination t - (a aS + b bS) is the same combination of the
      row products. */
  lemma MulRowsSubAdd(t: Mat3, a: Mat3, aS: real, b: Mat3, bS: real, v: Vec3)
    ensures MulRows(MatSub(t, MatAdd(MatScale(a, aS), MatScale(b, bS))), v)
      == Sub(MulRows(t, v), Add(Scale(MulRows(a, v), aS), Scale(MulRows(b, v), bS)))
  {
    SubAddAtX(t, a, aS, b, bS, v);
    SubAddAtY(t, a, aS, b, bS, v);
    SubAddAtZ(t, a, aS, b, bS, v);
  }
  /** Component x of `MulRowsSubAdd` (and y, z below). */
  lemma SubAddAtX(t: Mat3, a: Mat3, aS: real, b: Mat3, bS: real, v: Vec3)
    ensures MulRows(MatSub(t, MatAdd(MatScale(a, aS), MatScale(b, bS))), v).x
      == Sub(MulRows(t, v), Add(Scale(MulRows(a, v), aS), Scale(MulRows(b, v), bS))).x
  {
    var m := MatSub(t, MatAdd(MatScale(a, aS), MatScale(b, bS)));
    var mt, ma, mb := MulRows(t, v), MulRows(a, v), MulRows(b, v);
    SubAddComponents(mt, ma, mb, aS, bS);
    SubAddRow(t.r0, a.r0, aS, b.r0, bS, v, m.r0, MulRows(m, v).x, mt.x, ma.x, mb.x,
              Sub(mt, Add(Scale(ma, aS), Scale(mb, bS))).x);
  }
  lemma SubAddAtY(t: Mat3, a: Mat3, aS: real, b: Mat3, bS: real, v: Vec3)
    ensures MulRows(MatSub(t, MatAdd(MatScale(a, aS), MatScale(b, bS))), v).y
      == Sub(MulRows(t, v), Add(Scale(MulRows(a, v), aS), Scale(MulRows(b, v), bS))).y
  {
    var m := MatSub(t, MatAdd(MatScale(a, aS), MatScale(b, bS)));
    var mt, ma, mb := MulRows(t, v), MulRows(a, v), MulRows(b, v);
    SubAddComponents(mt, ma, mb, aS, bS);
    SubAddRow(t.r1, a.r1, aS, b.r1, bS, v, m.r1, MulRows(m, v).y, mt.y, ma.y, mb.y,
              Sub(mt, Add(Scale(ma, aS), Scale(mb, bS))).y);
  }
  lemma SubAddAtZ(t: Mat3, a: Mat3, aS: real, b: Mat3, bS: real, v: Vec3)
    ensures MulRows(MatSub(t, MatAdd(MatScale(a, aS), MatScale(b, bS))), v).z
      == Sub(MulRows(t, v), Add(Scale(MulRows(a, v), aS), Scale(MulRows(b, v), bS))).z
  {
    var m := MatSub(t, MatAdd(MatScale(a, aS), MatScale(b, bS)));
    var mt, ma, mb := MulRows(t, v), MulRows(a, v), MulRows(b, v);
    SubAddComponents(mt, ma, mb, aS, bS);
    SubAddRow(t.r2, a.r2, aS, b.r2, bS, v, m.r2, MulRows(m, v).z, mt.z, ma.z, mb.z,
              Sub(mt, Add(Scale(ma, aS), Scale(mb, bS))).z);
  }
  /** One row of `MulRowsSubAdd`, with every dot product given as a number. */
  lemma SubAddRow(t: Vec3, a: Vec3, aS: real, b: Vec3, bS: real, v: Vec3, d: Vec3,
                  l: real, kt: real, ka: real, kb: real, r: real)
    requires d == Sub(t, Add(Scale(a, aS), Scale(b, bS)))
    requires l == Dot(d, v) && kt == Dot(t, v) && ka == Dot(a, v) && kb == Dot(b, v)
    requires r == kt - (ka * aS + kb * bS)
    ensures l == r
  {
    DotSubAdd(t, a, aS, b, bS, v, d, ka, kb);
  }

  /** t - (a aS + b bS) component by component. */
  lemma SubAddComponents(p: Vec3, q: Vec3, r: Vec3, aS: real, bS: real)
    ensures Sub(p, Add(Scale(q, aS), Scale(r, bS)))
      == Vec3(p.x - (q.x * aS + r.x * bS), p.y - (q.y * aS + r.y * bS), p.z - (q.z * aS + r.z * bS))
  {
  }

  /** The dot product of a row of t - (a aS + b bS), with a . v and b . v given as ka and kb. */
  lemma DotSubAdd(t: Vec3, a: Vec3, aS: real, b: Vec3, bS: real, v: Vec3, d: Vec3, ka: real, kb: real)
    requires d == Sub(t, Add(Scale(a, aS), Scale(b, bS)))
    requires ka == Dot(a, v) && kb == Dot(b, v)
    ensures Dot(d, v) == Dot(t, v) - (ka * aS + kb * bS)
  {
    ScalarSubAdd(t.x, a.x, aS, b.x, bS, v.x, d.x);
    ScalarSubAdd(t.y, a.y, aS, b.y, bS, v.y, d.y);
    ScalarSubAdd(t.z, a.z, aS, b.z, bS, v.z, d.z);
    Distribute3(a.x * v.x, a.y * v.y, a.z * v.z, ka, aS);
    Distribute3(b.x * v.x, b.y * v.y, b.z * v.z, kb, bS);
  }

  /** One component of `DotSubAdd`, with d = t - (a aS + b bS) given as a number. */
  lemma ScalarSubAdd(t: real, a: real, aS: real, b: real, bS: real, v: real, d: real)
    requires d == t - (a * aS + b * bS)
    ensures d * v == t * v - ((a * v) * aS + (b * v) * bS)
  {
  }

  /** A factor distributes over a sum of three terms. */
  lemma Distribute3(x: real, y: real, z: real, sum: real, s: real)
    requires sum == x + y + z
    ensures sum * s == x * s + y * s + z * s
  {
  }

  /** Two partial sums of t - (a aS + b bS) terms add up termwise. */
  lemma SubAddRegroup(p: Vec3, q: Vec3, r: Vec3, p2: Vec3, q2: Vec3, r2: Vec3, aS: real, bS: real)
    ensures Add(Sub(p, Add(Scale(q, aS), Scale(r, bS))), Sub(p2, Add(Scale(q2, aS), Scale(r2, bS))))
      == Sub(Add(p, p2), Add(Scale(Add(q, q2), aS), Scale(Add(r, r2), bS)))
  {
    var u, w := Add(q, q2), Add(r, r2);
    RegroupScalar(p.x, q.x, r.x, p2.x, q2.x, r2.x, u.x, w.x, aS, bS);
    RegroupScalar(p.y, q.y, r.y, p2.y, q2.y, r2.y, u.y, w.y, aS, bS);
    RegroupScalar(p.z, q.z, r.z, p2.z, q2.z, r2.z, u.z, w.z, aS, bS);
  }

  /** One component of `SubAddRegroup`, with q + q2 and r + r2 as plain numbers. */
  lemma RegroupScalar(p: real, q: real, r: real, p2: real, q2: real, r2: real, u: real, w: real, aS: real, bS: real)
    requires u == q + q2 && w == r + r2
    ensures (p - (q * aS + r * bS)) + (p2 - (q2 * aS + r2 * bS)) == (p + p2) - (u * aS + w * bS)
  {
  }

  /** The combination of three zero vectors is zero. */
  lemma SubAddZero(aS: real, bS: real)
    ensures Sub(ZeroV, Add(Scale(ZeroV, aS), Scale(ZeroV, bS))) == ZeroV
  {
  }

  lemma MulColsIdentity(v: Vec3)
    ensures MulCols(Identity, v) == v
  {
  }

  /** Row i of the product `a b` is b applied to row i of a in the column convention. */
  lemma RowTimesIsMulCols(w: Vec3, m: Mat3)
    ensures RowTimes(w, m) == MulCols(m, w)
  {
  }

  /** Filtering an entry twice through a projector is filtering it once. */
  lemma {:induction false} ProjectorTwice(m: Mat3, v: Vec3)
    requires Idempotent(m)
    ensures MulCols(m, MulCols(m, v)) == MulCols(m, v)
  {
    // m v is the combination of the rows of m weighted by v, and m fixes each of its rows
    var p0, p1, p2 := Scale(m.r0, v.x), Scale(m.r1, v.y), Scale(m.r2, v.z);
    RowTimesIsMulCols(v, m);
    MulColsAdd(m, Add(p0, p1), p2);
    MulColsAdd(m, p0, p1);
    MulColsScale(m, m.r0, v.x);
    MulColsScale(m, m.r1, v.y);
    MulColsScale(m, m.r2, v.z);
    RowTimesIsMulCols(m.r0, m);
    RowTimesIsMulCols(m.r1, m);
    RowTimesIsMulCols(m.r2, m);
  }

  /** The rows of the identity, spelled out. */
  lemma IdentityRows()
    ensures Identity.r0 == Vec3(1.0, 0.0, 0.0)
    ensures Identity.r1 == Vec3(0.0, 1.0, 0.0)
    ensures Identity.r2 == Vec3(0.0, 0.0, 1.0)
  {
  }

  lemma RowTimesIdentity(w: Vec3)
    ensures RowTimes(w, Identity) == w
  {
    IdentityRows();
  }

  lemma ZeroIsProjector()
    ensures Idempotent(Zero)
  {
    assert Scale(ZeroV, 0.0) == ZeroV;
    assert RowTimes(ZeroV, Zero) == ZeroV;
  }

  lemma IdentityIsProjector()
    ensures Idempotent(Identity)
  {
    UnitRowTimes(Identity);
  }

  /** The only vector fixed by the zero projector is the zero vector. */
  lemma ZeroFixesOnlyZero(d: Vec3)
    requires MulCols(Zero, d) == d
    ensures d == ZeroV
  {
  }

  lemma OuterSelfSymmetric(p: Vec3)
    ensures Symmetric(Outer(p, p))
  {
  }

  /** Row i of the identity times m is row i of m. */
  lemma UnitRowTimes(m: Mat3)
    ensures RowTimes(Identity.r0, m) == m.r0
    ensures RowTimes(Identity.r1, m) == m.r1
    ensures RowTimes(Identity.r2, m) == m.r2
  {
    IdentityRows();
    assert Scale(m.r0, 1.0) == m.r0 && Scale(m.r1, 1.0) == m.r1 && Scale(m.r2, 1.0) == m.r2;
    assert Scale(m.r0, 0.0) == ZeroV && Scale(m.r1, 0.0) == ZeroV && Scale(m.r2, 0.0) == ZeroV;
  }

  /** I - p p^T: removes the component along p (the two-DOF constraint filter). */
  function RankOneComplement(p: Vec3): Mat3 { MatSub(Identity, Outer(p, p)) }

  /** I - p p^T - q q^T: removes the components along p and q (the one-DOF filter). */
  function RankTwoComplement(p: Vec3, q: Vec3): Mat3 { MatSub(MatSub(Identity, Outer(p, p)), Outer(q, q)) }

  /** The filter block I - p p^T scales the component of v along p by 1 - |p|^2: for a unit
      p it removes that component. */
  lemma RankOneComplementAlong(p: Vec3, v: Vec3)
    ensures Dot(p, MulCols(RankOneComplement(p), v)) == Dot(p, v) * (1.0 - Dot(p, p))
  {
    RankOneComplementApplied(p, v);
    RemoveAlong(p, v, MulCols(RankOneComplement(p), v));
  }

  /** v - p (p . v) has p . v (1 - p . p) as its component along p. */
  lemma RemoveAlong(p: Vec3, v: Vec3, r: Vec3)
    requires r == Sub(v, Scale(p, Dot(p, v)))
    ensures Dot(p, r) == Dot(p, v) * (1.0 - Dot(p, p))
  {
    var k, q := Dot(p, v), Dot(p, p);
    ScalarRemoveAlong(p.x, v.x, k, r.x);
    ScalarRemoveAlong(p.y, v.y, k, r.y);
    ScalarRemoveAlong(p.z, v.z, k, r.z);
    Distribute3(p.x * p.x, p.y * p.y, p.z * p.z, q, k);
    FactorComplement(k, q);
  }

  /** One component of `RankOneComplementAlong`, with r = y - x k given as a number. */
  lemma ScalarRemoveAlong(x: real, y: real, k: real, r: real)
    requires r == y - x * k
    ensures x * r == x * y - (x * x) * k
  {
  }

  lemma FactorComplement(k: real, q: real)
    ensures k * (1.0 - q) == k - q * k
  {
  }

  /** I - p p^T applied to v is v minus p scaled by p . v. */
  lemma RankOneComplementApplied(p: Vec3, v: Vec3)
    ensures MulCols(RankOneComplement(p), v) == Sub(v, Scale(p, Dot(p, v)))
  {
    MulColsMatSub(Identity, Outer(p, p), v);
    MulColsIdentity(v);
    MulColsOuterSelf(p, v);
  }

  /** The column product distributes over a matrix difference. */
  lemma MulColsMatSub(a: Mat3, b: Mat3, v: Vec3)
    ensures MulCols(MatSub(a, b), v) == Sub(MulCols(a, v), MulCols(b, v))
  {
    MatSubAtX(a, b, v);
    MatSubAtY(a, b, v);
    MatSubAtZ(a, b, v);
  }

  /** Component x of `MulColsMatSub` (and y, z below). */
  lemma MatSubAtX(a: Mat3, b: Mat3, v: Vec3)
    ensures MulCols(MatSub(a, b), v).x == Sub(MulCols(a, v), MulCols(b, v)).x
  {
    var d := MatSub(a, b);
    SubThrough(Vec3(d.r0.x, d.r1.x, d.r2.x), Vec3(a.r0.x, a.r1.x, a.r2.x), Vec3(b.r0.x, b.r1.x, b.r2.x), v);
  }

  lemma MatSubAtY(a: Mat3, b: Mat3, v: Vec3)
    ensures MulCols(MatSub(a, b), v).y == Sub(MulCols(a, v), MulCols(b, v)).y
  {
    var d := MatSub(a, b);
    SubThrough(Vec3(d.r0.y, d.r1.y, d.r2.y), Vec3(a.r0.y, a.r1.y, a.r2.y), Vec3(b.r0.y, b.r1.y, b.r2.y), v);
  }

  lemma MatSubAtZ(a: Mat3, b: Mat3, v: Vec3)
    ensures MulCols(MatSub(a, b), v).z == Sub(MulCols(a, v), MulCols(b, v)).z
  {
    var d := MatSub(a, b);
    SubThrough(Vec3(d.r0.z, d.r1.z, d.r2.z), Vec3(a.r0.z, a.r1.z, a.r2.z), Vec3(b.r0.z, b.r1.z, b.r2.z), v);
  }

  /** One component of `MulColsMatSub`: a column of a - b dotted with v. */
  lemma SubThrough(d: Vec3, a: Vec3, b: Vec3, v: Vec3)
    requires d.x == a.x - b.x && d.y == a.y - b.y && d.z == a.z - b.z
    ensures d.x * v.x + d.y * v.y + d.z * v.z == (a.x * v.x + a.y * v.y + a.z * v.z) - (b.x * v.x + b.y * v.y + b.z * v.z)
  {
  }

  /** (p p^T) v = p (p . v). */
  lemma MulColsOuterSelf(p: Vec3, v: Vec3)
    ensures MulCols(Outer(p, p), v) == Scale(p, Dot(p, v))
  {
    OuterSelfAtX(p, v);
    OuterSelfAtY(p, v);
    OuterSelfAtZ(p, v);
  }

  /** Component x of `MulColsOuterSelf` (and y, z below). */
  lemma OuterSelfAtX(p: Vec3, v: Vec3)
    ensures MulCols(Outer(p, p), v).x == Scale(p, Dot(p, v)).x
  {
    var o := Outer(p, p);
    OuterThrough(p, p.x, o.r0.x, o.r1.x, o.r2.x, v, Dot(p, v));
  }

  lemma OuterSelfAtY(p: Vec3, v: Vec3)
    ensures MulCols(Outer(p, p), v).y == Scale(p, Dot(p, v)).y
  {
    var o := Outer(p, p);
    OuterThrough(p, p.y, o.r0.y, o.r1.y, o.r2.y, v, Dot(p, v));
  }

  lemma OuterSelfAtZ(p: Vec3, v: Vec3)
    ensures MulCols(Outer(p, p), v).z == Scale(p, Dot(p, v)).z
  {
    var o := Outer(p, p);
    OuterThrough(p, p.z, o.r0.z, o.r1.z, o.r2.z, v, Dot(p, v));
  }

  /** One component of `MulColsOuterSelf`: column (p c) of p p^T dotted with v is c (p . v). */
  lemma OuterThrough(p: Vec3, c: real, o0: real, o1: real, o2: real, v: Vec3, k: real)
    requires o0 == p.x * c && o1 == p.y * c && o2 == p.z * c
    requires k == p.x * v.x + p.y * v.y + p.z * v.z
    ensures o0 * v.x + o1 * v.y + o2 * v.z == c * k
  {
  }

  /** A scale factor moves out of a dot product. */
  lemma DotScale(a: Vec3, s: real, v: Vec3)
    ensures Dot(Scale(a, s), v) == s * Dot(a, v)
  {
  }

  /** A scale factor moves out of a matrix-vector product. */
  lemma MulRowsScale(m: Mat3, s: real, v: Vec3)
    ensures MulRows(MatScale(m, s), v) == Scale(MulRows(m, v), s)
  {
    MatScaleAtX(m, s, v);
    MatScaleAtY(m, s, v);
    MatScaleAtZ(m, s, v);
  }

  /** Component x of `MulRowsScale` (and y, z below). */
  lemma MatScaleAtX(m: Mat3, s: real, v: Vec3)
    ensures MulRows(MatScale(m, s), v).x == Scale(MulRows(m, v), s).x
  {
    ScaleOut(m.r0, s, v, MulRows(m, v).x);
  }

  lemma MatScaleAtY(m: Mat3, s: real, v: Vec3)
    ensures MulRows(MatScale(m, s), v).y == Scale(MulRows(m, v), s).y
  {
    ScaleOut(m.r1, s, v, MulRows(m, v).y);
  }

  lemma MatScaleAtZ(m: Mat3, s: real, v: Vec3)
    ensures MulRows(MatScale(m, s), v).z == Scale(MulRows(m, v), s).z
  {
    ScaleOut(m.r2, s, v, MulRows(m, v).z);
  }

  /** `DotScale` with a . v given as the number k. */
  lemma ScaleOut(a: Vec3, s: real, v: Vec3, k: real)
    requires k == Dot(a, v)
    ensures Dot(Scale(a, s), v) == k * s
  {
    DotScale(a, s, v);
  }

  /** p p^T v = p (p . v), in the row convention too. */
  lemma MulRowsOuterSelf(p: Vec3, v: Vec3)
    ensures MulRows(Outer(p, p), v) == Scale(p, Dot(p, v))
  {
    OuterSelfSymmetric(p);
    SymmetricConventionsAgree(Outer(p, p), v);
    MulColsOuterSelf(p, v);
  }

  /** Two scalings are one scaling by the product. */
  lemma ScaleScale(a: Vec3, s: real, t: real)
    ensures Scale(Scale(a, s), t) == Scale(a, t * s)
  {
    assert a.x * s * t == a.x * (t * s);
    assert a.y * s * t == a.y * (t * s);
    assert a.z * s * t == a.z * (t * s);
  }

  /** Scaling distributes over the sum of two factors. */
  lemma ScaleSum(a: Vec3, s: real, t: real)
    ensures Add(Scale(a, s), Scale(a, t)) == Scale(a, s + t)
  {
  }

  /** I - p p^T is symmetric, so the filter's column convention agrees with the row one. */
  lemma RankOneComplementSymmetric(p: Vec3)
    ensures Symmetric(RankOneComplement(p))
  {
  }

  /** I - p p^T - q q^T is symmetric. */
  lemma RankTwoComplementSymmetric(p: Vec3, q: Vec3)
    ensures Symmetric(RankTwoComplement(p, q))
  {
    RankOneComplementSymmetric(p);
    OuterSelfSymmetric(q);
    MatSubSymmetric(RankOneComplement(p), Outer(q, q));
  }

  lemma MatSubSymmetric(a: Mat3, b: Mat3)
    requires Symmetric(a) && Symmetric(b)
    ensures Symmetric(MatSub(a, b))
  {
  }

  lemma MatScaleSymmetric(a: Mat3, s: real)
    requires Symmetric(a)
    ensures Symmetric(MatScale(a, s))
  {
  }

  lemma IdentitySymmetric()
    ensures Symmetric(Identity)
  {
  }
}
