/** The solver state of the implicit integrator (`Implicit_Data`) and the calls the cloth
    modifier makes on it: creation, per-vertex masses and root frames, spring registration,
    velocity constraints, one solver step and its commit.

    The state is a set of block matrices over `numVerts` vertices and `numSprings` spring
    slots (M, dFdV, dFdX, A, and the unused bigI, P, Pinv), the constraint blocks S (one per
    vertex, no spring slots), and long vectors (X, Xnew, V, Vnew, F, B, dV, z). A step solves
    (M - dt dFdV - dt^2 dFdX) dV = dt F + dt^2 dFdX V, filtered by S from the start dV = z,
    then writes the tentative velocities and positions; a separate commit copies them over
    the current ones. */
module ImplicitSolver {
  import opened LinAlg
  import opened LongVector
  import opened BlockSparse
  import opened Solver

  /** `RootTransform`: the frame a vertex's state is stored in. */
  datatype RootTransform = RootTransform(loc: Vec3, rot: Mat3, vel: Vec3, omega: Vec3, acc: Vec3, domegaDt: Vec3)

  /** A root transform as `MEM_callocN` leaves it (note the zero, not identity, rotation). */
  const ZeroRoot: RootTransform := RootTransform(ZeroV, Zero, ZeroV, ZeroV, ZeroV, ZeroV)

  /** What `BPH_mass_spring_set_root_motion` stores. With the `CLOTH_ROOT_FRAME` build flag
      the given frame is copied (accelerations zeroed); without it the root is the world
      frame: identity rotation, everything else zero. */
  function RootMotion(loc: Vec3, vel: Vec3, rot: Mat3, angvel: Vec3, rootFrame: bool): (t: RootTransform)
    ensures t.acc == ZeroV && t.domegaDt == ZeroV
    ensures rootFrame ==> t.loc == loc && t.vel == vel && t.rot == rot && t.omega == angvel
    ensures !rootFrame ==> t.loc == ZeroV && t.vel == ZeroV && t.rot == Identity && t.omega == ZeroV
  {
    if rootFrame then RootTransform(loc, rot, vel, angvel, ZeroV, ZeroV)
    else RootTransform(ZeroV, Identity, ZeroV, ZeroV, ZeroV, ZeroV)
  }

  /** A block matrix of the solver: over n vertices with s spring slots, diagonal blocks
      tagged (i, i), every tag a vertex. */
  predicate Layout(b: seq<Block>, n: nat, s: nat)
  {
    ProductReady(b, n) && b[0].scount == s && DiagonalTags(b)
  }

  /** Changing only matrices keeps the layout. */
  lemma SameLayoutKeepsLayout(a: seq<Block>, b: seq<Block>, n: nat, s: nat)
    requires Layout(a, n, s) && SameLayout(a, b)
    ensures Layout(b, n, s)
  {
    SameLayoutReady(a, b, n);
  }

  /** Overwriting one block's matrix keeps the layout. */
  lemma SetMatrixKeepsLayout(b: seq<Block>, i: nat, m3: Mat3, n: nat, s: nat)
    requires Layout(b, n, s) && i < |b|
    ensures Layout(b[i := b[i].(m := m3)], n, s) && SameLayout(b, b[i := b[i].(m := m3)])
  {
    SameLayoutKeepsLayout(b, b[i := b[i].(m := m3)], n, s);
  }

  /** In the world-frame build the constraint rotation is the identity, so the setters store
      the constraint directions and velocities as given. */
  lemma WorldFrameKeepsDirections(loc: Vec3, vel: Vec3, rot: Mat3, angvel: Vec3, d: Vec3)
    ensures MulRows(RootMotion(loc, vel, rot, angvel, false).rot, d) == d
  {
    MulRowsIdentity(d);
  }

  /** The mass block `mass * I` scales a velocity by the mass. */
  lemma MassBlockScales(mass: real, v: Vec3)
    ensures MulRows(MatScale(Identity, mass), v) == Scale(v, mass)
  {
    IdentityRows();
  }

  /** After `clear_constraints` the filter is the identity: no vertex is constrained. */
  lemma ClearedFilterIsIdentity(S: seq<Block>, v: seq<Vec3>)
    requires Layout(S, |v|, 0)
    ensures FilterReady(Filled(S, Identity), |v|)
    ensures Filtered(Filled(S, Identity), v) == v
  {
    var c := Filled(S, Identity);
    assert SameLayout(S, c);
    SameLayoutKeepsLayout(S, c, |v|, 0);
    FilterUnconstrained(c, v);
  }

  /** A zero-DOF vertex (`add_constraint_ndof0`) is filtered to zero, so no search direction
      of the solver moves it. */
  lemma PinnedVertexFiltered(S: seq<Block>, v: seq<Vec3>, index: nat)
    requires Layout(S, |v|, 0) && index < |v|
    ensures FilterReady(S[index := S[index].(m := Zero)], |v|)
    ensures Filtered(S[index := S[index].(m := Zero)], v)[index] == ZeroV
  {
    SetMatrixKeepsLayout(S, index, Zero, |v|, 0);
    FilterPinned(S[index := S[index].(m := Zero)], v, index);
  }

  /** Every vertex with a zero constraint block ends the solve at its target. */
  lemma AllPinnedVerticesStay(S: seq<Block>, x: seq<Vec3>, z: seq<Vec3>)
    requires |x| == |z| <= |S| && Admissible(S, SubL(x, z))
    ensures forall i :: 0 <= i < |x| && S[i].m == Zero ==> x[i] == z[i]
  {
    forall i | 0 <= i < |x| && S[i].m == Zero
      ensures x[i] == z[i]
    {
      PinnedVertexStays(S, x, z, i);
    }
  }

  /** The layouts `BPH_mass_spring_solver_create` establishes. */
  lemma CreatedIsValid(n: nat, s: nat)
    requires n > 0
    ensures Layout(Created(n, s), n, s) && Layout(Created(n, 0), n, 0)
    ensures Layout(DiagFilled(Created(n, s), Identity), n, s)
    ensures SameLayout(Created(n, s), DiagFilled(Created(n, s), Identity))
  {
    CreatedLayout(n, s);
    CreatedLayout(n, 0);
    CreatedSameLayout(n, s);
    SameLayoutKeepsLayout(Created(n, s), DiagFilled(Created(n, s), Identity), n, s);
  }

  /** The zeroed root transforms of `BPH_mass_spring_solver_create`. */
  method CreateRoots(n: nat) returns (r: array<RootTransform>)
    ensures fresh(r) && r.Length == n && forall i :: 0 <= i < n ==> r[i] == ZeroRoot
  {
    r := new RootTransform[n](_ => ZeroRoot);
  }

  class ImplicitData {
    const numVerts: nat
    const numSprings: nat

    /** Identity (constant), masses, force Jacobians, system matrix, preconditioner. */
    const bigI: array<Block>
    const M: array<Block>
    const dFdV: array<Block>
    const dFdX: array<Block>
    const A: array<Block>
    const P: array<Block>
    const Pinv: array<Block>
    /** Constraint filter blocks, one per vertex. */
    const S: array<Block>

    /** Forces, positions, velocities, right-hand side, velocity change, constraint targets. */
    const F: array<Vec3>
    const X: array<Vec3>
    const Xnew: array<Vec3>
    const V: array<Vec3>
    const Vnew: array<Vec3>
    const B: array<Vec3>
    const dV: array<Vec3>
    const z: array<Vec3>

    const root: array<RootTransform>

    /** The arrays are separate allocations. */
    predicate Separate()
    {
      bigI != M && bigI != dFdV && bigI != dFdX && bigI != A && bigI != P && bigI != Pinv && bigI != S &&
      M != dFdV && M != dFdX && M != A && M != P && M != Pinv && M != S &&
      dFdV != dFdX && dFdV != A && dFdV != P && dFdV != Pinv && dFdV != S &&
      dFdX != A && dFdX != P && dFdX != Pinv && dFdX != S &&
      A != P && A != Pinv && A != S &&
      P != Pinv && P != S &&
      Pinv != S &&
      F != X && F != Xnew && F != V && F != Vnew && F != B && F != dV && F != z &&
      X != Xnew && X != V && X != Vnew && X != B && X != dV && X != z &&
      Xnew != V && Xnew != Vnew && Xnew != B && Xnew != dV && Xnew != z &&
      V != Vnew && V != B && V != dV && V != z &&
      Vnew != B && Vnew != dV && Vnew != z &&
      B != dV && B != z &&
      dV != z
    }

    /** Every block matrix is laid out over the vertices, the spring matrices share M's
        tags, and every long vector has one entry per vertex. */
    predicate Valid()
      reads bigI, M, dFdV, dFdX, A, P, Pinv, S
    {
      Separate() && numVerts > 0 &&
      Layout(M[..], numVerts, numSprings) &&
      Layout(bigI[..], numVerts, numSprings) && SameLayout(M[..], bigI[..]) &&
      Layout(dFdV[..], numVerts, numSprings) && SameLayout(M[..], dFdV[..]) &&
      Layout(dFdX[..], numVerts, numSprings) && SameLayout(M[..], dFdX[..]) &&
      Layout(A[..], numVerts, numSprings) && SameLayout(M[..], A[..]) &&
      Layout(P[..], numVerts, numSprings) && SameLayout(M[..], P[..]) &&
      Layout(Pinv[..], numVerts, numSprings) && SameLayout(M[..], Pinv[..]) &&
      Layout(S[..], numVerts, 0) &&
      F.Length == numVerts && X.Length == numVerts && Xnew.Length == numVerts &&
      V.Length == numVerts && Vnew.Length == numVerts && B.Length == numVerts &&
      dV.Length == numVerts && z.Length == numVerts && root.Length == numVerts
    }

    /** `BPH_mass_spring_solver_create`: zeroed block matrices and vectors, bigI the
        identity on its diagonal, zeroed root transforms. */
    constructor (numverts: nat, numsprings: nat)
      requires numverts > 0
      ensures Valid() && numVerts == numverts && numSprings == numsprings
      ensures M[..] == Created(numverts, numsprings) && dFdV[..] == Created(numverts, numsprings)
      ensures dFdX[..] == Created(numverts, numsprings) && A[..] == Created(numverts, numsprings)
      ensures P[..] == Created(numverts, numsprings) && Pinv[..] == Created(numverts, numsprings)
      ensures bigI[..] == DiagFilled(Created(numverts, numsprings), Identity)
      ensures S[..] == Created(numverts, 0)
      ensures F[..] == Constant(ZeroV, numverts) && X[..] == Constant(ZeroV, numverts)
      ensures Xnew[..] == Constant(ZeroV, numverts) && V[..] == Constant(ZeroV, numverts)
      ensures Vnew[..] == Constant(ZeroV, numverts) && B[..] == Constant(ZeroV, numverts)
      ensures dV[..] == Constant(ZeroV, numverts) && z[..] == Constant(ZeroV, numverts)
      ensures forall i :: 0 <= i < root.Length ==> root[i] == ZeroRoot
      ensures fresh(bigI) && fresh(M) && fresh(dFdV) && fresh(dFdX) && fresh(A) && fresh(P) && fresh(Pinv) && fresh(S)
    {
      numVerts := numverts;
      numSprings := numsprings;
      var a := CreateBfmatrix(numverts, numsprings);
      var dfdv := CreateBfmatrix(numverts, numsprings);
      var dfdx := CreateBfmatrix(numverts, numsprings);
      var s := CreateBfmatrix(numverts, 0);
      var pinv := CreateBfmatrix(numverts, numsprings);
      var p := CreateBfmatrix(numverts, numsprings);
      var bigi := CreateBfmatrix(numverts, numsprings);
      InitdiagBfmatrix(bigi, Identity);
      var m := CreateBfmatrix(numverts, numsprings);
      A, dFdV, dFdX, S, Pinv, P, bigI, M := a, dfdv, dfdx, s, pinv, p, bigi, m;
      var x := CreateLfvector(numverts);
      var xnew := CreateLfvector(numverts);
      var v := CreateLfvector(numverts);
      var vnew := CreateLfvector(numverts);
      var f := CreateLfvector(numverts);
      var b := CreateLfvector(numverts);
      var dv := CreateLfvector(numverts);
      var zz := CreateLfvector(numverts);
      X, Xnew, V, Vnew, F, B, dV, z := x, xnew, v, vnew, f, b, dv, zz;
      var r := CreateRoots(numverts);
      root := r;
      CreatedIsValid(numverts, numsprings);
    }

    /** `BPH_mass_spring_set_root_motion`: vertex `index`'s root frame, as the build flag
        `CLOTH_ROOT_FRAME` (here `rootFrame`) decides. */
    method SetRootMotion(index: nat, loc: Vec3, vel: Vec3, rot: Mat3, angvel: Vec3, rootFrame: bool)
      requires Valid() && index < numVerts
      modifies root
      ensures Valid()
      ensures root[..] == old(root[..])[index := RootMotion(loc, vel, rot, angvel, rootFrame)]
    {
      root[index] := RootMotion(loc, vel, rot, angvel, rootFrame);
    }

    /** `BPH_mass_spring_set_vertex_mass`: vertex `index`'s mass block becomes mass * I. */
    method SetVertexMass(index: nat, mass: real)
      requires Valid() && index < numVerts
      modifies M
      ensures Valid()
      ensures M[..] == old(M[..])[index := old(M[index]).(m := MatScale(Identity, mass))]
    {
      ghost var m0 := M[..];
      SetMatrixKeepsLayout(m0, index, MatScale(Identity, mass), numVerts, numSprings);
      M[index] := M[index].(m := MatScale(Identity, mass));
      assert M[..] == m0[index := m0[index].(m := MatScale(Identity, mass))];
    }

    /** `BPH_mass_spring_init_spring`: spring `index` gets slot numVerts + index, tagged with
        its two vertices in every spring-carrying matrix except S; nothing else changes. */
    method InitSpring(index: nat, v1: nat, v2: nat) returns (s: nat)
      requires Valid() && index < numSprings && v1 < numVerts && v2 < numVerts
      modifies bigI, M, dFdX, dFdV, A, P, Pinv
      ensures Valid()
      ensures s == numVerts + index
      ensures bigI[..] == Tagged(old(bigI[..]), s, v1, v2) && M[..] == Tagged(old(M[..]), s, v1, v2)
      ensures dFdX[..] == Tagged(old(dFdX[..]), s, v1, v2) && dFdV[..] == Tagged(old(dFdV[..]), s, v1, v2)
      ensures A[..] == Tagged(old(A[..]), s, v1, v2) && P[..] == Tagged(old(P[..]), s, v1, v2)
      ensures Pinv[..] == Tagged(old(Pinv[..]), s, v1, v2)
      ensures unchanged(S)
    {
      s := M[0].vcount + index;
      ghost var bigI0, M0, dFdX0, dFdV0, A0, P0, Pinv0 := bigI[..], M[..], dFdX[..], dFdV[..], A[..], P[..], Pinv[..];
      InitFmatrix(bigI, s, v1, v2);
      InitFmatrix(M, s, v1, v2);
      InitFmatrix(dFdX, s, v1, v2);
      InitFmatrix(dFdV, s, v1, v2);
      InitFmatrix(A, s, v1, v2);
      InitFmatrix(P, s, v1, v2);
      InitFmatrix(Pinv, s, v1, v2);
      TaggedKeepsValid(M0, bigI0, dFdX0, dFdV0, A0, P0, Pinv0, s, v1, v2);
    }

    /** The Valid facts after tagging one spring slot in all seven matrices. */
    lemma TaggedKeepsValid(M0: seq<Block>, bigI0: seq<Block>, dFdX0: seq<Block>, dFdV0: seq<Block>,
                           A0: seq<Block>, P0: seq<Block>, Pinv0: seq<Block>, s: nat, v1: nat, v2: nat)
      requires Layout(M0, numVerts, numSprings) && numVerts <= s < |M0| && v1 < numVerts && v2 < numVerts
      requires SameLayout(M0, bigI0) && SameLayout(M0, dFdX0) && SameLayout(M0, dFdV0)
      requires SameLayout(M0, A0) && SameLayout(M0, P0) && SameLayout(M0, Pinv0)
      ensures Layout(Tagged(M0, s, v1, v2), numVerts, numSprings)
      ensures SameLayout(Tagged(M0, s, v1, v2), Tagged(bigI0, s, v1, v2))
      ensures SameLayout(Tagged(M0, s, v1, v2), Tagged(dFdX0, s, v1, v2))
      ensures SameLayout(Tagged(M0, s, v1, v2), Tagged(dFdV0, s, v1, v2))
      ensures SameLayout(Tagged(M0, s, v1, v2), Tagged(A0, s, v1, v2))
      ensures SameLayout(Tagged(M0, s, v1, v2), Tagged(P0, s, v1, v2))
      ensures SameLayout(Tagged(M0, s, v1, v2), Tagged(Pinv0, s, v1, v2))
      ensures Layout(Tagged(bigI0, s, v1, v2), numVerts, numSprings) && Layout(Tagged(dFdX0, s, v1, v2), numVerts, numSprings)
      ensures Layout(Tagged(dFdV0, s, v1, v2), numVerts, numSprings) && Layout(Tagged(A0, s, v1, v2), numVerts, numSprings)
      ensures Layout(Tagged(P0, s, v1, v2), numVerts, numSprings) && Layout(Tagged(Pinv0, s, v1, v2), numVerts, numSprings)
    {
      var m := Tagged(M0, s, v1, v2);
      TaggingKeepsLayout(M0, numVerts, s, v1, v2);
      SameLayoutKeepsLayout(m, Tagged(bigI0, s, v1, v2), numVerts, numSprings);
      SameLayoutKeepsLayout(m, Tagged(dFdX0, s, v1, v2), numVerts, numSprings);
      SameLayoutKeepsLayout(m, Tagged(dFdV0, s, v1, v2), numVerts, numSprings);
      SameLayoutKeepsLayout(m, Tagged(A0, s, v1, v2), numVerts, numSprings);
      SameLayoutKeepsLayout(m, Tagged(P0, s, v1, v2), numVerts, numSprings);
      SameLayoutKeepsLayout(m, Tagged(Pinv0, s, v1, v2), numVerts, numSprings);
    }

    /** `BPH_mass_spring_clear_constraints`: every vertex unconstrained (S[i] = I) with a
        zero target. */
    method ClearConstraints()
      requires Valid()
      modifies S, z
      ensures Valid()
      ensures S[..] == Filled(old(S[..]), Identity)
      ensures z[..] == Constant(ZeroV, numVerts)
    {
      ghost var s0 := S[..];
      var numverts := S[0].vcount;
      var i := 0;
      while i < numverts
        invariant 0 <= i <= numverts
        invariant forall k :: 0 <= k < S.Length ==> S[k] == if k < i then s0[k].(m := Identity) else s0[k]
        invariant forall k :: 0 <= k < i ==> z[k] == ZeroV
      {
        S[i] := S[i].(m := Identity);
        z[i] := ZeroV;
        i := i + 1;
      }
      assert S[..] == Filled(s0, Identity);
      assert z[..] == Constant(ZeroV, numVerts);
      assert SameLayout(s0, S[..]);
      SameLayoutKeepsLayout(s0, S[..], numVerts, 0);
    }

    /** `BPH_mass_spring_add_constraint_ndof0`: vertex `index` fully constrained (S = 0) and
        its target velocity change set to dV in the root frame. */
    method AddConstraintNdof0(index: nat, dv: Vec3)
      requires Valid() && index < numVerts
      modifies S, z
      ensures Valid()
      ensures S[..] == old(S[..])[index := old(S[index]).(m := Zero)]
      ensures z[..] == old(z[..])[index := MulRows(root[index].rot, dv)]
    {
      SetMatrixKeepsLayout(S[..], index, Zero, numVerts, 0);
      S[index] := S[index].(m := Zero);
      z[index] := MulRows(root[index].rot, dv);
    }

    /** `BPH_mass_spring_add_constraint_ndof1`: vertex `index` may move only along the
        direction normal to c1 and c2 (S = I - p p^T - q q^T with p, q the root-frame
        directions); the root-frame dV is added to its target. */
    method AddConstraintNdof1(index: nat, c1: Vec3, c2: Vec3, dv: Vec3)
      requires Valid() && index < numVerts
      modifies S, z
      ensures Valid()
      ensures S[..] == old(S[..])[index := old(S[index]).(m := RankTwoComplement(MulRows(root[index].rot, c1), MulRows(root[index].rot, c2)))]
      ensures z[..] == old(z[..])[index := Add(old(z[index]), MulRows(root[index].rot, dv))]
    {
      var rot := root[index].rot;
      var p := MulRows(rot, c1);
      var q := MulRows(rot, c2);
      SetMatrixKeepsLayout(S[..], index, RankTwoComplement(p, q), numVerts, 0);
      S[index] := S[index].(m := RankTwoComplement(p, q));
      z[index] := Add(z[index], MulRows(rot, dv));
    }

    /** `BPH_mass_spring_add_constraint_ndof2`: vertex `index` may not move along c1
        (S = I - p p^T); the root-frame dV is added to its target. */
    method AddConstraintNdof2(index: nat, c1: Vec3, dv: Vec3)
      requires Valid() && index < numVerts
      modifies S, z
      ensures Valid()
      ensures S[..] == old(S[..])[index := old(S[index]).(m := RankOneComplement(MulRows(root[index].rot, c1)))]
      ensures z[..] == old(z[..])[index := Add(old(z[index]), MulRows(root[index].rot, dv))]
    {
      var rot := root[index].rot;
      var p := MulRows(rot, c1);
      SetMatrixKeepsLayout(S[..], index, RankOneComplement(p), numVerts, 0);
      S[index] := S[index].(m := RankOneComplement(p));
      z[index] := Add(z[index], MulRows(rot, dv));
    }

    /** `BPH_mass_spring_solve`: assemble A = M - dt dFdV - dt^2 dFdX (blockwise, M's tags)
        and B = dt F + dt^2 (dFdX V), solve A dV = B with the constraint filter from
        dV = z, then Vnew = V + dV and Xnew = X + dt Vnew. Returns the solver's verdict;
        X and V are not touched. */
    method Solve(dt: real) returns (ok: bool, ghost iterations: nat)
      requires Valid()
      modifies dV, A, B, Vnew, Xnew
      ensures Valid()
      ensures A[..] == SubAddBlocks(M[..], dFdV[..], dt, dFdX[..], dt * dt)
      ensures B[..] == AddL(ScaleL(F[..], dt), ScaleL(SparseProduct(dFdX[..], V[..]), dt * dt))
      ensures iterations <= MaxIterations && (ok <==> iterations < MaxIterations)
      ensures Admissible(S[..], SubL(dV[..], z[..]))
      ensures forall i :: 0 <= i < numVerts && S[i].m == Zero ==> dV[i] == z[i]
      ensures ok && (iterations > 0 || AllProjectors(S[..], numVerts)) ==>
        var r := Residual(A[..], S[..], B[..], dV[..]);
        var fB := Filtered(S[..], B[..]);
        DotL(r, r) <= Epsilon * Epsilon * DotL(fB, fB)
      ensures Vnew[..] == AddL(V[..], dV[..])
      ensures Xnew[..] == AddL(X[..], ScaleL(Vnew[..], dt))
    {
      AssembleSystem(dt);
      ok, iterations := RunSolver();
      Advance(dt);
    }

    /** The solver call of `BPH_mass_spring_solve`: `cg_filtered(dV, A, B, z, S)`. */
    method RunSolver() returns (ok: bool, ghost iterations: nat)
      requires Valid()
      modifies dV
      ensures Valid()
      ensures iterations <= MaxIterations && (ok <==> iterations < MaxIterations)
      ensures Admissible(S[..], SubL(dV[..], z[..]))
      ensures forall i :: 0 <= i < numVerts && S[i].m == Zero ==> dV[i] == z[i]
      ensures ok && (iterations > 0 || AllProjectors(S[..], numVerts)) ==>
        var r := Residual(A[..], S[..], B[..], dV[..]);
        var fB := Filtered(S[..], B[..]);
        DotL(r, r) <= Epsilon * Epsilon * DotL(fB, fB)
    {
      ok, iterations := CgFiltered(dV, A, B, z, S);
      AllPinnedVerticesStay(S[..], dV[..], z[..]);
    }

    /** The advance half of `BPH_mass_spring_solve`: velocities by dV, then positions by
        the new velocities. */
    method Advance(dt: real)
      requires Valid()
      modifies Vnew, Xnew
      ensures Valid()
      ensures Vnew[..] == AddL(V[..], dV[..])
      ensures Xnew[..] == AddL(X[..], ScaleL(Vnew[..], dt))
    {
      var numverts := dFdV[0].vcount;
      AddLfvectorLfvector(Vnew, V, dV, numverts);
      AddLfvectorLfvectorS(Xnew, X, Vnew, dt, numverts);
    }

    /** The assembly half of `BPH_mass_spring_solve`: dV cleared, A and B as stated. */
    method AssembleSystem(dt: real)
      requires Valid()
      modifies dV, A, B
      ensures Valid()
      ensures dV[..] == Constant(ZeroV, numVerts)
      ensures A[..] == SubAddBlocks(M[..], dFdV[..], dt, dFdX[..], dt * dt)
      ensures B[..] == AddL(ScaleL(F[..], dt), ScaleL(SparseProduct(dFdX[..], V[..]), dt * dt))
    {
      var numverts := dFdV[0].vcount;
      var dFdXmV := new Vec3[numverts](_ => ZeroV);
      ZeroLfvector(dV, numverts);
      ghost var m0 := M[..];
      CpBfmatrix(A, M);
      assert A[..] == m0;
      SubaddBfmatrixSBfmatrixS(A, dFdV, dt, dFdX, dt * dt);
      assert A[..] == SubAddBlocks(m0, dFdV[..], dt, dFdX[..], dt * dt);
      SubAddKeepsLayout(m0, dFdV[..], dt, dFdX[..], dt * dt);
      assert SameLayout(m0, A[..]);
      SameLayoutKeepsLayout(m0, A[..], numVerts, numSprings);
      MulBfmatrixLfvector(dFdXmV, dFdX, V);
      AddLfvectorSLfvectorS(B, F, dt, dFdXmV, dt * dt, numverts);
    }

    /** `BPH_mass_spring_apply_result`: the tentative state becomes the current state. */
    method ApplyResult()
      requires Valid()
      modifies X, V
      ensures Valid()
      ensures X[..] == Xnew[..] && V[..] == Vnew[..]
    {
      var numverts := M[0].vcount;
      CpLfvector(X, Xnew, numverts);
      CpLfvector(V, Vnew, numverts);
    }
  }
}
