/** The constraint filter and the filtered conjugate-gradient solver of the implicit
    integrator (`filter` and `cg_filtered`).

    Every vertex carries a 3x3 constraint block S[i] in the diagonal of a second block matrix.
    The filter applies S[i] to entry i of a long vector (the column convention of BLI's
    `mul_m3_v3`). The solver runs conjugate gradients on A dV = B from dV = z, filtering
    every search direction, for at most 100 iterations or until the filtered residual is
    small relative to the filtered right-hand side. */
module Solver {
  import opened LinAlg
  import opened LongVector
  import opened BlockSparse

  /** `conjgrad_looplimit`. */
  const MaxIterations: nat := 100

  /** `conjgrad_epsilon` (0.01f, taken as the exact real 0.01). */
  const Epsilon: real := 0.01

  /** A constraint matrix the filter can read: over n vertices, with at least n blocks and
      the diagonal blocks tagged (i, i), as `create_bfmatrix(numverts, 0)` leaves it. */
  predicate FilterReady(S: seq<Block>, n: nat)
  {
    |S| > 0 && S[0].vcount == n && n <= |S| && DiagonalTags(S)
  }

  /** The vector after the filter has treated the vertices below `hi`. */
  function FilteredUpTo(S: seq<Block>, v: seq<Vec3>, hi: nat): (r: seq<Vec3>)
    requires hi <= |S| && hi <= |v|
    ensures |r| == |v|
  {
    seq(|v|, i requires 0 <= i < |v| => if i < hi then MulCols(S[i].m, v[i]) else v[i])
  }

  /** `filter(V, S)`: every entry passed through its vertex's constraint block. */
  function Filtered(S: seq<Block>, v: seq<Vec3>): (r: seq<Vec3>)
    requires FilterReady(S, |v|)
    ensures |r| == |v|
  {
    FilteredUpTo(S, v, |v|)
  }

  /** A vector that every projector block of S leaves where it is: the velocity changes
      the constraints admit. Blocks that are not projectors impose nothing here. */
  predicate Admissible(S: seq<Block>, d: seq<Vec3>)
    requires |d| <= |S|
  {
    forall i :: 0 <= i < |d| && Idempotent(S[i].m) ==> MulCols(S[i].m, d[i]) == d[i]
  }

  /** Every constraint block of the first n is a projector (I, I - p p^T, I - p p^T - q q^T
      for orthonormal p, q, or 0). */
  predicate AllProjectors(S: seq<Block>, n: nat)
    requires n <= |S|
  {
    forall i :: 0 <= i < n ==> Idempotent(S[i].m)
  }

  /** The filtered residual of A x = B at x, as `r = filter(B - A * dV)`. */
  function Residual(A: seq<Block>, S: seq<Block>, B: seq<Vec3>, x: seq<Vec3>): (r: seq<Vec3>)
    requires ProductReady(A, |x|) && |B| == |x| && FilterReady(S, |x|)
    ensures |r| == |x|
  {
    Filtered(S, SubL(B, SparseProduct(A, x)))
  }

  /** `filter`: the loop over the vertices, in place. */
  method Filter(V: array<Vec3>, S: array<Block>)
    requires FilterReady(S[..], V.Length)
    modifies V
    ensures V[..] == Filtered(S[..], old(V[..]))
  {
    ghost var v0 := V[..];
    var i := 0;
    while i < S[0].vcount
      invariant 0 <= i <= V.Length
      invariant V[..] == FilteredUpTo(S[..], v0, i)
    {
      assert S[i].r == i;
      V[S[i].r] := MulCols(S[i].m, V[S[i].r]);
      i := i + 1;
    }
  }

  /** Filtering twice through projector blocks is filtering once. */
  lemma FilterIdempotent(S: seq<Block>, v: seq<Vec3>)
    requires FilterReady(S, |v|) && AllProjectors(S, |v|)
    ensures Filtered(S, Filtered(S, v)) == Filtered(S, v)
  {
    forall i | 0 <= i < |v|
      ensures Filtered(S, Filtered(S, v))[i] == Filtered(S, v)[i]
    {
      ProjectorTwice(S[i].m, v[i]);
    }
  }

  /** What the filter produces is admissible. */
  lemma FilteredIsAdmissible(S: seq<Block>, v: seq<Vec3>)
    requires FilterReady(S, |v|)
    ensures Admissible(S, Filtered(S, v))
  {
    forall i | 0 <= i < |v| && Idempotent(S[i].m)
      ensures MulCols(S[i].m, Filtered(S, v)[i]) == Filtered(S, v)[i]
    {
      ProjectorTwice(S[i].m, v[i]);
    }
  }

  /** The filter is linear. */
  lemma FilterLinear(S: seq<Block>, u: seq<Vec3>, w: seq<Vec3>, s: real)
    requires FilterReady(S, |u|) && |w| == |u|
    ensures Filtered(S, AddL(u, ScaleL(w, s))) == AddL(Filtered(S, u), ScaleL(Filtered(S, w), s))
  {
    forall i | 0 <= i < |u|
      ensures Filtered(S, AddL(u, ScaleL(w, s)))[i] == AddL(Filtered(S, u), ScaleL(Filtered(S, w), s))[i]
    {
      MulColsLinear(S[i].m, u[i], w[i], s);
    }
  }

  /** With every block the identity (no vertex constrained) the filter changes nothing. */
  lemma FilterUnconstrained(S: seq<Block>, v: seq<Vec3>)
    requires FilterReady(S, |v|)
    requires forall i :: 0 <= i < |v| ==> S[i].m == Identity
    ensures Filtered(S, v) == v
  {
    forall i | 0 <= i < |v|
      ensures Filtered(S, v)[i] == v[i]
    {
      MulColsIdentity(v[i]);
    }
  }

  /** A vertex whose block is zero (three fixed degrees of freedom) is filtered to zero. */
  lemma FilterPinned(S: seq<Block>, v: seq<Vec3>, i: nat)
    requires FilterReady(S, |v|) && i < |v| && S[i].m == Zero
    ensures Filtered(S, v)[i] == ZeroV
  {
  }

  /** A vertex with a zero constraint block cannot move away from its target: when x - z is
      admissible, x[i] == z[i]. */
  lemma PinnedVertexStays(S: seq<Block>, x: seq<Vec3>, z: seq<Vec3>, i: nat)
    requires |x| == |z| <= |S| && i < |x|
    requires Admissible(S, SubL(x, z)) && S[i].m == Zero
    ensures x[i] == z[i]
  {
    var d := SubL(x, z)[i];
    assert MulCols(Zero, d) == d by {
      ZeroIsProjector();
      assert Idempotent(S[i].m);
    }
    ZeroFixesOnlyZero(d);
    assert d == Sub(x[i], z[i]);
  }

  /** Admissible vectors are closed under adding a scaled admissible vector. */
  lemma AdmissibleStep(S: seq<Block>, x: seq<Vec3>, z: seq<Vec3>, c: seq<Vec3>, alpha: real)
    requires |x| == |z| == |c| <= |S|
    requires Admissible(S, SubL(x, z)) && Admissible(S, c)
    ensures Admissible(S, SubL(AddL(x, ScaleL(c, alpha)), z))
  {
    var d := SubL(AddL(x, ScaleL(c, alpha)), z);
    forall i | 0 <= i < |d| && Idempotent(S[i].m)
      ensures MulCols(S[i].m, d[i]) == d[i]
    {
      AddScaleSub(x[i], c[i], z[i], alpha);
      MulColsLinear(S[i].m, Sub(x[i], z[i]), c[i], alpha);
    }
  }

  /** dV = z at the start: no change yet, which every constraint admits. */
  lemma NoStepIsAdmissible(S: seq<Block>, z: seq<Vec3>)
    requires |z| <= |S|
    ensures Admissible(S, SubL(z, z))
  {
    forall i | 0 <= i < |z|
      ensures SubL(z, z)[i] == ZeroV && MulCols(S[i].m, ZeroV) == ZeroV
    {
    }
  }

  /** The residual update `r += -alpha q` with `q = filter(A c)` keeps r the filtered
      residual of the updated `dV += alpha c`. */
  lemma ResidualStep(A: seq<Block>, S: seq<Block>, B: seq<Vec3>, x: seq<Vec3>, c: seq<Vec3>, alpha: real,
                     r: seq<Vec3>, q: seq<Vec3>)
    requires ProductReady(A, |x|) && |B| == |x| == |c| && FilterReady(S, |x|)
    requires r == Residual(A, S, B, x) && q == Filtered(S, SparseProduct(A, c))
    ensures AddL(r, ScaleL(q, -alpha)) == Residual(A, S, B, AddL(x, ScaleL(c, alpha)))
  {
    var ax, ac := SparseProduct(A, x), SparseProduct(A, c);
    SparseProductLinear(A, x, c, alpha);
    var d := SubL(B, SparseProduct(A, AddL(x, ScaleL(c, alpha))));
    forall i | 0 <= i < |x|
      ensures d[i] == AddL(SubL(B, ax), ScaleL(ac, -alpha))[i]
    {
      SubAddScale(B[i], ax[i], ac[i], alpha);
    }
    assert d == AddL(SubL(B, ax), ScaleL(ac, -alpha));
    FilterLinear(S, SubL(B, ax), ac, -alpha);
  }

  /** `cg_filtered`: conjugate gradients on A dV = B started from dV = z, every direction
      filtered. Returns whether the residual test passed within the iteration limit.
      dV - z stays admissible; when the test passes the filtered residual is within
      `Epsilon` of the filtered right-hand side (in squared norms). */
  method CgFiltered(dV: array<Vec3>, A: array<Block>, B: array<Vec3>, z: array<Vec3>, S: array<Block>)
    returns (ok: bool, ghost iterations: nat)
    requires A.Length > 0 && ProductReady(A[..], A[0].vcount)
    requires dV.Length == A[0].vcount && B.Length == A[0].vcount && z.Length == A[0].vcount
    requires FilterReady(S[..], A[0].vcount)
    requires dV != B && dV != z
    modifies dV
    ensures iterations <= MaxIterations
    ensures ok <==> iterations < MaxIterations
    ensures Admissible(S[..], SubL(dV[..], z[..]))
    ensures ok && (iterations > 0 || AllProjectors(S[..], dV.Length)) ==>
      var r := Residual(A[..], S[..], B[..], dV[..]);
      var fB := Filtered(S[..], B[..]);
      DotL(r, r) <= Epsilon * Epsilon * DotL(fB, fB)
  {
    var n := A[0].vcount;
    var fB := new Vec3[n](_ => ZeroV);
    var AdV := new Vec3[n](_ => ZeroV);
    var r := new Vec3[n](_ => ZeroV);
    var c := new Vec3[n](_ => ZeroV);
    var q := new Vec3[n](_ => ZeroV);
    var s := new Vec3[n](_ => ZeroV);
    ghost var As, Ss, Bs, zs := A[..], S[..], B[..], z[..];
    var target, deltaNew := CgStart(dV, A, B, z, S, fB, AdV, r, c);
    NoStepIsAdmissible(Ss, zs);

    var count := 0;
    while deltaNew > target && count < MaxIterations
      invariant count <= MaxIterations
      invariant A[..] == As && S[..] == Ss && B[..] == Bs && z[..] == zs
      invariant 0.0 <= target == Epsilon * Epsilon * DotL(Filtered(Ss, Bs), Filtered(Ss, Bs))
      invariant r[..] == Residual(As, Ss, Bs, dV[..])
      invariant Admissible(Ss, c[..])
      invariant Admissible(Ss, SubL(dV[..], zs))
      invariant count > 0 ==> deltaNew == DotL(r[..], r[..])
      invariant count == 0 ==> deltaNew == DotL(r[..], Filtered(Ss, r[..]))
      decreases MaxIterations - count
    {
      deltaNew := CgIterate(dV, A, B, z, S, r, c, q, s, deltaNew);
      count := count + 1;
    }
    ok := count < MaxIterations;
    iterations := count;
    if ok && count == 0 && AllProjectors(Ss, n) {
      FilterIdempotent(Ss, SubL(Bs, SparseProduct(As, dV[..])));
    }
  }

  /** The set-up of `cg_filtered`: dV = z, the filtered right-hand side and the stopping
      target, the filtered residual r, the first direction c = filter(r) and r . c. */
  method CgStart(dV: array<Vec3>, A: array<Block>, B: array<Vec3>, z: array<Vec3>, S: array<Block>,
                 fB: array<Vec3>, AdV: array<Vec3>, r: array<Vec3>, c: array<Vec3>)
    returns (target: real, deltaNew: real)
    requires A.Length > 0 && ProductReady(A[..], A[0].vcount)
    requires dV.Length == A[0].vcount && B.Length == A[0].vcount && z.Length == A[0].vcount
    requires fB.Length == A[0].vcount && AdV.Length == A[0].vcount
    requires r.Length == A[0].vcount && c.Length == A[0].vcount
    requires FilterReady(S[..], A[0].vcount)
    requires dV != B && dV != z && dV != fB && dV != AdV && dV != r && dV != c
    requires fB != B && fB != AdV && fB != r && fB != c
    requires AdV != B && AdV != r && AdV != c && r != B && r != c && c != B
    requires fB != z && AdV != z && r != z && c != z
    modifies dV, fB, AdV, r, c
    ensures A[..] == old(A[..]) && S[..] == old(S[..]) && B[..] == old(B[..]) && z[..] == old(z[..])
    ensures dV[..] == z[..]
    ensures 0.0 <= target == Epsilon * Epsilon * DotL(Filtered(S[..], B[..]), Filtered(S[..], B[..]))
    ensures r[..] == Residual(A[..], S[..], B[..], dV[..])
    ensures Admissible(S[..], c[..])
    ensures deltaNew == DotL(r[..], Filtered(S[..], r[..]))
  {
    var n := A[0].vcount;
    ghost var As, Ss, Bs, zs := A[..], S[..], B[..], z[..];
    CpLfvector(dV, z, n);
    CpLfvector(fB, B, n);
    Filter(fB, S);
    var fBB := DotLfvector(fB, fB, n);
    DotLSelfNonnegative(fB[..]);
    target := Epsilon * Epsilon * fBB;
    MulBfmatrixLfvector(AdV, A, dV);
    SubLfvectorLfvector(r, B, AdV, n);
    Filter(r, S);
    ghost var rs := r[..];
    CpLfvector(c, r, n);
    Filter(c, S);
    FilteredIsAdmissible(Ss, rs);
    deltaNew := DotLfvector(r, c, n);
  }

  /** One pass of the loop of `cg_filtered`: it keeps r the filtered residual of dV, c and
      dV - z admissible, and leaves r . r in delta_new. */
  method CgIterate(dV: array<Vec3>, A: array<Block>, B: array<Vec3>, z: array<Vec3>, S: array<Block>,
                   r: array<Vec3>, c: array<Vec3>, q: array<Vec3>, s: array<Vec3>, deltaOld: real)
    returns (deltaNew: real)
    requires A.Length > 0 && ProductReady(A[..], A[0].vcount)
    requires dV.Length == A[0].vcount && B.Length == A[0].vcount && z.Length == A[0].vcount
    requires r.Length == A[0].vcount && c.Length == A[0].vcount
    requires q.Length == A[0].vcount && s.Length == A[0].vcount
    requires FilterReady(S[..], A[0].vcount)
    requires dV != B && dV != z && dV != r && dV != c && dV != q && dV != s
    requires r != B && r != z && r != c && r != q && r != s
    requires c != B && c != z && c != q && c != s
    requires q != B && q != z && q != s && s != B && s != z
    requires deltaOld > 0.0
    requires r[..] == Residual(A[..], S[..], B[..], dV[..])
    requires Admissible(S[..], c[..]) && Admissible(S[..], SubL(dV[..], z[..]))
    modifies dV, r, c, q, s
    ensures A[..] == old(A[..]) && S[..] == old(S[..]) && B[..] == old(B[..]) && z[..] == old(z[..])
    ensures r[..] == Residual(A[..], S[..], B[..], dV[..])
    ensures Admissible(S[..], c[..]) && Admissible(S[..], SubL(dV[..], z[..]))
    ensures deltaNew == DotL(r[..], r[..])
  {
    ghost var dV0, c0 := dV[..], c[..];
    var alpha := CgDescend(dV, A, B, S, r, c, q, deltaOld);
    AdmissibleStep(S[..], dV0, z[..], c0, alpha);
    deltaNew := CgRedirect(r, c, s, S, deltaOld);
  }

  /** The first half of an iteration: q = filter(A c), alpha = delta_new / (c . q),
      dV += alpha c and r += -alpha q, which keeps r the filtered residual. */
  method CgDescend(dV: array<Vec3>, A: array<Block>, B: array<Vec3>, S: array<Block>,
                   r: array<Vec3>, c: array<Vec3>, q: array<Vec3>, deltaNew: real)
    returns (alpha: real)
    requires A.Length > 0 && ProductReady(A[..], A[0].vcount)
    requires dV.Length == A[0].vcount && B.Length == A[0].vcount
    requires r.Length == A[0].vcount && c.Length == A[0].vcount && q.Length == A[0].vcount
    requires FilterReady(S[..], A[0].vcount)
    requires dV != B && dV != r && dV != c && dV != q
    requires r != B && r != c && r != q && q != B && q != c
    requires r[..] == Residual(A[..], S[..], B[..], dV[..])
    modifies dV, r, q
    ensures A[..] == old(A[..]) && S[..] == old(S[..]) && B[..] == old(B[..])
    ensures dV[..] == AddL(old(dV[..]), ScaleL(c[..], alpha))
    ensures r[..] == Residual(A[..], S[..], B[..], dV[..])
  {
    var n := A[0].vcount;
    ghost var As, Ss, Bs := A[..], S[..], B[..];
    ghost var x0, c0, r0 := dV[..], c[..], r[..];
    MulBfmatrixLfvector(q, A, c);
    Filter(q, S);
    ghost var fq := q[..];
    var cq := DotLfvector(c, q, n);
    alpha := Quot(deltaNew, cq);
    AddLfvectorLfvectorS(dV, dV, c, alpha, n);
    AddLfvectorLfvectorS(r, r, q, -alpha, n);
    ResidualStep(As, Ss, Bs, x0, c0, alpha, r0, fq);
  }

  /** The second half of an iteration: s = r, delta_new = r . s and
      c = filter(s + c * delta_new / delta_old). */
  method CgRedirect(r: array<Vec3>, c: array<Vec3>, s: array<Vec3>, S: array<Block>, deltaOld: real)
    returns (deltaNew: real)
    requires c.Length == r.Length && s.Length == r.Length && FilterReady(S[..], r.Length)
    requires r != c && r != s && c != s
    requires deltaOld > 0.0
    modifies c, s
    ensures S[..] == old(S[..]) && r[..] == old(r[..])
    ensures s[..] == r[..] && deltaNew == DotL(r[..], r[..])
    ensures c[..] == Filtered(S[..], AddL(r[..], ScaleL(old(c[..]), deltaNew / deltaOld)))
    ensures Admissible(S[..], c[..])
  {
    var n := r.Length;
    CpLfvector(s, r, n);
    deltaNew := DotLfvector(r, s, n);
    AddLfvectorLfvectorS(c, s, c, deltaNew / deltaOld, n);
    ghost var unfiltered := c[..];
    Filter(c, S);
    FilteredIsAdmissible(S[..], unfiltered);
  }
}
