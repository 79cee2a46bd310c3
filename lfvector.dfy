/** Long vectors: one 3-vector per cloth vertex (the C type `lfVector *`), and the loops
    that combine them entry by entry. A long vector is allocated with one entry per vertex
    and every loop runs over all `verts` of them; each loop
    reads each input entry before it writes the output entry of the same index, so the
    output may be the same array as an input (the solver relies on this, for instance
    `add_lfvector_lfvectorS(ldV, ldV, c, alpha, n)`). */
module LongVector {
  import opened LinAlg

  /** Entrywise a + b. */
  function AddL(a: seq<Vec3>, b: seq<Vec3>): (r: seq<Vec3>)
    requires |a| == |b|
    ensures |r| == |a|
  {
    seq(|a|, i requires 0 <= i < |a| => Add(a[i], b[i]))
  }

  /** Entrywise a - b. */
  function SubL(a: seq<Vec3>, b: seq<Vec3>): (r: seq<Vec3>)
    requires |a| == |b|
    ensures |r| == |a|
  {
    seq(|a|, i requires 0 <= i < |a| => Sub(a[i], b[i]))
  }

  /** Entrywise a * s. */
  function ScaleL(a: seq<Vec3>, s: real): (r: seq<Vec3>)
    ensures |r| == |a|
  {
    seq(|a|, i requires 0 <= i < |a| => Scale(a[i], s))
  }

  /** The sum of the entrywise dot products of the first `hi` entries. */
  function DotUpTo(a: seq<Vec3>, b: seq<Vec3>, hi: nat): real
    requires |a| == |b| && hi <= |a|
  {
    if hi == 0 then 0.0 else DotUpTo(a, b, hi - 1) + Dot(a[hi - 1], b[hi - 1])
  }

  /** The sum of the entrywise dot products. */
  function DotL(a: seq<Vec3>, b: seq<Vec3>): real
    requires |a| == |b|
  {
    DotUpTo(a, b, |a|)
  }

  /** `n` copies of `v`. */
  function Constant(v: Vec3, n: nat): (r: seq<Vec3>)
    ensures |r| == n
  {
    seq(n, _ => v)
  }

  /** `create_lfvector`: a fresh zeroed long vector. */
  method CreateLfvector(verts: nat) returns (a: array<Vec3>)
    ensures fresh(a) && a[..] == Constant(ZeroV, verts)
  {
    a := new Vec3[verts](_ => ZeroV);
    assert a[..] == Constant(ZeroV, verts);
  }

  /** `cp_lfvector`: `src` copied into `dst`. */
  method CpLfvector(dst: array<Vec3>, src: array<Vec3>, verts: nat)
    requires dst.Length == verts && src.Length == verts
    modifies dst
    ensures dst[..] == old(src[..])
  {
    ghost var s0 := src[..];
    var i := 0;
    while i < verts
      invariant 0 <= i <= verts
      invariant forall k :: 0 <= k < i ==> dst[k] == s0[k]
      invariant forall k :: i <= k < verts ==> src[k] == s0[k]
    {
      dst[i] := src[i];
      i := i + 1;
    }
    assert dst[..] == s0;
  }

  /** `init_lfvector`: every entry set to `v`. */
  method InitLfvector(a: array<Vec3>, v: Vec3, verts: nat)
    requires a.Length == verts
    modifies a
    ensures a[..] == Constant(v, verts)
  {
    var i := 0;
    while i < verts
      invariant 0 <= i <= verts
      invariant forall k :: 0 <= k < i ==> a[k] == v
    {
      a[i] := v;
      i := i + 1;
    }
    assert a[..] == Constant(v, verts);
  }

  /** `zero_lfvector`: every entry cleared. */
  method ZeroLfvector(a: array<Vec3>, verts: nat)
    requires a.Length == verts
    modifies a
    ensures a[..] == Constant(ZeroV, verts)
  {
    InitLfvector(a, ZeroV, verts);
  }

  /** `mul_lfvectorS`: dst = a * s. */
  method MulLfvectorS(dst: array<Vec3>, a: array<Vec3>, s: real, verts: nat)
    requires dst.Length == verts && a.Length == verts
    modifies dst
    ensures dst[..] == ScaleL(old(a[..]), s)
  {
    ghost var a0 := a[..];
    var i := 0;
    while i < verts
      invariant 0 <= i <= verts
      invariant forall k :: 0 <= k < i ==> dst[k] == Scale(a0[k], s)
      invariant forall k :: i <= k < verts ==> a[k] == a0[k]
    {
      dst[i] := Scale(a[i], s);
      i := i + 1;
    }
    assert dst[..] == ScaleL(a0, s);
  }

  /** `submul_lfvectorS`: dst -= a * s. */
  method SubmulLfvectorS(dst: array<Vec3>, a: array<Vec3>, s: real, verts: nat)
    requires dst.Length == verts && a.Length == verts
    modifies dst
    ensures dst[..] == SubL(old(dst[..]), ScaleL(old(a[..]), s))
  {
    ghost var d0 := dst[..];
    ghost var a0 := a[..];
    var i := 0;
    while i < verts
      invariant 0 <= i <= verts
      invariant forall k :: 0 <= k < i ==> dst[k] == Sub(d0[k], Scale(a0[k], s))
      invariant forall k :: i <= k < verts ==> a[k] == a0[k] && dst[k] == d0[k]
    {
      dst[i] := Sub(dst[i], Scale(a[i], s));
      i := i + 1;
    }
    assert dst[..] == SubL(d0, ScaleL(a0, s));
  }

  /** `dot_lfvector`: the dot product of two long vectors, accumulated in index order. */
  method DotLfvector(a: array<Vec3>, b: array<Vec3>, verts: nat) returns (d: real)
    requires a.Length == verts && b.Length == verts
    ensures d == DotL(a[..], b[..])
  {
    ghost var a0, b0 := a[..], b[..];
    d := 0.0;
    var i := 0;
    while i < verts
      invariant 0 <= i <= verts
      invariant d == DotUpTo(a0, b0, i)
    {
      d := d + Dot(a[i], b[i]);
      i := i + 1;
    }
  }

  /** `add_lfvector_lfvector`: dst = a + b. */
  method AddLfvectorLfvector(dst: array<Vec3>, a: array<Vec3>, b: array<Vec3>, verts: nat)
    requires dst.Length == verts && a.Length == verts && b.Length == verts
    modifies dst
    ensures dst[..] == AddL(old(a[..]), old(b[..]))
  {
    ghost var a0 := a[..];
    ghost var b0 := b[..];
    var i := 0;
    while i < verts
      invariant 0 <= i <= verts
      invariant forall k :: 0 <= k < i ==> dst[k] == Add(a0[k], b0[k])
      invariant forall k :: i <= k < verts ==> a[k] == a0[k] && b[k] == b0[k]
    {
      dst[i] := Add(a[i], b[i]);
      i := i + 1;
    }
    assert dst[..] == AddL(a0, b0);
  }

  /** `add_lfvector_lfvectorS`: dst = a + b * bS. */
  method AddLfvectorLfvectorS(dst: array<Vec3>, a: array<Vec3>, b: array<Vec3>, bS: real, verts: nat)
    requires dst.Length == verts && a.Length == verts && b.Length == verts
    modifies dst
    ensures dst[..] == AddL(old(a[..]), ScaleL(old(b[..]), bS))
  {
    ghost var a0 := a[..];
    ghost var b0 := b[..];
    var i := 0;
    while i < verts
      invariant 0 <= i <= verts
      invariant forall k :: 0 <= k < i ==> dst[k] == Add(a0[k], Scale(b0[k], bS))
      invariant forall k :: i <= k < verts ==> a[k] == a0[k] && b[k] == b0[k]
    {
      dst[i] := Add(a[i], Scale(b[i], bS));
      i := i + 1;
    }
    assert dst[..] == AddL(a0, ScaleL(b0, bS));
  }

  /** `add_lfvectorS_lfvectorS`: dst = a * aS + b * bS. */
  method AddLfvectorSLfvectorS(dst: array<Vec3>, a: array<Vec3>, aS: real, b: array<Vec3>, bS: real, verts: nat)
    requires dst.Length == verts && a.Length == verts && b.Length == verts
    modifies dst
    ensures dst[..] == AddL(ScaleL(old(a[..]), aS), ScaleL(old(b[..]), bS))
  {
    ghost var a0 := a[..];
    ghost var b0 := b[..];
    var i := 0;
    while i < verts
      invariant 0 <= i <= verts
      invariant forall k :: 0 <= k < i ==> dst[k] == Add(Scale(a0[k], aS), Scale(b0[k], bS))
      invariant forall k :: i <= k < verts ==> a[k] == a0[k] && b[k] == b0[k]
    {
      dst[i] := Add(Scale(a[i], aS), Scale(b[i], bS));
      i := i + 1;
    }
    assert dst[..] == AddL(ScaleL(a0, aS), ScaleL(b0, bS));
  }

  /** `sub_lfvector_lfvectorS`: dst = a - b * bS. */
  method SubLfvectorLfvectorS(dst: array<Vec3>, a: array<Vec3>, b: array<Vec3>, bS: real, verts: nat)
    requires dst.Length == verts && a.Length == verts && b.Length == verts
    modifies dst
    ensures dst[..] == SubL(old(a[..]), ScaleL(old(b[..]), bS))
  {
    ghost var a0 := a[..];
    ghost var b0 := b[..];
    var i := 0;
    while i < verts
      invariant 0 <= i <= verts
      invariant forall k :: 0 <= k < i ==> dst[k] == Sub(a0[k], Scale(b0[k], bS))
      invariant forall k :: i <= k < verts ==> a[k] == a0[k] && b[k] == b0[k]
    {
      dst[i] := Sub(a[i], Scale(b[i], bS));
      i := i + 1;
    }
    assert dst[..] == SubL(a0, ScaleL(b0, bS));
  }

  /** `sub_lfvector_lfvector`: dst = a - b. */
  method SubLfvectorLfvector(dst: array<Vec3>, a: array<Vec3>, b: array<Vec3>, verts: nat)
    requires dst.Length == verts && a.Length == verts && b.Length == verts
    modifies dst
    ensures dst[..] == SubL(old(a[..]), old(b[..]))
  {
    ghost var a0 := a[..];
    ghost var b0 := b[..];
    var i := 0;
    while i < verts
      invariant 0 <= i <= verts
      invariant forall k :: 0 <= k < i ==> dst[k] == Sub(a0[k], b0[k])
      invariant forall k :: i <= k < verts ==> a[k] == a0[k] && b[k] == b0[k]
    {
      dst[i] := Sub(a[i], b[i]);
      i := i + 1;
    }
    assert dst[..] == SubL(a0, b0);
  }

  /** The dot product is symmetric. */
  lemma DotLSymmetric(a: seq<Vec3>, b: seq<Vec3>)
    requires |a| == |b|
    ensures DotL(a, b) == DotL(b, a)
  {
    DotUpToSymmetric(a, b, |a|);
  }

  lemma {:induction false} DotUpToSymmetric(a: seq<Vec3>, b: seq<Vec3>, hi: nat)
    requires |a| == |b| && hi <= |a|
    ensures DotUpTo(a, b, hi) == DotUpTo(b, a, hi)
  {
    if hi > 0 {
      DotUpToSymmetric(a, b, hi - 1);
    }
  }

  /** A long vector dotted with itself is never negative (the CG tolerance is a squared norm). */
  lemma DotLSelfNonnegative(a: seq<Vec3>)
    ensures DotL(a, a) >= 0.0
  {
    DotUpToSelfNonnegative(a, |a|);
  }

  lemma {:induction false} DotUpToSelfNonnegative(a: seq<Vec3>, hi: nat)
    requires hi <= |a|
    ensures DotUpTo(a, a, hi) >= 0.0
  {
    if hi > 0 {
      DotUpToSelfNonnegative(a, hi - 1);
      var e := a[hi - 1];
      assert e.x * e.x >= 0.0 && e.y * e.y >= 0.0 && e.z * e.z >= 0.0;
    }
  }

  /** Subtracting what was added gives back the original long vector. */
  lemma SubLUndoesAddL(a: seq<Vec3>, b: seq<Vec3>)
    requires |a| == |b|
    ensures SubL(AddL(a, b), b) == a
  {
    assert forall i :: 0 <= i < |a| ==> Sub(Add(a[i], b[i]), b[i]) == a[i];
  }
}
