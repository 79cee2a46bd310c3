/** The block-sparse symmetric matrix of the implicit solver (the C type `fmatrix3x3 *`).

    It is one array of 3x3 blocks. The first `vcount` blocks are the diagonal, block `i`
    tagged with row and column `i`. The next `scount` blocks are one slot per spring, tagged
    `(r, c)` with the spring's two vertices when the spring is registered. Only the upper or
    lower block of a symmetric pair is stored. The array carries its own size: `vcount` and
    `scount` are read from block 0, as the C code does; in every other block they stay 0. */
module BlockSparse {
  import opened LinAlg
  import opened LongVector

  /** One block: its matrix, its row and column tags, and the header fields (the
      collision normals n1..n3 of the C struct are never read here and are left out). */
  datatype Block = Block(m: Mat3, r: nat, c: nat, vcount: nat, scount: nat)

  /** A block as `calloc` leaves it. */
  const ZeroBlock: Block := Block(Zero, 0, 0, 0, 0)

  /** The number of blocks the header in block 0 claims. */
  function Count(b: seq<Block>): nat
    requires |b| > 0
  {
    b[0].vcount + b[0].scount
  }

  /** The header matches the array. */
  predicate Shaped(b: seq<Block>)
  {
    |b| > 0 && |b| == Count(b)
  }

  /** Diagonal block `i` is tagged `(i, i)`. */
  predicate DiagonalTags(b: seq<Block>)
    requires |b| > 0
  {
    forall i :: 0 <= i < b[0].vcount && i < |b| ==> b[i].r == i && b[i].c == i
  }

  /** Every tag is a vertex index below `n`. */
  predicate TagsBelow(b: seq<Block>, n: nat)
  {
    forall k :: 0 <= k < |b| ==> b[k].r < n && b[k].c < n
  }

  /** Shaped, over `n` vertices, with every tag a vertex: what the sparse product reads. */
  predicate ProductReady(b: seq<Block>, n: nat)
  {
    Shaped(b) && b[0].vcount == n && TagsBelow(b, n)
  }

  /** Every off-diagonal (spring) block is a symmetric 3x3 matrix. */
  predicate SymmetricSpringBlocks(b: seq<Block>)
    requires |b| > 0
  {
    forall k :: b[0].vcount <= k < |b| ==> Symmetric(b[k].m)
  }

  /** What `create_bfmatrix(verts, springs)` returns: verts + springs zero blocks, the
      diagonal ones tagged (i, i), the spring slots tagged (0, 0), the header in block 0. */
  function Created(verts: nat, springs: nat): (b: seq<Block>)
    ensures |b| == verts + springs
  {
    seq(verts + springs, i requires 0 <= i < verts + springs =>
      Block(Zero, if i < verts then i else 0, if i < verts then i else 0,
            if i == 0 then verts else 0, if i == 0 then springs else 0))
  }

  /** `init_bfmatrix`: every block the header covers gets matrix `m3`; tags are kept. */
  function Filled(b: seq<Block>, m3: Mat3): (r: seq<Block>)
    requires |b| > 0
    ensures |r| == |b|
  {
    seq(|b|, k requires 0 <= k < |b| => if k < Count(b) then b[k].(m := m3) else b[k])
  }

  /** `initdiag_bfmatrix`: diagonal blocks get `m3`, spring blocks get zero; tags are kept. */
  function DiagFilled(b: seq<Block>, m3: Mat3): (r: seq<Block>)
    requires |b| > 0
    ensures |r| == |b|
  {
    seq(|b|, k requires 0 <= k < |b| =>
      if k < b[0].vcount then b[k].(m := m3)
      else if k < Count(b) then b[k].(m := Zero)
      else b[k])
  }

  /** The 3x3 step of `subadd_fmatrixS_fmatrixS`: t - (a * aS + b * bS). */
  function SubAddS(t: Mat3, a: Mat3, aS: real, b: Mat3, bS: real): Mat3
  {
    MatSub(t, MatAdd(MatScale(a, aS), MatScale(b, bS)))
  }

  /** The first pass of `mul_bfmatrix_lfvector`: spring block `k` adds m * v[r] into entry c.
      The block is not transposed. */
  function SpringTerm(b: seq<Block>, v: seq<Vec3>, x: nat, k: nat): Vec3
    requires k < |b| && b[k].r < |v|
  {
    if b[k].c == x then MulRows(b[k].m, v[b[k].r]) else ZeroV
  }

  /** The second pass: every block `k` adds m * v[c] into entry r. */
  function BlockTerm(b: seq<Block>, v: seq<Vec3>, x: nat, k: nat): Vec3
    requires k < |b| && b[k].c < |v|
  {
    if b[k].r == x then MulRows(b[k].m, v[b[k].c]) else ZeroV
  }

  /** Entry x of the first pass after the spring blocks below `hi`: the sum of m * v[r] over
      the spring blocks with column x. */
  function SpringSum(b: seq<Block>, v: seq<Vec3>, x: nat, hi: nat): Vec3
    requires ProductReady(b, |v|) && b[0].vcount <= hi <= |b|
    decreases hi
  {
    if hi == b[0].vcount then ZeroV else Add(SpringSum(b, v, x, hi - 1), SpringTerm(b, v, x, hi - 1))
  }

  /** Entry x of the second pass after the blocks below `hi`: the sum of m * v[c] over the
      blocks with row x. */
  function BlockSum(b: seq<Block>, v: seq<Vec3>, x: nat, hi: nat): Vec3
    requires ProductReady(b, |v|) && hi <= |b|
    decreases hi
  {
    if hi == 0 then ZeroV else Add(BlockSum(b, v, x, hi - 1), BlockTerm(b, v, x, hi - 1))
  }

  /** The first pass as the loop performs it, on the whole vector: after the spring blocks
      below `hi`, starting from zero. */
  function SpringPassVec(b: seq<Block>, v: seq<Vec3>, hi: nat): (r: seq<Vec3>)
    requires ProductReady(b, |v|) && b[0].vcount <= hi <= |b|
    ensures |r| == |v|
    decreases hi
  {
    if hi == b[0].vcount then Constant(ZeroV, |v|)
    else
      var p, k := SpringPassVec(b, v, hi - 1), hi - 1;
      p[b[k].c := Add(p[b[k].c], MulRows(b[k].m, v[b[k].r]))]
  }

  /** The second pass as the loop performs it, into the scratch vector. */
  function BlockPassVec(b: seq<Block>, v: seq<Vec3>, hi: nat): (r: seq<Vec3>)
    requires ProductReady(b, |v|) && hi <= |b|
    ensures |r| == |v|
    decreases hi
  {
    if hi == 0 then Constant(ZeroV, |v|)
    else
      var p, k := BlockPassVec(b, v, hi - 1), hi - 1;
      p[b[k].r := Add(p[b[k].r], MulRows(b[k].m, v[b[k].c]))]
  }

  /** What `mul_bfmatrix_lfvector` computes: entry x is the first pass plus the second. */
  function SparseProduct(b: seq<Block>, v: seq<Vec3>): (r: seq<Vec3>)
    requires ProductReady(b, |v|)
    ensures |r| == |v|
  {
    seq(|v|, x requires 0 <= x < |v| => Add(SpringSum(b, v, x, |b|), BlockSum(b, v, x, |b|)))
  }

  /** Reference: the product with the symmetric matrix whose lower half holds the transposes
      of the stored spring blocks, so spring block k adds m^T * v[r] into entry c. */
  function TransposedSpringSum(b: seq<Block>, v: seq<Vec3>, x: nat, hi: nat): Vec3
    requires ProductReady(b, |v|) && b[0].vcount <= hi <= |b|
    decreases hi
  {
    if hi == b[0].vcount then ZeroV
    else
      var k := hi - 1;
      Add(TransposedSpringSum(b, v, x, k), if b[k].c == x then MulRows(Transpose(b[k].m), v[b[k].r]) else ZeroV)
  }

  /** Reference: the dense symmetric block product. */
  function SymmetricProduct(b: seq<Block>, v: seq<Vec3>): (r: seq<Vec3>)
    requires ProductReady(b, |v|)
    ensures |r| == |v|
  {
    seq(|v|, x requires 0 <= x < |v| => Add(TransposedSpringSum(b, v, x, |b|), BlockSum(b, v, x, |b|)))
  }

  /** `create_bfmatrix`: a fresh zeroed array with the header and the diagonal tags. */
  method CreateBfmatrix(verts: nat, springs: nat) returns (b: array<Block>)
    requires verts + springs > 0
    ensures fresh(b) && b[..] == Created(verts, springs)
  {
    b := new Block[verts + springs](_ => ZeroBlock);
    b[0] := b[0].(vcount := verts, scount := springs);
    var i := 0;
    while i < verts
      invariant 0 <= i <= verts
      invariant forall k :: 0 <= k < b.Length ==>
        b[k].m == Zero &&
        b[k].vcount == (if k == 0 then verts else 0) && b[k].scount == (if k == 0 then springs else 0) &&
        b[k].r == (if k < i then k else 0) && b[k].c == (if k < i then k else 0)
    {
      b[i] := b[i].(r := i, c := i);
      i := i + 1;
    }
    assert b[..] == Created(verts, springs);
  }

  /** `init_bfmatrix`. */
  method InitBfmatrix(b: array<Block>, m3: Mat3)
    requires b.Length > 0 && Count(b[..]) <= b.Length
    modifies b
    ensures b[..] == Filled(old(b[..]), m3)
  {
    ghost var b0 := b[..];
    var n := b[0].vcount + b[0].scount;
    var i := 0;
    while i < n
      invariant 0 <= i <= n
      invariant forall k :: 0 <= k < b.Length ==> b[k] == if k < i then b0[k].(m := m3) else b0[k]
    {
      b[i] := b[i].(m := m3);
      i := i + 1;
    }
    assert b[..] == Filled(b0, m3);
  }

  /** `initdiag_bfmatrix`. */
  method InitdiagBfmatrix(b: array<Block>, m3: Mat3)
    requires b.Length > 0 && Count(b[..]) <= b.Length
    modifies b
    ensures b[..] == DiagFilled(old(b[..]), m3)
  {
    ghost var b0 := b[..];
    var vcount := b[0].vcount;
    var i := 0;
    while i < vcount
      invariant 0 <= i <= vcount
      invariant forall k :: 0 <= k < b.Length ==> b[k] == if k < i then b0[k].(m := m3) else b0[k]
    {
      b[i] := b[i].(m := m3);
      i := i + 1;
    }
    var j := vcount;
    while j < vcount + b[0].scount
      invariant vcount <= j <= vcount + b0[0].scount
      invariant b[0].vcount == vcount && b[0].scount == b0[0].scount
      invariant forall k :: 0 <= k < b.Length ==>
        b[k] == if k < vcount then b0[k].(m := m3) else if k < j then b0[k].(m := Zero) else b0[k]
    {
      b[j] := b[j].(m := Zero);
      j := j + 1;
    }
    assert b[..] == DiagFilled(b0, m3);
  }

  /** `cp_bfmatrix`: the blocks `src`'s header covers, headers and tags included, copied
      over the front of `dst`. */
  method CpBfmatrix(dst: array<Block>, src: array<Block>)
    requires src.Length > 0 && Count(src[..]) <= src.Length && Count(src[..]) <= dst.Length
    modifies dst
    ensures dst[..] == old(src[..Count(src[..])]) + old(dst[Count(src[..])..])
  {
    ghost var s0 := src[..];
    ghost var d0 := dst[..];
    var n := src[0].vcount + src[0].scount;
    var i := 0;
    while i < n
      invariant 0 <= i <= n
      invariant forall k :: 0 <= k < dst.Length ==> dst[k] == if k < i then s0[k] else d0[k]
      invariant forall k :: i <= k < src.Length ==> src[k] == s0[k]
    {
      dst[i] := src[i];
      i := i + 1;
    }
    assert dst[..] == s0[..n] + d0[n..];
  }

  /** `subadd_bfmatrixS_bfmatrixS`: dst -= from * aS + mat * bS over every block `mat`'s
      header covers; tags and headers are kept. */
  method SubaddBfmatrixSBfmatrixS(dst: array<Block>, from: array<Block>, aS: real, mat: array<Block>, bS: real)
    requires mat.Length > 0
    requires Count(mat[..]) <= dst.Length && Count(mat[..]) <= from.Length && Count(mat[..]) <= mat.Length
    modifies dst
    ensures forall k :: 0 <= k < dst.Length ==>
      dst[k] == if k < old(Count(mat[..])) then old(dst[k]).(m := SubAddS(old(dst[k].m), old(from[k].m), aS, old(mat[k].m), bS))
                else old(dst[k])
  {
    var n := mat[0].vcount + mat[0].scount;
    var i := 0;
    while i < n
      invariant 0 <= i <= n
      invariant forall k :: 0 <= k < dst.Length ==>
        dst[k] == if k < i then old(dst[k]).(m := SubAddS(old(dst[k].m), old(from[k].m), aS, old(mat[k].m), bS))
                  else old(dst[k])
      invariant forall k :: i <= k < from.Length ==> from[k] == old(from[k])
      invariant forall k :: i <= k < mat.Length ==> mat[k] == old(mat[k])
    {
      dst[i] := dst[i].(m := SubAddS(dst[i].m, from[i].m, aS, mat[i].m, bS));
      i := i + 1;
    }
  }

  /** `mul_bfmatrix_lfvector`: dst = b * v over the first vcount entries, by the first pass
      into dst, the second into a scratch vector, and their sum. */
  method MulBfmatrixLfvector(dst: array<Vec3>, b: array<Block>, v: array<Vec3>)
    requires b.Length > 0 && dst.Length == b[0].vcount && v.Length == b[0].vcount
    requires ProductReady(b[..], b[0].vcount)
    requires dst != v
    modifies dst
    ensures dst[..] == SparseProduct(b[..], v[..])
  {
    var vcount := b[0].vcount;
    var temp := new Vec3[vcount](_ => ZeroV);
    ZeroLfvector(dst, vcount);
    SpringPass(dst, b, v);
    BlockPass(temp, b, v);
    AddLfvectorLfvector(dst, dst, temp, vcount);
    PassesAreSums(b[..], v[..]);
  }

  /** The first loop of `mul_bfmatrix_lfvector`: each spring block adds m * v[r] into
      entry c of the zeroed result. */
  method SpringPass(dst: array<Vec3>, b: array<Block>, v: array<Vec3>)
    requires b.Length > 0 && dst.Length == b[0].vcount && v.Length == b[0].vcount
    requires ProductReady(b[..], b[0].vcount)
    requires dst != v
    requires dst[..] == Constant(ZeroV, b[0].vcount)
    modifies dst
    ensures dst[..] == SpringPassVec(b[..], v[..], b.Length)
  {
    var vcount := b[0].vcount;
    ghost var bs := b[..];
    ghost var vs := v[..];
    var i := vcount;
    while i < vcount + b[0].scount
      invariant vcount <= i <= b.Length
      invariant dst[..] == SpringPassVec(bs, vs, i)
    {
      var blk := b[i];
      assert v[blk.r] == vs[blk.r];
      dst[blk.c] := Add(dst[blk.c], MulRows(blk.m, v[blk.r]));
      i := i + 1;
    }
  }

  /** The second loop of `mul_bfmatrix_lfvector`: every block adds m * v[c] into entry r of
      the zeroed scratch vector. */
  method BlockPass(temp: array<Vec3>, b: array<Block>, v: array<Vec3>)
    requires b.Length > 0 && temp.Length == b[0].vcount && v.Length == b[0].vcount
    requires ProductReady(b[..], b[0].vcount)
    requires temp != v
    requires temp[..] == Constant(ZeroV, b[0].vcount)
    modifies temp
    ensures temp[..] == BlockPassVec(b[..], v[..], b.Length)
  {
    var vcount := b[0].vcount;
    ghost var bs := b[..];
    ghost var vs := v[..];
    var i := 0;
    while i < vcount + b[0].scount
      invariant 0 <= i <= b.Length
      invariant temp[..] == BlockPassVec(bs, vs, i)
    {
      var blk := b[i];
      assert v[blk.c] == vs[blk.c];
      temp[blk.r] := Add(temp[blk.r], MulRows(blk.m, v[blk.c]));
      i := i + 1;
    }
  }

  /** The two loops compute the entrywise sums that define the product. */
  lemma PassesAreSums(b: seq<Block>, v: seq<Vec3>)
    requires ProductReady(b, |v|)
    ensures AddL(SpringPassVec(b, v, |b|), BlockPassVec(b, v, |b|)) == SparseProduct(b, v)
  {
    forall x | 0 <= x < |v|
      ensures SpringPassVec(b, v, |b|)[x] == SpringSum(b, v, x, |b|)
      ensures BlockPassVec(b, v, |b|)[x] == BlockSum(b, v, x, |b|)
    {
      SpringPassVecEntry(b, v, x, |b|);
      BlockPassVecEntry(b, v, x, |b|);
    }
  }

  lemma {:induction false} SpringPassVecEntry(b: seq<Block>, v: seq<Vec3>, x: nat, hi: nat)
    requires ProductReady(b, |v|) && b[0].vcount <= hi <= |b| && x < |v|
    ensures SpringPassVec(b, v, hi)[x] == SpringSum(b, v, x, hi)
    decreases hi
  {
    if hi > b[0].vcount {
      SpringPassVecEntry(b, v, x, hi - 1);
      AddZeroRight(SpringSum(b, v, x, hi - 1));
    }
  }

  lemma {:induction false} BlockPassVecEntry(b: seq<Block>, v: seq<Vec3>, x: nat, hi: nat)
    requires ProductReady(b, |v|) && hi <= |b| && x < |v|
    ensures BlockPassVec(b, v, hi)[x] == BlockSum(b, v, x, hi)
    decreases hi
  {
    if hi > 0 {
      BlockPassVecEntry(b, v, x, hi - 1);
      AddZeroRight(BlockSum(b, v, x, hi - 1));
    }
  }

  /** `create_bfmatrix` lays out a matrix ready for the product: shaped, diagonal blocks
      tagged (i, i), every block zero. */
  lemma CreatedLayout(verts: nat, springs: nat)
    requires verts > 0
    ensures ProductReady(Created(verts, springs), verts)
    ensures DiagonalTags(Created(verts, springs))
    ensures forall k :: 0 <= k < verts + springs ==> Created(verts, springs)[k].m == Zero
  {
  }

  /** With symmetric spring blocks the untransposed first pass is the transposed one. */
  lemma {:induction false} SpringSumsAgree(b: seq<Block>, v: seq<Vec3>, x: nat, hi: nat)
    requires ProductReady(b, |v|) && b[0].vcount <= hi <= |b|
    requires SymmetricSpringBlocks(b)
    ensures SpringSum(b, v, x, hi) == TransposedSpringSum(b, v, x, hi)
    decreases hi
  {
    if hi > b[0].vcount {
      var k := hi - 1;
      SpringSumsAgree(b, v, x, k);
      assert Transpose(b[k].m) == b[k].m;
    }
  }

  /** `mul_bfmatrix_lfvector` is the symmetric block product whenever every stored spring
      block is itself symmetric (as the spring Jacobians are). */
  lemma SymmetricSpringsGiveSymmetricProduct(b: seq<Block>, v: seq<Vec3>)
    requires ProductReady(b, |v|) && SymmetricSpringBlocks(b)
    ensures SparseProduct(b, v) == SymmetricProduct(b, v)
  {
    forall x | 0 <= x < |v|
      ensures SparseProduct(b, v)[x] == SymmetricProduct(b, v)[x]
    {
      SpringSumsAgree(b, v, x, |b|);
    }
  }

  /** On a matrix whose spring blocks are zero the second pass at entry x is the diagonal
      block x times v[x], once the pass has reached it. */
  lemma {:induction false} DiagonalBlockSum(b: seq<Block>, v: seq<Vec3>, x: nat, hi: nat)
    requires ProductReady(b, |v|) && DiagonalTags(b) && x < |v| && hi <= |b|
    requires forall k :: b[0].vcount <= k < |b| ==> b[k].m == Zero
    ensures BlockSum(b, v, x, hi) == if x < hi then MulRows(b[x].m, v[x]) else ZeroV
    decreases hi
  {
    if hi > 0 {
      var k := hi - 1;
      DiagonalBlockSum(b, v, x, k);
      var prev := BlockSum(b, v, x, k);
      var t := BlockTerm(b, v, x, k);
      assert BlockSum(b, v, x, hi) == Add(prev, t);
      if k < b[0].vcount {
        assert b[k].r == k && b[k].c == k;
        if k == x {
          assert prev == ZeroV;
          assert t == MulRows(b[x].m, v[x]);
          AddZeroRight(t);
        } else {
          assert t == ZeroV;
          AddZeroRight(prev);
        }
      } else {
        assert b[k].m == Zero;
        MulRowsZero(v[b[k].c]);
        assert t == ZeroV;
        AddZeroRight(prev);
      }
    }
  }

  /** On a matrix whose spring blocks are zero the first pass adds nothing. */
  lemma {:induction false} ZeroSpringSum(b: seq<Block>, v: seq<Vec3>, x: nat, hi: nat)
    requires ProductReady(b, |v|) && b[0].vcount <= hi <= |b|
    requires forall k :: b[0].vcount <= k < |b| ==> b[k].m == Zero
    ensures SpringSum(b, v, x, hi) == ZeroV
    decreases hi
  {
    if hi > b[0].vcount {
      ZeroSpringSum(b, v, x, hi - 1);
      MulRowsZero(v[b[hi - 1].r]);
    }
  }

  /** A block-diagonal matrix (all spring blocks zero) multiplies entry by entry. */
  lemma BlockDiagonalProduct(b: seq<Block>, v: seq<Vec3>)
    requires ProductReady(b, |v|) && DiagonalTags(b)
    requires forall k :: b[0].vcount <= k < |b| ==> b[k].m == Zero
    ensures forall x :: 0 <= x < |v| ==> SparseProduct(b, v)[x] == MulRows(b[x].m, v[x])
  {
    forall x | 0 <= x < |v|
      ensures SparseProduct(b, v)[x] == MulRows(b[x].m, v[x])
    {
      DiagonalBlockSum(b, v, x, |b|);
      ZeroSpringSum(b, v, x, |b|);
      AddZeroRight(MulRows(b[x].m, v[x]));
    }
  }

  /** The identity matrix `initdiag_bfmatrix(bigI, I)` builds multiplies as the identity. */
  lemma DiagIdentityProduct(b: seq<Block>, v: seq<Vec3>)
    requires ProductReady(b, |v|) && DiagonalTags(b)
    ensures ProductReady(DiagFilled(b, Identity), |v|)
    ensures SparseProduct(DiagFilled(b, Identity), v) == v
  {
    var d := DiagFilled(b, Identity);
    BlockDiagonalProduct(d, v);
    forall x | 0 <= x < |v|
      ensures SparseProduct(d, v)[x] == v[x]
    {
      MulRowsIdentity(v[x]);
    }
  }

  /** The first pass is linear in the vector. */
  lemma {:induction false} SpringSumLinear(b: seq<Block>, u: seq<Vec3>, w: seq<Vec3>, s: real, x: nat, hi: nat)
    requires ProductReady(b, |u|) && |w| == |u| && b[0].vcount <= hi <= |b|
    ensures SpringSum(b, AddL(u, ScaleL(w, s)), x, hi)
      == Add(SpringSum(b, u, x, hi), Scale(SpringSum(b, w, x, hi), s))
    decreases hi
  {
    var v := AddL(u, ScaleL(w, s));
    if hi == b[0].vcount {
      assert Scale(ZeroV, s) == ZeroV;
      AddZeroRight(ZeroV);
    } else {
      var k := hi - 1;
      SpringSumLinear(b, u, w, s, x, k);
      if b[k].c == x {
        MulRowsLinear(b[k].m, u[b[k].r], w[b[k].r], s);
      } else {
        assert Scale(ZeroV, s) == ZeroV;
        AddZeroRight(ZeroV);
      }
      AddScaleInterchange(SpringSum(b, u, x, k), SpringSum(b, w, x, k), SpringTerm(b, u, x, k), SpringTerm(b, w, x, k), s);
    }
  }

  /** The second pass is linear in the vector. */
  lemma {:induction false} BlockSumLinear(b: seq<Block>, u: seq<Vec3>, w: seq<Vec3>, s: real, x: nat, hi: nat)
    requires ProductReady(b, |u|) && |w| == |u| && hi <= |b|
    ensures BlockSum(b, AddL(u, ScaleL(w, s)), x, hi)
      == Add(BlockSum(b, u, x, hi), Scale(BlockSum(b, w, x, hi), s))
    decreases hi
  {
    var v := AddL(u, ScaleL(w, s));
    if hi == 0 {
      assert Scale(ZeroV, s) == ZeroV;
      AddZeroRight(ZeroV);
    } else {
      var k := hi - 1;
      BlockSumLinear(b, u, w, s, x, k);
      if b[k].r == x {
        MulRowsLinear(b[k].m, u[b[k].c], w[b[k].c], s);
      } else {
        assert Scale(ZeroV, s) == ZeroV;
        AddZeroRight(ZeroV);
      }
      AddScaleInterchange(BlockSum(b, u, x, k), BlockSum(b, w, x, k), BlockTerm(b, u, x, k), BlockTerm(b, w, x, k), s);
    }
  }

  /** `mul_bfmatrix_lfvector` is linear: b (u + s w) = b u + s (b w). */
  lemma SparseProductLinear(b: seq<Block>, u: seq<Vec3>, w: seq<Vec3>, s: real)
    requires ProductReady(b, |u|) && |w| == |u|
    ensures SparseProduct(b, AddL(u, ScaleL(w, s))) == AddL(SparseProduct(b, u), ScaleL(SparseProduct(b, w), s))
  {
    var v := AddL(u, ScaleL(w, s));
    forall x | 0 <= x < |u|
      ensures SparseProduct(b, v)[x] == AddL(SparseProduct(b, u), ScaleL(SparseProduct(b, w), s))[x]
    {
      SpringSumLinear(b, u, w, s, x, |b|);
      BlockSumLinear(b, u, w, s, x, |b|);
      AddScaleInterchange(SpringSum(b, u, x, |b|), SpringSum(b, w, x, |b|), BlockSum(b, u, x, |b|), BlockSum(b, w, x, |b|), s);
    }
  }

  /** Two block arrays with the same length, tags and headers: they differ at most in
      their 3x3 matrices. */
  predicate SameLayout(a: seq<Block>, b: seq<Block>)
  {
    |a| == |b| &&
    forall k :: 0 <= k < |a| ==> a[k].r == b[k].r && a[k].c == b[k].c && a[k].vcount == b[k].vcount && a[k].scount == b[k].scount
  }

  /** `subadd_bfmatrixS_bfmatrixS` over whole arrays of the same size: block k becomes
      t[k] - (a[k] aS + b[k] bS), keeping t's tags. */
  function SubAddBlocks(t: seq<Block>, a: seq<Block>, aS: real, b: seq<Block>, bS: real): (r: seq<Block>)
    requires |a| == |t| && |b| == |t|
    ensures |r| == |t|
  {
    seq(|t|, k requires 0 <= k < |t| => t[k].(m := SubAddS(t[k].m, a[k].m, aS, b[k].m, bS)))
  }

  /** `init_fmatrix` applied to slot s: the slot's tags become (r, c). */
  function Tagged(b: seq<Block>, s: nat, r: nat, c: nat): (t: seq<Block>)
    requires s < |b|
    ensures |t| == |b|
  {
    b[s := b[s].(r := r, c := c)]
  }

  /** `init_fmatrix`: tag one block with a row and a column; its matrix is kept. */
  method InitFmatrix(b: array<Block>, s: nat, r: nat, c: nat)
    requires s < b.Length
    modifies b
    ensures b[..] == Tagged(old(b[..]), s, r, c)
  {
    b[s] := b[s].(r := r, c := c);
  }

  /** Tagging a spring slot with two vertices keeps the layout the product needs, the
      diagonal tags and the header; the combination of same-layout arrays keeps their layout. */
  lemma TaggingKeepsLayout(b: seq<Block>, n: nat, s: nat, r: nat, c: nat)
    requires ProductReady(b, n) && DiagonalTags(b)
    requires b[0].vcount <= s < |b| && r < n && c < n
    ensures ProductReady(Tagged(b, s, r, c), n) && DiagonalTags(Tagged(b, s, r, c))
    ensures Tagged(b, s, r, c)[0] == b[0]
  {
  }

  lemma DiagFilledKeepsLayout(b: seq<Block>, m3: Mat3)
    requires |b| > 0
    ensures SameLayout(b, DiagFilled(b, m3)) && SameLayout(b, Filled(b, m3))
  {
  }

  /** A created array and its identity-filled copy have the same layout. */
  lemma CreatedSameLayout(verts: nat, springs: nat)
    requires verts > 0
    ensures SameLayout(Created(verts, springs), DiagFilled(Created(verts, springs), Identity))
  {
    DiagFilledKeepsLayout(Created(verts, springs), Identity);
  }

  lemma SubAddKeepsLayout(t: seq<Block>, a: seq<Block>, aS: real, b: seq<Block>, bS: real)
    requires |a| == |t| && |b| == |t|
    ensures SameLayout(SubAddBlocks(t, a, aS, b, bS), t)
  {
  }

  /** Same-layout arrays are ready for the product together. */
  lemma SameLayoutReady(a: seq<Block>, b: seq<Block>, n: nat)
    requires ProductReady(a, n) && SameLayout(a, b)
    ensures ProductReady(b, n)
  {
    assert b[0].vcount == a[0].vcount && b[0].scount == a[0].scount;
  }

  /** The first pass of a combined matrix is the combination of the first passes. */
  lemma {:induction false} SubAddSpringSum(t: seq<Block>, a: seq<Block>, aS: real, b: seq<Block>, bS: real,
                                          v: seq<Vec3>, x: nat, hi: nat)
    requires ProductReady(t, |v|) && SameLayout(t, a) && SameLayout(t, b)
    requires ProductReady(a, |v|) && ProductReady(b, |v|) && ProductReady(SubAddBlocks(t, a, aS, b, bS), |v|)
    requires t[0].vcount <= hi <= |t|
    ensures SpringSum(SubAddBlocks(t, a, aS, b, bS), v, x, hi)
      == Sub(SpringSum(t, v, x, hi), Add(Scale(SpringSum(a, v, x, hi), aS), Scale(SpringSum(b, v, x, hi), bS)))
    decreases hi
  {
    var d := SubAddBlocks(t, a, aS, b, bS);
    if hi == t[0].vcount {
      SubAddZero(aS, bS);
    } else {
      var k := hi - 1;
      SubAddSpringSum(t, a, aS, b, bS, v, x, k);
      if t[k].c == x {
        MulRowsSubAdd(t[k].m, a[k].m, aS, b[k].m, bS, v[t[k].r]);
      } else {
        SubAddZero(aS, bS);
      }
      SubAddRegroup(SpringSum(t, v, x, k), SpringSum(a, v, x, k), SpringSum(b, v, x, k),
                    SpringTerm(t, v, x, k), SpringTerm(a, v, x, k), SpringTerm(b, v, x, k), aS, bS);
    }
  }

  /** The second pass of a combined matrix is the combination of the second passes. */
  lemma {:induction false} SubAddBlockSum(t: seq<Block>, a: seq<Block>, aS: real, b: seq<Block>, bS: real,
                                         v: seq<Vec3>, x: nat, hi: nat)
    requires ProductReady(t, |v|) && SameLayout(t, a) && SameLayout(t, b)
    requires ProductReady(a, |v|) && ProductReady(b, |v|) && ProductReady(SubAddBlocks(t, a, aS, b, bS), |v|)
    requires hi <= |t|
    ensures BlockSum(SubAddBlocks(t, a, aS, b, bS), v, x, hi)
      == Sub(BlockSum(t, v, x, hi), Add(Scale(BlockSum(a, v, x, hi), aS), Scale(BlockSum(b, v, x, hi), bS)))
    decreases hi
  {
    var d := SubAddBlocks(t, a, aS, b, bS);
    if hi == 0 {
      SubAddZero(aS, bS);
    } else {
      var k := hi - 1;
      SubAddBlockSum(t, a, aS, b, bS, v, x, k);
      if t[k].r == x {
        MulRowsSubAdd(t[k].m, a[k].m, aS, b[k].m, bS, v[t[k].c]);
      } else {
        SubAddZero(aS, bS);
      }
      SubAddRegroup(BlockSum(t, v, x, k), BlockSum(a, v, x, k), BlockSum(b, v, x, k),
                    BlockTerm(t, v, x, k), BlockTerm(a, v, x, k), BlockTerm(b, v, x, k), aS, bS);
    }
  }

  /** The blockwise combination of same-layout matrices multiplies like the combination of
      their products: (t - a aS - b bS) v = t v - (a v) aS - (b v) bS. */
  lemma SubAddProduct(t: seq<Block>, a: seq<Block>, aS: real, b: seq<Block>, bS: real, v: seq<Vec3>)
    requires ProductReady(t, |v|) && SameLayout(t, a) && SameLayout(t, b)
    ensures ProductReady(a, |v|) && ProductReady(b, |v|) && ProductReady(SubAddBlocks(t, a, aS, b, bS), |v|)
    ensures SparseProduct(SubAddBlocks(t, a, aS, b, bS), v)
      == SubL(SparseProduct(t, v), AddL(ScaleL(SparseProduct(a, v), aS), ScaleL(SparseProduct(b, v), bS)))
  {
    SameLayoutReady(t, a, |v|);
    SameLayoutReady(t, b, |v|);
    SubAddKeepsLayout(t, a, aS, b, bS);
    var d := SubAddBlocks(t, a, aS, b, bS);
    assert SameLayout(t, d);
    SameLayoutReady(t, d, |v|);
    forall x | 0 <= x < |v|
      ensures SparseProduct(d, v)[x]
        == SubL(SparseProduct(t, v), AddL(ScaleL(SparseProduct(a, v), aS), ScaleL(SparseProduct(b, v), bS)))[x]
    {
      SubAddSpringSum(t, a, aS, b, bS, v, x, |t|);
      SubAddBlockSum(t, a, aS, b, bS, v, x, |t|);
      SubAddRegroup(SpringSum(t, v, x, |t|), SpringSum(a, v, x, |t|), SpringSum(b, v, x, |t|),
                    BlockSum(t, v, x, |t|), BlockSum(a, v, x, |t|), BlockSum(b, v, x, |t|), aS, bS);
    }
  }
}
