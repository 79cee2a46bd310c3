/** The voxel grid of the volumetric hair interaction.

    The hair vertices are bounded by a box, the box is divided into a res x res x res grid
    of sample points stored in one flat array (offset i + (j + k res) res), and every vertex
    inside the box splats its velocity into the 8 grid points around it with trilinear
    tent weights; finally each grid point's velocity is divided by its accumulated density. */
module HairGrid {
  import opened LinAlg

  /** `hair_grid_res`: a 10 x 10 x 10 grid. */
  const HairGridRes: int := 10

  /** FLT_MAX, the start value of the bounding box (`INIT_MINMAX`). */
  const FltMax: real := 340282346638528859811704183484516925440.0

  /** `hair_grid_size`: the number of grid points. */
  function HairGridSize(res: int): int
  {
    res * res * res
  }

  /** `HairGridVert`: the accumulated velocity and density of one grid point. */
  datatype GridVert = GridVert(velocity: Vec3, density: real)

  const EmptyVert: GridVert := GridVert(ZeroV, 0.0)

  /** The integer grid coordinates of the lower corner of a vertex's cell. */
  datatype Cell = Cell(i: int, j: int, k: int)

  /** The cell's lower corner lies low enough for all 8 corners to be grid points. */
  predicate InGrid(c: Cell, res: int)
  {
    0 <= c.i <= res - 2 && 0 <= c.j <= res - 2 && 0 <= c.k <= res - 2
  }

  function Abs(a: real): real { if a < 0.0 then -a else a }

  // ----------------------------------------------------------------------------------
  // Index arithmetic.
  // ----------------------------------------------------------------------------------

  /** The C cast `(int)u`: truncation toward zero. */
  function Trunc(u: real): int
  {
    if u >= 0.0 then u.Floor else -((-u).Floor)
  }

  /** `min_ii(max_ii(t, 0), res - 2)`. */
  function Clamp(t: int, res: int): (r: int)
    requires res >= 2
    ensures 0 <= r <= res - 2
    ensures 0 <= t <= res - 2 ==> r == t
    ensures t < 0 ==> r == 0
    ensures t > res - 2 ==> r == res - 2
  {
    var lo := if t > 0 then t else 0;
    if lo < res - 2 then lo else res - 2
  }

  /** The continuous grid coordinate of a point along one axis, (vec - gmin) / scale. */
  function GridCoord(vec: Vec3, gmin: Vec3, scale: Vec3, axis: nat): real
    requires axis < 3
  {
    Quot(Get(vec, axis) - Get(gmin, axis), Get(scale, axis))
  }

  /** `HAIR_GRID_INDEX_AXIS`: the truncated coordinate, clamped to the cells of the grid. */
  function IndexAxis(vec: Vec3, res: int, gmin: Vec3, scale: Vec3, axis: nat): (r: int)
    requires res >= 2 && axis < 3
    ensures 0 <= r <= res - 2
  {
    Clamp(Trunc(GridCoord(vec, gmin, scale, axis)), res)
  }

  /** The lower corner of the cell a point falls in, clamped into the grid. */
  function GridCell(vec: Vec3, res: int, gmin: Vec3, scale: Vec3): (c: Cell)
    requires res >= 2
    ensures InGrid(c, res)
  {
    Cell(IndexAxis(vec, res, gmin, scale, 0), IndexAxis(vec, res, gmin, scale, 1),
         IndexAxis(vec, res, gmin, scale, 2))
  }

  /** The flat array offset of the grid point (i, j, k). */
  function CellOffset(c: Cell, res: int): int
  {
    c.i + (c.j + c.k * res) * res
  }

  /** `hair_grid_offset`: the offset of the lower corner of a point's cell, always a valid
      index into a grid of `hair_grid_size(res)` points. */
  function HairGridOffset(vec: Vec3, res: int, gmin: Vec3, scale: Vec3): (r: int)
    requires res >= 2
    ensures 0 <= r < HairGridSize(res)
  {
    var c := GridCell(vec, res, gmin, scale);
    OffsetBounds(c.i, c.j, c.k, res);
    CellOffset(c, res)
  }

  lemma MulMonotone(x: int, y: int, m: int)
    requires x <= y && m >= 0
    ensures x * m <= y * m
  {
  }

  /** Every grid point's offset lies in [0, res^3). */
  lemma OffsetBounds(a: int, b: int, c: int, res: int)
    requires res >= 1 && 0 <= a <= res - 1 && 0 <= b <= res - 1 && 0 <= c <= res - 1
    ensures 0 <= a + (b + c * res) * res <= HairGridSize(res) - 1
  {
    MulMonotone(c, res - 1, res);
    MulMonotone(0, c, res);
    assert (res - 1) * res == res * res - res;
    assert 0 <= b + c * res <= res * res - 1;
    MulMonotone(b + c * res, res * res - 1, res);
    MulMonotone(0, b + c * res, res);
    assert (res * res - 1) * res == res * res * res - res;
  }

  /** The offset of corner (di, dj, dk) from the offset of a cell's lower corner. */
  function StepOffset(offset: int, res: int, di: int, dj: int, dk: int): int
  {
    offset + di + (dj + dk * res) * res
  }

  /** The offset of corner (di, dj, dk) of a cell, as the splat loop computes it: the
      offset of the grid point (i + di, j + dj, k + dk), which is a valid index. */
  function CornerOffset(c: Cell, res: int, di: int, dj: int, dk: int): (r: int)
    requires res >= 2 && InGrid(c, res)
    requires 0 <= di <= 1 && 0 <= dj <= 1 && 0 <= dk <= 1
    ensures r == CellOffset(Cell(c.i + di, c.j + dj, c.k + dk), res)
    ensures 0 <= r < HairGridSize(res)
  {
    CornerShift(c, res, di, dj, dk);
    OffsetBounds(c.i + di, c.j + dj, c.k + dk, res);
    StepOffset(CellOffset(c, res), res, di, dj, dk)
  }

  lemma CornerShift(c: Cell, res: int, di: int, dj: int, dk: int)
    ensures StepOffset(CellOffset(c, res), res, di, dj, dk) == CellOffset(Cell(c.i + di, c.j + dj, c.k + dk), res)
  {
    assert (c.j + c.k * res) * res + (dj + dk * res) * res == ((c.j + dj) + (c.k + dk) * res) * res;
  }

  /** Two grid points with different coordinates have different offsets, so the 8 corners
      of a cell are 8 distinct array entries. */
  lemma OffsetInjective(a: Cell, b: Cell, res: int)
    requires res >= 1
    requires 0 <= a.i < res && 0 <= a.j < res && 0 <= a.k < res
    requires 0 <= b.i < res && 0 <= b.j < res && 0 <= b.k < res
    requires CellOffset(a, res) == CellOffset(b, res)
    ensures a == b
  {
    var pa, pb := a.j + a.k * res, b.j + b.k * res;
    assert a.i + pa * res == b.i + pb * res;
    DivModUnique(a.i, pa, b.i, pb, res);
    DivModUnique(a.j, a.k, b.j, b.k, res);
  }

  /** The representation q m + r with 0 <= r < m is unique. */
  lemma DivModUnique(r1: int, q1: int, r2: int, q2: int, m: int)
    requires m >= 1 && 0 <= r1 < m && 0 <= r2 < m && r1 + q1 * m == r2 + q2 * m
    ensures r1 == r2 && q1 == q2
  {
    if q1 < q2 {
      MulMonotone(q1 + 1, q2, m);
      assert false;
    } else if q2 < q1 {
      MulMonotone(q2 + 1, q1, m);
      assert false;
    }
  }

  // ----------------------------------------------------------------------------------
  // Grid geometry and weights.
  // ----------------------------------------------------------------------------------

  /** `hair_grid_get_scale`: the spacing of the grid points along each axis. */
  function GridScale(res: int, gmin: Vec3, gmax: Vec3): Vec3
    requires res >= 2
  {
    Scale(Sub(gmax, gmin), 1.0 / (res - 1) as real)
  }

  /** `hair_grid_point_valid`: the point lies inside the box, bounds included. */
  predicate PointValid(vec: Vec3, gmin: Vec3, gmax: Vec3)
  {
    !(vec.x < gmin.x || vec.y < gmin.y || vec.z < gmin.z ||
      vec.x > gmax.x || vec.y > gmax.y || vec.z > gmax.z)
  }

  /** `dist_tent_v3f3`: the trilinear tent weight of the grid point (x, y, z) seen from a. */
  function Tent(a: Vec3, x: real, y: real, z: real): real
  {
    (1.0 - Abs(a.x - x)) * (1.0 - Abs(a.y - y)) * (1.0 - Abs(a.z - z))
  }

  /** The point's continuous grid coordinates. */
  function GridCoords(vec: Vec3, gmin: Vec3, scale: Vec3): Vec3
  {
    Vec3(GridCoord(vec, gmin, scale, 0), GridCoord(vec, gmin, scale, 1), GridCoord(vec, gmin, scale, 2))
  }

  /** The tent weights of the 8 corners of the cell with lower corner (i, j, k), seen
      from the grid coordinates u; corner (di, dj, dk) is at index di + 2 dj + 4 dk. */
  function TentWeights(u: Vec3, i: real, j: real, k: real): (w: seq<real>)
    ensures |w| == 8
  {
    [Tent(u, i, j, k), Tent(u, i + 1.0, j, k), Tent(u, i, j + 1.0, k), Tent(u, i + 1.0, j + 1.0, k),
     Tent(u, i, j, k + 1.0), Tent(u, i + 1.0, j, k + 1.0), Tent(u, i, j + 1.0, k + 1.0),
     Tent(u, i + 1.0, j + 1.0, k + 1.0)]
  }

  /** `hair_grid_weights`: the tent weights of the corners of the point's cell. */
  function GridWeights(res: int, gmin: Vec3, scale: Vec3, vec: Vec3): (w: seq<real>)
    requires res >= 2
    ensures |w| == 8
  {
    var c := GridCell(vec, res, gmin, scale);
    TentWeights(GridCoords(vec, gmin, scale), c.i as real, c.j as real, c.k as real)
  }

  /** The sum of the 8 corner weights. */
  function WeightSum(w: seq<real>): real
    requires |w| == 8
  {
    w[0] + w[1] + w[2] + w[3] + w[4] + w[5] + w[6] + w[7]
  }

  /** The fraction of a coordinate above its clamped cell lies in [0, 1] for every
      coordinate inside the grid, including the upper boundary res - 1 (where the cell is
      clamped down to res - 2 and the fraction is 1). */
  lemma FractionInUnit(u: real, res: int)
    requires res >= 2 && 0.0 <= u <= (res - 1) as real
    ensures 0.0 <= u - Clamp(Trunc(u), res) as real <= 1.0
  {
    var f := u.Floor;
    assert Trunc(u) == f;
    assert f as real <= u < f as real + 1.0;
    assert f <= res - 1;
  }

  /** The tent factors along one axis at fraction t are 1 - t and t. */
  lemma TentFactors(u: real, i: real)
    requires 0.0 <= u - i <= 1.0
    ensures 1.0 - Abs(u - i) == 1.0 - (u - i)
    ensures 1.0 - Abs(u - (i + 1.0)) == u - i
  {
  }

  /** Eight products a_di b_dj c_dk add up to (a0 + a1)(b0 + b1)(c0 + c1). */
  lemma ProductExpansion(a0: real, a1: real, b0: real, b1: real, c0: real, c1: real)
    ensures a0 * b0 * c0 + a1 * b0 * c0 + a0 * b1 * c0 + a1 * b1 * c0 +
            a0 * b0 * c1 + a1 * b0 * c1 + a0 * b1 * c1 + a1 * b1 * c1
         == (a0 + a1) * (b0 + b1) * (c0 + c1)
  {
  }

  lemma ProductNonnegative(a: real, b: real, c: real)
    requires a >= 0.0 && b >= 0.0 && c >= 0.0
    ensures a * b * c >= 0.0
  {
    assert a * b >= 0.0;
  }

  /** The tent weight as the product of its three per-axis factors. */
  lemma TentProduct(u: Vec3, x: real, y: real, z: real, fx: real, fy: real, fz: real)
    requires 1.0 - Abs(u.x - x) == fx && 1.0 - Abs(u.y - y) == fy && 1.0 - Abs(u.z - z) == fz
    ensures Tent(u, x, y, z) == fx * fy * fz
  {
  }

  /** Eight weights that are the products a_di b_dj c_dk of per-axis factors. */
  lemma WeightProducts(w: seq<real>, a0: real, a1: real, b0: real, b1: real, c0: real, c1: real)
    requires |w| == 8
    requires w[0] == a0 * b0 * c0 && w[1] == a1 * b0 * c0 && w[2] == a0 * b1 * c0 && w[3] == a1 * b1 * c0
    requires w[4] == a0 * b0 * c1 && w[5] == a1 * b0 * c1 && w[6] == a0 * b1 * c1 && w[7] == a1 * b1 * c1
    requires a0 >= 0.0 && a1 >= 0.0 && b0 >= 0.0 && b1 >= 0.0 && c0 >= 0.0 && c1 >= 0.0
    requires a0 + a1 == 1.0 && b0 + b1 == 1.0 && c0 + c1 == 1.0
    ensures forall n :: 0 <= n < 8 ==> w[n] >= 0.0
    ensures WeightSum(w) == 1.0
  {
    ProductExpansion(a0, a1, b0, b1, c0, c1);
    ProductNonnegative(a0, b0, c0);
    ProductNonnegative(a1, b0, c0);
    ProductNonnegative(a0, b1, c0);
    ProductNonnegative(a1, b1, c0);
    ProductNonnegative(a0, b0, c1);
    ProductNonnegative(a1, b0, c1);
    ProductNonnegative(a0, b1, c1);
    ProductNonnegative(a1, b1, c1);
  }

  /** With fractions in [0, 1] along every axis the 8 tent weights are a partition of
      unity: none is negative and they add up to 1. */
  lemma TentPartitionUnity(u: Vec3, i: real, j: real, k: real)
    requires 0.0 <= u.x - i <= 1.0 && 0.0 <= u.y - j <= 1.0 && 0.0 <= u.z - k <= 1.0
    ensures forall n :: 0 <= n < 8 ==> TentWeights(u, i, j, k)[n] >= 0.0
    ensures WeightSum(TentWeights(u, i, j, k)) == 1.0
  {
    TentFactors(u.x, i);
    TentFactors(u.y, j);
    TentFactors(u.z, k);
    var a0, a1 := 1.0 - (u.x - i), u.x - i;
    var b0, b1 := 1.0 - (u.y - j), u.y - j;
    var c0, c1 := 1.0 - (u.z - k), u.z - k;
    TentProduct(u, i, j, k, a0, b0, c0);
    TentProduct(u, i + 1.0, j, k, a1, b0, c0);
    TentProduct(u, i, j + 1.0, k, a0, b1, c0);
    TentProduct(u, i + 1.0, j + 1.0, k, a1, b1, c0);
    TentProduct(u, i, j, k + 1.0, a0, b0, c1);
    TentProduct(u, i + 1.0, j, k + 1.0, a1, b0, c1);
    TentProduct(u, i, j + 1.0, k + 1.0, a0, b1, c1);
    TentProduct(u, i + 1.0, j + 1.0, k + 1.0, a1, b1, c1);
    WeightProducts(TentWeights(u, i, j, k), a0, a1, b0, b1, c0, c1);
  }

  /** When the point's fractions within its cell are in [0, 1] its weights are a
      partition of unity. */
  lemma WeightsPartitionUnity(res: int, gmin: Vec3, scale: Vec3, vec: Vec3)
    requires res >= 2
    requires forall axis :: 0 <= axis < 3 ==>
               0.0 <= GridCoord(vec, gmin, scale, axis) - IndexAxis(vec, res, gmin, scale, axis) as real <= 1.0
    ensures forall n :: 0 <= n < 8 ==> GridWeights(res, gmin, scale, vec)[n] >= 0.0
    ensures WeightSum(GridWeights(res, gmin, scale, vec)) == 1.0
  {
    var c := GridCell(vec, res, gmin, scale);
    var u := GridCoords(vec, gmin, scale);
    assert IndexAxis(vec, res, gmin, scale, 0) == c.i;
    assert IndexAxis(vec, res, gmin, scale, 1) == c.j;
    assert IndexAxis(vec, res, gmin, scale, 2) == c.k;
    TentPartitionUnity(u, c.i as real, c.j as real, c.k as real);
  }

  /** A distance e in [0, d] measured in units of d q, where q r == 1, lies in [0, r]. */
  lemma QuotientInRange(e: real, d: real, q: real, r: real)
    requires 0.0 <= e <= d && q > 0.0 && q * r == 1.0
    ensures 0.0 <= Quot(e, d * q) <= r
  {
    var s := d * q;
    if s != 0.0 {
      var u := Quot(e, s);
      assert s > 0.0;
      assert u * s == e;
      assert s * r == d;
      assert u >= 0.0 by {
        if u < 0.0 {
          NegativeTimesPositive(u, s);
        }
      }
      assert u <= r by {
        if u > r {
          PositiveDifference(u, r, s);
        }
      }
    }
  }

  lemma NegativeTimesPositive(a: real, b: real)
    requires a < 0.0 && b > 0.0
    ensures a * b < 0.0
  {
  }

  lemma PositiveDifference(a: real, b: real, s: real)
    requires a > b && s > 0.0
    ensures a * s > b * s
  {
    assert a * s - b * s == (a - b) * s;
  }

  /** A point inside the box has grid coordinates in [0, res - 1] along every axis. */
  lemma CoordInGrid(res: int, gmin: Vec3, gmax: Vec3, vec: Vec3, axis: nat)
    requires res >= 2 && axis < 3 && PointValid(vec, gmin, gmax)
    ensures 0.0 <= GridCoord(vec, gmin, GridScale(res, gmin, gmax), axis) <= (res - 1) as real
  {
    var q := 1.0 / (res - 1) as real;
    var d := Get(gmax, axis) - Get(gmin, axis);
    var e := Get(vec, axis) - Get(gmin, axis);
    assert Get(GridScale(res, gmin, gmax), axis) == d * q;
    QuotientInRange(e, d, q, (res - 1) as real);
  }

  /** Every point inside the box has weights that form a partition of unity. */
  lemma ValidPointWeights(res: int, gmin: Vec3, gmax: Vec3, vec: Vec3)
    requires res >= 2 && PointValid(vec, gmin, gmax)
    ensures forall n :: 0 <= n < 8 ==> GridWeights(res, gmin, GridScale(res, gmin, gmax), vec)[n] >= 0.0
    ensures WeightSum(GridWeights(res, gmin, GridScale(res, gmin, gmax), vec)) == 1.0
  {
    var scale := GridScale(res, gmin, gmax);
    forall axis | 0 <= axis < 3
      ensures 0.0 <= GridCoord(vec, gmin, scale, axis) - IndexAxis(vec, res, gmin, scale, axis) as real <= 1.0
    {
      CoordInGrid(res, gmin, gmax, vec, axis);
      FractionInUnit(GridCoord(vec, gmin, scale, axis), res);
    }
    WeightsPartitionUnity(res, gmin, scale, vec);
  }

  // ----------------------------------------------------------------------------------
  // Bounding box.
  // ----------------------------------------------------------------------------------

  /** `DO_MIN` on one point. */
  function DoMin(m: Vec3, v: Vec3): (r: Vec3)
  {
    Vec3(if m.x > v.x then v.x else m.x, if m.y > v.y then v.y else m.y, if m.z > v.z then v.z else m.z)
  }

  /** `DO_MAX` on one point. */
  function DoMax(m: Vec3, v: Vec3): (r: Vec3)
  {
    Vec3(if m.x < v.x then v.x else m.x, if m.y < v.y then v.y else m.y, if m.z < v.z then v.z else m.z)
  }

  /** The lower corner of the box after the points xs. */
  function BoxMin(xs: seq<Vec3>): Vec3
    decreases |xs|
  {
    if |xs| == 0 then Vec3(FltMax, FltMax, FltMax) else DoMin(BoxMin(xs[..|xs| - 1]), xs[|xs| - 1])
  }

  /** The upper corner of the box after the points xs. */
  function BoxMax(xs: seq<Vec3>): Vec3
    decreases |xs|
  {
    if |xs| == 0 then Vec3(-FltMax, -FltMax, -FltMax) else DoMax(BoxMax(xs[..|xs| - 1]), xs[|xs| - 1])
  }

  /** The box of a sequence contains every one of its points. */
  lemma {:induction false} BoxContainsPoints(xs: seq<Vec3>, i: nat)
    requires i < |xs|
    ensures PointValid(xs[i], BoxMin(xs), BoxMax(xs))
    decreases |xs|
  {
    var n := |xs| - 1;
    if i < n {
      BoxContainsPoints(xs[..n], i);
      assert xs[..n][i] == xs[i];
    }
  }

  /** `hair_volume_get_boundbox`: the box of the first `numverts` positions. */
  method GetBoundBox(lX: array<Vec3>, numverts: nat) returns (gmin: Vec3, gmax: Vec3)
    requires numverts <= lX.Length
    ensures gmin == BoxMin(lX[..numverts]) && gmax == BoxMax(lX[..numverts])
  {
    gmin := Vec3(FltMax, FltMax, FltMax);
    gmax := Vec3(-FltMax, -FltMax, -FltMax);
    var i := 0;
    while i < numverts
      invariant 0 <= i <= numverts
      invariant gmin == BoxMin(lX[..i]) && gmax == BoxMax(lX[..i])
    {
      assert lX[..i + 1][..i] == lX[..i];
      gmin := DoMin(gmin, lX[i]);
      gmax := DoMax(gmax, lX[i]);
      i := i + 1;
    }
  }

  // ----------------------------------------------------------------------------------
  // The splat.
  // ----------------------------------------------------------------------------------

  /** A grid of `size` empty points, as the initialisation loop leaves it. */
  function EmptyGrid(size: nat): (g: seq<GridVert>)
    ensures |g| == size
  {
    seq(size, _ => EmptyVert)
  }

  /** The weight index di + 2 dj + 4 dk of corner (di, dj, dk), written in Horner form. */
  function WeightIndex(di: int, dj: int, dk: int): int
  {
    di + (dj + dk * 2) * 2
  }

  /** What every corner step needs: a grid g of res x res x res points, a cell whose 8
      corners lie in it, and 8 weights. */
  predicate CornerArgs(g: seq<GridVert>, c: Cell, res: int, w: seq<real>)
  {
    res >= 2 && InGrid(c, res) && |g| == HairGridSize(res) && |w| == 8
  }

  /** One step of the splat loop: corner (di, dj, dk) of the cell gains weight w[iw] of
      density and weight w[iw] of the velocity. */
  function AddCorner(g: seq<GridVert>, c: Cell, res: int, w: seq<real>, vel: Vec3, di: int, dj: int, dk: int)
    : (r: seq<GridVert>)
    requires CornerArgs(g, c, res, w)
    requires 0 <= di <= 1 && 0 <= dj <= 1 && 0 <= dk <= 1
    ensures |r| == |g|
  {
    var voffset := CornerOffset(c, res, di, dj, dk);
    var iw := WeightIndex(di, dj, dk);
    g[voffset := GridVert(Add(g[voffset].velocity, Scale(vel, w[iw])), g[voffset].density + w[iw])]
  }

  /** The innermost loop's first m passes (dk = 0 .. m - 1) for one (di, dj). */
  function SplatDk(g: seq<GridVert>, c: Cell, res: int, w: seq<real>, vel: Vec3, di: int, dj: int, m: nat)
    : (r: seq<GridVert>)
    requires CornerArgs(g, c, res, w) && 0 <= di <= 1 && 0 <= dj <= 1 && m <= 2
    ensures |r| == |g|
  {
    if m == 0 then g else AddCorner(SplatDk(g, c, res, w, vel, di, dj, m - 1), c, res, w, vel, di, dj, m - 1)
  }

  /** The middle loop's first m passes (dj = 0 .. m - 1) for one di, each a whole inner loop. */
  function SplatDj(g: seq<GridVert>, c: Cell, res: int, w: seq<real>, vel: Vec3, di: int, m: nat)
    : (r: seq<GridVert>)
    requires CornerArgs(g, c, res, w) && 0 <= di <= 1 && m <= 2
    ensures |r| == |g|
  {
    if m == 0 then g else SplatDk(SplatDj(g, c, res, w, vel, di, m - 1), c, res, w, vel, di, m - 1, 2)
  }

  /** The outer loop's first m passes (di = 0 .. m - 1), each a whole middle loop. */
  function SplatDi(g: seq<GridVert>, c: Cell, res: int, w: seq<real>, vel: Vec3, m: nat): (r: seq<GridVert>)
    requires CornerArgs(g, c, res, w) && m <= 2
    ensures |r| == |g|
  {
    if m == 0 then g else SplatDj(SplatDi(g, c, res, w, vel, m - 1), c, res, w, vel, m - 1, 2)
  }

  /** The splat of one vertex: nothing for a point outside the box, else its 8 corners. */
  function SplatPoint(g: seq<GridVert>, res: int, gmin: Vec3, gmax: Vec3, scale: Vec3, vec: Vec3, vel: Vec3)
    : (r: seq<GridVert>)
    requires res >= 2 && |g| == HairGridSize(res)
    ensures |r| == |g|
  {
    if !PointValid(vec, gmin, gmax) then g
    else SplatDi(g, GridCell(vec, res, gmin, scale), res, GridWeights(res, gmin, scale, vec), vel, 2)
  }

  /** The grid after the first n vertices have been splatted. */
  function Gathered(g: seq<GridVert>, res: int, gmin: Vec3, gmax: Vec3, scale: Vec3,
                    X: seq<Vec3>, V: seq<Vec3>, n: nat): (r: seq<GridVert>)
    requires res >= 2 && |g| == HairGridSize(res) && n <= |X| && |X| == |V|
    ensures |r| == |g|
  {
    if n == 0 then g else SplatPoint(Gathered(g, res, gmin, gmax, scale, X, V, n - 1), res, gmin, gmax, scale, X[n - 1], V[n - 1])
  }

  /** The normalise loop on one grid point: velocity divided by density where positive. */
  function NormalisedVert(v: GridVert): (r: GridVert)
  {
    if v.density > 0.0 then v.(velocity := Scale(v.velocity, 1.0 / v.density)) else v
  }

  function Normalised(g: seq<GridVert>): (r: seq<GridVert>)
    ensures |r| == |g|
  {
    seq(|g|, i requires 0 <= i < |g| => NormalisedVert(g[i]))
  }

  /** What `hair_volume_create_hair_grid` returns for the positions X and velocities V. */
  function HairVolumeGrid(X: seq<Vec3>, V: seq<Vec3>, velocitySmooth: real): (g: seq<GridVert>)
    requires |X| == |V|
    ensures |g| == HairGridSize(HairGridRes)
  {
    var res := HairGridRes;
    var gmin, gmax := BoxMin(X), BoxMax(X);
    var scale := GridScale(res, gmin, gmax);
    var empty := EmptyGrid(HairGridSize(res));
    Normalised(if 2.0 * velocitySmooth > 0.0 then Gathered(empty, res, gmin, gmax, scale, X, V, |X|) else empty)
  }

  /** The one grid point corner (di, dj, dk) changes, and its new value. */
  lemma AddCornerAt(g: seq<GridVert>, c: Cell, res: int, w: seq<real>, vel: Vec3, di: int, dj: int, dk: int,
                    o: int, v: GridVert)
    requires CornerArgs(g, c, res, w)
    requires 0 <= di <= 1 && 0 <= dj <= 1 && 0 <= dk <= 1
    requires o == CornerOffset(c, res, di, dj, dk)
    requires v == GridVert(Add(g[o].velocity, Scale(vel, w[WeightIndex(di, dj, dk)])), g[o].density + w[WeightIndex(di, dj, dk)])
    ensures AddCorner(g, c, res, w, vel, di, dj, dk) == g[o := v]
  {
  }

  /** The body of the innermost splat loop, in place: the density of corner (di, dj, dk)
      gains w[iw] and its velocity gains vel scaled by w[iw]. */
  method AddCornerInto(grid: array<GridVert>, offset: int, res: int, weights: seq<real>, vel: Vec3,
                       di: int, dj: int, dk: int, ghost c: Cell)
    requires CornerArgs(grid[..], c, res, weights)
    requires 0 <= di <= 1 && 0 <= dj <= 1 && 0 <= dk <= 1
    requires offset == CellOffset(c, res)
    modifies grid
    ensures grid[..] == AddCorner(old(grid[..]), c, res, weights, vel, di, dj, dk)
  {
    var voffset := StepOffset(offset, res, di, dj, dk);
    var iw := WeightIndex(di, dj, dk);
    assert voffset == CornerOffset(c, res, di, dj, dk);
    ghost var prev := grid[..];
    var cell := GridVert(Add(grid[voffset].velocity, Scale(vel, weights[iw])), grid[voffset].density + weights[iw]);
    AddCornerAt(prev, c, res, weights, vel, di, dj, dk, voffset, cell);
    grid[voffset] := cell;
  }

  /** The splat loops of one vertex, in place. */
  method SplatPointInto(grid: array<GridVert>, res: int, gmin: Vec3, gmax: Vec3, scale: Vec3, vec: Vec3, vel: Vec3)
    requires res >= 2 && grid.Length == HairGridSize(res)
    modifies grid
    ensures grid[..] == SplatPoint(old(grid[..]), res, gmin, gmax, scale, vec, vel)
  {
    if !PointValid(vec, gmin, gmax) {
      return;
    }
    var offset := HairGridOffset(vec, res, gmin, scale);
    var weights := GridWeights(res, gmin, scale, vec);
    ghost var c := GridCell(vec, res, gmin, scale);
    assert offset == CellOffset(c, res);
    ghost var g0 := grid[..];
    var di := 0;
    while di < 2
      invariant 0 <= di <= 2
      invariant grid[..] == SplatDi(g0, c, res, weights, vel, di)
    {
      ghost var gi := grid[..];
      var dj := 0;
      while dj < 2
        invariant 0 <= dj <= 2
        invariant grid[..] == SplatDj(gi, c, res, weights, vel, di, dj)
      {
        ghost var gj := grid[..];
        var dk := 0;
        while dk < 2
          invariant 0 <= dk <= 2
          invariant grid[..] == SplatDk(gj, c, res, weights, vel, di, dj, dk)
        {
          AddCornerInto(grid, offset, res, weights, vel, di, dj, dk, c);
          dk := dk + 1;
        }
        dj := dj + 1;
      }
      di := di + 1;
    }
  }

  /** The normalise loop, in place. */
  method NormaliseGrid(grid: array<GridVert>)
    modifies grid
    ensures grid[..] == Normalised(old(grid[..]))
  {
    ghost var g0 := grid[..];
    var i := 0;
    while i < grid.Length
      invariant 0 <= i <= grid.Length
      invariant forall m :: 0 <= m < i ==> grid[m] == NormalisedVert(g0[m])
      invariant forall m :: i <= m < grid.Length ==> grid[m] == g0[m]
    {
      var density := grid[i].density;
      if density > 0.0 {
        grid[i] := grid[i].(velocity := Scale(grid[i].velocity, 1.0 / density));
      }
      i := i + 1;
    }
  }

  /** `hair_volume_create_hair_grid`: box, scale, empty grid, splat (when velocity smoothing
      is on), normalise. */
  method CreateHairGrid(lX: array<Vec3>, lV: array<Vec3>, numverts: nat, velocitySmooth: real)
    returns (grid: array<GridVert>)
    requires numverts <= lX.Length && numverts <= lV.Length
    ensures fresh(grid)
    ensures grid[..] == HairVolumeGrid(lX[..numverts], lV[..numverts], velocitySmooth)
  {
    var res := HairGridRes;
    var size := HairGridSize(res);
    var smoothfac := 2.0 * velocitySmooth;
    var gmin, gmax := GetBoundBox(lX, numverts);
    var scale := GridScale(res, gmin, gmax);
    grid := NewEmptyGrid(size);
    if smoothfac > 0.0 {
      GatherInto(grid, res, gmin, gmax, scale, lX, lV, numverts);
    }
    NormaliseGrid(grid);
  }

  /** The allocation and the initialise loop: every grid point zero. */
  method NewEmptyGrid(size: nat) returns (grid: array<GridVert>)
    ensures fresh(grid)
    ensures grid[..] == EmptyGrid(size)
  {
    grid := new GridVert[size];
    var i := 0;
    while i < size
      invariant 0 <= i <= size
      invariant forall m :: 0 <= m < i ==> grid[m] == EmptyVert
    {
      grid[i] := EmptyVert;
      i := i + 1;
    }
  }

  /** The gather loop over the vertices, in place. */
  method GatherInto(grid: array<GridVert>, res: int, gmin: Vec3, gmax: Vec3, scale: Vec3,
                    lX: array<Vec3>, lV: array<Vec3>, numverts: nat)
    requires res >= 2 && grid.Length == HairGridSize(res)
    requires numverts <= lX.Length && numverts <= lV.Length
    modifies grid
    ensures grid[..] == Gathered(old(grid[..]), res, gmin, gmax, scale, lX[..numverts], lV[..numverts], numverts)
  {
    ghost var g0 := grid[..];
    var v := 0;
    while v < numverts
      invariant 0 <= v <= numverts
      invariant grid[..] == Gathered(g0, res, gmin, gmax, scale, lX[..numverts], lV[..numverts], v)
    {
      assert lX[..numverts][v] == lX[v] && lV[..numverts][v] == lV[v];
      SplatPointInto(grid, res, gmin, gmax, scale, lX[v], lV[v]);
      v := v + 1;
    }
  }

  // ----------------------------------------------------------------------------------
  // What the splat conserves.
  // ----------------------------------------------------------------------------------

  /** The total density of a grid. */
  function TotalDensity(g: seq<GridVert>): real
    decreases |g|
  {
    if |g| == 0 then 0.0 else TotalDensity(g[..|g| - 1]) + g[|g| - 1].density
  }

  /** Replacing one grid point changes the total by the difference of the densities. */
  lemma {:induction false} TotalDensityUpdate(g: seq<GridVert>, i: nat, v: GridVert)
    requires i < |g|
    ensures TotalDensity(g[i := v]) == TotalDensity(g) - g[i].density + v.density
    decreases |g|
  {
    var n := |g| - 1;
    if i == n {
      assert g[i := v][..n] == g[..n];
    } else {
      assert g[i := v][..n] == g[..n][i := v];
      TotalDensityUpdate(g[..n], i, v);
    }
  }

  /** The weights one inner loop hands out: corners (di, dj, 0) and (di, dj, 1). */
  function RowWeight(w: seq<real>, di: int, dj: int): real
    requires |w| == 8 && 0 <= di <= 1 && 0 <= dj <= 1
  {
    w[WeightIndex(di, dj, 0)] + w[WeightIndex(di, dj, 1)]
  }

  /** The weights one middle loop hands out. */
  function SlabWeight(w: seq<real>, di: int): real
    requires |w| == 8 && 0 <= di <= 1
  {
    RowWeight(w, di, 0) + RowWeight(w, di, 1)
  }

  /** An inner loop adds the weights of its two corners to the total density. */
  lemma SplatDkDensity(g: seq<GridVert>, c: Cell, res: int, w: seq<real>, vel: Vec3, di: int, dj: int)
    requires CornerArgs(g, c, res, w) && 0 <= di <= 1 && 0 <= dj <= 1
    ensures TotalDensity(SplatDk(g, c, res, w, vel, di, dj, 2)) == TotalDensity(g) + RowWeight(w, di, dj)
  {
    assert SplatDk(g, c, res, w, vel, di, dj, 0) == g;
    var g1 := SplatDk(g, c, res, w, vel, di, dj, 1);
    AddCornerDensity(g, c, res, w, vel, di, dj, 0);
    AddCornerDensity(g1, c, res, w, vel, di, dj, 1);
  }

  /** A middle loop adds the weights of its four corners. */
  lemma SplatDjDensity(g: seq<GridVert>, c: Cell, res: int, w: seq<real>, vel: Vec3, di: int)
    requires CornerArgs(g, c, res, w) && 0 <= di <= 1
    ensures TotalDensity(SplatDj(g, c, res, w, vel, di, 2)) == TotalDensity(g) + SlabWeight(w, di)
  {
    assert SplatDj(g, c, res, w, vel, di, 0) == g;
    SplatDkDensity(g, c, res, w, vel, di, 0);
    SplatDkDensity(SplatDj(g, c, res, w, vel, di, 1), c, res, w, vel, di, 1);
  }

  /** The whole loop nest adds every one of the 8 weights once. */
  lemma SplatDiDensity(g: seq<GridVert>, c: Cell, res: int, w: seq<real>, vel: Vec3)
    requires CornerArgs(g, c, res, w)
    ensures TotalDensity(SplatDi(g, c, res, w, vel, 2)) == TotalDensity(g) + WeightSum(w)
  {
    assert SplatDi(g, c, res, w, vel, 0) == g;
    var g1 := SplatDi(g, c, res, w, vel, 1);
    SplatDjDensity(g, c, res, w, vel, 0);
    SplatDjDensity(g1, c, res, w, vel, 1);
    SlabsCoverWeights(w);
  }

  /** The loop nest reads every weight index 0 .. 7 exactly once. */
  lemma SlabsCoverWeights(w: seq<real>)
    requires |w| == 8
    ensures SlabWeight(w, 0) + SlabWeight(w, 1) == WeightSum(w)
  {
    assert RowWeight(w, 0, 0) == w[0] + w[4];
    assert RowWeight(w, 0, 1) == w[2] + w[6];
    assert RowWeight(w, 1, 0) == w[1] + w[5];
    assert RowWeight(w, 1, 1) == w[3] + w[7];
  }

  /** One corner adds its own weight to the total density. */
  lemma AddCornerDensity(g: seq<GridVert>, c: Cell, res: int, w: seq<real>, vel: Vec3, di: int, dj: int, dk: int)
    requires CornerArgs(g, c, res, w)
    requires 0 <= di <= 1 && 0 <= dj <= 1 && 0 <= dk <= 1
    ensures TotalDensity(AddCorner(g, c, res, w, vel, di, dj, dk)) == TotalDensity(g) + w[WeightIndex(di, dj, dk)]
  {
    var voffset := CornerOffset(c, res, di, dj, dk);
    var iw := WeightIndex(di, dj, dk);
    var cell := GridVert(Add(g[voffset].velocity, Scale(vel, w[iw])), g[voffset].density + w[iw]);
    AddCornerAt(g, c, res, w, vel, di, dj, dk, voffset, cell);
    TotalDensityUpdate(g, voffset, cell);
  }

  /** Each point inside the box adds exactly 1 to the total density; a point outside adds
      nothing. */
  lemma SplatPointDensity(g: seq<GridVert>, res: int, gmin: Vec3, gmax: Vec3, vec: Vec3, vel: Vec3)
    requires res >= 2 && |g| == HairGridSize(res)
    ensures TotalDensity(SplatPoint(g, res, gmin, gmax, GridScale(res, gmin, gmax), vec, vel))
         == TotalDensity(g) + (if PointValid(vec, gmin, gmax) then 1.0 else 0.0)
  {
    if PointValid(vec, gmin, gmax) {
      var scale := GridScale(res, gmin, gmax);
      var w := GridWeights(res, gmin, scale, vec);
      SplatDiDensity(g, GridCell(vec, res, gmin, scale), res, w, vel);
      ValidPointWeights(res, gmin, gmax, vec);
    }
  }

  /** Over the box of the points themselves every point is inside, so the gathered grid
      holds a total density equal to the number of points splatted. */
  lemma {:induction false} GatheredDensity(g: seq<GridVert>, res: int, X: seq<Vec3>, V: seq<Vec3>, n: nat)
    requires res >= 2 && |g| == HairGridSize(res) && n <= |X| && |X| == |V|
    ensures TotalDensity(Gathered(g, res, BoxMin(X), BoxMax(X), GridScale(res, BoxMin(X), BoxMax(X)), X, V, n))
         == TotalDensity(g) + n as real
  {
    if n > 0 {
      GatheredDensity(g, res, X, V, n - 1);
      BoxContainsPoints(X, n - 1);
      var gmin, gmax := BoxMin(X), BoxMax(X);
      SplatPointDensity(Gathered(g, res, gmin, gmax, GridScale(res, gmin, gmax), X, V, n - 1),
                        res, gmin, gmax, X[n - 1], V[n - 1]);
    }
  }

  lemma {:induction false} EmptyGridDensity(size: nat)
    ensures TotalDensity(EmptyGrid(size)) == 0.0
  {
    if size > 0 {
      assert EmptyGrid(size)[..size - 1] == EmptyGrid(size - 1);
      EmptyGridDensity(size - 1);
    }
  }

  /** The normalise loop keeps every density, and wherever the density is positive the
      normalised velocity times the density gives back the accumulated velocity. */
  lemma NormaliseKeepsDensity(g: seq<GridVert>, i: nat)
    requires i < |g|
    ensures Normalised(g)[i].density == g[i].density
    ensures g[i].density > 0.0 ==> Scale(Normalised(g)[i].velocity, g[i].density) == g[i].velocity
    ensures g[i].density <= 0.0 ==> Normalised(g)[i] == g[i]
  {
    if g[i].density > 0.0 {
      var d := g[i].density;
      var v := g[i].velocity;
      ScaleScale(v, 1.0 / d, d);
      assert d * (1.0 / d) == 1.0;
    }
  }

  lemma {:induction false} NormalisedDensity(g: seq<GridVert>)
    ensures TotalDensity(Normalised(g)) == TotalDensity(g)
    decreases |g|
  {
    if |g| > 0 {
      var n := |g| - 1;
      assert Normalised(g)[..n] == Normalised(g[..n]);
      NormalisedDensity(g[..n]);
      NormaliseKeepsDensity(g, n);
    }
  }

  /** The grid `hair_volume_create_hair_grid` returns holds total density equal to the
      number of hair vertices when velocity smoothing is on, and none otherwise. */
  lemma HairGridDensity(X: seq<Vec3>, V: seq<Vec3>, velocitySmooth: real)
    requires |X| == |V|
    ensures TotalDensity(HairVolumeGrid(X, V, velocitySmooth))
         == if 2.0 * velocitySmooth > 0.0 then |X| as real else 0.0
  {
    var res := HairGridRes;
    var empty := EmptyGrid(HairGridSize(res));
    EmptyGridDensity(HairGridSize(res));
    var gmin, gmax := BoxMin(X), BoxMax(X);
    var g := if 2.0 * velocitySmooth > 0.0 then Gathered(empty, res, gmin, gmax, GridScale(res, gmin, gmax), X, V, |X|) else empty;
    if 2.0 * velocitySmooth > 0.0 {
      GatheredDensity(empty, res, X, V, |X|);
    }
    NormalisedDensity(g);
  }
}
