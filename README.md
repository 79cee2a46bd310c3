# Implicit cloth solver core (Blender, `implicit_blender.c`)

A Dafny model of the mass-spring integrator Blender uses for cloth and hair. It covers
the file's bookkeeping:

- **Block-sparse matrix** (`BlockSparse`). Diagonal blocks come first, tagged `(i, i)`.
  Spring blocks follow, tagged with the spring's two vertices. The model covers creation,
  initialisation, the blockwise `A -= from·aS + matrix·bS` and the two-pass sparse product.
  Each operation is a method over `array<Block>`, proved against a function on the block
  sequence.
- **Long-vector helpers** (`LongVector`). These are in-place loops over `array<Vec3>`,
  proved against `AddL`, `SubL`, `ScaleL` and `DotL`.
- **Constraint filter and filtered conjugate-gradient solver** (`Solver`). The filter
  multiplies each vertex's velocity by its constraint block. `cg_filtered` is a
  bounded loop that keeps `dV - z` admissible, so a pinned vertex never moves off its
  target.
- **Solver state** (`ImplicitSolver.ImplicitData`). The `Implicit_Data` struct is a class
  whose array fields are updated in place by:
  - creation;
  - root motion and vertex masses;
  - spring registration;
  - the constraint setters;
  - the step driver and its separate commit.
- **Spring model** (`Springs`). This covers:
  - the bending curve `fb`, its derivative and the `fbstar` branch choice;
  - the spring Jacobians;
  - the NEEDED gating of `cloth_calc_spring_force`;
  - the sign rules of `cloth_apply_spring_force`.
- **Hair voxel grid** (`HairGrid`). This covers:
  - the clamped cell index and the flat offset;
  - the trilinear tent weights;
  - the bounding box;
  - the splat and normalise loops of `hair_volume_create_hair_grid`.

Floats are modelled as exact `real`s and C `int`s as unbounded `int`s. The C `(int)`
cast is truncation toward zero (`HairGrid.Trunc`). Every division whose divisor can be
zero goes through `LinAlg.Quot`, which yields 0 there. The build flag
`CLOTH_ROOT_FRAME` is a boolean parameter. `sqrtf` is replaced by a length argument
whose square is the squared extent.

### Where the code and its documentation disagree (the model follows the code)

- **The sparse product does not transpose.** `mul_bfmatrix_lfvector`'s first pass applies
  the stored spring block `m` untransposed (it adds `m·v[r]` into entry `c`). It is the
  symmetric block product only when the spring blocks are symmetric. This is proved in
  `BlockSparse.SymmetricSpringsGiveSymmetricProduct`. The blocks the springs write are
  symmetric (`Springs.ScatterKeepsSymmetry`).
- **`dfdx_spring` scales by `L/length`**, not by `min(1, rest/length)` as its comment says.
- **`fbstar` compares the two signed values** `kb·fb` and `cb·(length − L)`. Ties go to
  `kb·fb`.
- **The bending Jacobian is `dir dir^T · fbstar_jacobi`.** It carries no chain-rule
  factor `1/L` for `x = length/L`.
- **`mul_m3_v3` (the filter) and `muladd_fmatrix_fvector` (the product) use opposite
  index conventions.** They are `LinAlg.MulCols` and `LinAlg.MulRows`. They agree on
  symmetric blocks (`LinAlg.SymmetricConventionsAgree`), and every constraint block the
  setters write is symmetric (`LinAlg.RankOneComplementSymmetric`,
  `LinAlg.RankTwoComplementSymmetric`).
- **The NEEDED flag is cleared before the length test and set only by an active branch.**
  A stretch spring is active when stretched or with no-compress. A goal spring is always
  active. A bending spring is active when compressed.

## Model

| member | source | states |
|---|---|---|
| LongVector.CreateLfvector | source/blender/physics/intern/implicit_blender.c:192-197 | a fresh long vector of `verts` zero entries |
| LongVector.CpLfvector | source/blender/physics/intern/implicit_blender.c:207-210 | the destination becomes exactly the source's old contents |
| LongVector.InitLfvector | source/blender/physics/intern/implicit_blender.c:212-218 | every entry becomes the given vector |
| LongVector.ZeroLfvector | source/blender/physics/intern/implicit_blender.c:220-223 | every entry becomes zero |
| LongVector.MulLfvectorS | source/blender/physics/intern/implicit_blender.c:225-232 | destination is the source scaled entrywise |
| LongVector.SubmulLfvectorS | source/blender/physics/intern/implicit_blender.c:235-241 | destination loses the scaled source, entrywise |
| LongVector.DotLfvector | source/blender/physics/intern/implicit_blender.c:243-256 | returns the sum over entries of the 3-vector dot products |
| LongVector.AddLfvectorLfvector | source/blender/physics/intern/implicit_blender.c:258-266 | destination is the entrywise sum of the old inputs (safe when it aliases an input) |
| LongVector.AddLfvectorLfvectorS | source/blender/physics/intern/implicit_blender.c:268-276 | destination is a + b·bS entrywise, even when aliased |
| LongVector.AddLfvectorSLfvectorS | source/blender/physics/intern/implicit_blender.c:278-285 | destination is a·aS + b·bS entrywise |
| LongVector.SubLfvectorLfvectorS | source/blender/physics/intern/implicit_blender.c:287-294 | destination is a − b·bS entrywise |
| LongVector.SubLfvectorLfvector | source/blender/physics/intern/implicit_blender.c:296-304 | destination is a − b entrywise |
| LongVector.DotLSymmetric | source/blender/physics/intern/implicit_blender.c:243-256 | the long dot product is symmetric |
| LongVector.DotLSelfNonnegative | source/blender/physics/intern/implicit_blender.c:243-256 | a vector's dot with itself is non-negative, so the solver's stopping target is non-negative |
| LongVector.SubLUndoesAddL | source/blender/physics/intern/implicit_blender.c:258-266 | subtracting b undoes adding b |
| BlockSparse.Created | source/blender/physics/intern/implicit_blender.c:524-539 | verts + springs blocks |
| BlockSparse.CreateBfmatrix | source/blender/physics/intern/implicit_blender.c:524-539 | a fresh array equal to `Created`: zero matrices, header (vcount, scount) in block 0, diagonal blocks tagged (i, i) |
| BlockSparse.CreatedLayout | source/blender/physics/intern/implicit_blender.c:524-539 | a created matrix is ready for the product, has diagonal tags and only zero blocks |
| BlockSparse.InitFmatrix | source/blender/physics/intern/implicit_blender.c:517-521 | only block s changes, and only its tags, to (r, c) |
| BlockSparse.Tagged | source/blender/physics/intern/implicit_blender.c:517-521 | tagging keeps the number of blocks |
| BlockSparse.TaggingKeepsLayout | source/blender/physics/intern/implicit_blender.c:517-521 | tagging a spring slot with two vertices keeps the product layout, the diagonal tags and the header |
| BlockSparse.InitBfmatrix | source/blender/physics/intern/implicit_blender.c:557-564 | every block the header covers gets the given matrix; tags kept |
| BlockSparse.InitdiagBfmatrix | source/blender/physics/intern/implicit_blender.c:568-579 | diagonal blocks get the given matrix, spring blocks zero; tags kept |
| BlockSparse.DiagFilledKeepsLayout | source/blender/physics/intern/implicit_blender.c:557-579 | both initialisations change matrices only, never tags or header |
| BlockSparse.CpBfmatrix | source/blender/physics/intern/implicit_blender.c:549-553 | the first vcount + scount blocks are copied, header and tags included; the rest of the destination is kept |
| BlockSparse.SubaddBfmatrixSBfmatrixS | source/blender/physics/intern/implicit_blender.c:616-625 | every block below the count becomes t − (from·aS + matrix·bS), tags kept; later blocks unchanged |
| BlockSparse.SubAddKeepsLayout | source/blender/physics/intern/implicit_blender.c:616-625 | the blockwise combination keeps the target's layout |
| BlockSparse.SubAddProduct | source/blender/physics/intern/implicit_blender.c:616-625 | the combined matrix multiplies as t·v − (aS·(a·v) + bS·(b·v)) |
| BlockSparse.SubAddSpringSum | source/blender/physics/intern/implicit_blender.c:616-625 | the first pass of the combined matrix is the combination of the first passes |
| BlockSparse.SubAddBlockSum | source/blender/physics/intern/implicit_blender.c:616-625 | the second pass of the combined matrix is the combination of the second passes |
| BlockSparse.MulBfmatrixLfvector | source/blender/physics/intern/implicit_blender.c:583-611 | the destination is `SparseProduct(b, v)`: first pass plus scratch second pass |
| BlockSparse.SpringPass | source/blender/physics/intern/implicit_blender.c:589-597 | from zero, each spring block adds m·v[r] into entry c, in block order |
| BlockSparse.BlockPass | source/blender/physics/intern/implicit_blender.c:587-603 | from zero, every block adds m·v[c] into entry r, in block order |
| BlockSparse.PassesAreSums | source/blender/physics/intern/implicit_blender.c:583-611 | the two loops' vectors are the per-entry sums `SpringSum` and `BlockSum` |
| BlockSparse.SpringPassVecEntry | source/blender/physics/intern/implicit_blender.c:595-597 | entry x after the first pass is the sum over spring blocks with column x |
| BlockSparse.BlockPassVecEntry | source/blender/physics/intern/implicit_blender.c:601-603 | entry x after the second pass is the sum over blocks with row x |
| BlockSparse.SparseProduct | source/blender/physics/intern/implicit_blender.c:583-611 | the product has one entry per vertex |
| BlockSparse.SymmetricProduct | source/blender/physics/intern/implicit_blender.c:581-583 | the reference symmetric block product has one entry per vertex |
| BlockSparse.SpringSumsAgree | source/blender/physics/intern/implicit_blender.c:595-597 | with symmetric spring blocks the untransposed first pass equals the transposed one |
| BlockSparse.SymmetricSpringsGiveSymmetricProduct | source/blender/physics/intern/implicit_blender.c:581-611 | with symmetric spring blocks the sparse product is the symmetric block product |
| BlockSparse.DiagonalBlockSum | source/blender/physics/intern/implicit_blender.c:601-603 | with zero spring blocks, second-pass entry x is the diagonal block times v[x] |
| BlockSparse.ZeroSpringSum | source/blender/physics/intern/implicit_blender.c:595-597 | with zero spring blocks, the first pass contributes nothing |
| BlockSparse.BlockDiagonalProduct | source/blender/physics/intern/implicit_blender.c:583-611 | a block-diagonal matrix multiplies entry by entry |
| BlockSparse.DiagIdentityProduct | source/blender/physics/intern/implicit_blender.c:568-611 | `initdiag_bfmatrix(I)` yields a matrix whose product is the identity |
| BlockSparse.SpringSumLinear | source/blender/physics/intern/implicit_blender.c:595-597 | the first pass is linear in the vector |
| BlockSparse.BlockSumLinear | source/blender/physics/intern/implicit_blender.c:601-603 | the second pass is linear in the vector |
| BlockSparse.SparseProductLinear | source/blender/physics/intern/implicit_blender.c:583-611 | b(u + s·w) = b·u + s·(b·w) |
| BlockSparse.Filled | source/blender/physics/intern/implicit_blender.c:557-564 | the filled matrix keeps the number of blocks |
| BlockSparse.DiagFilled | source/blender/physics/intern/implicit_blender.c:568-579 | the diagonal fill keeps the number of blocks |
| BlockSparse.SubAddBlocks | source/blender/physics/intern/implicit_blender.c:616-625 | the combination keeps the number of blocks |
| BlockSparse.CreatedSameLayout | source/blender/physics/intern/implicit_blender.c:524-579 | a created matrix and its identity diagonal fill share one layout |
| BlockSparse.SameLayoutReady | source/blender/physics/intern/implicit_blender.c:583-611 | a matrix with the layout of a product-ready one is product-ready |
| Solver.Filter | source/blender/physics/intern/implicit_blender.c:994-1001 | each entry i below the vertex count is replaced by S[i]·V[i] (`mul_m3_v3`), in place |
| Solver.FilterIdempotent | source/blender/physics/intern/implicit_blender.c:994-1001 | with projector blocks, filtering twice is filtering once |
| Solver.FilteredIsAdmissible | source/blender/physics/intern/implicit_blender.c:994-1001 | a filtered vector is fixed by every projector block |
| Solver.FilterLinear | source/blender/physics/intern/implicit_blender.c:994-1001 | the filter is linear |
| Solver.FilterUnconstrained | source/blender/physics/intern/implicit_blender.c:994-1001 | with identity blocks the filter changes nothing |
| Solver.FilterPinned | source/blender/physics/intern/implicit_blender.c:994-1001 | a zero block filters its entry to zero |
| Solver.PinnedVertexStays | source/blender/physics/intern/implicit_blender.c:1085-1131 | when dV − z is admissible, a vertex with a zero block has dV[i] = z[i] |
| Solver.AdmissibleStep | source/blender/physics/intern/implicit_blender.c:1121 | `dV += alpha·c` with a filtered c keeps dV − z admissible |
| Solver.NoStepIsAdmissible | source/blender/physics/intern/implicit_blender.c:1085 | the start dV = z is admissible |
| Solver.ResidualStep | source/blender/physics/intern/implicit_blender.c:1116-1123 | `r += −alpha·filter(A c)` keeps r the filtered residual of the updated dV |
| Solver.CgFiltered | source/blender/physics/intern/implicit_blender.c:1070-1151 | at most 100 iterations; returns true iff the count stayed below 100; dV − z admissible (pinned vertices stay at z); on success the filtered residual's squared norm is at most 0.01² times the filtered right-hand side's |
| Solver.CgStart | source/blender/physics/intern/implicit_blender.c:1085-1102 | dV = z, target = ε²·|filter(B)|², r = filter(B − A dV), c = filter(r) admissible, delta = r·c |
| Solver.CgIterate | source/blender/physics/intern/implicit_blender.c:1115-1134 | one iteration keeps r the filtered residual and c and dV − z admissible, leaving r·r as delta |
| Solver.CgDescend | source/blender/physics/intern/implicit_blender.c:1116-1123 | dV advances by alpha·c and r stays the filtered residual |
| Solver.CgRedirect | source/blender/physics/intern/implicit_blender.c:1126-1131 | s = r; δnew = r·r; the new direction is filter(r + (δnew/δold)·c), hence admissible |
| ImplicitSolver.RootMotion | source/blender/physics/intern/implicit_blender.c:2318-2342 | with the root-frame flag, the given frame with zero accelerations; without it, the identity world frame |
| ImplicitSolver.WorldFrameKeepsDirections | source/blender/physics/intern/implicit_blender.c:2330-2336 | in the world-frame build the setters store constraint directions and velocities as given |
| ImplicitSolver.CreatedIsValid | source/blender/physics/intern/implicit_blender.c:663-690 | the created matrices, and the identity-filled bigI, have the solver's layout, and bigI shares the others' layout |
| ImplicitSolver.CreateRoots | source/blender/physics/intern/implicit_blender.c:663-690 | one zeroed root transform per vertex |
| ImplicitSolver.ImplicitData.constructor | source/blender/physics/intern/implicit_blender.c:663-690 | all matrices created over (numverts, numsprings) and S over (numverts, 0); bigI has the identity on its diagonal; every vector and root is zero |
| ImplicitSolver.ImplicitData.SetRootMotion | source/blender/physics/intern/implicit_blender.c:2318-2342 | only root[index] changes, to `RootMotion` |
| ImplicitSolver.ImplicitData.SetVertexMass | source/blender/physics/intern/implicit_blender.c:2370-2374 | only M[index]'s matrix changes, to mass·I |
| ImplicitSolver.MassBlockScales | source/blender/physics/intern/implicit_blender.c:2370-2374 | the mass block scales a velocity by the mass |
| ImplicitSolver.ImplicitData.InitSpring | source/blender/physics/intern/implicit_blender.c:2376-2390 | returns vcount + index; tags that slot (v1, v2) in bigI, M, dFdX, dFdV, A, P and Pinv, not S; nothing else changes |
| ImplicitSolver.ImplicitData.TaggedKeepsValid | source/blender/physics/intern/implicit_blender.c:2376-2390 | tagging one slot in all seven matrices keeps their shared layout |
| ImplicitSolver.ImplicitData.ClearConstraints | source/blender/physics/intern/implicit_blender.c:2392-2399 | every S[i] becomes I and every z[i] zero |
| ImplicitSolver.ClearedFilterIsIdentity | source/blender/physics/intern/implicit_blender.c:2392-2399 | after clearing, the filter is the identity |
| ImplicitSolver.ImplicitData.AddConstraintNdof0 | source/blender/physics/intern/implicit_blender.c:2401-2409 | S[index] becomes 0 and z[index] is assigned R^T·dV; other vertices unchanged |
| ImplicitSolver.PinnedVertexFiltered | source/blender/physics/intern/implicit_blender.c:2401-2409 | a zero-DOF vertex is filtered to zero |
| ImplicitSolver.ImplicitData.AddConstraintNdof1 | source/blender/physics/intern/implicit_blender.c:2411-2433 | S[index] becomes I − pp^T − qq^T for the root-frame directions; R^T·dV is added to z[index]; other vertices unchanged |
| ImplicitSolver.ImplicitData.AddConstraintNdof2 | source/blender/physics/intern/implicit_blender.c:2435-2451 | S[index] becomes I − pp^T; R^T·dV is added to z[index]; other vertices unchanged |
| LinAlg.RankOneComplementApplied | source/blender/physics/intern/implicit_blender.c:2440-2443 | the two-DOF block removes v's component along p |
| LinAlg.RankOneComplementAlong | source/blender/physics/intern/implicit_blender.c:2440-2443 | along p it scales by 1 − \|p\|², so it zeroes that component exactly for a unit p |
| LinAlg.RankOneComplementSymmetric | source/blender/physics/intern/implicit_blender.c:2440-2445 | I − pp^T is symmetric |
| LinAlg.RankTwoComplementSymmetric | source/blender/physics/intern/implicit_blender.c:2416-2427 | I − pp^T − qq^T is symmetric |
| LinAlg.SymmetricConventionsAgree | source/blender/physics/intern/implicit_blender.c:452-466 | the column and row products agree on symmetric blocks |
| LinAlg.MulColsIsTransposedRows | source/blender/physics/intern/implicit_blender.c:452-466 | the column product is the row product with the transpose |
| LinAlg.ProjectorTwice | source/blender/physics/intern/implicit_blender.c:994-1001 | applying an idempotent block twice is applying it once |
| LinAlg.ZeroFixesOnlyZero | source/blender/physics/intern/implicit_blender.c:2405 | only the zero vector is fixed by the zero block |
| ImplicitSolver.AllPinnedVerticesStay | source/blender/physics/intern/implicit_blender.c:1070-1151 | with dV − z admissible, every vertex with a zero block has dV = z |
| ImplicitSolver.ImplicitData.AssembleSystem | source/blender/physics/intern/implicit_blender.c:2199-2211 | dV cleared; A = M − dt·dFdV − dt²·dFdX blockwise with M's tags; B = dt·F + dt²·(dFdX·V) |
| ImplicitSolver.ImplicitData.RunSolver | source/blender/physics/intern/implicit_blender.c:2215 | the `cg_filtered` guarantees, plus every pinned vertex ending at its target |
| ImplicitSolver.ImplicitData.Advance | source/blender/physics/intern/implicit_blender.c:2222-2224 | Vnew = V + dV, then Xnew = X + dt·Vnew |
| ImplicitSolver.ImplicitData.Solve | source/blender/physics/intern/implicit_blender.c:2197-2229 | A and B as assembled; the solver's verdict and residual bound; pinned vertices at their targets; Vnew and Xnew advanced; X and V untouched |
| ImplicitSolver.ImplicitData.ApplyResult | source/blender/physics/intern/implicit_blender.c:2231-2236 | X and V become exactly Xnew and Vnew |
| Springs.FbIsQuartic | source/blender/physics/intern/implicit_blender.c:952-959 | `fb` evaluates the quartic with the five listed coefficients at x = length/L |
| Springs.FbDerivIsDerivative | source/blender/physics/intern/implicit_blender.c:961-967 | `fbderiv` evaluates the x-derivative of that quartic |
| Springs.EvalQuartic | source/blender/physics/intern/implicit_blender.c:952-959 | a coefficient list evaluates as Horner's form of the quartic |
| Springs.EvalCubic | source/blender/physics/intern/implicit_blender.c:961-967 | a coefficient list evaluates as Horner's form of the cubic |
| Springs.FbStar | source/blender/physics/intern/implicit_blender.c:969-978 | the result is at least both kb·fb and cb·(length − L) and equals one of them |
| Springs.JacobianFollowsForceBranch | source/blender/physics/intern/implicit_blender.c:969-992 | `fbstar_jacobi` is cb exactly when `fbstar` took the linear branch, else kb·fbderiv |
| Springs.Direction | source/blender/physics/intern/implicit_blender.c:1400-1416 | zero for an extent of almost zero length, else a unit vector that times length gives the extent |
| Springs.UnitDirection | source/blender/physics/intern/implicit_blender.c:1413 | extent/length is a unit vector |
| Springs.DfdxSpring | source/blender/physics/intern/implicit_blender.c:1354-1364 | the structural position Jacobian is symmetric |
| Springs.StructuralJacobianAlong | source/blender/physics/intern/implicit_blender.c:1354-1364 | along the spring it acts as the stiffness k |
| Springs.StructuralJacobianAcross | source/blender/physics/intern/implicit_blender.c:1354-1364 | across the spring it acts as k·(1 − L/length) |
| Springs.DfdvDamp | source/blender/physics/intern/implicit_blender.c:1347-1352 | the damping Jacobian is symmetric |
| Springs.DampingJacobianExact | source/blender/physics/intern/implicit_blender.c:1347-1352 | applied to the relative velocity it gives the damping force |
| Springs.DfdxSpringType2 | source/blender/physics/intern/implicit_blender.c:1341-1345 | the bending Jacobian is symmetric |
| Springs.SewingTension | source/blender/physics/intern/implicit_blender.c:1431-1435 | at most max_sewing; unchanged below it; max_sewing above it |
| Springs.StretchTension | source/blender/physics/intern/implicit_blender.c:1424-1439 | k·(length − L), capped at max_sewing for a sewing spring |
| Springs.StretchForceActive | source/blender/physics/intern/implicit_blender.c:1421-1450 | an active stretch spring's force is tension plus axial damping along dir |
| Springs.GoalTarget | source/blender/physics/intern/implicit_blender.c:1465-1468 | the old goal position at time 0 and the new one at time 1 |
| Springs.CalcSpringForce | source/blender/physics/intern/implicit_blender.c:1366-1509 | NEEDED iff the type-dispatched gate holds; an inactive spring is cleared; Jacobians symmetric; goal and bending springs record no velocity Jacobian; goal springs no position Jacobian |
| Springs.SpringForceIsAxial | source/blender/physics/intern/implicit_blender.c:1419-1507 | stretch and bending forces act along the spring direction |
| Springs.SewingTensionCapped | source/blender/physics/intern/implicit_blender.c:1428-1450 | an active sewing spring pulls with tension at most max_sewing, plus its damping |
| Springs.ApplySpringForce | source/blender/physics/intern/implicit_blender.c:1511-1529 | F, dFdV and dFdX become their `...After` functions of the old arrays |
| Springs.ScatterTouchesOnlySpringSlots | source/blender/physics/intern/implicit_blender.c:1511-1529 | only the spring's two vertices and its own block change |
| Springs.ScatterForceEntries | source/blender/physics/intern/implicit_blender.c:1519-1522 | F[ij] += f; F[kl] −= f except for goal springs, which leave F[kl] |
| Springs.TotalForceConserved | source/blender/physics/intern/implicit_blender.c:1519-1522 | an ordinary spring keeps the total force; a goal spring adds f |
| Springs.VecSumUpdate | source/blender/physics/intern/implicit_blender.c:1519-1522 | replacing one entry changes the sum by the difference |
| Springs.SpringSumUpdate | source/blender/physics/intern/implicit_blender.c:1524-1526 | a new block matrix changes the first pass only at its column, by the difference |
| Springs.BlockSumUpdate | source/blender/physics/intern/implicit_blender.c:1524-1526 | a new block matrix changes the second pass only at its row, by the difference |
| Springs.DiagonalUpdateOnConstant | source/blender/physics/intern/implicit_blender.c:1524-1525 | on a constant vector, subtracting J at diagonal d lowers entry d by J·c |
| Springs.SpringUpdateOnConstant | source/blender/physics/intern/implicit_blender.c:1526 | on a constant vector, adding J at the spring block raises both its vertices' entries by J·c |
| Springs.ScatterIgnoresTranslation | source/blender/physics/intern/implicit_blender.c:1513-1526 | the −J, −J, +J scatter leaves the product with any constant vector unchanged |
| Springs.SpringJacobiansIgnoreTranslation | source/blender/physics/intern/implicit_blender.c:1511-1529 | a spring's updates of dFdX and dFdV annihilate rigid translations |
| Springs.ScatterKeepsSymmetry | source/blender/physics/intern/implicit_blender.c:1511-1529 | the scatter keeps the layout and symmetric spring blocks |
| HairGrid.Clamp | source/blender/physics/intern/implicit_blender.c:1607 | in [0, res − 2]; identity inside; 0 below; res − 2 above |
| HairGrid.IndexAxis | source/blender/physics/intern/implicit_blender.c:1607 | the truncated, clamped coordinate lies in [0, res − 2] |
| HairGrid.GridCell | source/blender/physics/intern/implicit_blender.c:1612-1614 | all 8 corners of the cell are grid points |
| HairGrid.HairGridOffset | source/blender/physics/intern/implicit_blender.c:1609-1616 | the offset lies in [0, res³) |
| HairGrid.OffsetBounds | source/blender/physics/intern/implicit_blender.c:1615 | every grid point's offset lies in [0, res³) |
| HairGrid.CornerOffset | source/blender/physics/intern/implicit_blender.c:1826 | offset + di + (dj + dk·res)·res is corner (di, dj, dk)'s own offset and lies in [0, res³) |
| HairGrid.CornerShift | source/blender/physics/intern/implicit_blender.c:1826 | the loop's step from the cell offset reaches the corner's offset |
| HairGrid.OffsetInjective | source/blender/physics/intern/implicit_blender.c:1826 | distinct grid points have distinct offsets, so the 8 corners are 8 different grid points |
| HairGrid.TentWeights | source/blender/physics/intern/implicit_blender.c:1776-1783 | eight weights |
| HairGrid.GridWeights | source/blender/physics/intern/implicit_blender.c:1762-1786 | eight weights |
| HairGrid.TentProduct | source/blender/physics/intern/implicit_blender.c:1755-1759 | the tent weight is the product of its per-axis factors |
| HairGrid.FractionInUnit | source/blender/physics/intern/implicit_blender.c:1767-1774 | a coordinate in [0, res − 1] lies within [0, 1] of its clamped cell |
| HairGrid.TentPartitionUnity | source/blender/physics/intern/implicit_blender.c:1755-1783 | with fractions in [0, 1] the 8 weights are non-negative and sum to 1 |
| HairGrid.WeightsPartitionUnity | source/blender/physics/intern/implicit_blender.c:1762-1786 | the same for a point's weights, given in-cell fractions |
| HairGrid.CoordInGrid | source/blender/physics/intern/implicit_blender.c:1772-1774 | a point inside the box has grid coordinates in [0, res − 1] |
| HairGrid.ValidPointWeights | source/blender/physics/intern/implicit_blender.c:1749-1786 | every point inside the box has weights forming a partition of unity |
| HairGrid.BoxContainsPoints | source/blender/physics/intern/implicit_blender.c:1740-1753 | every point is valid for the box of the points |
| HairGrid.GetBoundBox | source/blender/physics/intern/implicit_blender.c:1740-1747 | the running DO_MINMAX from ±FLT_MAX computes BoxMin/BoxMax of the first numverts points |
| HairGrid.SplatPointInto | source/blender/physics/intern/implicit_blender.c:1818-1833 | in place: nothing for a point outside the box; else the 8 corners in loop order each gain weight and weight·velocity |
| HairGrid.AddCornerAt | source/blender/physics/intern/implicit_blender.c:1826-1830 | one corner step changes only that corner's grid point |
| HairGrid.AddCornerInto | source/blender/physics/intern/implicit_blender.c:1826-1830 | in place: the loop body adds weight and weight·velocity to corner (di, dj, dk) of the cell and changes nothing else |
| HairGrid.NormaliseGrid | source/blender/physics/intern/implicit_blender.c:1837-1842 | in place: each velocity divided by its density where the density is positive |
| HairGrid.NormaliseKeepsDensity | source/blender/physics/intern/implicit_blender.c:1837-1842 | densities kept; positive density times new velocity is the old velocity; else the point is unchanged |
| HairGrid.CreateHairGrid | source/blender/physics/intern/implicit_blender.c:1788-1845 | a fresh grid equal to `HairVolumeGrid` of the first numverts positions and velocities |
| HairGrid.EmptyGrid | source/blender/physics/intern/implicit_blender.c:1805-1808 | size points |
| HairGrid.NewEmptyGrid | source/blender/physics/intern/implicit_blender.c:1805-1808 | a fresh array of size points, each zero velocity and zero density |
| HairGrid.GatherInto | source/blender/physics/intern/implicit_blender.c:1811-1835 | in place: the grid becomes the old grid with the first numverts points splatted in order |
| HairGrid.EmptyGridDensity | source/blender/physics/intern/implicit_blender.c:1805-1808 | the initialised grid has total density 0 |
| HairGrid.TotalDensityUpdate | source/blender/physics/intern/implicit_blender.c:1829 | one point's new density changes the total by the difference |
| HairGrid.AddCornerDensity | source/blender/physics/intern/implicit_blender.c:1826-1830 | one corner step adds that corner's weight to the total density |
| HairGrid.SplatDkDensity | source/blender/physics/intern/implicit_blender.c:1825-1831 | the innermost dk loop adds the row's two weights |
| HairGrid.SplatDjDensity | source/blender/physics/intern/implicit_blender.c:1824-1832 | the dj loop adds the slab's four weights |
| HairGrid.SplatDiDensity | source/blender/physics/intern/implicit_blender.c:1823-1833 | the whole triple loop adds the sum of the 8 weights |
| HairGrid.SlabsCoverWeights | source/blender/physics/intern/implicit_blender.c:1823-1833 | the triple loop reads every weight index 0 .. 7 exactly once |
| HairGrid.SplatPointDensity | source/blender/physics/intern/implicit_blender.c:1818-1833 | a point inside the box adds exactly 1 to the total density, a point outside 0 |
| HairGrid.GatheredDensity | source/blender/physics/intern/implicit_blender.c:1811-1835 | over the points' own box, n splatted points add n |
| HairGrid.NormalisedDensity | source/blender/physics/intern/implicit_blender.c:1837-1842 | normalising keeps the total density |
| HairGrid.HairGridDensity | source/blender/physics/intern/implicit_blender.c:1788-1845 | the returned grid's total density is the number of vertices when 2·velocity_smooth > 0, else 0 |

## Left out

- Root-frame conversions (`loc_world_to_root` … `dfdv_root_to_world`, lines 717-948): compiled only with `CLOTH_ROOT_FRAME`, which the model treats as a parameter of `RootMotion`. The world/root round trip needs an orthonormal rotation that the code never checks.
- `BPH_mass_spring_set_motion_state`, `set_position`, `set_velocity` and `get_motion_state` (lines 2344-2368): thin wrappers over the root-frame conversions above.
- `bigI`, `P` and `Pinv`: created and tagged, but never read on the active path.
- The `#if 0` code (the old `cg_filtered`, `BuildPPinv`, `cg_filtered_pre`): dead.
- The constraint blocks `I − pp^T` and `I − pp^T − qq^T` are projectors only for unit, orthogonal p and q, which the callers are trusted to pass. Their idempotence is not proved. `Solver.CgFiltered` states its residual bound for the no-iteration exit only when every block is a projector.
- Solver.CgFiltered: convergence and float accuracy are not modelled. The bound proved is the loop's own stopping test, not an error bound on the solution.
- Divisions by zero (the CG step `alpha`, `L/length`, `length/L`, the grid scale): the model's quotient yields 0 where a float division would give an infinity or NaN. The CG ratio `delta_new/delta_old` is a plain division: its divisor is positive, because `delta_old` takes the value of `delta_new` only after the loop guard `delta_new > delta_target` has held, and `delta_target` is ε² times a squared norm, so it is never negative.
- HairGrid.HairGridDensity: when the points' box is flat along some axis (a single vertex, or hair lying in an axis-aligned plane), C computes `(vec − gmin)/scale` as 0/0 (lines 1772-1774) and the weights and densities become NaN. The proved total "density = number of vertices" holds there only because the model's quotient yields 0.
- Float constants (0.01f, FLT_EPSILON, FLT_MAX, the `fb` coefficients) are exact reals. Rounding and `sqrtf` are not modelled: the spring length is an argument whose square is the squared extent.
- HairGrid.Trunc: the float-to-int cast is truncation toward zero. Out-of-range casts, which are undefined behaviour in C, are not modelled.
- The `CLOTH_FORCE_SPRING_*` build flags are taken as defined (all three spring branches compiled).
- OpenMP `parallel sections` in `mul_bfmatrix_lfvector`: the two passes are modelled one after the other. They write disjoint vectors.
- `MEM_callocN` / `MEM_mallocN` / `MEM_freeN`: fresh arrays; allocation failure and freeing are not modelled.
- `cloth_calc_force` (gravity, drag, effectors, wind, the per-spring loop), `hair_volume_create_collision_grid`, `hair_volume_forces`, grid interpolation, velocity smoothing, collision and pressure forces, the voxel texture export, and `cloth_calc_helper_forces`: they depend on scene data and collider caches outside this file.
- The timing and debug-printing helpers: console output only.
- The setters' `index` (and `init_spring`'s `v1`, `v2`) are required to be in range: the C code does not check them and would write out of bounds.
- ImplicitSolver.ImplicitData.constructor: requires at least one vertex. The C code does not check this; with no vertices `create_bfmatrix(0, 0)` for S writes the header past a zero-length allocation, which the model does not represent.
- BlockSparse.CreateBfmatrix: requires `verts + springs > 0`. The C code does not check this; with both zero it writes the header into `temp[0]` of a zero-length allocation, which the model does not represent.
- HairGrid.HairGridOffset: `hair_grid_weights` returns the offset and fills the weights in one call. The model splits this into `HairGridOffset` and `GridWeights`, computed from the same clamped cell.
