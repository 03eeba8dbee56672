# Cubic B-spline shape functions and domain seeding, in Dafny

This project models two parts of pymudokon, a material point method (MPM) solver:

- **The cubic B-spline shape function** (`pymudokon/shapefunctions/cubic.py`):
  - `create` builds the stencil of node offsets for 1, 2 or 3 dimensions, plus zeroed per-interaction buffers.
  - `vmap_intr_shp` evaluates one particle–node interaction. It covers four spline families: middle, boundary, next to the low boundary and next to the high boundary. A switch picks the family. The interaction's weight is the tensor product of the per-axis splines, and its gradient is padded to three components.
  - `calculate_shapefunction` updates every interaction and returns the distances, padded to three columns.
- **The domain helpers** (`pymudokon/utils/mpm_domain_helpers.py`):
  - `discretize` sets each particle's mass to the reference density times its volume.
  - `fill_domain_with_particles` seeds every interior cell of the background grid with 2^dim particles. They sit at the two-point Gauss positions 0.2113 and 0.7887 along each axis.

Both files are pure array code, so the model uses datatypes, functions and lemmas over `real`. The modules are:

- `Polynomials`: cubic polynomials in coefficient form and their formal derivative.
- `CubicSplines`: the four spline families, the switch, and their properties (support, continuity, kinks, mirror, partition of unity).
- `CubicStencil`: the stencil tables and the row formula they follow.
- `Sums`: finite sums, scaling and outer products.
- `CubicShape`: the shape-function record, `create`, the per-interaction evaluation, `calculate_shapefunction`, and partition of unity over a particle's stencil.
- `DomainHelpers`: `discretize` and `fill_domain_with_particles`.
- `Wrappers`: the `Option` result of an operation that fails for some inputs.

Calls into code outside these two files are parameters of the model:

- The signed distances and node hashes that `vmap_intr` computes are parameters of `CalculateShapefunction`.
- `Particles.calculate_volume` is the function parameter `calculateVolume` of `Discretize`.
- The output of `Nodes.get_coordinate_stack` is the parameter `coordinateStack` of `FillDomainWithParticles`.

## Model

| member | source | states |
|---|---|---|
| CubicStencil.StencilFor | pymudokon/shapefunctions/cubic.py:43-135 | The stencil of dimension 1, 2 or 3 has 4^dim rows. Row k is the digits of k in base 4, each minus 1. In 2D axis 0 varies fastest. In 3D axis 2 varies fastest, then axis 0, then axis 1. |
| CubicStencil.TablesFollowRows | pymudokon/shapefunctions/cubic.py:43-135 | Each literal table (1D, 2D, 3D) has 4^dim rows, and each row equals the row formula. |
| CubicStencil.Stencil2Formula | pymudokon/shapefunctions/cubic.py:45-65 | Each row of the 2D table equals the row formula. |
| CubicStencil.Stencil3Formula | pymudokon/shapefunctions/cubic.py:66-135 | Each row of the 3D table equals the row formula. |
| CubicStencil.Stencil3Slab0 | pymudokon/shapefunctions/cubic.py:70-85 | Rows 0–15 of the 3D table (axis-1 offset −1) follow the row formula. |
| CubicStencil.Stencil3Slab1 | pymudokon/shapefunctions/cubic.py:86-101 | Rows 16–31 (axis-1 offset 0) follow the row formula. |
| CubicStencil.Stencil3Slab2 | pymudokon/shapefunctions/cubic.py:102-117 | Rows 32–47 (axis-1 offset 1) follow the row formula. |
| CubicStencil.Stencil3Slab3 | pymudokon/shapefunctions/cubic.py:118-133 | Rows 48–63 (axis-1 offset 2) follow the row formula. |
| CubicStencil.RowRoundTrip | pymudokon/shapefunctions/cubic.py:43-135 | Every row is dim offsets in {−1, 0, 1, 2}. Reading a row back as a base-4 index gives k. |
| CubicStencil.RowIndexRoundTrip | pymudokon/shapefunctions/cubic.py:43-135 | Every row of dim offsets in {−1, 0, 1, 2} has an index below 4^dim, and the row at that index is the row itself. |
| CubicStencil.StencilRowsAreOffsets | pymudokon/shapefunctions/cubic.py:43-135 | Each stencil row is an offset row of width dim, stored at the index it encodes. |
| CubicStencil.StencilCoversOffsets | pymudokon/shapefunctions/cubic.py:43-135 | Every combination of offsets in {−1, 0, 1, 2}^dim occurs in the stencil. |
| CubicStencil.StencilRowsDistinct | pymudokon/shapefunctions/cubic.py:43-135 | No two stencil rows are equal. |
| CubicShape.Create | pymudokon/shapefunctions/cubic.py:23-152 | For dim 1, 2 or 3: the stencil of that dimension and numParticles·4^dim interactions. Ids are 0, 1, …, hashes are 0, weights are 0.0 and gradients are [0, 0, 0]. Any other dim is an error (None), since the stencil is never bound. |
| CubicSplines.Piecewise | pymudokon/shapefunctions/cubic.py:226-236 | Definition: the value given for the sub-interval holding x, the four half-open sub-intervals being [−2, −1), [−1, 0), [0, 1) and [1, 2), and 0 outside them. SubIntervalsPartition and OutsideSupport state its properties. |
| CubicSplines.MiddleBasis | pymudokon/shapefunctions/cubic.py:239-248 | Definition: the four middle cubics. MiddleAgreement, BasisContinuous and MiddlePartitionOfUnity state their properties. |
| CubicSplines.MiddleDBasis | pymudokon/shapefunctions/cubic.py:249-258 | Definition: the four middle derivatives, scaled by h. MiddleAgreement shows each is the derivative of its cubic. MiddleKinks shows continuity at every knot. |
| CubicSplines.BoundaryBasis | pymudokon/shapefunctions/cubic.py:262-271 | Definition: the four boundary cubics. BoundaryAgreement and BasisContinuous state their properties. |
| CubicSplines.BoundaryDBasis | pymudokon/shapefunctions/cubic.py:272-281 | Definition: the four boundary derivatives, scaled by h. BoundaryAgreement and BoundaryKinks state their properties. |
| CubicSplines.NearLowBasis | pymudokon/shapefunctions/cubic.py:285-293 | Definition: 0 on [−2, −1), then three cubics. NearLowAgreement and NearBoundaryZeros state their properties. |
| CubicSplines.NearLowDBasis | pymudokon/shapefunctions/cubic.py:294-302 | Definition: 0 on [−2, −1), then three derivatives scaled by h. NearLowAgreement and NearLowKinks state their properties. |
| CubicSplines.NearHighBasis | pymudokon/shapefunctions/cubic.py:306-314 | Definition: three cubics, then 0 on [1, 2). NearHighAgreement and Mirror state their properties. |
| CubicSplines.NearHighDBasis | pymudokon/shapefunctions/cubic.py:315-323 | Definition: three derivatives scaled by h, then 0 on [1, 2). NearHighAgreement and NearHighKinks state their properties. |
| CubicSplines.Basis | pymudokon/shapefunctions/cubic.py:332-341 | Definition: the basis of the family selected by the switch. PieceAgreement states it piece by piece. |
| CubicSplines.DBasis | pymudokon/shapefunctions/cubic.py:332-341 | Definition: the derivative of the family selected by the switch. PieceAgreement and DBasisScales state its properties. |
| CubicSplines.Branch | pymudokon/shapefunctions/cubic.py:332-341 | The switch index selects the family at that position of the branch list. Indices outside the list are clamped to its ends. |
| CubicSplines.PieceAgreement | pymudokon/shapefunctions/cubic.py:226-324 | On sub-interval k, each family's basis is the cubic piece listed for k. Its unscaled dbasis is that piece's formal derivative, so the dbasis lists really are the derivatives. |
| CubicSplines.MiddleAgreement | pymudokon/shapefunctions/cubic.py:238-259 | The middle basis and dbasis agree with the middle family's pieces and their derivatives on each sub-interval. |
| CubicSplines.BoundaryAgreement | pymudokon/shapefunctions/cubic.py:261-282 | The same for the boundary family. |
| CubicSplines.NearLowAgreement | pymudokon/shapefunctions/cubic.py:284-303 | The same for the family next to the low boundary. |
| CubicSplines.NearHighAgreement | pymudokon/shapefunctions/cubic.py:305-324 | The same for the family next to the high boundary. |
| Polynomials.DerivativeIsTangent | pymudokon/shapefunctions/cubic.py:238-259 | The formal derivative used by the pieces is the derivative: p(x+t) = p(x) + t·p′(x) + t²·(bounded term). |
| CubicSplines.DBasisScales | pymudokon/shapefunctions/cubic.py:249-258 | Every dbasis is the inverse node spacing h times the unscaled derivative. |
| CubicSplines.SubIntervalsPartition | pymudokon/shapefunctions/cubic.py:226-231 | The four conditions are mutually exclusive. Together they cover exactly [−2, 2). |
| CubicSplines.OutsideSupport | pymudokon/shapefunctions/cubic.py:233-236 | Outside [−2, 2) no condition holds, so every family's basis and dbasis are 0. |
| CubicSplines.BasisContinuous | pymudokon/shapefunctions/cubic.py:238-324 | Every family's basis is continuous at each knot −2, −1, 0, 1, 2: the piece on the left reaches the value taken at the knot. |
| CubicSplines.MiddleVanishesAtEnds | pymudokon/shapefunctions/cubic.py:238-248 | The middle basis is 0 at ±2, and its outer pieces reach 0 there. |
| CubicSplines.DerivativeKinks | pymudokon/shapefunctions/cubic.py:261-324 | The derivative is continuous at a knot if and only if the knot is not one of these kinks: the boundary family at 0, the near-low family at −1, the near-high family at 1. |
| CubicSplines.MiddleKinks | pymudokon/shapefunctions/cubic.py:249-258 | The middle derivative is continuous at every knot. |
| CubicSplines.BoundaryKinks | pymudokon/shapefunctions/cubic.py:272-281 | The boundary derivative is continuous at every knot except 0. |
| CubicSplines.NearLowKinks | pymudokon/shapefunctions/cubic.py:294-302 | The near-low derivative is continuous at every knot except −1. |
| CubicSplines.NearHighKinks | pymudokon/shapefunctions/cubic.py:315-323 | The near-high derivative is continuous at every knot except 1. |
| CubicSplines.NearBoundaryZeros | pymudokon/shapefunctions/cubic.py:284-323 | Near-low is 0 (value and derivative) on [−2, −1). Near-high is 0 on [1, 2). |
| CubicSplines.Mirror | pymudokon/shapefunctions/cubic.py:238-324 | Near-high at x equals near-low at −x. Middle and boundary are even. Away from the knots, the derivatives are odd in the same pairing. |
| CubicSplines.MiddlePartitionOfUnity | pymudokon/shapefunctions/cubic.py:238-259 | For 0 ≤ f < 1, the middle values at the four stencil distances sum to 1 and their derivatives sum to 0. |
| CubicShape.Product | pymudokon/shapefunctions/cubic.py:342 | Definition: the product of the per-axis values. ProductOfAxes writes it out for 1, 2 and 3 axes. |
| CubicShape.TensorGradient | pymudokon/shapefunctions/cubic.py:344-362 | The gradient has three components. It is the intended gradient, also in 1D (see Findings). TensorProduct states what each component is. |
| CubicShape.TensorGradientAsWritten | pymudokon/shapefunctions/cubic.py:344-362 | The gradient as the branches build it: none in 1D, where the construction fails. In 2D and 3D it is the tensor-product gradient. |
| CubicShape.OneAxisGradient | pymudokon/shapefunctions/cubic.py:361-362 | For a 1D interaction at any distance f, the as-written branch yields no gradient. The intended gradient is [dbasis, 0, 0]. |
| CubicShape.EvalFamily | pymudokon/shapefunctions/cubic.py:226-362 | One interaction evaluated with a given family: weight Product of the axis values, gradient TensorGradient, always three components. |
| CubicShape.VmapIntrShp | pymudokon/shapefunctions/cubic.py:199-363 | Because the switch index is the constant 0, every interaction is the middle family's evaluation, whatever the hash and the node species. |
| CubicShape.TensorProduct | pymudokon/shapefunctions/cubic.py:342-362 | Gradient component i is axis i's derivative times the product of the other axes' values. It is 0 beyond the problem's dimension. |
| CubicShape.ProductOfAxes | pymudokon/shapefunctions/cubic.py:342 | The weight is the product of the 1, 2 or 3 per-axis values. |
| CubicShape.Interactions | pymudokon/shapefunctions/cubic.py:178-180 | `vmap_intr_shp` mapped over a run of interactions: one value per distance row, each gradient of three components. InteractionsMatch ties it to the stored buffers. |
| CubicShape.CalculateShapefunction | pymudokon/shapefunctions/cubic.py:154-197 | The stencil is unchanged and ids are 0…n−1. Hashes are those of the interactions. Each stored weight and gradient is the evaluation of that interaction's distance. Each distance row is returned padded with zeros to three columns. |
| CubicShape.Pad3 | pymudokon/shapefunctions/cubic.py:185-190 | A row of at most three entries keeps its entries and gets zeros up to three columns. |
| CubicShape.StencilDistances | pymudokon/shapefunctions/cubic.py:43-135 | A particle at fraction f of its cell sees 4^dim stencil nodes, each at a distance of dim components. |
| CubicShape.DistanceRow1 | pymudokon/shapefunctions/cubic.py:43-44 | In 1D, node k is at distance f − (k − 1). |
| CubicShape.DistanceRow2 | pymudokon/shapefunctions/cubic.py:45-65 | In 2D, node k is at distance (f₀ − (k mod 4 − 1), f₁ − (k div 4 − 1)). |
| CubicShape.DistanceRow3 | pymudokon/shapefunctions/cubic.py:66-135 | In 3D, node k is at distance (f₀ − ((k div 4) mod 4 − 1), f₁ − (k div 16 − 1), f₂ − (k mod 4 − 1)). |
| CubicShape.AxisTableSums | pymudokon/shapefunctions/cubic.py:238-259 | On one axis, the four middle values sum to 1 and the four derivatives sum to 0. |
| CubicShape.AxisEntry | pymudokon/shapefunctions/cubic.py:238-259 | The middle value and derivative at stencil distance m are entry m of the axis tables. |
| CubicShape.Entry1 | pymudokon/shapefunctions/cubic.py:361-362 | With the intended 1D gradient: a 1D interaction's weight is the axis value, and its gradient is [derivative, 0, 0]. |
| CubicShape.TensorEntry2 | pymudokon/shapefunctions/cubic.py:342-352 | A 2D weight and gradient are entry k of the outer products of the axis tables. |
| CubicShape.Entry2 | pymudokon/shapefunctions/cubic.py:342-352 | Interaction k of a 2D particle is entry k of the outer products of its two axis tables. |
| CubicShape.OuterOuter | pymudokon/shapefunctions/cubic.py:66-135 | Entry k of the triple outer product follows the 3D stencil's axis order. |
| CubicShape.TensorEntry3 | pymudokon/shapefunctions/cubic.py:353-360 | A 3D weight and gradient are entry k of the triple outer products of the axis tables. |
| CubicShape.Entry3 | pymudokon/shapefunctions/cubic.py:353-360 | Interaction k of a 3D particle is entry k of the triple outer products of its axis tables. |
| CubicShape.Columns1 | pymudokon/shapefunctions/cubic.py:361-362 | With the intended 1D gradient, the 1D weight and gradient column sums reduce to the axis-table sums. |
| CubicShape.Columns2 | pymudokon/shapefunctions/cubic.py:342-352 | The 2D sums reduce to sums of outer products. |
| CubicShape.Columns3 | pymudokon/shapefunctions/cubic.py:353-360 | The 3D sums reduce to sums of triple outer products. |
| CubicShape.OuterSumIs | pymudokon/shapefunctions/cubic.py:342 | Restates `Sums.OuterSum` with the two factor sums passed in: an outer product sums to the product of its factors' sums. `Sums.OuterSum` holds the induction. |
| CubicShape.TripleSum | pymudokon/shapefunctions/cubic.py:342 | A triple outer product sums to the product of its three factors' sums. |
| CubicShape.TensorPartition2 | pymudokon/shapefunctions/cubic.py:342-352 | 2D partition of unity, from the axis sums. |
| CubicShape.TensorPartition3 | pymudokon/shapefunctions/cubic.py:353-360 | 3D partition of unity, from the axis sums. |
| CubicShape.PartitionOfUnity1 | pymudokon/shapefunctions/cubic.py:199-363 | With the intended 1D gradient, over the 4 stencil nodes of a 1D particle, the weights sum to 1 and each gradient column sums to 0. |
| CubicShape.PartitionOfUnity2 | pymudokon/shapefunctions/cubic.py:199-363 | The same over the 16 nodes of a 2D particle. |
| CubicShape.PartitionOfUnity3 | pymudokon/shapefunctions/cubic.py:199-363 | The same over the 64 nodes of a 3D particle. |
| CubicShape.StencilPartitionOfUnity | pymudokon/shapefunctions/cubic.py:199-363 | For any hashes and species, a particle's stencil interactions have weights summing to 1 and every gradient column summing to 0. |
| CubicShape.ParticlePartitionOfUnity | pymudokon/shapefunctions/cubic.py:154-197 | After `calculate_shapefunction`, a particle's block of stored weights sums to 1 and each stored gradient column sums to 0. This holds when the stencil has 4^dim rows of width dim and the block's distances are the particle's stencil distances. |
| CubicShape.BlockPartition | pymudokon/shapefunctions/cubic.py:154-197 | When every stored value is the evaluation of its distance, a block whose distances are a particle's stencil distances has weights summing to 1 and gradient columns summing to 0. |
| CubicShape.StoredPartition | pymudokon/shapefunctions/cubic.py:192-197 | The sums over the stored weight and gradient buffers are the sums over the evaluated interactions. |
| CubicShape.InteractionsMatch | pymudokon/shapefunctions/cubic.py:178-180 | The buffers written by the update hold each interaction's evaluation. |
| DomainHelpers.Discretize | pymudokon/utils/mpm_domain_helpers.py:12-38 | Positions and volumes are those from calculate_volume. Mass i is the density times volume i. Nodes and the shape function come back unchanged. |
| DomainHelpers.TotalMass | pymudokon/utils/mpm_domain_helpers.py:32-36 | The total mass is the reference density times the total volume. |
| DomainHelpers.Trim | pymudokon/utils/mpm_domain_helpers.py:53-57 | The slices [3:] then [:-4] keep indices 3 ≤ i < n−4, in order: max(0, n−7) entries. |
| DomainHelpers.Counts2 | pymudokon/utils/mpm_domain_helpers.py:51-57 | A 2D grid has n₀·n₁ nodes, and (n₀−7)⁺·(n₁−7)⁺ of them are kept. |
| DomainHelpers.Counts3 | pymudokon/utils/mpm_domain_helpers.py:65-71 | A 3D grid has n₀·n₁·n₂ nodes, and the product of the (nᵢ−7)⁺ is kept. |
| DomainHelpers.TrimGrid2Entries | pymudokon/utils/mpm_domain_helpers.py:53-57 | The trimmed 2D grid is (n₀−7)⁺ × (n₁−7)⁺. Its entry (a, b) is grid node (a+3, b+3). |
| DomainHelpers.TrimGrid3Entries | pymudokon/utils/mpm_domain_helpers.py:65-71 | The trimmed 3D grid has entry (a, b, d) = grid node (a+3, b+3, d+3). |
| DomainHelpers.Reshape2At | pymudokon/utils/mpm_domain_helpers.py:51 | The 2D view's node (a, b) is row a·n₁+b of the coordinate stack. |
| DomainHelpers.Reshape3At | pymudokon/utils/mpm_domain_helpers.py:51 | The 3D view's node (a, b, d) is row (a·n₁+b)·n₂+d. |
| DomainHelpers.Reshape2Shape | pymudokon/utils/mpm_domain_helpers.py:51 | The 2D view has shape n₀ × n₁ × dim. |
| DomainHelpers.Reshape3Shape | pymudokon/utils/mpm_domain_helpers.py:51 | The 3D view has shape n₀ × n₁ × n₂ × dim. |
| DomainHelpers.KeptCount | pymudokon/utils/mpm_domain_helpers.py:53-71 | Definition: the product over the axes of the trimmed lengths (nᵢ−7)⁺. Counts2, Counts3 and KeptNodes relate it to the trimmed grids. |
| DomainHelpers.Reshape2 | pymudokon/utils/mpm_domain_helpers.py:51 | Definition: the coordinate stack viewed as an n₀ × n₁ grid. Reshape2At and Reshape2Shape state its entries and shape. |
| DomainHelpers.Reshape3 | pymudokon/utils/mpm_domain_helpers.py:51 | Definition: the coordinate stack viewed as an n₀ × n₁ × n₂ grid. Reshape3At and Reshape3Shape state its entries and shape. |
| DomainHelpers.TrimGrid2 | pymudokon/utils/mpm_domain_helpers.py:53-57 | Definition: both axes of a 2D grid trimmed. TrimGrid2Entries states its shape and entries. |
| DomainHelpers.TrimGrid3 | pymudokon/utils/mpm_domain_helpers.py:65-71 | Definition: all three axes of a 3D grid trimmed. TrimGrid3Entries states its shape and entries. |
| DomainHelpers.Flatten | pymudokon/utils/mpm_domain_helpers.py:82 | Definition: the rows concatenated in order. FlattenLength, FlattenAt and FlattenAll state its properties. |
| DomainHelpers.FlattenLength | pymudokon/utils/mpm_domain_helpers.py:82 | Flattening rows of width w gives |rows|·w entries. |
| DomainHelpers.FlattenAt | pymudokon/utils/mpm_domain_helpers.py:82 | Flattening puts entry b of row a at row-major index a·w+b. |
| DomainHelpers.FlattenAll | pymudokon/utils/mpm_domain_helpers.py:82 | A property of every entry survives flattening. |
| DomainHelpers.FlatGrid2Shape | pymudokon/utils/mpm_domain_helpers.py:82 | The trimmed 2D grid, flattened, has (n₀−7)⁺·(n₁−7)⁺ rows of width dim. |
| DomainHelpers.FlatGrid2At | pymudokon/utils/mpm_domain_helpers.py:53-57 | Trimmed 2D node (a, b) lands at row-major index a·(n₁−7)⁺+b. |
| DomainHelpers.FlatGrid3Rows | pymudokon/utils/mpm_domain_helpers.py:65-71 | Flattening the trimmed 3D grid once gives rows of (n₂−7)⁺ nodes. |
| DomainHelpers.FlatGrid3Shape | pymudokon/utils/mpm_domain_helpers.py:82 | The trimmed 3D grid, flattened, has the product of the (nᵢ−7)⁺ rows, each of width dim. |
| DomainHelpers.FlatGrid3At | pymudokon/utils/mpm_domain_helpers.py:65-71 | Trimmed 3D node (a, b, d) lands at its row-major index. |
| DomainHelpers.KeptNodes | pymudokon/utils/mpm_domain_helpers.py:49-82 | The nodes kept by the 2D or 3D path number Π(nᵢ−7)⁺ and each has dim coordinates. |
| DomainHelpers.KeptAt2 | pymudokon/utils/mpm_domain_helpers.py:51-57 | Kept node a·(n₁−7)⁺+b is row (a+3)·n₁+(b+3) of the coordinate stack. |
| DomainHelpers.KeptAt3 | pymudokon/utils/mpm_domain_helpers.py:65-71 | Kept node (a·(n₁−7)⁺+b)·(n₂−7)⁺+d is row ((a+3)·n₁+b+3)·n₂+d+3 of the coordinate stack. |
| DomainHelpers.OffsetTable | pymudokon/utils/mpm_domain_helpers.py:53-81 | dim 2 selects the 4-row table of width 2. Every other dim selects the 8-row table of width 3. |
| DomainHelpers.OffsetRow | pymudokon/utils/mpm_domain_helpers.py:59-81 | Row order: in 2D, row j is (bit 1 of j, bit 0 of j). In 3D, row j is (bit 1, bit 0, bit 2). Bit 0 means 0.2113 and bit 1 means 0.7887. |
| DomainHelpers.OffsetEntries | pymudokon/utils/mpm_domain_helpers.py:59-81 | The table of dim 2 or 3 has 2^dim rows of width dim. Every entry is 0.2113 or 0.7887, strictly between 0 and 1. The two positions sum to 1. |
| DomainHelpers.OffsetRowsDistinct | pymudokon/utils/mpm_domain_helpers.py:59-81 | No two offset rows are equal, so each corner combination occurs once. |
| DomainHelpers.Shift | pymudokon/utils/mpm_domain_helpers.py:84-85 | get_opt keeps the node's dimension. |
| DomainHelpers.ShiftInside | pymudokon/utils/mpm_domain_helpers.py:84-85 | With an offset strictly inside (0, 1) and a positive spacing, the point lies strictly inside the node's cell on that axis. |
| DomainHelpers.Seed | pymudokon/utils/mpm_domain_helpers.py:86 | The reshape gives |kept|·|offsets| points. |
| DomainHelpers.SeedAt | pymudokon/utils/mpm_domain_helpers.py:86 | Point m·|offsets|+j is node m shifted by offset row j. |
| DomainHelpers.SeedPoint | pymudokon/utils/mpm_domain_helpers.py:84-86 | Axis i of point m·|offsets|+j is offset i of row j times the spacing plus axis i of node m. |
| DomainHelpers.FillDomainWithParticles | pymudokon/utils/mpm_domain_helpers.py:40-87 | Succeeds exactly for dim 2 and 3, with Π(nᵢ−7)⁺·2^dim points: every kept node seeded with every offset row. The second value is the untrimmed coordinate stack. |
| DomainHelpers.FillOrder | pymudokon/utils/mpm_domain_helpers.py:82-87 | Point m·2^dim+j has dim coordinates. It is kept node m shifted by offset row j times the spacing. |
| DomainHelpers.FillContainment | pymudokon/utils/mpm_domain_helpers.py:59-87 | With a positive spacing, every seeded point lies strictly between its node and the node plus one spacing, on every axis. |

## Left out

- Floating point: the model computes over exact reals. float32 rounding, and constants such as 2/3 that float32 cannot represent exactly, are not modelled.
- JAX tracing, `jit`, `vmap` batching and the chex dataclass machinery are not modelled. A batched call is modelled as a sequence comprehension over its rows.
- `vmap_intr` (the particle–node distances and node hashes) lives in the shape-function base class, which is not part of this model. Its outputs are parameters of `CalculateShapefunction`.
- `Particles.calculate_volume` and `Nodes.get_coordinate_stack` are not part of this model. They are a function parameter and a data parameter respectively.
- The commented-out earlier version of `vmap_intr_shp` after the live one is dead code and is not modelled.
- The node-species lookup is commented out in the source, and the switch index is the constant 0. The model keeps `hash` and `nodeSpeciesStack` as ignored parameters, so the independence is stated rather than hidden.
- CubicShape.VmapIntrShp: in 1D it uses the intended gradient `[dbasis[0], 0, 0]`, and so does every member built on it: `EvalFamily`, `Interactions`, `CalculateShapefunction`, `StencilPartitionOfUnity` and `ParticlePartitionOfUnity`. In 1D the program's gradient construction fails, so `calculate_shapefunction` never returns (see Findings). `TensorGradientAsWritten` models that failure.
- CubicShape.Entry1: states the intended 1D gradient, not the failing construction.
- CubicShape.Columns1: states the intended 1D gradient, not the failing construction.
- CubicShape.PartitionOfUnity1: states the intended 1D gradient, not the failing construction.
- DomainHelpers.FillDomainWithParticles: for dim other than 2 or 3 the source takes the 3D branch, which fails. For dim ≤ 1 the three slice indices exceed the reshaped array's axes. For dim ≥ 4 the 3-column offsets do not broadcast against dim-column nodes. The model returns None for those dims instead of raising.
- DomainHelpers.FillDomainWithParticles: the model assumes that `grid_size` has dim entries, as it does for nodes built for dim dimensions, and that the coordinate stack holds Π nᵢ rows of width dim. A `grid_size` of another length whose element count still fits the reshape (dim 2 with grid size (n₀, n₁, 1), say) is not modelled.
- `Particles` and `Nodes` carry only the fields these operations read or write.
- Default arguments are not modelled: `discretize`'s `ppc` 2 and `density_ref` 1000, and `fill_domain_with_particles`'s `dim` 3. Every parameter of the model is explicit.
- Benchmarks, demos and tests of the repository are outside this model.

## Findings

| source | as written | input that shows it | evidently intended | confidence | as-written member | corrected member |
|---|---|---|---|---|---|---|
| pymudokon/shapefunctions/cubic.py:361-362 | In 1D, the gradient array is built from the one-element dbasis array and two scalar zeros. That array is ragged and cannot be built, so no gradient is returned. | A 1D interaction at distance 0.5: the basis array has one entry, so the else branch runs. | The gradient [dbasis[0], 0, 0]. The 1D weights then sum to 1 and the gradients to 0 over the stencil. | not executed; follows from the array shapes | CubicShape.TensorGradientAsWritten, CubicShape.OneAxisGradient | CubicShape.TensorGradient, CubicShape.PartitionOfUnity1 |
