# Cosine distance engines: a Dafny model

This project models the engines of CosineSimilarityComparison. Each engine
takes a dataset of N rows (vectors) and returns the N-by-N matrix of their
pairwise cosine distances, max(0, 1 - dot / sqrt(m1 * m2)).

The model covers:

- **Per-pair kernels.** Each kernel accumulates a dot product and two squared
  magnitudes in its own way:
  - the scalar kernel (Simple), with float and double copies;
  - the cached-magnitude kernel (SimpleV2, integer);
  - the narrow-accumulate SIMD kernel (VectorizedV1), with double, float and
    int copies;
  - the wide-accumulate SIMD kernel (VectorizedV2, double).
- **The CPU matrix fill.** Every CPU engine's `ComputeDistances` shares it. It
  has a sequential `j < i` loop and a flat-index path `i = k % N, j = k / N`.
- **The device engine.** This covers:
  - the transposed upload layout `i + j * N`;
  - the kernel's index rule `i = k / N, j = k % N`, which returns when `i < j`;
  - the NaN marker for a zero divisor;
  - the readback.
- **The cached device engine's lifecycle.** Its state is the `IsInitialized`
  flag plus the accelerator field.
- **The benchmark driver's `ValidateSameResult`.**

How the model is built:

- **Numbers.** Sums are exact: `real` stands for float and double. Integer
  datasets are `seq<seq<int>>`, lifted to exact reals (`Sums.Lift`).
- **The final step.** The final step is not evaluated, because there is no
  square root here. A computed cell is `Cosine(dot, normProduct)` with
  `normProduct = m1 * m2`. `Zero` is the 0 a fresh matrix holds, and `NaN` is
  the device's explicit marker. Two engines "agree" when they store the same
  `Value`, which means the same three sums combined the same way.
- **Shared members.** The float, double and int copies of one algorithm are
  the same model. So are the two device engines (float and integer), and the
  two cached engines.
  - The source cells below cite one copy.
  - The other copies have the same structure at these lines:
    - `SimpleCosineSimilarityFloatVersion.cs:65-79`;
    - `VectorizedV1CosineSimilarityFloatVersion.cs:65-94` and
      `VectorizedV1CosineSimilarityIntegerVersion.cs:65-94`;
    - `GpuCosineSimilarityIntegerVersion.cs:11-95`;
    - `GpuCosineSimilarityIntegerVersionCacheKernel.cs:12-125`.

Modules:

- `Indexing` (indexing.dfy): the flat index and its inverse.
- `Sums` (sums.dfy): dot products, lane sums and buffer sums.
- `Distance` (distance.dfy): the four per-pair kernels.
- `Pairwise` (pairwise.dfy): the CPU matrix fill.
- `Gpu` (gpu.dfy): the device engine.
- `Session` (session.dfy): the cached device engine.
- `Validation` (validate.dfy): the result check.

## Model

| member | source | states |
|---|---|---|
| Indexing.NextChunkFits | CosineSimilarityComparison/Versions/VectorizedV1CosineSimilarityDoubleVersion.cs:75-76 | a lane group that starts before `len / s * s` ends within it, so `new Vector(a, i)` stays in bounds |
| Indexing.SplitFlat | CosineSimilarityComparison/Versions/SimpleCosineSimilarityDoubleVersion.cs:35-36 | splitting `i + j * n` with `% n` and `/ n` gives back (i, j) for i < n |
| Indexing.FlatInjective | CosineSimilarityComparison/Versions/GpuCosineSimilarityFloatVersion.cs:17-20 | two cells of an n-wide layout with the same offset `i + j * n` are the same cell |
| Indexing.SplitBounds | CosineSimilarityComparison/Versions/SimpleCosineSimilarityDoubleVersion.cs:33-36 | every flat index k < n * m splits into a cell (k % n, k / n) of the grid, whose flat index is k |
| Indexing.FlatBounds | CosineSimilarityComparison/Versions/GpuCosineSimilarityFloatVersion.cs:17-20 | every cell of the n-by-dim grid has its offset below `n * dim`, the buffer length |
| Indexing.FlatBijection | CosineSimilarityComparison/Versions/GpuCosineSimilarityIntegerVersion.cs:16-19 | (i, j) to `i + j * n` is a bijection from [0, n) x [0, m) onto [0, n * m): into, one-to-one and onto |
| Indexing.OwnerIs | CosineSimilarityComparison/Versions/SimpleCosineSimilarityDoubleVersion.cs:35-37 | flat index k owns the unordered cell pair {a, b} exactly when min and max of {a, b} are k % n and k / n |
| Sums.DotSymmetric | CosineSimilarityComparison/Versions/SimpleCosineSimilarityDoubleVersion.cs:70-75 | the dot product is unchanged when the two rows are swapped |
| Sums.SquaredMagnitudeNonNegative | CosineSimilarityComparison/Versions/SimpleV2CosineSimilarityIntegerVersion.cs:71-76 | a squared magnitude (a cached `dataSetMagnitude[i]` and every magnitude total) is never negative |
| Sums.SquaredMagnitudeZero | CosineSimilarityComparison/Versions/GpuCosineSimilarityFloatVersion.cs:94-102 | a squared magnitude is zero if and only if every component it covers is zero |
| Sums.DotZeroLeft | CosineSimilarityComparison/Versions/SimpleCosineSimilarityDoubleVersion.cs:70-76 | a row that is zero over the summed prefix has a zero dot product with any row |
| Sums.DotPrefix | CosineSimilarityComparison/Versions/GpuCosineSimilarityFloatVersion.cs:94-99 | a dot over the first n components depends on those components only |
| Sums.DotSplit | CosineSimilarityComparison/Versions/VectorizedV1CosineSimilarityDoubleVersion.cs:76-83 | adding the horizontal sum `Vector.Dot` of the lane group at i extends the plain sum from i to i + s |
| Sums.SumAppend | CosineSimilarityComparison/Versions/VectorizedV2CosineSimilarityDoubleVersion.cs:95-102 | summing a buffer sums its two parts, so `result.Sum()` is the lane sum plus the slots after the lanes |
| Sums.SumAddProducts | CosineSimilarityComparison/Versions/VectorizedV2CosineSimilarityDoubleVersion.cs:87-89 | the lane-wise update `acc + one * two` raises the accumulator's total by exactly one lane group's horizontal sum |
| Distance.FinishSymmetric | CosineSimilarityComparison/Versions/SimpleCosineSimilarityDoubleVersion.cs:76 | the final step reads the two magnitudes only through their product, so swapping them changes nothing |
| Distance.CosineDistanceSymmetric | CosineSimilarityComparison/Versions/SimpleCosineSimilarityDoubleVersion.cs:64-77 | the scalar kernel's distance is the same for (a, b) and (b, a): the dot is kept and the magnitudes swap |
| Distance.ZeroNormHasZeroDot | CosineSimilarityComparison/Versions/SimpleCosineSimilarityDoubleVersion.cs:76 | the magnitude product is never negative, and when it is zero the dot is zero too, so a zero row divides 0 by 0 |
| Distance.SimpleDistance | CosineSimilarityComparison/Versions/SimpleCosineSimilarityDoubleVersion.cs:64-77 | the loop's three totals are the plain sums over the indices below the shorter length, `CosineDistance` |
| Distance.SimpleV2Distance | CosineSimilarityComparison/Versions/SimpleV2CosineSimilarityIntegerVersion.cs:96-109 | the dot runs over the common prefix with the given magnitudes; with equal lengths and whole-row magnitudes it is the scalar kernel's distance |
| Distance.ChunkEnd | CosineSimilarityComparison/Versions/VectorizedV1CosineSimilarityDoubleVersion.cs:74-75 | `len / s * s` is a multiple of s, at most len, and leaves fewer than s indices for the tail |
| Distance.VectorizedV1Distance | CosineSimilarityComparison/Versions/VectorizedV1CosineSimilarityDoubleVersion.cs:65-94 | for len2 >= len1, lane groups plus scalar tail give the scalar kernel's distance, with or without hardware acceleration |
| Distance.ScalarTail | CosineSimilarityComparison/Versions/VectorizedV1CosineSimilarityDoubleVersion.cs:86-91 | the tail loop adds, to each accumulator, the plain sum from where the lane loop stopped to the end of the first row |
| Distance.CopyTo | CosineSimilarityComparison/Versions/VectorizedV2CosineSimilarityDoubleVersion.cs:95 | `CopyTo` overwrites the first s slots of the rented buffer with the lanes and leaves the rest as it was |
| Distance.AccumulateLanes | CosineSimilarityComparison/Versions/VectorizedV2CosineSimilarityDoubleVersion.cs:76-90 | the loop stops at `len / s * s`; lane l of each accumulator holds the products at offset l of every group, and the lanes add up to the plain sum |
| Distance.AddLaneGroup | CosineSimilarityComparison/Versions/VectorizedV2CosineSimilarityDoubleVersion.cs:84-89 | one iteration moves all three accumulators on by one lane group and keeps them accumulated |
| Distance.AccumulateStep | CosineSimilarityComparison/Versions/VectorizedV2CosineSimilarityDoubleVersion.cs:87-89 | one lane-wise update keeps both the per-lane columns and the total equal to the plain sum, one group further |
| Distance.ColumnsStep | CosineSimilarityComparison/Versions/VectorizedV2CosineSimilarityDoubleVersion.cs:87-89 | one lane-wise update moves every lane's column sum on by one group |
| Distance.Reduce | CosineSimilarityComparison/Versions/VectorizedV2CosineSimilarityDoubleVersion.cs:92-102 | copy then `Sum()` gives the lanes' total plus whatever the buffer held past the lanes, which stays as it was |
| Distance.VectorizedV2Distance | CosineSimilarityComparison/Versions/VectorizedV2CosineSimilarityDoubleVersion.cs:67-115 | each total is the plain sum plus the stale slots past s of the rented buffer; when those sum to 0, or without acceleration, it is the scalar kernel's distance |
| Distance.SumZeros | CosineSimilarityComparison/Versions/VectorizedV2CosineSimilarityDoubleVersion.cs:93 | a freshly zeroed buffer sums to 0 |
| Pairwise.PairValueSymmetric | CosineSimilarityComparison/Versions/SimpleCosineSimilarityDoubleVersion.cs:39-56 | every kernel's value for rows (i, j) equals its value for (j, i) |
| Pairwise.ComputeDistance | CosineSimilarityComparison/Versions/SimpleCosineSimilarityDoubleVersion.cs:53-55 | the call returns the selected kernel's value for the two rows, for each of the four kernels |
| Pairwise.PathsAgree | CosineSimilarityComparison/Versions/SimpleCosineSimilarityDoubleVersion.cs:33-59 | the sequential cell (larger index first) equals the flat-index cell (smaller index first); the matrix is symmetric and its diagonal is 0 |
| Pairwise.FlatCoversEachPairOnce | CosineSimilarityComparison/Versions/SimpleCosineSimilarityDoubleVersion.cs:33-45 | each pair i < j is written by flat index `i + j * n`, which acts, and by no other acting index below n * n |
| Pairwise.FlatCellsDisjoint | CosineSimilarityComparison/Versions/SimpleCosineSimilarityDoubleVersion.cs:35-43 | two distinct acting flat indices write disjoint cells |
| Pairwise.FillSequential | CosineSimilarityComparison/Versions/SimpleCosineSimilarityDoubleVersion.cs:49-59 | starting from zeros, every cell ends as the pair value with the larger index first, and the diagonal stays 0 |
| Pairwise.StoreMirror | CosineSimilarityComparison/Versions/SimpleCosineSimilarityDoubleVersion.cs:53-57 | one sequential step writes the pair's value to (i, j) and (j, i) and leaves every other cell unchanged |
| Pairwise.StorePair | CosineSimilarityComparison/Versions/SimpleCosineSimilarityDoubleVersion.cs:39-43 | one acting flat index writes the pair's value to (i, j) and (j, i) and leaves every other cell unchanged |
| Pairwise.FillFlat | CosineSimilarityComparison/Versions/SimpleCosineSimilarityDoubleVersion.cs:33-45 | starting from zeros, every cell ends as the pair value with the smaller index first, and the diagonal stays 0 |
| Pairwise.DegreeOfParallelism | CosineSimilarityComparison/Versions/SimpleCosineSimilarityDoubleVersion.cs:23-31 | a request of 0 becomes the processor count; the degree is the request when positive and is never below 1 |
| Pairwise.ComputeDistances | CosineSimilarityComparison/Versions/SimpleCosineSimilarityDoubleVersion.cs:10-62 | a fresh N-by-N matrix; either path gives the sequential matrix |
| Pairwise.Magnitudes | CosineSimilarityComparison/Versions/SimpleV2CosineSimilarityIntegerVersion.cs:68-77 | slot i holds the sum of squares of the whole of row i, for every i |
| Pairwise.SimpleV2ComputeDistances | CosineSimilarityComparison/Versions/SimpleV2CosineSimilarityIntegerVersion.cs:14-94 | the magnitude pass, then either path: every cell is the cached-magnitude kernel's sequential cell over whole-row magnitudes |
| Pairwise.EnginesAgree | CosineSimilarityComparison/Versions/SimpleV2CosineSimilarityIntegerVersion.cs:96-108 | every engine's matrix is the scalar engine's; the cached-magnitude one only on rows of equal length |
| Pairwise.SimpleV2DiffersOnRaggedRows | CosineSimilarityComparison/Versions/SimpleV2CosineSimilarityIntegerVersion.cs:104-108 | rows [1, 1] and [1]: the cached-magnitude engine gives normProduct 2 where the scalar engine gives 1 |
| Gpu.LayoutRoundTrip | CosineSimilarityComparison/Versions/GpuCosineSimilarityFloatVersion.cs:17-20 | reading row i back from the transposed layout at `i + k * N` gives the row's first dim components |
| Gpu.TransposeStep | CosineSimilarityComparison/Versions/GpuCosineSimilarityFloatVersion.cs:20 | one write `dataset[i + j * N] = dataSet[i][j]` extends the transposed region by one cell and disturbs no earlier cell |
| Gpu.TransposedIsLayout | CosineSimilarityComparison/Versions/GpuCosineSimilarityFloatVersion.cs:18-20 | a buffer holding every component at its offset is the layout |
| Gpu.Transpose | CosineSimilarityComparison/Versions/GpuCosineSimilarityFloatVersion.cs:17-20 | the nested loop fills a fresh buffer with the transposed layout |
| Gpu.RowAt | CosineSimilarityComparison/Versions/GpuCosineSimilarityFloatVersion.cs:96-98 | the kernel's read `dataset[i, k]` at `i + k * N` is in bounds and is component k of row i |
| Gpu.SumsStep | CosineSimilarityComparison/Versions/GpuCosineSimilarityFloatVersion.cs:94-99 | one column's products extend the three sums by one component |
| Gpu.Component | CosineSimilarityComparison/Versions/GpuCosineSimilarityFloatVersion.cs:96 | the read returns component k of row i |
| Gpu.AddColumn | CosineSimilarityComparison/Versions/GpuCosineSimilarityFloatVersion.cs:96-98 | one iteration of the kernel's loop keeps the three sums equal to the plain sums, one column further |
| Gpu.Accumulate | CosineSimilarityComparison/Versions/GpuCosineSimilarityFloatVersion.cs:91-99 | the kernel's loop gives the dot and both squared magnitudes of rows i and j over dim columns |
| Gpu.KernelInstance | CosineSimilarityComparison/Versions/GpuCosineSimilarityFloatVersion.cs:80-108 | with i = index / N, j = index % N: nothing when i < j, otherwise cells (i, j) and (j, i) get the device value and nothing else changes |
| Gpu.Measure | CosineSimilarityComparison/Versions/GpuCosineSimilarityFloatVersion.cs:91-105 | NaN when the magnitude product is 0, otherwise the distance of the larger-index row against the smaller |
| Gpu.LaunchCell | CosineSimilarityComparison/Versions/GpuCosineSimilarityFloatVersion.cs:85-107 | across one instance, a cell owned at or below it holds its device value afterwards |
| Gpu.LaunchProgress | CosineSimilarityComparison/Versions/GpuCosineSimilarityFloatVersion.cs:85-107 | running instance `index` extends the region of finished cells from owners below index to owners below index + 1 |
| Gpu.Launch | CosineSimilarityComparison/Versions/GpuCosineSimilarityFloatVersion.cs:49-51 | after N * N instances every cell holds its device value, whatever the buffer held before |
| Gpu.LaunchStep | CosineSimilarityComparison/Versions/GpuCosineSimilarityFloatVersion.cs:85-89 | instance (i = index / N, j = index % N) owns exactly the cells {i, j}, and the two cells it writes are those |
| Gpu.Readback | CosineSimilarityComparison/Versions/GpuCosineSimilarityFloatVersion.cs:61-72 | `result[x][y]` is buffer entry `x + y * N`, for a fresh N-by-N result |
| Gpu.LayoutDot | CosineSimilarityComparison/Versions/GpuCosineSimilarityFloatVersion.cs:94-99 | a dot of two rows read from the layout is the dot of the original rows |
| Gpu.DeviceCellOfLayout | CosineSimilarityComparison/Versions/GpuCosineSimilarityFloatVersion.cs:43-51 | the kernel reading the uploaded layout computes the cell from the dataset rows themselves |
| Gpu.Offload | CosineSimilarityComparison/Versions/GpuCosineSimilarityFloatVersion.cs:38-73 | upload, launch and readback give a fresh N-by-N matrix whose cell (x, y) is the device value of rows max(x, y) and min(x, y) |
| Gpu.ComputeDistances | CosineSimilarityComparison/Versions/GpuCosineSimilarityFloatVersion.cs:12-78 | fails with NoGpuFound exactly when there is no CUDA device; otherwise returns the device matrix |
| Gpu.GpuMatchesCpu | CosineSimilarityComparison/Versions/GpuCosineSimilarityFloatVersion.cs:100-107 | the device matrix is symmetric and, off the diagonal on equal-length rows, equals the scalar engine's matrix with its 0 / 0 cells read as NaN |
| Gpu.GpuDiagonal | CosineSimilarityComparison/Versions/GpuCosineSimilarityFloatVersion.cs:89-107 | the diagonal is written: NaN if and only if the row is zero over dim, otherwise dot m > 0 against normProduct m * m |
| Session.RunKeepsNoLeak | CosineSimilarityComparison/Versions/GpuCosineSimilarityFloatVersionCacheKernel.cs:17-50 | every Init, Dispose and ComputeDistances call keeps a live accelerator covered by the flag |
| Session.ReachableStates | CosineSimilarityComparison/Versions/GpuCosineSimilarityIntegerVersionCacheKernel.cs:12-50 | from a new engine, no call sequence leaves a live accelerator without the flag set |
| Session.RunComputes | CosineSimilarityComparison/Versions/GpuCosineSimilarityFloatVersionCacheKernel.cs:52-95 | any number of `ComputeDistances` calls leaves the state as it was |
| Session.DriverUsage | CosineSimilarityComparison/Program.cs:213-244 | Init with a device, any number of computes, then Dispose: every call returns normally and the engine ends uninitialized with a released accelerator |
| Session.LifecycleGuards | CosineSimilarityComparison/Versions/GpuCosineSimilarityFloatVersionCacheKernel.cs:17-57 | Init when initialized, and Dispose or Compute when not, are refused with the state unchanged; computing succeeds exactly in the state (initialized, live); a second Dispose is refused |
| Session.LifecycleAsWritten | CosineSimilarityComparison/Versions/GpuCosineSimilarityFloatVersionCacheKernel.cs:29-50 | a failed Init leaves the flag set (re-Init refused, Compute hits a null accelerator); after Dispose, Init is accepted again |
| Session.CachedGpuEngine.constructor | CosineSimilarityComparison/Versions/GpuCosineSimilarityIntegerVersionCacheKernel.cs:12-15 | a new engine is not initialized and has no accelerator |
| Session.CachedGpuEngine.Dispose | CosineSimilarityComparison/Versions/GpuCosineSimilarityFloatVersionCacheKernel.cs:17-27 | the new state and outcome are `DisposeStep` of the old state |
| Session.CachedGpuEngine.Init | CosineSimilarityComparison/Versions/GpuCosineSimilarityFloatVersionCacheKernel.cs:29-50 | the new state and outcome are `InitStep` of the old state and device presence |
| Session.CachedGpuEngine.ComputeDistances | CosineSimilarityComparison/Versions/GpuCosineSimilarityFloatVersionCacheKernel.cs:52-95 | fails exactly as `ComputeStatus` of the state says; otherwise returns the device matrix |
| Validation.ValidateSameResult | CosineSimilarityComparison/Program.cs:360-378 | maxDiff >= 0, it bounds every cell's difference and is 0 or one of them; it reports if and only if some difference exceeds 0.01 |

## Left out

- Floating point. This covers rounding, float versus double width and the
  casts between them, `Math.Sqrt`/`GPUMath.Sqrt` and the clamp
  `Math.Max(0, ...)`. A cell is the symbolic `Cosine(dot, normProduct)`. So
  "non-negative after the clamp" and "within 0.01 of the baseline" are not
  stated.
- The CPU kernels produce NaN only implicitly, from 0 / 0. The model keeps
  such a cell as `Cosine(0, 0)`, and `Distance.Observed` says how it reads.
- Validation.ValidateSameResult: works on exact reals, so a NaN cell is not
  modelled. The source skips a NaN difference, because `diff > maxDiff` is
  false.
- Integer overflow. Int products and sums are unbounded.
- Threads. `Parallel.For` is modelled as a loop over the flat index. The
  writes of distinct indices are proved disjoint (`Pairwise.FlatCellsDisjoint`),
  so their order does not matter. `ParallelOptions` and
  `Environment.ProcessorCount` reduce to `Pairwise.DegreeOfParallelism`, a
  value handed to the scheduler, with the processor count as a parameter.
  Both magnitude passes of SimpleV2 (the parallel one writes only slot `i`
  per index) are `Pairwise.Magnitudes`.
- Hardware. `Vector<T>.Count` and `Vector.IsHardwareAccelerated` are
  parameters.
- `ArrayPool`. Its reuse is not modelled. `Pairwise.ComputeDistance` hands
  the V2 kernel a freshly zeroed buffer of the rented length.
  `Distance.VectorizedV2Distance` states the result for any buffer contents.
- The ILGPU plumbing. This covers `Context`, `Accelerator.Create`, kernel
  loading, `Allocate`, `CopyFrom`, `Synchronize`, `GetAsArray` and the
  `using` disposals.
  - Device presence is a boolean.
  - Device buffers are host sequences and arrays, and a device allocation
    starts with arbitrary contents.
  - `ArrayView2D[x, y]` is taken to address `x + y * N`, with `Rows` equal
    to N, as the host layout assumes. The ILGPU source is not part of this
    model.
  - Disposing an already disposed accelerator or context is taken to do
    nothing.
- Distance.VectorizedV1Distance / Distance.VectorizedV2Distance / Pairwise.ComputeDistances:
  the SIMD kernels bound their loops by the first row only and read the
  second row at the same indices. When the second row is shorter, the
  source throws an index-out-of-range exception. The model requires the
  second row to be at least as long instead. Through the fill paths this
  depends on the row order:
  - the sequential path passes the larger index first, so it throws when a
    later row is longer than an earlier one (rows [1] then [1, 1]);
  - the flat-index path passes the smaller index first, so it throws when
    an earlier row is longer than a later one.

  On such ragged data the two paths therefore differ: one throws, the
  other returns a matrix. `Pairwise.PathsAgree` speaks only of inputs both
  accept. The benchmark driver builds every dataset with rows of one length
  (`Program.cs:386-387`, `Program.cs:401-402`), so the requirement holds at
  each of its calls.
- The input. The device engines read `dataSet[0].Length` and every row up to
  it. An empty dataset or a shorter row throws in the source. The model
  requires `|ds| >= 1` and `RowsCover(ds, |ds[0]|)` instead.
- `ValidateSameResult` likewise requires the candidate to cover the
  reference's shape (`Validation.Covers`), where the source would throw.
- The jagged result. `double[][]` is an `array2`: rows are never aliased in
  the source.
- The benchmark driver. Timing, console output and dataset generation are
  left out. Only `ValidateSameResult` is modelled, and its console line is
  its `reportsError` result.
- Differences from a strict Uninitialized, Ready, Disposed lifecycle. The
  code is followed:
  - a failed `Init` leaves the flag set;
  - `Dispose` re-enables `Init`;
  - a disposed or never-created accelerator makes `ComputeDistances` fail
    after the guard.

  `Session.LifecycleAsWritten` states these.
- Differences from the idea that the device kernel acts only for `i < j`.
  The code returns early when `i < j`, so it acts for `i >= j` and also
  writes the diagonal (`Gpu.GpuDiagonal`).
