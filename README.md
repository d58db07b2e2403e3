# Utopia terrain generator — verified model of the buffer code

This project models the integer and real-valued buffer code underneath the
Utopia terrain generator, a Unity project. Most modules follow one source
file. A few shared helper modules collect what several files rely on:
`Numerics`, `MinMaxSpec`, `Intrinsics`, `Octaves`, `ChunkLayout`, `Vectors`
and `Wrappers`. The engine types become Dafny types:

- floats and doubles become `real`;
- native arrays written in place become `array`s;
- a parallel-for job becomes a `class` whose `Execute(i)` writes one cell,
  plus a sequential loop that runs it over every index;
- the random generator becomes a sequence of unit draws in [0, 1);
- `sin` and `cos` become function parameters.

The model has five groups.

- **Island mask.**
  - `Masks` models `Mask.Generate` in `World/Masks/Mask.cs`. It rounds the complexity down to a multiple of the batch size, then runs the jobs in order: angles, indices, extents, min/max, seam smoothing, vertices.
  - The job modules `MaskAnglesJob`, `MaskIndicesJob`, `MaskExtentsJob`, `MaskSmoothJob` and `MaskVertexJob` model the jobs it runs.
  - `LegacyMask` models the older `World/Mask.cs`. It rounds to a multiple of 4, sorts the angle draws, patches the index buffer afterwards, starts `MinMaxJob` at zero, and its `VertexJob` ignores the extents.
- **Batched min/max.**
  - `MinMaxSpec` is the specification: a seeded fold, lane-wise register accumulation over whole batches, and the proof that reducing the registers gives the fold.
  - `Intrinsics` holds the lane intrinsics.
  - `SSE2Utils`, `SSE4Utils`, `AVXUtils` and `UtopiaAVXUtils` are the register loops and shuffle reductions.
  - `MathsUtil` is the processor dispatch, the scalar loop and `MinMaxJob`.
- **Curve.** `Curves` covers the keyframe copy, the two clamps, the bracketing scan and the cubic Hermite segment.
- **Biomes.**
  - `NoiseBiomeOperations` and `ThresholdOperations` are the pure weighting and threshold operators.
  - `GlobalBiomeWeighting` and `NoiseBiomeWeighting` model the weighting biomes.
  - `NoiseBiomeSpawn`, `GlobalBiomeSpawn` and `GlobalSpawnRule` model the layer writers.
  - `BiomeMaps` models the ordered layering in which the last writer wins.
  - `ChunkLayout` is the shared chunk index formula.
- **Noise and origin shift.**
  - `Smooth1D` and `SimplexFractal2D` cover value noise and its octave sums; `Octaves` holds the geometric series behind both.
  - `Permutation` covers `mod289` and `permute`.
  - `OriginShifts` covers the floating-origin shift.

## Model

| member | source | states |
|---|---|---|
| Numerics.Min | Assets/Source/MathsUtils/MathsUtil.cs:43 | the minimum is at most both arguments and is one of them |
| Numerics.Max | Assets/Source/MathsUtils/MathsUtil.cs:44 | the maximum is at least both arguments and is one of them |
| Numerics.Clamp | Assets/Source/World/BiomeTypes/NoiseBiomeOperations.cs:31 | the result lies in [lo, hi], equals x inside the range and the nearer bound outside it |
| Numerics.Floor | Assets/Source/Noise/Smooth1D.cs:20 | floor(x) is the integer n with n <= x < n + 1 |
| Numerics.Frac | Assets/Source/Noise/Smooth1D.cs:15 | frac(x) lies in [0, 1) and x - frac(x) is floor(x) |
| Numerics.Trunc | Assets/Source/OriginShift.cs:52 | the float-to-int truncation rounds toward zero on both signs |
| Numerics.CsRem | Assets/Source/World/Masks/Mask.cs:67-68 | C#'s `%` on a positive divisor: the Euclidean remainder for a non-negative dividend, a value in (-d, 0] for a negative one |
| Numerics.Lerp | Assets/Source/World/Masks/SmoothJob.cs:30 | weight 0 gives the start and weight 1 gives the end |
| Numerics.LerpBetween | Assets/Source/World/Masks/SmoothJob.cs:30 | with a weight in [0, 1] the lerp lies between its endpoints |
| Numerics.LerpMonotone | Assets/Source/World/Masks/SmoothJob.cs:30 | the lerp moves monotonically from a toward b as the weight grows |
| Numerics.LerpReachesEnd | Assets/Source/World/Masks/SmoothJob.cs:30 | between distinct endpoints, the lerp equals b only at weight 1 |
| Numerics.Unlerp | Assets/Source/World/Masks/VertexJob.cs:25 | unlerp maps a to 0 and b to 1; requires a != b, because the source divides by b - a |
| Numerics.UnlerpBetween | Assets/Source/World/Masks/VertexJob.cs:25 | for a < b, unlerp maps [a, b] into [0, 1] |
| Numerics.UnlerpOutside | Assets/Source/Noise/Smooth1D.cs:24 | outside [a, b] the unclamped ratio leaves [0, 1] on the matching side |
| Numerics.SmoothCubic | Assets/Source/Noise/SimplexFractal2D.cs:137 | t²(3 - 2t) maps [0, 1] into [0, 1], stays below 1 for t < 1, and is 0 at 0 |
| Numerics.SmoothCubicBounds | Assets/Source/Noise/SimplexFractal2D.cs:137 | the product form of the cubic lies in [0, 1] and stays below 1 for t < 1 |
| Numerics.SmoothCubicMonotone | Assets/Source/Noise/SimplexFractal2D.cs:137 | the cubic is non-decreasing on [0, 1] |
| Numerics.Smoothstep | Assets/Source/Noise/Smooth1D.cs:24 | smoothstep lies in [0, 1]; it is 0 at or below a and 1 at or above b |
| Numerics.SmoothstepMonotone | Assets/Source/World/Masks/SmoothJob.cs:29-30 | smoothstep(0, 1, x) is non-decreasing in x |
| Numerics.RatioBelowOne | Assets/Source/Noise/SimplexFractal2D.cs:96 | a non-negative value below a positive total divides to a fraction in [0, 1) |
| MinMaxSpec.ExtremeUnique | Assets/Source/MathsUtils/MathsUtil.cs:34-46 | two minima (maxima) of the same values are equal |
| MinMaxSpec.SeededUnique | Assets/Source/MathsUtils/MathsUtil.cs:37-45 | two seeded minima (maxima) of the same values are equal |
| MinMaxSpec.ExtremePermutation | Assets/Source/MathsUtils/SSE4Utils.cs:19-36 | reordering the values keeps their minimum (maximum) |
| MinMaxSpec.Fold | Assets/Source/MathsUtils/MathsUtil.cs:37-45 | the scalar loop's result is the seeded extreme: it bounds the seed and every element, and is the seed or an element |
| MinMaxSpec.FoldAttained | Assets/Source/MathsUtils/MathsUtil.cs:34-46 | on a non-empty array of finite floats, the fold is an element that bounds all elements |
| MinMaxSpec.Reduce | Assets/Source/MathsUtils/SSE2Utils.cs:61-77 | a register reduction is one of its lanes and bounds every lane |
| MinMaxSpec.ReduceUnique | Assets/Source/MathsUtils/AVXUtils.cs:31-48 | any lane that bounds all lanes is the reduction |
| MinMaxSpec.Broadcast | Assets/Source/MathsUtils/SSE2Utils.cs:38-39 | `new v128(x)` holds x in every lane |
| MinMaxSpec.LaneCombine | Assets/Source/MathsUtils/SSE2Utils.cs:47-48 | lane j of min_ps/max_ps is the min/max of the two lanes j |
| MinMaxSpec.Accumulate | Assets/Source/MathsUtils/SSE2Utils.cs:38-49 | each lane of the register after the loop is at least as extreme as the seed, and is the seed or a processed value |
| MinMaxSpec.AccumulateStep | Assets/Source/MathsUtils/SSE2Utils.cs:42-49 | one loop iteration combines the register lane-wise with the next batch |
| MinMaxSpec.AccumulateCovers | Assets/Source/MathsUtils/AVXUtils.cs:91-99 | loop invariant: lane m % w bounds every processed element m |
| MinMaxSpec.AccumulateFrom | Assets/Source/MathsUtils/AVXUtils.cs:91-99 | loop invariant: lane j is the seed or one of the processed elements in lane position j |
| MinMaxSpec.ReduceAccumulate | Assets/Source/MathsUtils/SSE2Utils.cs:17-23 | reducing the accumulated register gives the scalar fold over the processed prefix |
| MinMaxSpec.Processed | Assets/Source/MathsUtils/SSE2Utils.cs:34-35 | `length - length % w` is a whole number of batches, at most length, and misses fewer than w elements |
| MinMaxSpec.FoldPrefix | Assets/Source/MathsUtils/MathsUtil.cs:40-45 | folding a longer prefix can only move the result outward |
| Intrinsics.Shuffle | Assets/Source/MathsUtils/SSE2Utils.cs:62 | the SHUFFLE immediate fits in one byte |
| SSE2Utils.ReduceMin | Assets/Source/MathsUtils/SSE2Utils.cs:61-67 | the shuffle reduction returns the least of the four lanes |
| SSE2Utils.ReduceMax | Assets/Source/MathsUtils/SSE2Utils.cs:71-77 | the shuffle reduction returns the greatest of the four lanes |
| SSE2Utils.MinMaxSSE2Base | Assets/Source/MathsUtils/SSE2Utils.cs:31-50 | the registers after the loop are the lane-wise accumulation of the first `length - length % 4` elements, seeded with MaxValue and MinValue |
| SSE2Utils.LaneWise | Assets/Source/MathsUtils/SSE2Utils.cs:47-48 | min_ps and max_ps are the lane-wise combinations of the specification |
| SSE2Utils.MinMax | Assets/Source/MathsUtils/SSE2Utils.cs:17-23 | the results are the fold over the processed prefix; when length < 4 they are (MaxValue, MinValue) |
| SSE4Utils.ReduceMin | Assets/Source/MathsUtils/SSE4Utils.cs:19-26 | the movehdup reduction returns the least lane |
| SSE4Utils.ReduceMax | Assets/Source/MathsUtils/SSE4Utils.cs:29-36 | the movehdup reduction returns the greatest lane |
| SSE4Utils.ReducePermutationInvariant | Assets/Source/MathsUtils/SSE4Utils.cs:19-36 | permuting the lanes does not change either reduction |
| SSE4Utils.AgreesWithSSE2 | Assets/Source/MathsUtils/SSE4Utils.cs:19-36 | the SSE4 and SSE2 reductions agree on every register |
| SSE4Utils.MinMax | Assets/Source/MathsUtils/MathsUtil.cs:28 | the SSE4 tier: the fold over the first `length - length % 4` elements |
| AVXUtils.Split | Assets/Source/MathsUtils/AVXUtils.cs:18-22 | the two halves concatenate back to the register |
| AVXUtils.HalvesExtreme | Assets/Source/MathsUtils/AVXUtils.cs:33-35 | the extreme of the lane-wise combined halves is the extreme of all eight lanes |
| AVXUtils.ReduceMin | Assets/Source/MathsUtils/AVXUtils.cs:31-36 | returns the least of the eight lanes |
| AVXUtils.ReduceMax | Assets/Source/MathsUtils/AVXUtils.cs:43-48 | returns the greatest of the eight lanes |
| AVXUtils.LaneWise | Assets/Source/MathsUtils/AVXUtils.cs:97-98 | mm256_min_ps and mm256_max_ps are lane-wise combinations |
| AVXUtils.MinMax | Assets/Source/MathsUtils/AVXUtils.cs:68-104 | without AVX: (MaxValue, MinValue) and no read; with AVX: the fold over the first `length - length % 8` elements; length < 8 gives the seeds |
| UtopiaAVXUtils.Split | Assets/Source/AVXUtils.cs:17-21 | the two halves concatenate back to the register |
| UtopiaAVXUtils.ReduceMin | Assets/Source/AVXUtils.cs:26-31 | returns the least of the eight lanes |
| UtopiaAVXUtils.ReduceMax | Assets/Source/AVXUtils.cs:34-39 | returns the greatest of the eight lanes |
| UtopiaAVXUtils.MinMax | Assets/Source/AVXUtils.cs:59-86 | no capability guard; the fold over the first `length - length % 8` elements, the seeds when length < 8 |
| MathsUtil.MinMaxBatchSize | Assets/Source/MathsUtils/MathsUtil.cs:14-22 | the reported batch size is 8, 4 or 1 and divides MinMax_MaxBatch |
| MathsUtil.BatchSizeMatchesDispatch | Assets/Source/MathsUtils/MathsUtil.cs:17-31 | on a consistent processor the reported batch size is the width MinMax uses; a processor with SSE4.1 but without SSE2 breaks this |
| MathsUtil.WholeBatches | Assets/Source/MathsUtils/MathsUtil.cs:14 | a length that is a multiple of the widest batch is processed whole by every tier |
| MathsUtil.MinMax | Assets/Source/MathsUtils/MathsUtil.cs:25-31 | each tier returns the fold over its processed prefix; for a multiple of 8 that is the whole array |
| MathsUtil.MinMaxDefault | Assets/Source/MathsUtils/MathsUtil.cs:34-46 | the scalar loop gives the seeded fold over the first `length` elements, none when length <= 0 |
| MathsUtil.MinMaxJob.constructor | Assets/Source/MathsUtils/MathsUtil.cs:48-52 | the job holds the input and output buffers |
| MathsUtil.MinMaxJob.Execute | Assets/Source/MathsUtils/MathsUtil.cs:54-64 | minMax[0] and minMax[1] receive the dispatched min and max; the rest of minMax and all of the input are unchanged |
| Curves.Basis | Assets/Source/Curve.cs:137-153 | the Hermite weights of the two values sum to 1; t = 0 selects the left value and t = 1 the right |
| Curves.EvaluateInterval | Assets/Source/Curve.cs:118-156 | the segment passes through (xLeft, yLeft) and (xRight, yRight) |
| Curves.FlatSegment | Assets/Source/Curve.cs:118-156 | a segment between equal values with flat tangents is constant |
| Curves.Curve.constructor | Assets/Source/Curve.cs:57-70 | the four arrays hold the keyframes' time, value and tangents index for index |
| Curves.Curve.Evaluate | Assets/Source/Curve.cs:87-112 | below the first key: y[0]; at or beyond the last key: y[length-2], as written; inside: the Hermite segment starting at the last key (before the final one) whose time is at or below the point, as the scan selects, with the next key above the point; on increasing times every key but the last returns its own value |
| Curves.Curve.EvaluateInside | Assets/Source/Curve.cs:97-111 | the scan picks the last key k < length - 1 with x[k] <= point; every later key lies above the point, x[k+1] > point, and the result is that segment; on increasing times every key but the last returns its own value |
| Curves.Curve.EvaluateCorrected | Assets/Source/Curve.cs:87-112 | as Evaluate, with the same last-bracketing-key segment inside; beyond the last key it returns y[length-1], so on increasing times every key returns its own value |
| Curves.RightClampJump | Assets/Source/Curve.cs:94 | on keys (0,0), (1,1) with flat tangents, the segment reaches 1 at x = 1 but the clamp returns 0 |
| Octaves.GeometricNonneg | Assets/Source/Noise/SimplexFractal2D.cs:93 | the amplitudes 0.5·gain^k are non-negative for a non-negative gain |
| Octaves.SeriesAtLeastStart | Assets/Source/Noise/SimplexFractal2D.cs:48-54 | one or more octaves sum to at least the first amplitude |
| Smooth1D.Random | Assets/Source/Noise/Smooth1D.cs:15 | the hash lies in [0, 1) for any sine |
| Smooth1D.Sample | Assets/Source/Noise/Smooth1D.cs:18-25 | the noise lies in [0, 1) and equals the hash at integers |
| Smooth1D.Fractal | Assets/Source/Noise/Smooth1D.cs:28-41 | the octave loop computes the sum of 0.5·gain^i · Sample(lacunarity^i · x) over i < octaves |
| Smooth1D.FractalBounds | Assets/Source/Noise/Smooth1D.cs:30-40 | with gain >= 0 and at least one octave, the sum lies in [0, Σ 0.5·gain^i) |
| Permutation.Mod289Lane | Assets/Source/Noise/Permutation.cs:13 | one lane reduces into [0, 289), differing from the input by a multiple of 289 |
| Permutation.Mod289 | Assets/Source/Noise/Permutation.cs:11-26 | every lane of the double2, double3 and double4 forms reduces into [0, 289) by a multiple of 289 |
| Permutation.Mod289Integer | Assets/Source/Noise/Permutation.cs:11-26 | on an integer, mod289 is the Euclidean remainder modulo 289 |
| Permutation.Mod289Idempotent | Assets/Source/Noise/Permutation.cs:13 | reducing a lane twice is reducing it once |
| Permutation.Mod289VectorIdempotent | Assets/Source/Noise/Permutation.cs:11-26 | mod289 on a vector is idempotent |
| Permutation.PermuteLane | Assets/Source/Noise/Permutation.cs:29-33 | one lane of permute lies in [0, 289) |
| Permutation.Permute | Assets/Source/Noise/Permutation.cs:29-40 | the double3 and double4 forms act lane-wise into [0, 289) |
| Permutation.PermuteInteger | Assets/Source/Noise/Permutation.cs:29-40 | on an integer lane, permute is ((34n + 10)n) mod 289 |
| Permutation.PermuteKeepsIntegers | Assets/Source/Noise/Permutation.cs:29-40 | integer lanes stay integer lanes |
| Permutation.PermutePeriodic | Assets/Source/Noise/Permutation.cs:29-40 | on integers, permute depends only on the residue modulo 289 |
| SimplexFractal2D.DefaultSettings | Assets/Source/Noise/SimplexFractal2D.cs:22-28 | scale 64, five octaves, gain 0.5, lacunarity 2 |
| SimplexFractal2D.Hash | Assets/Source/Noise/SimplexFractal2D.cs:118-123 | the lattice hash lies in [0, 1) |
| SimplexFractal2D.Blend | Assets/Source/Noise/SimplexFractal2D.cs:137-138 | the smoothed bilinear blend of four [0, 1) values lies in [0, 1) and is the origin corner at zero weights |
| SimplexFractal2D.Sample | Assets/Source/Noise/SimplexFractal2D.cs:126-139 | the noise lies in [0, 1) |
| SimplexFractal2D.SampleAtLattice | Assets/Source/Noise/SimplexFractal2D.cs:126-139 | at a lattice point the noise is the hash of that point |
| SimplexFractal2D.BilinearIsNestedLerp | Assets/Source/Noise/SimplexFractal2D.cs:138 | the blend expression is the lerp of two lerps |
| SimplexFractal2D.BilinearBetween | Assets/Source/Noise/SimplexFractal2D.cs:138 | the blend of four [0, 1) values with weights in [0, 1] lies in [0, 1) |
| SimplexFractal2D.LocalCell | Assets/Source/Noise/SimplexFractal2D.cs:80 | cell i maps to column i % size and row i / size, which recompose to i; both lie in [0, size) for i < size² |
| SimplexFractal2D.LocalCellInjective | Assets/Source/Noise/SimplexFractal2D.cs:80 | distinct cells get distinct local coordinates |
| SimplexFractal2D.LocalCellOnto | Assets/Source/Noise/SimplexFractal2D.cs:80 | every coordinate of [0, size)² is the local coordinate of a cell below size² |
| SimplexFractal2D.ValueBounds | Assets/Source/Noise/SimplexFractal2D.cs:83-94 | with gain >= 0 and at least one octave, the octave sum lies in [0, amplitude total) |
| SimplexFractal2D.NextDouble2 | Assets/Source/Noise/SimplexFractal2D.cs:60 | each component of an offset lies in [-range, range) |
| SimplexFractal2D.Job.constructor | Assets/Source/Noise/SimplexFractal2D.cs:31-43 | the job's fields, with no amplitude total and no offsets yet |
| SimplexFractal2D.Job.Initialise | Assets/Source/Noise/SimplexFractal2D.cs:45-62 | the amplitude total is the sum of the octave amplitudes (0.5 when octaves <= 1); `octaves` offsets in [-range, range), offset k drawn from the k-th draw; the caller's generator advances past exactly those `octaves` draws; with a negative count nothing is drawn and the generator is unchanged |
| SimplexFractal2D.Job.Execute | Assets/Source/Noise/SimplexFractal2D.cs:71-99 | result[i] is the octave sum at cell i divided by the amplitude total, stated with `CellPosition` (the start at :78-81), `Rotate` and `Step` (one octave's move at :89), `PositionAt` (the position after k octaves) and `ValueAt` (the sum of the first k octaves at :90); no other cell changes; 0 with no octaves; in [0, 1) when gain >= 0 and the amplitude total is the octave series |
| MaskAnglesJob.BaseOffset | Assets/Source/World/Masks/AnglesJob.cs:20 | the spacing is positive and count spacings make 2π |
| MaskAnglesJob.Jitter | Assets/Source/World/Masks/AnglesJob.cs:29 | each jitter lies in [0, spacing) |
| MaskAnglesJob.AngleWindow | Assets/Source/World/Masks/AnglesJob.cs:25-33 | angle i lies in [start + i spacings, start + (i+1) spacings) |
| MaskAnglesJob.AnglesIncrease | Assets/Source/World/Masks/AnglesJob.cs:29-30 | the angles strictly increase |
| MaskAnglesJob.AnglesBelowFullTurn | Assets/Source/World/Masks/AnglesJob.cs:19-30 | every angle lies in [-π + ε, -π + ε + 2π) |
| MaskAnglesJob.AnglesJob.constructor | Assets/Source/World/Masks/AnglesJob.cs:12-15 | the job holds the count and the output buffer |
| MaskAnglesJob.AnglesJob.Execute | Assets/Source/World/Masks/AnglesJob.cs:17-34 | angle i is the closed form start + i spacings + jitter i-1; the slots past angleCount are unchanged |
| MaskIndicesJob.FanIndex | Assets/Source/World/Masks/IndicesJob.cs:18-29 | slot i is 0 exactly when i % 3 == 0; otherwise triangle k holds k+1 and k+2 |
| MaskIndicesJob.ClosedFanShape | Assets/Source/World/Masks/IndicesJob.cs:18-34 | for 3(n-1) slots the closing triangle is (0, n-1, 1), every index lies in [0, n-1], and every first slot is 0 |
| MaskIndicesJob.IndicesJob.constructor | Assets/Source/World/Masks/IndicesJob.cs:14 | the job holds the index buffer |
| MaskIndicesJob.IndicesJob.Execute | Assets/Source/World/Masks/IndicesJob.cs:16-35 | every slot but the last three holds the fan index; the last triangle is patched to (0, FanIndex(len-4), 1), or to all zeros for four slots |
| MaskExtentsJob.ExtentBounds | Assets/Source/World/Masks/ExtentsJob.cs:30-34 | with no octaves every extent is 0; otherwise it lies in [0, total amplitude) |
| MaskExtentsJob.ExtentsJob.constructor | Assets/Source/World/Masks/ExtentsJob.cs:16-26 | the job holds the noise settings and both buffers |
| MaskExtentsJob.ExtentsJob.Execute | Assets/Source/World/Masks/ExtentsJob.cs:28-35 | extents[index] is the fractal noise at seed + angle·scale; nothing else changes |
| MaskSmoothJob.SmoothStartsAtStart | Assets/Source/World/Masks/SmoothJob.cs:29-30 | position 0 keeps the start sample |
| MaskSmoothJob.SmoothBetween | Assets/Source/World/Masks/SmoothJob.cs:30 | every value lies between the two samples |
| MaskSmoothJob.SmoothMonotone | Assets/Source/World/Masks/SmoothJob.cs:29-30 | the values move monotonically from the start sample toward the end sample |
| MaskSmoothJob.SmoothShortOfEnd | Assets/Source/World/Masks/SmoothJob.cs:29-30 | inside the slice, distinct samples never reach the end sample |
| MaskSmoothJob.SmoothJob.constructor | Assets/Source/World/Masks/SmoothJob.cs:16-25 | the job holds the samples, the slice and the sample count |
| MaskSmoothJob.SmoothJob.Execute | Assets/Source/World/Masks/SmoothJob.cs:27-31 | slice position i receives the smoothstep blend; nothing else changes |
| MaskVertexJob.RimVertex | Assets/Source/World/Masks/VertexJob.cs:21-28 | every rim vertex has z = 0 |
| MaskVertexJob.RimDistance | Assets/Source/World/Masks/VertexJob.cs:21-28 | with cos² + sin² = 1 the vertex lies at distance `extent` from the centre |
| MaskVertexJob.Normalise | Assets/Source/World/Masks/VertexJob.cs:25 | the maximum normalises to 1 and the minimum to 0; values between them land in [0, 1] |
| MaskVertexJob.ExtremeVertices | Assets/Source/World/Masks/VertexJob.cs:25-28 | the smallest extent's vertex is the centre; the largest's lies on the unit circle |
| MaskVertexJob.VertexJob.constructor | Assets/Source/World/Masks/VertexJob.cs:12-17 | the job holds its four buffers |
| MaskVertexJob.VertexJob.Execute | Assets/Source/World/Masks/VertexJob.cs:19-29 | vertex index + 1 is the direction of angle index scaled by the normalised extent; nothing else changes |
| Masks.VertexCount | Assets/Source/World/Masks/Mask.cs:67-68 | n is a multiple of the batch size, at least one batch, at most the complexity, within one batch of it |
| Masks.SmoothingAmount | Assets/Source/World/Masks/Mask.cs:126-128 | s = n/8 is at least 1, and the slice [n-1-s, n-1) lies in bounds |
| Masks.RawExtents | Assets/Source/World/Masks/Mask.cs:87-98 | one extent per angle: extent k is the one-dimensional fractal noise at seed + angle k · scale, where the seed is the first unit draw and angle k the closed-form angle |
| Masks.RawExtentsBounds | Assets/Source/World/Masks/Mask.cs:87-98 | with a non-negative gain every raw extent lies in [0, total octave amplitude), and is 0 when there are no octaves |
| Masks.Angles | Assets/Source/World/Masks/Mask.cs:71-77 | the angle buffer holds the closed-form angles |
| Masks.RimVertices | Assets/Source/World/Masks/Mask.cs:138-146 | rim vertex k sits at angle k at the normalised extent k |
| Masks.SmoothedExtents | Assets/Source/World/Masks/Mask.cs:126-135 | with s = n/8, extent k of the slice [n-1-s, n-1) becomes lerp(extent n-1-s, extent 0, smoothstep(0, 1, (k-(n-1-s))/s)); every other extent, the last one included, is kept; the length is kept |
| Masks.WithinFold | Assets/Source/World/Masks/Mask.cs:101-106 | each extent lies between the min/max job's minimum and maximum |
| Masks.SmoothWithin | Assets/Source/World/Masks/Mask.cs:130-135 | blending two values of [lo, hi] stays in [lo, hi] |
| Masks.SmoothedBetween | Assets/Source/World/Masks/Mask.cs:126-135 | smoothing stays within any range that holds every unsmoothed extent |
| Masks.SmoothedWithinRange | Assets/Source/World/Masks/Mask.cs:106-135 | every smoothed extent lies between the minimum and maximum of the unsmoothed ones |
| Masks.NormalisedInUnitRange | Assets/Source/World/Masks/Mask.cs:106-146 | every normalised extent of a non-degenerate mask lies in [0, 1] |
| Masks.PlaceAngles | Assets/Source/World/Masks/Mask.cs:71-77 | a fresh buffer holding the closed-form angles |
| Masks.ComputeExtents | Assets/Source/World/Masks/Mask.cs:87-98 | a fresh buffer holding the raw extents |
| Masks.ScheduleExtents | Assets/Source/World/Masks/Mask.cs:97-98 | the extents job runs for every angle |
| Masks.ScheduleSmoothing | Assets/Source/World/Masks/Mask.cs:134-135 | every slice position is blended and nothing outside the slice changes |
| Masks.SmoothSeam | Assets/Source/World/Masks/Mask.cs:126-135 | the extents become the smoothed extents: slice [n-1-s, n-1) blended from extents[n-1-s] to extents[0], the rest unchanged |
| Masks.ScheduleVertices | Assets/Source/World/Masks/Mask.cs:138-146 | every rim vertex is written and entry 0 is untouched |
| Masks.PlaceVertices | Assets/Source/World/Masks/Mask.cs:109-146 | n+1 vertices with the centre at 0; degenerate exactly when min == max; otherwise the rim vertices |
| Masks.Mask.constructor | Assets/Source/World/Masks/Mask.cs:31-43 | the asset's default settings, not yet generated |
| Masks.Mask.Generate | Assets/Source/World/Masks/Mask.cs:60-180 | n+1 vertices with the centre at 0; the closed fan of 3(n-1) indices; degenerate exactly when the minimum and maximum of the raw extents coincide; otherwise the rim vertices of the smoothed extents normalised by the unsmoothed min/max; the caller's generator advances by exactly the one seed draw |
| Masks.Mask.GetResult | Assets/Source/World/Masks/Mask.cs:190-205 | completed exactly when the readback has no error, and then the mask is marked generated; the optional completion callback is invoked exactly when the readback succeeds and a callback was passed; the settings are unchanged |
| LegacyMask.VertexCount | Assets/Source/World/Mask.cs:62-63 | the complexity rounded toward zero to a multiple of 4, for both signs |
| LegacyMask.AngleDraw | Assets/Source/World/Mask.cs:135 | each drawn angle lies in [-π + ε, π) |
| LegacyMask.DrawnAngles | Assets/Source/World/Mask.cs:124-138 | n angles, each in [-π + ε, π) |
| LegacyMask.SortedAnglesInRange | Assets/Source/World/Mask.cs:82 | sorting keeps every angle in range |
| LegacyMask.UnitRimVertex | Assets/Source/World/Mask.cs:224-232 | every vertex has z = 0 |
| LegacyMask.UnitRimIsFullExtent | Assets/Source/World/Mask.cs:224-232 | the legacy vertex is the current rim vertex at extent 1, because the extents are ignored |
| LegacyMask.FoldFrom | Assets/Source/World/Mask.cs:176-193 | the loop result bounds its starting value and every element, and is one of them |
| LegacyMask.FoldFromSeeded | Assets/Source/World/Mask.cs:176-193 | folding from a finite start is the start combined with the seeded fold |
| LegacyMask.ZeroStartClamps | Assets/Source/World/Mask.cs:176-193 | starting at 0 gives min(0, min of the array) and max(0, max of the array) |
| LegacyMask.AnglesJob.constructor | Assets/Source/World/Mask.cs:124-130 | the job holds the count and the buffer |
| LegacyMask.AnglesJob.Execute | Assets/Source/World/Mask.cs:131-137 | the first angleCount slots hold the drawn angles; the rest are unchanged |
| LegacyMask.ExtentsJob.constructor | Assets/Source/World/Mask.cs:141-148 | the job holds the seed, the settings and both buffers |
| LegacyMask.ExtentsJob.Execute | Assets/Source/World/Mask.cs:149-156 | extents[i] is the fractal noise at seed + angle·scale; nothing else changes |
| LegacyMask.MinMaxJob.constructor | Assets/Source/World/Mask.cs:176-181 | the minimum and maximum fields start at 0 |
| LegacyMask.MinMaxJob.Execute | Assets/Source/World/Mask.cs:183-192 | the fields become the fold of the array from their previous values |
| LegacyMask.IndicesJob.constructor | Assets/Source/World/Mask.cs:196-199 | the job holds the index buffer |
| LegacyMask.IndicesJob.Execute | Assets/Source/World/Mask.cs:200-214 | every slot holds the unpatched fan index |
| LegacyMask.VertexJob.constructor | Assets/Source/World/Mask.cs:218-223 | the job holds the angles and the vertex buffer |
| LegacyMask.VertexJob.Execute | Assets/Source/World/Mask.cs:224-232 | vertex index + 1 is the unit direction of angle index; nothing else changes |
| LegacyMask.MinIndex | Assets/Source/World/Mask.cs:82 | the position of a least element of the unsorted tail |
| LegacyMask.SortAngles | Assets/Source/World/Mask.cs:82 | the array ends sorted ascending and is a permutation of its old contents |
| LegacyMask.ScheduleVertices | Assets/Source/World/Mask.cs:84-91 | every rim vertex is written and entry 0 is untouched |
| LegacyMask.SortedAngles | Assets/Source/World/Mask.cs:65-82 | a fresh buffer holding the drawn angles, sorted |
| LegacyMask.ClosedFan | Assets/Source/World/Mask.cs:73-106 | a fresh buffer of the given length holding the fan with its last triangle patched, as in the current indices job |
| LegacyMask.SortedUnique | Assets/Source/World/Mask.cs:82 | two ascending sequences with the same elements are equal, so the sorted angles depend only on the multiset of draws |
| LegacyMask.DifferentDrawsDifferentAngles | Assets/Source/World/Mask.cs:65-81 | four draws of 0 and four draws of 0.5 give different angle multisets |
| LegacyMask.BuildMesh | Assets/Source/World/Mask.cs:65-106 | from n draws: n sorted angles that permute the drawn angles, n+1 vertices with the centre at 0 and unit rim vertices, and the closed fan of 3(n-1) indices |
| LegacyMask.Mask.constructor | Assets/Source/World/Mask.cs:49-58 | the mask holds its settings |
| LegacyMask.Mask.Generate | Assets/Source/World/Mask.cs:60-121 | n angles, sorted ascending and a permutation of the n drawn angles; n+1 vertices with the centre at 0 and unit rim vertices; the closed fan of 3(n-1) indices; the caller's generator comes back unchanged, because the angles job draws on its own copy |
| LegacyMask.Mask.GenerateCorrected | Assets/Source/World/Mask.cs:60-121 | the same mesh as Generate, with the caller's generator advanced past the n angle draws |
| LegacyMask.Mask.GenerateTwice | Assets/Source/World/Mask.cs:65-81 | as written, two masks generated in a row from the same generator have exactly the same angles |
| LegacyMask.Mask.GenerateTwiceCorrected | Assets/Source/World/Mask.cs:65-81 | with the corrected hand-back, the first mask draws its angles from the first n draws and the second from the next n |
| NoiseBiomeOperations.GreaterWeight | Assets/Source/World/BiomeTypes/NoiseBiomeOperations.cs:31 | the Greater weight lies in [0, 1] |
| NoiseBiomeOperations.LessWeight | Assets/Source/World/BiomeTypes/NoiseBiomeOperations.cs:37-42 | the Less weight lies in [-1, 0] |
| NoiseBiomeOperations.GetOperation | Assets/Source/World/BiomeTypes/NoiseBiomeOperations.cs:18-28 | Greater and Less map to their functions; any other value is the error case |
| NoiseBiomeOperations.GreaterPieces | Assets/Source/World/BiomeTypes/NoiseBiomeOperations.cs:31 | Greater is 0 at or below the threshold, v - t on [t, t+1], and 1 above |
| NoiseBiomeOperations.LessPieces | Assets/Source/World/BiomeTypes/NoiseBiomeOperations.cs:37-42 | Less is 0 at or above -t, v + t on [-t-1, -t], and -1 below |
| NoiseBiomeOperations.OperationsMonotone | Assets/Source/World/BiomeTypes/NoiseBiomeOperations.cs:31-42 | both weights are non-decreasing in the value |
| ThresholdOperations.GetOperation | Assets/Source/World/Biomes/ThresholdOperation.cs:24-36 | each of the four values maps to its comparison; any other value is the error case |
| ThresholdOperations.ComparisonDuality | Assets/Source/World/Biomes/ThresholdOperation.cs:41-59 | Greater is not LessEqual, Less is not GreaterEqual, and swapping the arguments swaps Greater and Less |
| ThresholdOperations.ComparisonReflexivity | Assets/Source/World/Biomes/ThresholdOperation.cs:41-53 | GreaterEqual and LessEqual hold at equality; Greater and Less do not |
| ChunkLayout.IndexShift | Assets/Source/World/Biomes/NoiseBiome.cs:89-92 | the per-cell index is the chunk's base offset plus i |
| ChunkLayout.InBoundsPerCell | Assets/Source/World/Biomes/NoiseBiome.cs:89-92 | the chunk fits the buffer exactly when every cell's index does |
| ChunkLayout.SingleChunkBuffer | Assets/Source/World/Biomes/NoiseBiome.cs:41-92 | for a chunkSize² buffer, only chunks with base offset 0 fit (chunk (0,0) does); there the index is i |
| ChunkLayout.Cover | Assets/Source/World/Biomes/GlobalSpawnRule.cs:38-44 | the chunk's cells become the layer and every other cell is unchanged |
| ChunkLayout.CoverIdempotent | Assets/Source/World/Biomes/GlobalSpawnRule.cs:43 | covering twice is covering once |
| ChunkLayout.CoverForgets | Assets/Source/World/Biomes/GlobalSpawnRule.cs:43 | the previous contents of the covered cells do not matter |
| GlobalBiomeWeighting.Fill | Assets/Source/World/BiomeTypes/GlobalBiome.cs:26-43 | the first count cells become the threshold and the rest are unchanged |
| GlobalBiomeWeighting.FillIdempotent | Assets/Source/World/BiomeTypes/GlobalBiome.cs:41-43 | filling twice is filling once |
| GlobalBiomeWeighting.WriteJob.constructor | Assets/Source/World/BiomeTypes/GlobalBiome.cs:33-38 | the job holds the threshold and the buffer |
| GlobalBiomeWeighting.WriteJob.Execute | Assets/Source/World/BiomeTypes/GlobalBiome.cs:40-43 | cell index becomes the threshold; nothing else changes |
| GlobalBiomeWeighting.GlobalBiome.constructor | Assets/Source/World/BiomeTypes/GlobalBiome.cs:18 | the threshold is 0.01 |
| GlobalBiomeWeighting.GlobalBiome.CalculateWeighting | Assets/Source/World/BiomeTypes/GlobalBiome.cs:20-27 | the first chunkSize² weights become the threshold, whatever the chunk; the rest are unchanged |
| NoiseBiomeWeighting.NoiseMap.constructor | Assets/Source/World/BiomeTypes/NoiseBiome.cs:31 | the map records whether its offsets exist |
| NoiseBiomeWeighting.NoiseMap.GenerateOffsets | Assets/Source/World/BiomeTypes/NoiseBiome.cs:32 | afterwards the offsets exist |
| NoiseBiomeWeighting.WeightRange | Assets/Source/World/BiomeTypes/NoiseBiome.cs:56-82 | Greater weights lie in [0, 1]; Less weights lie in [-1, 0] |
| NoiseBiomeWeighting.Weights | Assets/Source/World/BiomeTypes/NoiseBiome.cs:50-83 | cell i < count becomes operation(noise[i], threshold); the rest are unchanged |
| NoiseBiomeWeighting.WriteJob.constructor | Assets/Source/World/BiomeTypes/NoiseBiome.cs:69-78 | the job holds the operation, the threshold and both buffers |
| NoiseBiomeWeighting.WriteJob.Execute | Assets/Source/World/BiomeTypes/NoiseBiome.cs:80-83 | cell index becomes the operation applied to its noise value; nothing else changes |
| NoiseBiomeWeighting.NoiseBiome.constructor | Assets/Source/World/BiomeTypes/NoiseBiome.cs:21-25 | threshold 0.5 and operation Greater |
| NoiseBiomeWeighting.NoiseBiome.CalculateWeighting | Assets/Source/World/BiomeTypes/NoiseBiome.cs:30-59 | offsets are generated only if missing; the copy holds the noise values for the chunk's cells and the old result elsewhere; on a named operation the weights are written, otherwise the result is unchanged |
| NoiseBiomeWeighting.NoiseBiome.OnComplete | Assets/Source/World/BiomeTypes/NoiseBiome.cs:61-63 | the copy is released, and the release succeeds exactly when the copy was allocated |
| NoiseBiomeSpawn.Default | Assets/Source/World/Biomes/NoiseBiome.cs:18-19 | threshold 0.5 and operation GreaterEqual |
| NoiseBiomeSpawn.Spawned | Assets/Source/World/Biomes/NoiseBiome.cs:95-99 | claimed cells become the layer and the others are unchanged |
| NoiseBiomeSpawn.SpawnedIdempotent | Assets/Source/World/Biomes/NoiseBiome.cs:95-99 | spawning twice is spawning once |
| NoiseBiomeSpawn.WriteJob.constructor | Assets/Source/World/Biomes/NoiseBiome.cs:70-85 | the job holds the layer, the chunk, the operation and both buffers |
| NoiseBiomeSpawn.WriteJob.Execute | Assets/Source/World/Biomes/NoiseBiome.cs:87-99 | the cell at the index formula becomes the layer if the comparison holds, otherwise it is unchanged; nothing else changes |
| NoiseBiomeSpawn.Spawn | Assets/Source/World/Biomes/NoiseBiome.cs:21-67 | a named operation writes the layer into exactly the claimed cells of the chunk; an unnamed one is the error case and changes nothing |
| GlobalSpawnRule.WriteJob.constructor | Assets/Source/World/Biomes/GlobalSpawnRule.cs:29-36 | the job holds the chunk, the layer and the buffer |
| GlobalSpawnRule.WriteJob.Execute | Assets/Source/World/Biomes/GlobalSpawnRule.cs:38-44 | the cell at the index formula becomes the layer; nothing else changes |
| GlobalSpawnRule.Spawn | Assets/Source/World/Biomes/GlobalSpawnRule.cs:16-26 | every cell of the chunk becomes the layer; the rest are unchanged |
| GlobalBiomeSpawn.Spawn | Assets/Source/World/Biomes/GlobalBiome.cs:17-48 | every cell of the chunk becomes the layer; the random argument is unused |
| BiomeMaps.Spawned | Assets/Source/World/Biomes/BiomeMap.cs:47 | one biome's layer write: claimed cells become the layer |
| BiomeMaps.Layers | Assets/Source/World/Biomes/BiomeMap.cs:31-49 | the layered map keeps the map's length |
| BiomeMaps.LastClaim | Assets/Source/World/Biomes/BiomeMap.cs:31-48 | the last non-null biome that claims the cell, or -1 |
| BiomeMaps.LastWriterWins | Assets/Source/World/Biomes/BiomeMap.cs:31-48 | the final value is the index of the last non-null biome claiming the cell, or the initial value |
| BiomeMaps.LaterBiomesPass | Assets/Source/World/Biomes/BiomeMap.cs:31-48 | no later non-null biome claims the cell |
| BiomeMaps.GlobalFloor | Assets/Source/World/Biomes/BiomeMap.cs:31-48 | a global biome at position j forces every cell of the chunk to a layer >= j |
| BiomeMaps.LayerValues | Assets/Source/World/Biomes/BiomeMap.cs:31-48 | every final value is the initial value or a layer index below the biome count |
| BiomeMaps.OutsideUntouched | Assets/Source/World/Biomes/BiomeMap.cs:31-48 | cells outside the chunk keep their value |
| BiomeMaps.BiomeMap.constructor | Assets/Source/World/Biomes/BiomeMap.cs:28 | the map holds its biome list |
| BiomeMaps.BiomeMap.GenerateChunk | Assets/Source/World/Biomes/BiomeMap.cs:28-51 | biomes are applied in list order, writing layer i; editor and development builds skip null entries, while other builds stop at the first null, as the throw at `biomes[i].name` does; a noise biome with an unnamed operation also stops the loop; the map is the layered fold of the applied prefix, so the earlier layers stay written |
| OriginShifts.CalculateShift | Assets/Source/OriginShift.cs:47-59 | the shift keeps y and moves x and z by whole multiples of the shift size |
| OriginShifts.AxisRemainderPositive | Assets/Source/OriginShift.cs:51-58 | for a positive size, the remainder after the truncated shift is below the size; the index is 0 exactly when the coordinate is below the size |
| OriginShifts.AxisRemainder | Assets/Source/OriginShift.cs:51-58 | the same for either sign of the shift size |
| OriginShifts.OriginShift.constructor | Assets/Source/OriginShift.cs:12-14 | the shift size is 4096 and the shift counter is (0, 0) |
| OriginShifts.OriginShift.Position | Assets/Source/OriginShift.cs:16-25 | the public world position along x and z: the shift counter scaled by the shift size plus the player's x and z; with a zero counter it is the player's own x and z |
| OriginShifts.OriginShift.Update | Assets/Source/OriginShift.cs:27-44 | the counter advances by the shift index; the player and every child move by the same amount, or not at all for a zero index; the reconstructed position is unchanged; afterwards |x|, |z| < shift size, and y = 0 after a shift |

## Left out

- GPU and rendering: command buffers, render textures, materials, the mesh upload and the asynchronous readback. Only the `generated` flag transition and the optional completion callback of `Mask.GetResult` are kept; the callback is modelled as whether one was passed and whether it was invoked.
- Floating point: IEEE rounding, NaN behaviour of `min_ps`/`max_ps`, and float/double casts. Every float is a `real`.
- Job-system parallelism: every parallel-for is a sequential loop over its indices. `MinMaxJobParallel` (`World/Mask.cs`) is left out, because its racy volatile fields depend on scheduling.
- The random generator is a sequence of unit draws, and `NextFloat(a, b)` is `a + u·(b - a)`. The generator's internal state is not modelled. A method that takes the generator by `ref` returns the draws it leaves as `rest`.
- The one-argument `Hash(double)` at `Assets/Source/Noise/SimplexFractal2D.cs:109-115` is not modelled, because nothing in the source calls it; only the `double2` overload is used.
- `sin` and `cos` are parameters. The hash range proofs hold for any sine. Unit-circle facts assume cos² + sin² = 1 as a precondition.
- Noise generation behind `NoiseMap2D` is not modelled: its offset generation and its noise job are not visible. `NoiseBiomeWeighting.NoiseBiome.CalculateWeighting` takes the noise values as a parameter. The offset generation is modelled only as the flag it sets.
- Editor-only paths: the inspector UI is not modelled, nor is the warning logged for a null biome. The null-biome check compiled only into editor and development builds is modelled: `BiomeMaps.BiomeMap.GenerateChunk` takes the build configuration as a flag. With the check, a null biome (`None`) is skipped. Without it, the generation stops at the null, as the `NullReferenceException` at `Assets/Source/World/Biomes/BiomeMap.cs:46` does.
- Simplex3D and `Dispose` are not modelled. Neither are the engine transforms beyond their positions.
- Curves.Curve.Evaluate: requires at least one key, and at least two keys when the point lies above the first key. The source reads raw float pointers without bounds checks. An empty curve reads `x[0]` out of bounds, and a one-key curve evaluated above its key reads `y[-1]` out of bounds. Both are unchecked out-of-bounds reads with an undefined result, which the model does not describe.
- Curves.Curve.EvaluateCorrected: requires at least one key; for an empty curve the source reads `x[0]` out of bounds, as above.
- Masks.VertexCount: requires complexity >= 8. For a smaller complexity the rounded vertex count is at most 0, so the index buffer length (n - 2)·3 + 3 at `Assets/Source/World/Masks/Mask.cs:80` is negative and allocating it throws; that exception is not modelled.
- Masks.Mask.Generate: requires complexity >= 8, for the same reason as `Masks.VertexCount`.
- LegacyMask.Mask.Generate: requires complexity >= 4. For a smaller complexity the index buffer length at `Assets/Source/World/Mask.cs:75` is negative and allocating it throws. Also, as written the legacy `VertexJob` is built without its `extents` buffer (`Assets/Source/World/Mask.cs:86-90`), although it declares and reads it (`:221`, `:229`). With Unity's safety checks on, `Schedule` at `:91` throws, because the job holds an unassigned container. Without them, the read at `:229` dereferences a null buffer. So the as-written `Generate` fails at this point. The model describes the mesh it would build if the vertex job ran, with the extent read discarded.
- OriginShifts.OriginShift.Update: the player and the children are separate fields, so the model assumes that the player's transform is not a child of the origin object. If it were, `Assets/Source/OriginShift.cs:38-43` would shift the player twice, and the reconstructed position would not be preserved.
- Negative chunk sizes are excluded (`chunkSize >= 0`). Integer overflow of the index formula and of the counters is not modelled.
- LegacyMask.MinMaxJob.Execute: the source counts with a float loop variable. The model uses an integer index, so float-precision effects on very long arrays are not captured.
- Several divisions in the source are guarded in the model by a precondition or a flag rather than producing NaN or infinity:
  - `scale` in the cell position;
  - the amplitude total;
  - the smoothing sample count;
  - min != max in the vertex normalisation, where `Masks.Mask.Generate` returns `degenerate` instead;
  - the shift size.
- `Assets/Source/World/Masks/Mask.cs:26` uses `MathsUtil.MinMax_Batch`, which does not exist; `MinMax_MaxBatch` (8) is used.
- `Assets/Source/MathsUtils/MathsUtil.cs:28` calls `SSE4Utils.MinMax`, which SSE4Utils does not define. `SSE4Utils.MinMax` models the evident intent: the 4-lane loop with the SSE4 reductions.
- Several source facts are modelled as written:
  - The extents seed in `Masks.Mask.Generate` equals the first angle jitter draw, because the angles job works on a copy of the caller's generator.
  - `Assets/Source/World/Mask.cs:103-106` patches the index buffer after the fan is built, and the same patch is modelled.
  - The legacy `Generate` never schedules its `ExtentsJob` or `MinMaxJob`, so those jobs are modelled on their own.
  - The legacy `VertexJob` reads its extents but discards them (see `LegacyMask.Mask.Generate` above for why scheduling it fails).
  - `Assets/Source/OriginShift.cs:50` copies the whole player position into the shift amount and divides only x and z, so every shift also subtracts the player's height. `OriginShifts.OriginShift.Update` keeps this: after a shift the player's y is 0, and each child moves down by the player's old height.
- `GlobalBiomeSpawn.Spawn` takes an extra random argument, so it does not match the signature of `Biome.Spawn`. It is modelled as a separate operation, and `BiomeMaps` uses the generic global layer.
- `GlobalSpawnRule` is a spawn rule, not a biome. It is modelled on its own.
- The biome `Spawn` index formula indexes a chunkSize²-long buffer. It is in bounds only when the chunk's base offset is 0 (chunk (0, 0)). Every `Spawn` requires it to be in bounds, and `ChunkLayout.SingleChunkBuffer` proves when it is.

## Findings

| source | as written | input that shows it | evidently intended | confidence | as-written member | corrected member |
|---|---|---|---|---|---|---|
| Assets/Source/Curve.cs:94 | at or beyond the last keyframe, `Evaluate` returns `y[length - 2]`; the comment says it returns the highest value | keys (0, 0) and (1, 1) with flat tangents: at point 1 the segment gives 1, but the clamp returns 0 | return `y[length - 1]`, continuous with the last segment | not executed | Curves.Curve.Evaluate, Curves.RightClampJump | Curves.Curve.EvaluateCorrected |
| Assets/Source/World/Mask.cs:81 | the angles job gets a copy of the caller's generator (`:67`) and is scheduled by value (`:71`), so the job advances only its own copy; `random = anglesJob.random` writes the caller's own unchanged value back, and the `ref` generator does not advance | any generator: two `Generate` calls in a row draw the same values, so the second mask has exactly the angles of the first | the caller's generator advances past the n angle draws, so that the next mask draws fresh angles | not executed | LegacyMask.Mask.Generate, LegacyMask.Mask.GenerateTwice | LegacyMask.Mask.GenerateCorrected, LegacyMask.Mask.GenerateTwiceCorrected, LegacyMask.DifferentDrawsDifferentAngles |
