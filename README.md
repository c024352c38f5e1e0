# SVT-AV1 motion-search SAD kernels and reference-picture guard ring, in Dafny

This project models two parts of the SVT-AV1 encoder and proves properties of
the model.

**The plain-C SAD kernels of motion estimation** (`EbComputeSAD_C.c`):

- `FastLoop_NxMSadKernel` computes the sum of absolute differences (SAD) of an
  N x M source block against one reference position.
- `CombinedAveragingSAD` computes the SAD against the rounded average of two
  references.
- `SadLoopKernel` runs an exhaustive search over a displacement window. It
  keeps the smallest SAD and its position.
- `Subsad8x8` computes the 8x8 partition SAD. It reads all 64 samples, or only
  the 4 even rows when rows are subsampled.
- The two stages of the hierarchical eight-point search:
  - Stage A is `GetEightHorizontalSearchPointResults_8x8_16x16_PU`. It offers
    eight horizontal search points to the four 8x8 best records and to the
    16x16 best record, and stores the raw 16x16 sums in a partial-sum table.
  - Stage B is `GetEightHorizontalSearchPointResults_32x32_64x64`. It adds the
    table entries into 32x32 and 64x64 sums and updates those records.

**The guard ring of a reference picture** (`EbReferenceObject.c`). Before a
picture becomes a reference, the one-sample ring just outside its recon area is
zeroed in each of its three planes. The ring is the row above, the row below
and the columns to the left and right. The routine exists for 8-bit and for
16-bit samples. The dispatcher chooses between them by bit depth, and gives the
chroma planes half the width, height and padding.

How the source is represented:

- Sample buffers that are only read are `Sad.Block` values: a plane of 8-bit
  samples, the index of the block's first sample (the C pointer) and a stride.
- A mutated buffer (best-SAD and best-vector arrays, the partial-sum table, a
  frame buffer) is a Dafny `array`. Its method states the whole new content,
  including that nothing else changes.
- Each kernel with loops is a `method` with loop invariants. Most are proved
  equal to a specification function:
  - the recursive `Sad.BlockSad`, `Sad.AverageBlockSad` and `BestMatch.Scan`;
  - `ReferenceRing.Guarded`, a sequence comprehension that is zero on the
    ring and keeps the old value elsewhere.
  Lemmas then establish the properties of those functions.
  `SadKernels.SadLoopKernel` instead states its result outright: the first
  minimum in scan order, capped at the sentinel.
- The compile-time switch `USE_SAD_ME` becomes an `exact: bool` parameter.
  - `true` is the `#if USE_SAD_ME` branch: full blocks, raw SADs.
  - `false` is the `#else` branch: every other row, and costs doubled.

Modelling assumptions. The headers that would define these are not part of
this model.

- `EB_ABS_DIFF(a, b)` is `|a - b|`.
- `_MVXT(mv)` is the signed low 16 bits of the packed vector. `_MVYT(mv)` is
  the signed high 16 bits.
- `EB_10BIT` is 10.
- `EB_MEMSET` sets bytes. The 16-bit routine clears `sizeof(uint16_t) * (width + 2)`
  bytes, so the model clears width + 2 samples.
- Stores into `int16_t` and `uint16_t` wrap modulo 2^16 (`Types.ToInt16`,
  `Types.ToUint16`).

The source's `uint32_t` accumulators wrap modulo 2^32.

- The kernels are modelled with that wrap (`Types.ToUint32`), so they need no
  size precondition.
- `Sad.BlockSadFitsUint32` and `Sad.AverageBlockSadFitsUint32` show the wrap
  never happens for blocks of fewer than 2^32 / 255 samples. That covers every
  block size the encoder uses.

## Model

| member | source | states |
|---|---|---|
| Types.ToUint32Add | Source/Lib/C_DEFAULT/EbComputeSAD_C.c:57-63 | adding to a wrapping uint32_t accumulator and reducing each time equals reducing the exact total once |
| MotionVectors.UnpackPack | Source/Lib/C_DEFAULT/EbComputeSAD_C.c:217-219 | the x and y components packed as (uint16_t)y in the high half and (uint16_t)x in the low half are recovered unchanged by _MVXT and _MVYT |
| MotionVectors.PackUnpack | Source/Lib/C_DEFAULT/EbComputeSAD_C.c:217-219 | repacking the two components of any 32-bit word gives back that word |
| MotionVectors.CandidateMv | Source/Lib/C_DEFAULT/EbComputeSAD_C.c:217-219 | the vector stored for search point i keeps y and has x = _MVXT(mv) + 4 i, wrapped to int16_t, and exactly that sum when it is in range |
| BestMatch.ScanFirstMinimum | Source/Lib/C_DEFAULT/EbComputeSAD_C.c:210-247 | after the eight points a record holds the minimum of its initial SAD and every offered cost; its vector is the initial one if nothing improved, otherwise that of the first point reaching the minimum |
| BestMatch.ScanNoImprovement | Source/Lib/C_DEFAULT/EbComputeSAD_C.c:215-220 | because the comparison is strict, a record stays exactly as it was when no point costs less than it, ties included |
| Sad.RowSad | Source/Lib/C_DEFAULT/EbComputeSAD_C.c:61-64 | the SAD of w sample pairs is at most 255 w |
| Sad.BlockSad | Source/Lib/C_DEFAULT/EbComputeSAD_C.c:59-67 | the SAD of an h x w block pair is at most 255 h w |
| Sad.AverageBlockSad | Source/Lib/C_DEFAULT/EbComputeSAD_C.c:27-37 | the SAD against the rounded average of two references is at most 255 h w |
| Sad.BlockSadFitsUint32 | Source/Lib/C_DEFAULT/EbComputeSAD_C.c:57-63 | the uint32_t accumulator never wraps for blocks with 255 h w < 2^32 |
| Sad.AverageBlockSadFitsUint32 | Source/Lib/C_DEFAULT/EbComputeSAD_C.c:24-32 | the same for the averaging kernel |
| Sad.BlockSadSymmetric | Source/Lib/C_DEFAULT/EbComputeSAD_C.c:63 | the SAD does not depend on which block is the source |
| Sad.BlockSadSame | Source/Lib/C_DEFAULT/EbComputeSAD_C.c:63 | a block against itself has SAD 0 |
| Sad.RowSadZero | Source/Lib/C_DEFAULT/EbComputeSAD_C.c:61-64 | a row SAD is 0 if and only if the two rows agree sample by sample |
| Sad.AverageRowSadEqualReferences | Source/Lib/C_DEFAULT/EbComputeSAD_C.c:29-33 | when the two reference rows hold the same samples, the bi-predictive row SAD is the plain row SAD |
| Sad.AverageOfEqualReferences | Source/Lib/C_DEFAULT/EbComputeSAD_C.c:27-37 | two references whose blocks hold the same samples row by row reduce the bi-predictive SAD to the plain SAD. This holds whatever their planes, origins and strides |
| Sad.AverageOfSameReference | Source/Lib/C_DEFAULT/EbComputeSAD_C.c:31-32 | corollary: averaging a reference with itself reduces the bi-predictive SAD to the plain SAD |
| Sad.RowSadZeroAt | Source/Lib/C_DEFAULT/EbComputeSAD_C.c:61-64 | row y of two blocks has SAD 0 if and only if every sample of that row agrees |
| Sad.BlockSadZero | Source/Lib/C_DEFAULT/EbComputeSAD_C.c:59-67 | a block SAD is 0 if and only if the two blocks hold the same samples row by row |
| Sad.RowSadSplit | Source/Lib/C_DEFAULT/EbComputeSAD_C.c:61-64 | the SAD of a row is the sum of the SADs of its left and right parts |
| Sad.BlockSadColumns | Source/Lib/C_DEFAULT/EbComputeSAD_C.c:59-67 | the SAD of a block is the sum of the SADs of its left and right parts |
| Sad.BlockSadRows | Source/Lib/C_DEFAULT/EbComputeSAD_C.c:59-67 | the SAD of a block is the sum of the SADs of its top and bottom parts |
| Sad.Quadrants | Source/Lib/C_DEFAULT/EbComputeSAD_C.c:250-251 | the SAD of a 2n x 2n block is the sum of the SADs of its four n x n quadrants, which is what lets smaller sums be added into larger ones |
| Sad.BlockSadUniform | Source/Lib/C_DEFAULT/EbComputeSAD_C.c:59-67 | two uniform blocks of values a and b have SAD h w times the absolute difference of a and b |
| SadKernels.AccumulateRowSad | Source/Lib/C_DEFAULT/EbComputeSAD_C.c:61-64 | the inner loop leaves the accumulator at its old value plus the row SAD, modulo 2^32 |
| SadKernels.FastLoopNxMSadKernel | Source/Lib/C_DEFAULT/EbComputeSAD_C.c:48-70 | returns the block SAD of the height x width blocks, modulo 2^32 |
| SadKernels.AccumulateAverageRowSad | Source/Lib/C_DEFAULT/EbComputeSAD_C.c:29-33 | the inner loop adds the SAD against `(ref1 + ref2 + 1) >> 1`, modulo 2^32 |
| SadKernels.CombinedAveragingSad | Source/Lib/C_DEFAULT/EbComputeSAD_C.c:13-40 | returns the SAD against the rounded average of the two references, modulo 2^32 |
| SadKernels.ScanStateVisit | Source/Lib/C_DEFAULT/EbComputeSAD_C.c:107-113 | keeping a candidate only when its SAD is strictly below the best extends the scan invariant past it |
| SadKernels.ScanStateNextRow | Source/Lib/C_DEFAULT/EbComputeSAD_C.c:91-117 | a completed search row carries the scan invariant to the start of the next row |
| SadKernels.SadLoopKernel | Source/Lib/C_DEFAULT/EbComputeSAD_C.c:72-120 | bestSad ends as min(0xffffff, every candidate's SAD). Below the sentinel, the centre is a window position with that SAD and every earlier position in scan order costs more. At the sentinel, the centre is what the caller passed in. An empty window leaves bestSad at the sentinel and the centre unchanged. A non-empty window of blocks with 255 h w below the sentinel always moves the centre into the window |
| SadKernels.CostBelowSentinel | Source/Lib/C_DEFAULT/EbComputeSAD_C.c:89-110 | when 255 h w is below 0xffffff, every candidate's SAD beats the initial bestSad |
| SadKernels.PartitionSad | Source/Lib/C_DEFAULT/EbComputeSAD_C.c:122-154 | the partition SAD is at most 255 x 8 x the number of rows read |
| SadKernels.ExactPartitionIsBlock | Source/Lib/C_DEFAULT/EbComputeSAD_C.c:131-139 | in exact mode the partition SAD is the 8x8 block SAD (true by definition; it names the fact the Exact lemmas use) |
| SadKernels.ApproximatePartitionRows | Source/Lib/C_DEFAULT/EbComputeSAD_C.c:140-151 | with the strides doubled, the partition SAD is the sum of rows 0, 2, 4 and 6 |
| SadKernels.Subsad8x8 | Source/Lib/C_DEFAULT/EbComputeSAD_C.c:122-154 | returns the partition SAD of the mode, and at most 255 x 64 |
| HierarchicalSearch.PartitionLayout | Source/Lib/C_DEFAULT/EbComputeSAD_C.c:214-241 | partition p of a 16x16 unit starts 8 columns and/or 8 rows in, as the four calls address it (true by definition of the layout tables) |
| HierarchicalSearch.UnitPartitionSad | Source/Lib/C_DEFAULT/EbComputeSAD_C.c:214-241 | a partition's SAD at a search point is at most 255 x 64 |
| HierarchicalSearch.UnitSad | Source/Lib/C_DEFAULT/EbComputeSAD_C.c:251 | the raw 16x16 sum is at most 4 x 255 x 64 |
| HierarchicalSearch.ExactPartition | Source/Lib/C_DEFAULT/EbComputeSAD_C.c:212-241 | in exact mode partition p at point i is the 8x8 SAD of that quadrant of the unit against the reference shifted by i |
| HierarchicalSearch.ExactUnitSad | Source/Lib/C_DEFAULT/EbComputeSAD_C.c:250-251 | in exact mode the raw 16x16 sum at point i is the SAD of the whole 16x16 block against the reference shifted by i |
| HierarchicalSearch.UnitSadOfPartitions | Source/Lib/C_DEFAULT/EbComputeSAD_C.c:251 | the `(uint16_t)` cast of the four partition SADs never truncates |
| HierarchicalSearch.OverwriteEntries | Source/Lib/C_DEFAULT/EbComputeSAD_C.c:252 | the table update writes entries base .. base + n - 1, in order, and no others |
| HierarchicalSearch.Offer | Source/Lib/C_DEFAULT/EbComputeSAD_C.c:215-220 | record k is replaced by (cost, vector of point i) exactly when the cost is strictly smaller; every other entry is unchanged |
| HierarchicalSearch.PartitionStep | Source/Lib/C_DEFAULT/EbComputeSAD_C.c:214-220 | one 8x8 block of one iteration extends its record's scan by one point |
| HierarchicalSearch.PartitionsAtPoint | Source/Lib/C_DEFAULT/EbComputeSAD_C.c:212-247 | the four 8x8 blocks of one iteration extend all four partition scans and return the four raw SADs |
| HierarchicalSearch.UnitAtPoint | Source/Lib/C_DEFAULT/EbComputeSAD_C.c:250-258 | the 16x16 block stores the raw sum in the table and extends the 16x16 record's scan |
| HierarchicalSearch.SearchPointA | Source/Lib/C_DEFAULT/EbComputeSAD_C.c:210-308 | one loop iteration carries the Stage A progress invariant from point i to point i + 1 |
| HierarchicalSearch.StageAStart | Source/Lib/C_DEFAULT/EbComputeSAD_C.c:210 | the progress invariant holds before the first point |
| HierarchicalSearch.StageAComplete | Source/Lib/C_DEFAULT/EbComputeSAD_C.c:210-308 | after eight points the invariant gives every array entry by entry |
| HierarchicalSearch.EightPointsStageA | Source/Lib/C_DEFAULT/EbComputeSAD_C.c:158-309 | each 8x8 record and the 16x16 record ends as the scan of its eight scaled costs; the table receives exactly the eight raw 16x16 sums; no other array entry changes |
| SuperblockSearch.QuadrantSum | Source/Lib/C_DEFAULT/EbComputeSAD_C.c:358 | a 32x32 sum of four table entries is at most 4 x 0xffff, so it cannot wrap in uint32_t |
| SuperblockSearch.SuperblockSum | Source/Lib/C_DEFAULT/EbComputeSAD_C.c:400 | the 64x64 sum is at most 16 x 0xffff, so it and its double cannot wrap |
| SuperblockSearch.Block16Layout | Source/Lib/C_DEFAULT/EbComputeSAD_C.c:198-208 | table row b is 16x16 block b of the diagram: quadrant b / 4, sub-block b % 4 (a check of the layout tables, entry by entry) |
| SuperblockSearch.SuperblockLayout | Source/Lib/C_DEFAULT/EbComputeSAD_C.c:198-208 | quadrants and 16x16 blocks sit at the offsets the diagram gives (true by definition; it names the fact the Exact lemmas use) |
| SuperblockSearch.ExactQuadrantSum | Source/Lib/C_DEFAULT/EbComputeSAD_C.c:356-358 | in exact mode, a table filled by Stage A makes each 32x32 sum the SAD of the whole 32x32 quadrant at that point |
| SuperblockSearch.ExactSuperblockSum | Source/Lib/C_DEFAULT/EbComputeSAD_C.c:399-400 | in exact mode the 64x64 sum is the SAD of the whole 64x64 superblock at that point |
| SuperblockSearch.OverwriteRowsEntries | Source/Lib/C_DEFAULT/EbComputeSAD_C.c:251-252 | after n 16x16 searches at table bases 8k, entry 8k + i holds sum i of search k for every k below n, and the rest of the table is untouched |
| SuperblockSearch.StageAFeedsStageB | Source/Lib/C_DEFAULT/EbComputeSAD_C.c:355-400 | the table left by sixteen exact 16x16 searches, block k at base 8k, is the table Stage B expects, so each 64x64 sum is the superblock's SAD at that point |
| SuperblockSearch.QuadrantStep | Source/Lib/C_DEFAULT/EbComputeSAD_C.c:357-365 | one 32x32 block of one iteration returns its sum and extends its record's scan |
| SuperblockSearch.QuadrantsAtPoint | Source/Lib/C_DEFAULT/EbComputeSAD_C.c:357-396 | the four 32x32 blocks of one iteration extend the four scans and return the four sums |
| SuperblockSearch.SuperblockAtPoint | Source/Lib/C_DEFAULT/EbComputeSAD_C.c:399-407 | the 64x64 block extends the 64x64 record's scan by one point |
| SuperblockSearch.SearchPointB | Source/Lib/C_DEFAULT/EbComputeSAD_C.c:354-463 | one loop iteration carries the Stage B progress invariant forward |
| SuperblockSearch.StageBStart | Source/Lib/C_DEFAULT/EbComputeSAD_C.c:354 | the progress invariant holds before the first point |
| SuperblockSearch.StageBComplete | Source/Lib/C_DEFAULT/EbComputeSAD_C.c:354-463 | after eight points the invariant gives every record entry by entry |
| SuperblockSearch.EightPointsStageB | Source/Lib/C_DEFAULT/EbComputeSAD_C.c:317-465 | each 32x32 record and the 64x64 record ends as the scan of its eight scaled sums; no other entry changes; the table is only read |
| ReferenceRing.RowSpan | Source/Lib/Encoder/Codec/EbReferenceObject.c:51-58 | a ring row covers exactly columns left - 1 .. left + width of its row |
| ReferenceRing.ColumnSpan | Source/Lib/Encoder/Codec/EbReferenceObject.c:60-68 | a ring column covers exactly rows top .. top + height - 1 of its column |
| ReferenceRing.RingIsPerimeter | Source/Lib/Encoder/Codec/EbReferenceObject.c:43-69 | when the recon area and its ring columns fit within one stride, the samples written are exactly the perimeter of the (height + 2) x (width + 2) rectangle around the recon area |
| ReferenceRing.GuardedKeepsOffPerimeter | Source/Lib/Encoder/Codec/EbReferenceObject.c:43-69 | every sample off that perimeter, the recon area included, keeps its value |
| ReferenceRing.GuardedZeroesPerimeter | Source/Lib/Encoder/Codec/EbReferenceObject.c:43-69 | every sample on the perimeter becomes zero |
| ReferenceRing.GuardedIdempotent | Source/Lib/Encoder/Codec/EbReferenceObject.c:43-69 | zeroing the ring twice is the same as once |
| ReferenceRing.RowsInBounds | Source/Lib/Encoder/Codec/EbReferenceObject.c:50-58 | both row memsets stay inside a buffer the ring fits |
| ReferenceRing.FlushLeftFits | Source/Lib/Encoder/Codec/EbReferenceObject.c:52-61 | with left padding 0 and top padding at least 2, every store of the routine is inside the buffer, so the routines accept that case |
| ReferenceRing.ColumnsInBounds | Source/Lib/Encoder/Codec/EbReferenceObject.c:60-68 | every column store stays inside a buffer the ring fits |
| ReferenceRing.Fill | Source/Lib/Encoder/Codec/EbReferenceObject.c:53 | the memset sets count elements from start and nothing else |
| ReferenceRing.ZeroRing | Source/Lib/Encoder/Codec/EbReferenceObject.c:43-69 | the buffer ends with zero on the two rows and two columns and every other sample unchanged |
| ReferenceRing.InitializeSamplesNeighboringReferencePicture8Bit | Source/Lib/Encoder/Codec/EbReferenceObject.c:43-69 | the 8-bit routine zeroes exactly the ring of its arguments |
| ReferenceRing.InitializeSamplesNeighboringReferencePicture16Bit | Source/Lib/Encoder/Codec/EbReferenceObject.c:13-41 | the 16-bit routine zeroes exactly the same ring positions, counted in 16-bit samples |
| ReferenceRing.ZeroPictureRings | Source/Lib/Encoder/Codec/EbReferenceObject.c:73-122 | the luma ring uses the full size and padding; both chroma rings use width, height, left and top padding `>> 1` and their own strides |
| ReferenceRing.InitializeSamplesNeighboringReferencePicture | Source/Lib/Encoder/Codec/EbReferenceObject.c:71-123 | at bit depth EB_10BIT the 16-bit picture's three rings are zeroed, at any other depth the 8-bit picture's; nothing else is written |

## Left out

- The constructors, destructors and creators of EbReferenceObject and EbPaReferenceObject (`EbReferenceObject.c:125-264`): buffer allocation, the MFMV array, the film-grain memset and the mutex. No property of the model depends on them.
- The constructor calls the dispatcher at 10 bits before `reference_picture` exists (`EbReferenceObject.c:155-164`). Both picture pointers are therefore `Option` values. The dispatcher requires only the picture it uses.
- The AVX2 header, the unit test file and the C prototypes headers: they declare or exercise the kernels but add no behaviour.
- Pointers are indices into one immutable plane per block. Negative offsets are not modelled, and neither is aliasing between a kernel's inputs and its outputs. The Stage A and Stage B methods require their output arrays to be pairwise distinct, and the dispatcher requires the three planes to be distinct.
- `USE_SAD_ME` is a preprocessor switch in the source. Here it is a run-time `exact` parameter that selects one branch or the other.
- The memset is byte-wise in the source. The model writes whole samples, so the byte count `sizeof(uint16_t) * (width + 2)` appears only as the element count width + 2.
- ReferenceRing.RingFits: the routines require every store to be inside the buffer, which the source does not check (a store outside is undefined behaviour in C). The first store, (top - 1) * stride + left - 1, must be at least 0, and the last, the right end of the bottom row, must be below the buffer length. Zero padding is accepted wherever those hold, for example left padding 0 with top padding 2 or more (`ReferenceRing.FlushLeftFits`), which is what the chroma rings get from a luma left padding of 1.
- ReferenceRing.RingIsPerimeter: the characterisation as a rectangle perimeter needs top and left padding of at least 1 and left + width < stride. Without that, the right column wraps into the next row. The routine's own contract (`ZeroRing`, in terms of offsets) needs no such assumption.
- Timing, SIMD dispatch and the film-grain and MFMV data of the reference object are out of scope.

