/** The plain-C SAD kernels: one block against one reference position, the
    bi-predictive variant, the exhaustive window search and the 8x8
    partition SAD of the hierarchical search. */
module SadKernels {
  import opened Types
  import opened Sad

  /** The inner loop of the SAD kernels: adds the SAD of the w samples
      at s[si] and r[ri] to the uint32_t accumulator acc. */
  method AccumulateRowSad(s: seq<uint8>, si: nat, r: seq<uint8>, ri: nat, w: uint32, acc: uint32)
    returns (sad: uint32)
    requires w == 0 || (si + w <= |s| && ri + w <= |r|)
    ensures sad == ToUint32(acc + RowSad(s, si, r, ri, w))
  {
    sad := acc;
    var x: nat := 0;
    while x < w
      invariant x <= w
      invariant sad == ToUint32(acc + RowSad(s, si, r, ri, x))
    {
      var diff := AbsDiff(s[si + x], r[ri + x]);
      ToUint32Add(acc + RowSad(s, si, r, ri, x), diff);
      sad := ToUint32(sad + diff);
      x := x + 1;
    }
  }

  /** FastLoop_NxMSadKernel: the SAD of the height x width blocks at src
      and ref, walking both pointers down one stride per row, accumulated
      in a uint32_t. */
  method FastLoopNxMSadKernel(src: Block, ref: Block, height: uint32, width: uint32) returns (sad: uint32)
    requires Readable(src, height, width) && Readable(ref, height, width)
    ensures sad == ToUint32(BlockSad(src, ref, height, width))
  {
    sad := 0;
    var s, r := src.origin, ref.origin;
    var y: nat := 0;
    while y < height
      invariant y <= height
      invariant s == RowStart(src, y) && r == RowStart(ref, y)
      invariant Readable(src, y, width) && Readable(ref, y, width)
      invariant sad == ToUint32(BlockSad(src, ref, y, width))
    {
      BlockSadNextRow(src, ref, height, width, y);
      ghost var row := RowSad(src.samples, s, ref.samples, r, width);
      ToUint32Add(BlockSad(src, ref, y, width), row);
      sad := AccumulateRowSad(src.samples, s, ref.samples, r, width, sad);
      s, r := s + src.stride, r + ref.stride;
      y := y + 1;
    }
  }

  /** The inner loop of CombinedAveragingSAD: adds the SAD of the w samples
      at s[si] against the rounded average of r1[r1i ..] and r2[r2i ..]
      to the uint32_t accumulator acc. */
  method AccumulateAverageRowSad(s: seq<uint8>, si: nat, r1: seq<uint8>, r1i: nat,
                                 r2: seq<uint8>, r2i: nat, w: uint32, acc: uint32)
    returns (sad: uint32)
    requires w == 0 || (si + w <= |s| && r1i + w <= |r1| && r2i + w <= |r2|)
    ensures sad == ToUint32(acc + AverageRowSad(s, si, r1, r1i, r2, r2i, w))
  {
    sad := acc;
    var x: nat := 0;
    while x < w
      invariant x <= w
      invariant sad == ToUint32(acc + AverageRowSad(s, si, r1, r1i, r2, r2i, x))
    {
      var avgpel := AveragePel(r1[r1i + x], r2[r2i + x]);
      var diff := AbsDiff(s[si + x], avgpel);
      ToUint32Add(acc + AverageRowSad(s, si, r1, r1i, r2, r2i, x), diff);
      sad := ToUint32(sad + diff);
      x := x + 1;
    }
  }

  /** CombinedAveragingSAD: the SAD of the block at src against the
      rounded average (ref1 + ref2 + 1) >> 1 of two reference blocks,
      accumulated in a uint32_t. */
  method CombinedAveragingSad(src: Block, ref1: Block, ref2: Block, height: uint32, width: uint32)
    returns (sad: uint32)
    requires Readable(src, height, width) && Readable(ref1, height, width) && Readable(ref2, height, width)
    ensures sad == ToUint32(AverageBlockSad(src, ref1, ref2, height, width))
  {
    sad := 0;
    var s, r1, r2 := src.origin, ref1.origin, ref2.origin;
    var y: nat := 0;
    while y < height
      invariant y <= height
      invariant s == RowStart(src, y) && r1 == RowStart(ref1, y) && r2 == RowStart(ref2, y)
      invariant Readable(src, y, width) && Readable(ref1, y, width) && Readable(ref2, y, width)
      invariant sad == ToUint32(AverageBlockSad(src, ref1, ref2, y, width))
    {
      AverageBlockSadNextRow(src, ref1, ref2, height, width, y);
      ghost var row := AverageRowSad(src.samples, s, ref1.samples, r1, ref2.samples, r2, width);
      ToUint32Add(AverageBlockSad(src, ref1, ref2, y, width), row);
      sad := AccumulateAverageRowSad(src.samples, s, ref1.samples, r1, ref2.samples, r2, width, sad);
      s, r1, r2 := s + src.stride, r1 + ref1.stride, r2 + ref2.stride;
      y := y + 1;
    }
  }

  // ---------------------------------------------------------------------
  // SadLoopKernel: exhaustive search of a displacement window

  /** The finite "infinity" the window search starts from. */
  const Sentinel: nat := 0xff_ffff

  /** The geometry of one window search. Candidate (x, y) is the reference
      block whose top-left sample is y * rawStride + x past ref's origin:
      the search steps down by the unskipped source stride, while rows
      inside a candidate block are ref.stride apart. */
  datatype Search = Search(src: Block, ref: Block, rawStride: nat, height: nat, width: nat)

  function Candidate(g: Search, x: nat, y: nat): Block
  {
    Block(g.ref.plane, g.ref.origin + y * g.rawStride + x, g.ref.stride)
  }

  predicate InWindow(x: int, y: int, searchWidth: int, searchHeight: int)
  {
    0 <= x < searchWidth && 0 <= y < searchHeight
  }

  /** The source block and every candidate of the window can be read. */
  ghost predicate SearchReadable(g: Search, searchWidth: int, searchHeight: int)
  {
    Readable(g.src, g.height, g.width) &&
    forall x: nat, y: nat :: InWindow(x, y, searchWidth, searchHeight) ==>
      Readable(Candidate(g, x, y), g.height, g.width)
  }

  /** The SAD of candidate (x, y), as its uint32_t accumulator holds it. */
  function Cost(g: Search, x: nat, y: nat): nat
    requires Readable(g.src, g.height, g.width) && Readable(Candidate(g, x, y), g.height, g.width)
  {
    ToUint32(BlockSad(g.src, Candidate(g, x, y), g.height, g.width))
  }

  /** (x1, y1) comes strictly before (x2, y2) in the scan order: y is the
      outer loop, x the inner one. */
  predicate ScannedBefore(x1: int, y1: int, x2: int, y2: int)
  {
    y1 < y2 || (y1 == y2 && x1 < x2)
  }

  /** What the search knows once every candidate of the window scanned
      before (xs, ys) has been visited: best is the smallest cost seen (or
      the sentinel), and when it is below the sentinel the centre is the
      first visited candidate reaching it; otherwise the centre is still
      the caller's. */
  ghost predicate ScanState(g: Search, searchWidth: int, searchHeight: int,
                            best: int, xc: int, yc: int, xc0: int, yc0: int, xs: int, ys: int)
    requires SearchReadable(g, searchWidth, searchHeight)
  {
    best <= Sentinel &&
    (forall x: nat, y: nat :: InWindow(x, y, searchWidth, searchHeight) && ScannedBefore(x, y, xs, ys) ==>
       best <= Cost(g, x, y)) &&
    (best < Sentinel ==>
       InWindow(xc, yc, searchWidth, searchHeight) && ScannedBefore(xc, yc, xs, ys) &&
       Cost(g, xc, yc) == best &&
       forall x: nat, y: nat :: InWindow(x, y, searchWidth, searchHeight) && ScannedBefore(x, y, xc, yc) ==>
         best < Cost(g, x, y)) &&
    (best == Sentinel ==> xc == xc0 && yc == yc0)
  }

  /** Visiting candidate (xs, ys) and keeping it only when its cost is
      strictly below the best extends the scan state past it. */
  lemma ScanStateVisit(g: Search, searchWidth: int, searchHeight: int,
                       best: int, xc: int, yc: int, xc0: int, yc0: int, xs: nat, ys: nat, sad: nat)
    requires SearchReadable(g, searchWidth, searchHeight) && InWindow(xs, ys, searchWidth, searchHeight)
    requires ScanState(g, searchWidth, searchHeight, best, xc, yc, xc0, yc0, xs, ys)
    requires sad == Cost(g, xs, ys)
    ensures sad < best ==> ScanState(g, searchWidth, searchHeight, sad, xs, ys, xc0, yc0, xs + 1, ys)
    ensures !(sad < best) ==> ScanState(g, searchWidth, searchHeight, best, xc, yc, xc0, yc0, xs + 1, ys)
  {
    if sad < best {
      forall x: nat, y: nat | InWindow(x, y, searchWidth, searchHeight) && ScannedBefore(x, y, xs + 1, ys)
        ensures sad <= Cost(g, x, y)
      {
        if x != xs || y != ys {
          assert ScannedBefore(x, y, xs, ys);
        }
      }
    } else {
      forall x: nat, y: nat | InWindow(x, y, searchWidth, searchHeight) && ScannedBefore(x, y, xs + 1, ys)
        ensures best <= Cost(g, x, y)
      {
        if x != xs || y != ys {
          assert ScannedBefore(x, y, xs, ys);
        }
      }
    }
  }

  /** Once a whole row of the window is visited (the inner index has
      reached the width, or the width is not positive), the scan state
      holds at the start of the next row. */
  lemma ScanStateNextRow(g: Search, searchWidth: int, searchHeight: int,
                         best: int, xc: int, yc: int, xc0: int, yc0: int, xs: int, ys: nat)
    requires SearchReadable(g, searchWidth, searchHeight) && searchWidth <= xs
    requires ScanState(g, searchWidth, searchHeight, best, xc, yc, xc0, yc0, xs, ys)
    ensures ScanState(g, searchWidth, searchHeight, best, xc, yc, xc0, yc0, 0, ys + 1)
  {
    forall x: nat, y: nat | InWindow(x, y, searchWidth, searchHeight) && ScannedBefore(x, y, 0, ys + 1)
      ensures ScannedBefore(x, y, xs, ys)
    {
    }
  }

  /** When no block SAD can reach the sentinel, every candidate beats it. */
  lemma CostBelowSentinel(g: Search, x: nat, y: nat)
    requires Readable(g.src, g.height, g.width) && Readable(Candidate(g, x, y), g.height, g.width)
    requires 255 * g.height * g.width < Sentinel
    ensures Cost(g, x, y) < Sentinel
  {
    BlockSadFitsUint32(g.src, Candidate(g, x, y), g.height, g.width);
  }

  /** SadLoopKernel. bestSad ends as min(0xffffff, the smallest SAD of the
      window); the centre is the first candidate in scan order with that
      SAD, and it is left as the caller had it when no candidate beats the
      sentinel (in particular when the window is empty). */
  method SadLoopKernel(src: Block, ref: Block, height: uint32, width: uint32, srcStrideRaw: uint32,
                       searchAreaWidth: int16, searchAreaHeight: int16,
                       xSearchCenter0: int16, ySearchCenter0: int16)
    returns (bestSad: uint64, xSearchCenter: int16, ySearchCenter: int16)
    requires SearchReadable(Search(src, ref, srcStrideRaw, height, width), searchAreaWidth, searchAreaHeight)
    ensures bestSad <= Sentinel
    ensures forall x: nat, y: nat :: InWindow(x, y, searchAreaWidth, searchAreaHeight) ==>
      bestSad <= Cost(Search(src, ref, srcStrideRaw, height, width), x, y)
    ensures bestSad < Sentinel ==>
      InWindow(xSearchCenter, ySearchCenter, searchAreaWidth, searchAreaHeight) &&
      Cost(Search(src, ref, srcStrideRaw, height, width), xSearchCenter, ySearchCenter) == bestSad &&
      forall x: nat, y: nat ::
        InWindow(x, y, searchAreaWidth, searchAreaHeight) && ScannedBefore(x, y, xSearchCenter, ySearchCenter)
        ==> bestSad < Cost(Search(src, ref, srcStrideRaw, height, width), x, y)
    ensures bestSad == Sentinel ==> xSearchCenter == xSearchCenter0 && ySearchCenter == ySearchCenter0
    ensures searchAreaWidth <= 0 || searchAreaHeight <= 0 ==>
      bestSad == Sentinel && xSearchCenter == xSearchCenter0 && ySearchCenter == ySearchCenter0
    ensures 0 < searchAreaWidth && 0 < searchAreaHeight && 255 * height * width < Sentinel ==>
      bestSad < Sentinel && InWindow(xSearchCenter, ySearchCenter, searchAreaWidth, searchAreaHeight)
  {
    ghost var g := Search(src, ref, srcStrideRaw, height, width);
    bestSad, xSearchCenter, ySearchCenter := Sentinel, xSearchCenter0, ySearchCenter0;
    var rowOrigin: nat := ref.origin;
    var ySearchIndex: int16 := 0;
    while ySearchIndex < searchAreaHeight
      invariant 0 <= ySearchIndex && (ySearchIndex <= searchAreaHeight || ySearchIndex == 0)
      invariant rowOrigin == ref.origin + ySearchIndex * srcStrideRaw
      invariant ScanState(g, searchAreaWidth, searchAreaHeight, bestSad, xSearchCenter, ySearchCenter,
                          xSearchCenter0, ySearchCenter0, 0, ySearchIndex)
    {
      var xSearchIndex: int16 := 0;
      while xSearchIndex < searchAreaWidth
        invariant 0 <= xSearchIndex && (xSearchIndex <= searchAreaWidth || xSearchIndex == 0)
        invariant ScanState(g, searchAreaWidth, searchAreaHeight, bestSad, xSearchCenter, ySearchCenter,
                            xSearchCenter0, ySearchCenter0, xSearchIndex, ySearchIndex)
      {
        // The source inlines this block SAD; it indexes the candidate as
        // ref[xSearchIndex + y * refStride + x] from the current search row.
        var candidate := Block(ref.plane, rowOrigin + xSearchIndex, ref.stride);
        assert candidate == Candidate(g, xSearchIndex, ySearchIndex);
        var sad := FastLoopNxMSadKernel(src, candidate, height, width);
        ScanStateVisit(g, searchAreaWidth, searchAreaHeight, bestSad, xSearchCenter, ySearchCenter,
                       xSearchCenter0, ySearchCenter0, xSearchIndex, ySearchIndex, sad);
        if sad < bestSad {
          bestSad, xSearchCenter, ySearchCenter := sad, xSearchIndex, ySearchIndex;
        }
        xSearchIndex := xSearchIndex + 1;
      }
      ScanStateNextRow(g, searchAreaWidth, searchAreaHeight, bestSad, xSearchCenter, ySearchCenter,
                       xSearchCenter0, ySearchCenter0, xSearchIndex, ySearchIndex);
      Distribute(ySearchIndex, 1, srcStrideRaw);
      rowOrigin := rowOrigin + srcStrideRaw;
      ySearchIndex := ySearchIndex + 1;
    }
    if 0 < searchAreaWidth && 0 < searchAreaHeight && 255 * height * width < Sentinel {
      CostBelowSentinel(g, 0, 0);
    }
  }

  // ---------------------------------------------------------------------
  // Subsad8x8: the 8x8 partition SAD of the hierarchical search

  /** In exact mode (USE_SAD_ME) the partition is read whole; otherwise
      with doubled strides, so only its 4 even rows are read. */
  function PartitionRows(exact: bool): nat
  {
    if exact then 8 else 4
  }

  predicate PartitionReadable(exact: bool, src: Block, ref: Block)
  {
    if exact then Readable(src, 8, 8) && Readable(ref, 8, 8)
    else Readable(EveryOtherRow(src), 4, 8) && Readable(EveryOtherRow(ref), 4, 8)
  }

  /** The value Subsad8x8 computes: the whole 8x8 SAD in exact mode, the
      8x4 SAD of the even rows otherwise. */
  function PartitionSad(exact: bool, src: Block, ref: Block): (sad: nat)
    requires PartitionReadable(exact, src, ref)
    ensures sad <= 255 * 8 * PartitionRows(exact)
  {
    if exact then BlockSad(src, ref, 8, 8)
    else BlockSad(EveryOtherRow(src), EveryOtherRow(ref), 4, 8)
  }

  /** SAD of row y of the 8-wide blocks at src and ref. */
  function RowOf(src: Block, ref: Block, y: nat): nat
    requires Readable(src, y + 1, 8) && Readable(ref, y + 1, 8)
  {
    RowReadable(src, y + 1, 8, y);
    RowReadable(ref, y + 1, 8, y);
    RowSad(src.samples, RowStart(src, y), ref.samples, RowStart(ref, y), 8)
  }

  /** Approximate mode sums rows 0, 2, 4 and 6 of the 8x8 partition. */
  lemma ApproximatePartitionRows(src: Block, ref: Block)
    requires Readable(src, 7, 8) && Readable(ref, 7, 8)
    ensures PartitionReadable(false, src, ref)
    ensures Readable(src, 1, 8) && Readable(src, 3, 8) && Readable(src, 5, 8)
    ensures Readable(ref, 1, 8) && Readable(ref, 3, 8) && Readable(ref, 5, 8)
    ensures PartitionSad(false, src, ref)
         == RowOf(src, ref, 0) + RowOf(src, ref, 2) + RowOf(src, ref, 4) + RowOf(src, ref, 6)
  {
    ReadableSmaller(src, 7, 8, 5, 8);
    ReadableSmaller(src, 7, 8, 3, 8);
    ReadableSmaller(src, 7, 8, 1, 8);
    ReadableSmaller(ref, 7, 8, 5, 8);
    ReadableSmaller(ref, 7, 8, 3, 8);
    ReadableSmaller(ref, 7, 8, 1, 8);
    var s, r := EveryOtherRow(src), EveryOtherRow(ref);
    assert RowStart(s, 3) == RowStart(src, 6) && RowStart(r, 3) == RowStart(ref, 6);
    assert RowStart(s, 2) == RowStart(src, 4) && RowStart(r, 2) == RowStart(ref, 4);
    assert RowStart(s, 1) == RowStart(src, 2) && RowStart(r, 1) == RowStart(ref, 2);
    assert BlockSad(s, r, 1, 8) == RowOf(src, ref, 0);
    assert BlockSad(s, r, 2, 8) == BlockSad(s, r, 1, 8) + RowOf(src, ref, 2);
    assert BlockSad(s, r, 3, 8) == BlockSad(s, r, 2, 8) + RowOf(src, ref, 4);
    assert BlockSad(s, r, 4, 8) == BlockSad(s, r, 3, 8) + RowOf(src, ref, 6);
  }

  /** Exact mode sums the full 8x8 partition. */
  lemma ExactPartitionIsBlock(src: Block, ref: Block)
    requires Readable(src, 8, 8) && Readable(ref, 8, 8)
    ensures PartitionReadable(true, src, ref)
    ensures PartitionSad(true, src, ref) == BlockSad(src, ref, 8, 8)
  {
  }

  /** Subsad8x8 (exact mode: all 64 samples; approximate mode: strides
      doubled, 4 rows of 8). */
  method Subsad8x8(exact: bool, src: Block, ref: Block) returns (sad: uint32)
    requires PartitionReadable(exact, src, ref)
    ensures sad == PartitionSad(exact, src, ref)
    ensures sad <= 255 * 64
  {
    if exact {
      sad := FastLoopNxMSadKernel(src, ref, 8, 8);
    } else {
      sad := FastLoopNxMSadKernel(EveryOtherRow(src), EveryOtherRow(ref), 4, 8);
    }
  }
}
