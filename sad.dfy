/** The ground truth of every SAD kernel: the sum of absolute differences
    of two equally sized rectangles of 8-bit samples, each addressed like a
    C pointer into a row-major plane with its own stride. */
module Sad {
  import opened Types

  /** A sample plane, stored row after row. */
  datatype Plane = Plane(data: seq<uint8>)

  /** A read-only view of a sample plane: `origin` is the index of the
      block's top-left sample (the C pointer) and `stride` the distance
      between vertically adjacent samples. */
  datatype Block = Block(plane: Plane, origin: nat, stride: nat)
  {
    const samples: seq<uint8> := plane.data
  }

  /** Index of the first sample of row y. */
  function RowStart(b: Block, y: nat): nat
  {
    b.origin + y * b.stride
  }

  /** Sample x of row y of the block at b. */
  function Sample(b: Block, y: nat, x: nat): uint8
    requires RowStart(b, y) + x < |b.samples|
  {
    b.samples[RowStart(b, y) + x]
  }

  /** The pointer moved dx samples right and dy rows down. */
  function At(b: Block, dx: nat, dy: nat): Block
  {
    Block(b.plane, b.origin + dy * b.stride + dx, b.stride)
  }

  /** The same pointer with the row stride doubled: it visits rows
      0, 2, 4, ... of the original block. */
  function EveryOtherRow(b: Block): Block
  {
    Block(b.plane, b.origin, 2 * b.stride)
  }

  /** Every sample of an h x w block is inside the plane (the last row
      ends inside it). An empty block reads nothing. */
  predicate Readable(b: Block, h: nat, w: nat)
  {
    h == 0 || w == 0 || b.origin + (h - 1) * b.stride + w <= |b.samples|
  }

  /** Adding one row of at most 255 w to h - 1 rows of at most 255 w each. */
  lemma BoundStep(prev: nat, row: nat, h: nat, w: nat)
    requires 0 < h && prev <= 255 * (h - 1) * w && row <= 255 * w
    ensures prev + row <= 255 * h * w
  {
    assert 255 * (h - 1) * w + 255 * w == 255 * h * w by {
      Distribute(h - 1, 1, 255 * w);
    }
  }

  /** A readable block stays readable with fewer rows or columns. */
  lemma ReadableSmaller(b: Block, h: nat, w: nat, h': nat, w': nat)
    requires Readable(b, h, w) && h' <= h && w' <= w
    ensures Readable(b, h', w')
  {
    if h' > 0 && w' > 0 {
      MulLe(h' - 1, h - 1, b.stride);
    }
  }

  /** The rows below the first h1 rows of a readable block are readable. */
  lemma ReadableBelow(b: Block, h1: nat, h2: nat, w: nat)
    requires Readable(b, h1 + h2, w)
    ensures Readable(At(b, 0, h1), h2, w)
  {
    if h2 > 0 && w > 0 {
      Distribute(h1, h2 - 1, b.stride);
    }
  }

  /** The columns right of the first w1 columns of a readable block are
      readable. */
  lemma ReadableRight(b: Block, h: nat, w1: nat, w2: nat)
    requires Readable(b, h, w1 + w2)
    ensures Readable(At(b, w1, 0), h, w2)
  {
  }

  /** A row of a readable block lies inside the plane. */
  lemma RowReadable(b: Block, h: nat, w: nat, y: nat)
    requires Readable(b, h, w) && y < h && 0 < w
    ensures RowStart(b, y) + w <= |b.samples|
  {
    MulLe(y, h - 1, b.stride);
  }

  /** SAD of w consecutive samples starting at s[si] and r[ri]. */
  function RowSad(s: seq<uint8>, si: nat, r: seq<uint8>, ri: nat, w: nat): (sad: nat)
    requires w == 0 || (si + w <= |s| && ri + w <= |r|)
    ensures sad <= 255 * w
  {
    if w == 0 then 0
    else RowSad(s, si, r, ri, w - 1) + AbsDiff(s[si + w - 1], r[ri + w - 1])
  }

  /** SAD of the h x w blocks at src and ref: the sum over y < h, x < w of
      |src(y, x) - ref(y, x)|, accumulated row by row as the kernels do. */
  function BlockSad(src: Block, ref: Block, h: nat, w: nat): (sad: nat)
    requires Readable(src, h, w) && Readable(ref, h, w)
    ensures sad <= 255 * h * w
  {
    if h == 0 || w == 0 then 0
    else
      ReadableSmaller(src, h, w, h - 1, w);
      ReadableSmaller(ref, h, w, h - 1, w);
      RowReadable(src, h, w, h - 1);
      RowReadable(ref, h, w, h - 1);
      var prev := BlockSad(src, ref, h - 1, w);
      var row := RowSad(src.samples, RowStart(src, h - 1), ref.samples, RowStart(ref, h - 1), w);
      BoundStep(prev, row, h, w);
      prev + row
  }

  /** Rounded average of two reference samples: (a + b + 1) >> 1. */
  function AveragePel(a: uint8, b: uint8): uint8
  {
    (a + b + 1) / 2
  }

  /** SAD of w samples of s against the rounded average of two references. */
  function AverageRowSad(s: seq<uint8>, si: nat, r1: seq<uint8>, r1i: nat,
                         r2: seq<uint8>, r2i: nat, w: nat): (sad: nat)
    requires w == 0 || (si + w <= |s| && r1i + w <= |r1| && r2i + w <= |r2|)
    ensures sad <= 255 * w
  {
    if w == 0 then 0
    else
      AverageRowSad(s, si, r1, r1i, r2, r2i, w - 1)
      + AbsDiff(s[si + w - 1], AveragePel(r1[r1i + w - 1], r2[r2i + w - 1]))
  }

  /** Bi-predictive SAD: the block at src against the per-sample rounded
      average of the blocks at ref1 and ref2. */
  function AverageBlockSad(src: Block, ref1: Block, ref2: Block, h: nat, w: nat): (sad: nat)
    requires Readable(src, h, w) && Readable(ref1, h, w) && Readable(ref2, h, w)
    ensures sad <= 255 * h * w
  {
    if h == 0 || w == 0 then 0
    else
      ReadableSmaller(src, h, w, h - 1, w);
      ReadableSmaller(ref1, h, w, h - 1, w);
      ReadableSmaller(ref2, h, w, h - 1, w);
      RowReadable(src, h, w, h - 1);
      RowReadable(ref1, h, w, h - 1);
      RowReadable(ref2, h, w, h - 1);
      var prev := AverageBlockSad(src, ref1, ref2, h - 1, w);
      var row := AverageRowSad(src.samples, RowStart(src, h - 1), ref1.samples, RowStart(ref1, h - 1),
                               ref2.samples, RowStart(ref2, h - 1), w);
      BoundStep(prev, row, h, w);
      prev + row
  }

  /** The rows a kernel's outer loop has covered after its next row: row y
      lies inside each plane and adds its row SAD. */
  lemma BlockSadNextRow(src: Block, ref: Block, h: nat, w: nat, y: nat)
    requires Readable(src, h, w) && Readable(ref, h, w) && y < h
    ensures Readable(src, y + 1, w) && Readable(ref, y + 1, w)
    ensures 0 < w ==> RowStart(src, y) + w <= |src.samples| && RowStart(ref, y) + w <= |ref.samples|
    ensures Readable(src, y, w) && Readable(ref, y, w)
    ensures RowStart(src, y + 1) == RowStart(src, y) + src.stride
    ensures RowStart(ref, y + 1) == RowStart(ref, y) + ref.stride
    ensures BlockSad(src, ref, y + 1, w)
         == BlockSad(src, ref, y, w) + RowSad(src.samples, RowStart(src, y), ref.samples, RowStart(ref, y), w)
  {
    ReadableSmaller(src, h, w, y + 1, w);
    ReadableSmaller(ref, h, w, y + 1, w);
    ReadableSmaller(src, h, w, y, w);
    ReadableSmaller(ref, h, w, y, w);
    if 0 < w {
      RowReadable(src, h, w, y);
      RowReadable(ref, h, w, y);
    }
  }

  lemma AverageBlockSadNextRow(src: Block, ref1: Block, ref2: Block, h: nat, w: nat, y: nat)
    requires Readable(src, h, w) && Readable(ref1, h, w) && Readable(ref2, h, w) && y < h
    ensures Readable(src, y + 1, w) && Readable(ref1, y + 1, w) && Readable(ref2, y + 1, w)
    ensures Readable(src, y, w) && Readable(ref1, y, w) && Readable(ref2, y, w)
    ensures 0 < w ==> RowStart(src, y) + w <= |src.samples| && RowStart(ref1, y) + w <= |ref1.samples|
                      && RowStart(ref2, y) + w <= |ref2.samples|
    ensures RowStart(src, y + 1) == RowStart(src, y) + src.stride
    ensures RowStart(ref1, y + 1) == RowStart(ref1, y) + ref1.stride
    ensures RowStart(ref2, y + 1) == RowStart(ref2, y) + ref2.stride
    ensures AverageBlockSad(src, ref1, ref2, y + 1, w)
         == AverageBlockSad(src, ref1, ref2, y, w)
            + AverageRowSad(src.samples, RowStart(src, y), ref1.samples, RowStart(ref1, y),
                            ref2.samples, RowStart(ref2, y), w)
  {
    ReadableSmaller(src, h, w, y + 1, w);
    ReadableSmaller(ref1, h, w, y + 1, w);
    ReadableSmaller(ref2, h, w, y + 1, w);
    ReadableSmaller(src, h, w, y, w);
    ReadableSmaller(ref1, h, w, y, w);
    ReadableSmaller(ref2, h, w, y, w);
    if 0 < w {
      RowReadable(src, h, w, y);
      RowReadable(ref1, h, w, y);
      RowReadable(ref2, h, w, y);
    }
  }

  /** A uint32_t accumulator holds the exact SAD of any block with at
      most 2^32 / 255 samples (every block size the encoder uses). */
  lemma BlockSadFitsUint32(src: Block, ref: Block, h: nat, w: nat)
    requires Readable(src, h, w) && Readable(ref, h, w) && 255 * h * w < 0x1_0000_0000
    ensures ToUint32(BlockSad(src, ref, h, w)) == BlockSad(src, ref, h, w)
  {
  }

  lemma AverageBlockSadFitsUint32(src: Block, ref1: Block, ref2: Block, h: nat, w: nat)
    requires Readable(src, h, w) && Readable(ref1, h, w) && Readable(ref2, h, w)
    requires 255 * h * w < 0x1_0000_0000
    ensures ToUint32(AverageBlockSad(src, ref1, ref2, h, w)) == AverageBlockSad(src, ref1, ref2, h, w)
  {
  }

  // ---------------------------------------------------------------------
  // Properties of the SAD

  lemma {:induction false} RowSadSymmetric(s: seq<uint8>, si: nat, r: seq<uint8>, ri: nat, w: nat)
    requires si + w <= |s| && ri + w <= |r|
    ensures RowSad(s, si, r, ri, w) == RowSad(r, ri, s, si, w)
  {
    if w > 0 {
      RowSadSymmetric(s, si, r, ri, w - 1);
    }
  }

  /** The SAD does not depend on which block is the source. */
  lemma {:induction false} BlockSadSymmetric(a: Block, b: Block, h: nat, w: nat)
    requires Readable(a, h, w) && Readable(b, h, w)
    ensures BlockSad(a, b, h, w) == BlockSad(b, a, h, w)
  {
    if h > 0 && w > 0 {
      BlockSadSymmetric(a, b, h - 1, w);
      RowReadable(a, h, w, h - 1);
      RowReadable(b, h, w, h - 1);
      RowSadSymmetric(a.samples, RowStart(a, h - 1), b.samples, RowStart(b, h - 1), w);
    }
  }

  lemma {:induction false} RowSadSame(s: seq<uint8>, si: nat, w: nat)
    requires si + w <= |s|
    ensures RowSad(s, si, s, si, w) == 0
  {
    if w > 0 {
      RowSadSame(s, si, w - 1);
    }
  }

  /** A block compared with itself costs nothing. */
  lemma {:induction false} BlockSadSame(a: Block, h: nat, w: nat)
    requires Readable(a, h, w)
    ensures BlockSad(a, a, h, w) == 0
  {
    if h > 0 && w > 0 {
      BlockSadSame(a, h - 1, w);
      RowReadable(a, h, w, h - 1);
      RowSadSame(a.samples, RowStart(a, h - 1), w);
    }
  }

  /** Rows 0 .. h - 1 of the h x w blocks at a and b hold the same
      samples, whatever their planes, origins and strides. */
  predicate SameSamples(a: Block, b: Block, h: nat, w: nat)
  {
    forall y: nat, x: nat :: y < h && x < w && RowStart(a, y) + x < |a.samples| && RowStart(b, y) + x < |b.samples| ==>
      Sample(a, y, x) == Sample(b, y, x)
  }

  lemma {:induction false} AverageRowSadEqualReferences(s: seq<uint8>, si: nat, r1: seq<uint8>, r1i: nat,
                                                        r2: seq<uint8>, r2i: nat, w: nat)
    requires si + w <= |s| && r1i + w <= |r1| && r2i + w <= |r2|
    requires forall j :: r1i <= j < r1i + w ==> r1[j] == r2[r2i + (j - r1i)]
    ensures AverageRowSad(s, si, r1, r1i, r2, r2i, w) == RowSad(s, si, r1, r1i, w)
  {
    if w > 0 {
      AverageRowSadEqualReferences(s, si, r1, r1i, r2, r2i, w - 1);
      assert r1[r1i + w - 1] == r2[r2i + ((r1i + w - 1) - r1i)];
      assert AveragePel(r1[r1i + w - 1], r2[r2i + w - 1]) == r1[r1i + w - 1];
    }
  }

  /** Two references holding the same samples average to either of them:
      the bi-predictive SAD is then the plain SAD against the first. */
  lemma {:induction false} AverageOfEqualReferences(src: Block, ref1: Block, ref2: Block, h: nat, w: nat)
    requires Readable(src, h, w) && Readable(ref1, h, w) && Readable(ref2, h, w)
    requires SameSamples(ref1, ref2, h, w)
    ensures AverageBlockSad(src, ref1, ref2, h, w) == BlockSad(src, ref1, h, w)
  {
    if h > 0 && w > 0 {
      ReadableSmaller(src, h, w, h - 1, w);
      ReadableSmaller(ref1, h, w, h - 1, w);
      ReadableSmaller(ref2, h, w, h - 1, w);
      assert SameSamples(ref1, ref2, h - 1, w);
      AverageOfEqualReferences(src, ref1, ref2, h - 1, w);
      RowReadable(src, h, w, h - 1);
      RowReadable(ref1, h, w, h - 1);
      RowReadable(ref2, h, w, h - 1);
      var r1, r2 := RowStart(ref1, h - 1), RowStart(ref2, h - 1);
      forall j | r1 <= j < r1 + w
        ensures ref1.samples[j] == ref2.samples[r2 + (j - r1)]
      {
        assert Sample(ref1, h - 1, j - r1) == Sample(ref2, h - 1, j - r1);
      }
      AverageRowSadEqualReferences(src.samples, RowStart(src, h - 1), ref1.samples, r1, ref2.samples, r2, w);
    }
  }

  /** Averaging a reference with itself is the reference: the
      bi-predictive SAD collapses to the plain SAD. */
  lemma AverageOfSameReference(src: Block, ref: Block, h: nat, w: nat)
    requires Readable(src, h, w) && Readable(ref, h, w)
    ensures AverageBlockSad(src, ref, ref, h, w) == BlockSad(src, ref, h, w)
  {
    AverageOfEqualReferences(src, ref, ref, h, w);
  }

  /** The SAD is zero exactly when the two blocks agree sample by sample. */
  lemma {:induction false} RowSadZero(s: seq<uint8>, si: nat, r: seq<uint8>, ri: nat, w: nat)
    requires si + w <= |s| && ri + w <= |r|
    ensures RowSad(s, si, r, ri, w) == 0 <==> forall j :: si <= j < si + w ==> s[j] == r[ri + (j - si)]
  {
    if w > 0 {
      RowSadZero(s, si, r, ri, w - 1);
    }
  }

  /** Row y of two blocks has SAD zero exactly when its samples agree
      column by column. */
  lemma RowSadZeroAt(a: Block, b: Block, y: nat, w: nat)
    requires RowStart(a, y) + w <= |a.samples| && RowStart(b, y) + w <= |b.samples|
    ensures RowSad(a.samples, RowStart(a, y), b.samples, RowStart(b, y), w) == 0
        <==> forall x: nat :: x < w ==> Sample(a, y, x) == Sample(b, y, x)
  {
    var ra, rb := RowStart(a, y), RowStart(b, y);
    RowSadZero(a.samples, ra, b.samples, rb, w);
    if forall x: nat :: x < w ==> Sample(a, y, x) == Sample(b, y, x) {
      forall j | ra <= j < ra + w
        ensures a.samples[j] == b.samples[rb + (j - ra)]
      {
        assert Sample(a, y, j - ra) == Sample(b, y, j - ra);
      }
    }
    if RowSad(a.samples, ra, b.samples, rb, w) == 0 {
      forall x: nat | x < w
        ensures Sample(a, y, x) == Sample(b, y, x)
      {
        assert a.samples[ra + x] == b.samples[rb + ((ra + x) - ra)];
      }
    }
  }

  /** Equal samples on rows 0 .. y: on rows 0 .. y - 1 and on row y. */
  lemma SameSamplesNextRow(a: Block, b: Block, y: nat, w: nat)
    requires Readable(a, y + 1, w) && Readable(b, y + 1, w) && 0 < w
    ensures RowStart(a, y) + w <= |a.samples| && RowStart(b, y) + w <= |b.samples|
    ensures SameSamples(a, b, y + 1, w)
        <==> SameSamples(a, b, y, w) && forall x: nat :: x < w ==> Sample(a, y, x) == Sample(b, y, x)
  {
    RowReadable(a, y + 1, w, y);
    RowReadable(b, y + 1, w, y);
  }

  /** A block SAD is zero exactly when the two blocks hold the same
      samples, row by row. */
  lemma {:induction false} BlockSadZero(a: Block, b: Block, h: nat, w: nat)
    requires Readable(a, h, w) && Readable(b, h, w)
    ensures BlockSad(a, b, h, w) == 0 <==> SameSamples(a, b, h, w)
  {
    if h > 0 && w > 0 {
      BlockSadNextRow(a, b, h, w, h - 1);
      BlockSadZero(a, b, h - 1, w);
      SameSamplesNextRow(a, b, h - 1, w);
      RowSadZeroAt(a, b, h - 1, w);
    } else {
      assert SameSamples(a, b, h, w);
    }
  }

  // ---------------------------------------------------------------------
  // Decomposition: a block's SAD is the sum of its parts' SADs

  lemma {:induction false} RowSadSplit(s: seq<uint8>, si: nat, r: seq<uint8>, ri: nat, w1: nat, w2: nat)
    requires si + w1 + w2 <= |s| && ri + w1 + w2 <= |r|
    ensures RowSad(s, si, r, ri, w1 + w2)
         == RowSad(s, si, r, ri, w1) + RowSad(s, si + w1, r, ri + w1, w2)
  {
    if w2 > 0 {
      RowSadSplit(s, si, r, ri, w1, w2 - 1);
    }
  }

  /** Splitting a block into a left part of width w1 and a right part of
      width w2. */
  lemma {:induction false} BlockSadColumns(src: Block, ref: Block, h: nat, w1: nat, w2: nat)
    requires Readable(src, h, w1 + w2) && Readable(ref, h, w1 + w2)
    ensures Readable(src, h, w1) && Readable(ref, h, w1)
    ensures Readable(At(src, w1, 0), h, w2) && Readable(At(ref, w1, 0), h, w2)
    ensures BlockSad(src, ref, h, w1 + w2)
         == BlockSad(src, ref, h, w1) + BlockSad(At(src, w1, 0), At(ref, w1, 0), h, w2)
  {
    if h > 0 && w1 + w2 > 0 {
      BlockSadColumns(src, ref, h - 1, w1, w2);
      RowReadable(src, h, w1 + w2, h - 1);
      RowReadable(ref, h, w1 + w2, h - 1);
      RowSadSplit(src.samples, RowStart(src, h - 1), ref.samples, RowStart(ref, h - 1), w1, w2);
      assert RowStart(At(src, w1, 0), h - 1) == RowStart(src, h - 1) + w1;
      assert RowStart(At(ref, w1, 0), h - 1) == RowStart(ref, h - 1) + w1;
    }
  }

  /** Splitting a block into a top part of h1 rows and a bottom part of h2
      rows. */
  lemma {:induction false} BlockSadRows(src: Block, ref: Block, h1: nat, h2: nat, w: nat)
    requires Readable(src, h1 + h2, w) && Readable(ref, h1 + h2, w)
    ensures Readable(src, h1, w) && Readable(ref, h1, w)
    ensures Readable(At(src, 0, h1), h2, w) && Readable(At(ref, 0, h1), h2, w)
    ensures BlockSad(src, ref, h1 + h2, w)
         == BlockSad(src, ref, h1, w) + BlockSad(At(src, 0, h1), At(ref, 0, h1), h2, w)
  {
    ReadableSmaller(src, h1 + h2, w, h1, w);
    ReadableSmaller(ref, h1 + h2, w, h1, w);
    ReadableBelow(src, h1, h2, w);
    ReadableBelow(ref, h1, h2, w);
    if h2 > 0 && w > 0 {
      ReadableSmaller(src, h1 + h2, w, h1 + h2 - 1, w);
      ReadableSmaller(ref, h1 + h2, w, h1 + h2 - 1, w);
      BlockSadRows(src, ref, h1, h2 - 1, w);
      Distribute(h1, h2 - 1, src.stride);
      Distribute(h1, h2 - 1, ref.stride);
      assert RowStart(At(src, 0, h1), h2 - 1) == RowStart(src, h1 + h2 - 1);
      assert RowStart(At(ref, 0, h1), h2 - 1) == RowStart(ref, h1 + h2 - 1);
    }
  }

  lemma AtAt(b: Block, dx1: nat, dy1: nat, dx2: nat, dy2: nat)
    ensures At(At(b, dx1, dy1), dx2, dy2) == At(b, dx1 + dx2, dy1 + dy2)
  {
  }

  /** The bottom-left and bottom-right quadrants of a readable block. */
  lemma {:induction false} BottomHalf(src: Block, ref: Block, n: nat)
    requires Readable(At(src, 0, n), n, n + n) && Readable(At(ref, 0, n), n, n + n)
    ensures Readable(At(src, 0, n), n, n) && Readable(At(ref, 0, n), n, n)
    ensures Readable(At(src, n, n), n, n) && Readable(At(ref, n, n), n, n)
    ensures BlockSad(At(src, 0, n), At(ref, 0, n), n, n + n)
         == BlockSad(At(src, 0, n), At(ref, 0, n), n, n) + BlockSad(At(src, n, n), At(ref, n, n), n, n)
  {
    BlockSadColumns(At(src, 0, n), At(ref, 0, n), n, n, n);
    AtAt(src, 0, n, n, 0);
    AtAt(ref, 0, n, n, 0);
  }

  /** A 2n x 2n block's SAD is the sum of its four n x n quadrants'
      (top-left, top-right, bottom-left, bottom-right). */
  lemma {:induction false} Quadrants(src: Block, ref: Block, n: nat)
    requires Readable(src, n + n, n + n) && Readable(ref, n + n, n + n)
    ensures Readable(src, n, n) && Readable(ref, n, n)
    ensures Readable(At(src, n, 0), n, n) && Readable(At(ref, n, 0), n, n)
    ensures Readable(At(src, 0, n), n, n) && Readable(At(ref, 0, n), n, n)
    ensures Readable(At(src, n, n), n, n) && Readable(At(ref, n, n), n, n)
    ensures BlockSad(src, ref, n + n, n + n)
         == BlockSad(src, ref, n, n) + BlockSad(At(src, n, 0), At(ref, n, 0), n, n)
          + BlockSad(At(src, 0, n), At(ref, 0, n), n, n) + BlockSad(At(src, n, n), At(ref, n, n), n, n)
  {
    BlockSadRows(src, ref, n, n, n + n);
    BlockSadColumns(src, ref, n, n, n);
    BottomHalf(src, ref, n);
  }

  // ---------------------------------------------------------------------
  // A closed form for uniform blocks

  /** The w samples starting at s[si] all equal a. */
  predicate Uniform(s: seq<uint8>, si: nat, w: nat, a: uint8)
  {
    forall j :: si <= j < si + w && j < |s| ==> s[j] == a
  }

  lemma {:induction false} RowSadUniform(s: seq<uint8>, si: nat, r: seq<uint8>, ri: nat, w: nat, a: uint8, b: uint8)
    requires si + w <= |s| && ri + w <= |r|
    requires Uniform(s, si, w, a) && Uniform(r, ri, w, b)
    ensures RowSad(s, si, r, ri, w) == w * AbsDiff(a, b)
  {
    if w > 0 {
      RowSadUniform(s, si, r, ri, w - 1, a, b);
      assert s[si + w - 1] == a && r[ri + w - 1] == b;
    }
  }

  /** When every sample of one block is a and every sample of the other is
      b, the SAD is h * w * |a - b|. */
  lemma {:induction false} BlockSadUniform(src: Block, ref: Block, h: nat, w: nat, a: uint8, b: uint8)
    requires Readable(src, h, w) && Readable(ref, h, w)
    requires forall y :: 0 <= y < h ==> Uniform(src.samples, RowStart(src, y), w, a)
    requires forall y :: 0 <= y < h ==> Uniform(ref.samples, RowStart(ref, y), w, b)
    ensures BlockSad(src, ref, h, w) == h * (w * AbsDiff(a, b))
  {
    if h > 0 && w > 0 {
      var d := w * AbsDiff(a, b);
      ReadableSmaller(src, h, w, h - 1, w);
      ReadableSmaller(ref, h, w, h - 1, w);
      BlockSadUniform(src, ref, h - 1, w, a, b);
      RowReadable(src, h, w, h - 1);
      RowReadable(ref, h, w, h - 1);
      assert Uniform(src.samples, RowStart(src, h - 1), w, a);
      assert Uniform(ref.samples, RowStart(ref, h - 1), w, b);
      RowSadUniform(src.samples, RowStart(src, h - 1), ref.samples, RowStart(ref, h - 1), w, a, b);
      assert (h - 1) * d + d == h * d by {
        Distribute(h - 1, 1, d);
      }
    }
  }
}
