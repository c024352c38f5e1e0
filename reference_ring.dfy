/** The guard ring of a reference picture: before a reconstructed picture
    is used as a reference, the one-sample ring just outside its recon
    area (the row above, the row below, the column to the left and the
    column to the right, corners included) is set to zero in every
    plane, for 8-bit and for 16-bit sample buffers. */
module ReferenceRing {
  import opened Types

  // ---------------------------------------------------------------------
  // Geometry

  /** One plane's recon area inside its padded buffer: rows are `stride`
      samples apart, and the width x height recon samples start `top`
      rows down and `left` columns in. */
  datatype Ring = Ring(stride: nat, width: nat, height: nat, left: nat, top: nat)

  /** The ring can be written into a buffer of n samples: the first
      store (the left end of the top row) is not before the buffer, and
      the last one (the right end of the bottom row) is inside it. Every
      other store lies between the two. */
  predicate RingFits(g: Ring, n: nat)
  {
    0 <= TopStart(g) && BottomStart(g) + g.width + 2 <= n
  }

  /** First sample of the top ring row: (top - 1) * stride + left - 1. */
  function TopStart(g: Ring): int
  {
    (g.top - 1) * g.stride + g.left - 1
  }

  /** First sample of the bottom ring row: (top + height) * stride + left - 1. */
  function BottomStart(g: Ring): int
  {
    (g.top + g.height) * g.stride + g.left - 1
  }

  /** First sample of the left ring column: top * stride + left - 1. */
  function LeftStart(g: Ring): int
  {
    g.top * g.stride + g.left - 1
  }

  /** First sample of the right ring column: top * stride + left + width. */
  function RightStart(g: Ring): int
  {
    g.top * g.stride + g.left + g.width
  }

  /** i is one of the count consecutive samples from start. */
  predicate InSpan(start: int, count: nat, i: int)
  {
    start <= i < start + count
  }

  /** i is one of the count samples start, start + stride, ... */
  predicate InColumn(start: int, stride: nat, count: nat, i: int)
  {
    exists k :: 0 <= k < count && i == start + k * stride
  }

  /** The samples the routine writes: two rows of width + 2 samples and
      two columns of height samples. */
  predicate OnRing(g: Ring, i: int)
  {
    InSpan(TopStart(g), g.width + 2, i) || InSpan(BottomStart(g), g.width + 2, i) ||
    InColumn(LeftStart(g), g.stride, g.height, i) || InColumn(RightStart(g), g.stride, g.height, i)
  }

  /** The buffer after the ring is zeroed: every ring sample is zero and
      every other sample is as it was. */
  function Guarded<T>(b: seq<T>, zero: T, g: Ring): (r: seq<T>)
    ensures |r| == |b|
  {
    seq(|b|, i requires 0 <= i < |b| => if OnRing(g, i) then zero else b[i])
  }

  // ---------------------------------------------------------------------
  // What the ring is

  /** (r, c) is on the perimeter of the (height + 2) x (width + 2)
      rectangle that surrounds the recon area. */
  predicate OnPerimeter(g: Ring, r: int, c: int)
  {
    ((r == g.top - 1 || r == g.top + g.height) && g.left - 1 <= c <= g.left + g.width) ||
    (g.top <= r < g.top + g.height && (c == g.left - 1 || c == g.left + g.width))
  }

  /** Row-major positions with columns narrower than the stride compare
      like (row, column) pairs. */
  lemma LexOrder(r1: nat, c1: nat, r2: nat, c2: nat, s: nat)
    requires c1 < s && c2 < s
    ensures r1 * s + c1 <= r2 * s + c2 <==> r1 < r2 || (r1 == r2 && c1 <= c2)
  {
    if r1 < r2 {
      MulLe(r1 + 1, r2, s);
      Distribute(r1, 1, s);
    } else if r2 < r1 {
      MulLe(r2 + 1, r1, s);
      Distribute(r2, 1, s);
    }
  }

  /** A ring row covers exactly columns left - 1 .. left + width of its
      row. */
  lemma RowSpan(g: Ring, row: nat, r: nat, c: nat)
    requires 1 <= g.left && g.left + g.width < g.stride && c < g.stride
    ensures InSpan(row * g.stride + g.left - 1, g.width + 2, r * g.stride + c)
        <==> r == row && g.left - 1 <= c <= g.left + g.width
  {
    LexOrder(row, g.left - 1, r, c, g.stride);
    LexOrder(r, c, row, g.left + g.width, g.stride);
  }

  /** A ring column covers exactly rows top .. top + height - 1 of its
      column. */
  lemma {:induction false} ColumnSpan(g: Ring, col: nat, r: nat, c: nat)
    requires col < g.stride && c < g.stride
    ensures InColumn(g.top * g.stride + col, g.stride, g.height, r * g.stride + c)
        <==> g.top <= r < g.top + g.height && c == col
  {
    var s := g.stride;
    if InColumn(g.top * s + col, s, g.height, r * s + c) {
      var k :| 0 <= k < g.height && r * s + c == g.top * s + col + k * s;
      Distribute(g.top, k, s);
      LexOrder(r, c, g.top + k, col, s);
      LexOrder(g.top + k, col, r, c, s);
    }
    if g.top <= r < g.top + g.height && c == col {
      var k := r - g.top;
      Distribute(g.top, k, s);
      assert r * s + c == g.top * s + col + k * s;
    }
  }

  /** When the recon area and its left and right ring columns fit within
      one stride, the samples the routine writes are exactly the
      perimeter of the rectangle around the recon area, corners
      included. */
  lemma RingIsPerimeter(g: Ring, r: nat, c: nat)
    requires 1 <= g.top && 1 <= g.left && g.left + g.width < g.stride && c < g.stride
    ensures OnRing(g, r * g.stride + c) <==> OnPerimeter(g, r, c)
  {
    RowSpan(g, g.top - 1, r, c);
    RowSpan(g, g.top + g.height, r, c);
    ColumnSpan(g, g.left - 1, r, c);
    ColumnSpan(g, g.left + g.width, r, c);
  }

  /** Zeroing the ring changes nothing off the perimeter: not the recon
      samples inside it, and not the padding outside it. */
  lemma GuardedKeepsOffPerimeter<T>(b: seq<T>, zero: T, g: Ring, r: nat, c: nat)
    requires 1 <= g.top && 1 <= g.left && g.left + g.width < g.stride && c < g.stride
    requires !OnPerimeter(g, r, c) && r * g.stride + c < |b|
    ensures Guarded(b, zero, g)[r * g.stride + c] == b[r * g.stride + c]
  {
    RingIsPerimeter(g, r, c);
  }

  /** Zeroing the ring sets every perimeter sample to zero. */
  lemma GuardedZeroesPerimeter<T>(b: seq<T>, zero: T, g: Ring, r: nat, c: nat)
    requires 1 <= g.top && 1 <= g.left && g.left + g.width < g.stride && c < g.stride
    requires OnPerimeter(g, r, c) && r * g.stride + c < |b|
    ensures Guarded(b, zero, g)[r * g.stride + c] == zero
  {
    RingIsPerimeter(g, r, c);
  }

  /** Zeroing the ring twice is zeroing it once. */
  lemma GuardedIdempotent<T>(b: seq<T>, zero: T, g: Ring)
    ensures Guarded(Guarded(b, zero, g), zero, g) == Guarded(b, zero, g)
  {
  }

  // ---------------------------------------------------------------------
  // The routines

  /** Every ring sample lies inside a buffer the ring fits. */
  lemma RowsInBounds(g: Ring, n: nat)
    requires RingFits(g, n)
    ensures 0 <= TopStart(g) && TopStart(g) + g.width + 2 <= n
    ensures 0 <= BottomStart(g) && BottomStart(g) + g.width + 2 <= n
  {
    if 1 <= g.top {
      MulLe(g.top - 1, g.top + g.height, g.stride);
    }
  }

  /** A recon area flush with the left edge of its buffer still fits when
      there are at least two rows above it: the first store,
      (top - 1) * stride - 1, is then inside the buffer. The chroma rings
      of a picture whose luma left padding is 1 are of this kind. */
  lemma FlushLeftFits(g: Ring, n: nat)
    requires g.left == 0 && 2 <= g.top && 1 <= g.stride
    requires (g.top + g.height) * g.stride + g.width + 1 <= n
    ensures RingFits(g, n)
  {
    MulLe(1, g.top - 1, g.stride);
  }

  lemma ColumnsInBounds(g: Ring, n: nat, k: nat)
    requires RingFits(g, n) && k < g.height
    ensures 0 <= LeftStart(g) + k * g.stride < RightStart(g) + k * g.stride < n
  {
    MulLe(g.top + k + 1, g.top + g.height, g.stride);
    Distribute(g.top, k, g.stride);
    Distribute(g.top + k, 1, g.stride);
  }

  /** One more sample of a column. */
  lemma ColumnStep(start: int, stride: nat, k: nat)
    ensures forall i :: InColumn(start, stride, k + 1, i) <==> InColumn(start, stride, k, i) || i == start + k * stride
  {
    forall i | InColumn(start, stride, k + 1, i)
      ensures InColumn(start, stride, k, i) || i == start + k * stride
    {
      var j :| 0 <= j < k + 1 && i == start + j * stride;
      if j < k {
        assert InColumn(start, stride, k, i);
      }
    }
  }

  /** EB_MEMSET of count elements from start. */
  method Fill<T>(a: array<T>, start: nat, count: nat, v: T)
    requires start + count <= a.Length
    modifies a
    ensures forall i :: 0 <= i < a.Length ==> a[i] == if InSpan(start, count, i) then v else old(a[i])
  {
    var j := 0;
    while j < count
      invariant j <= count
      invariant forall i :: 0 <= i < a.Length ==> a[i] == if InSpan(start, j, i) then v else old(a[i])
    {
      a[start + j] := v;
      j := j + 1;
    }
  }

  /** The body shared by both sample widths: zero the top row, the bottom
      row, the left column and the right column, in that order. */
  method ZeroRing<T>(a: array<T>, zero: T, g: Ring)
    requires RingFits(g, a.Length)
    modifies a
    ensures a[..] == Guarded(old(a[..]), zero, g)
  {
    ghost var a0 := a[..];
    RowsInBounds(g, a.Length);
    // 1. the top row
    Fill(a, TopStart(g), g.width + 2, zero);
    // 2. the bottom row
    Fill(a, BottomStart(g), g.width + 2, zero);
    ghost var inRows := (i: int) => InSpan(TopStart(g), g.width + 2, i) || InSpan(BottomStart(g), g.width + 2, i);
    // 3. the left column
    var leftStart: nat := LeftStart(g);
    var k: nat := 0;
    while k < g.height
      invariant k <= g.height
      invariant forall i :: 0 <= i < a.Length ==>
        a[i] == if inRows(i) || InColumn(leftStart, g.stride, k, i) then zero else a0[i]
    {
      ColumnsInBounds(g, a.Length, k);
      ColumnStep(leftStart, g.stride, k);
      a[leftStart + k * g.stride] := zero;
      k := k + 1;
    }
    // 4. the right column
    var rightStart: nat := RightStart(g);
    k := 0;
    while k < g.height
      invariant k <= g.height
      invariant forall i :: 0 <= i < a.Length ==>
        a[i] == if inRows(i) || InColumn(leftStart, g.stride, g.height, i) || InColumn(rightStart, g.stride, k, i)
                then zero else a0[i]
    {
      ColumnsInBounds(g, a.Length, k);
      ColumnStep(rightStart, g.stride, k);
      a[rightStart + k * g.stride] := zero;
      k := k + 1;
    }
  }

  /** initialize_samples_neighboring_reference_picture_8bit. */
  method InitializeSamplesNeighboringReferencePicture8Bit(
    reconSamples: array<uint8>, stride: uint16, reconWidth: uint16, reconHeight: uint16,
    leftPadding: uint16, topPadding: uint16)
    requires RingFits(Ring(stride, reconWidth, reconHeight, leftPadding, topPadding), reconSamples.Length)
    modifies reconSamples
    ensures reconSamples[..]
         == Guarded(old(reconSamples[..]), 0, Ring(stride, reconWidth, reconHeight, leftPadding, topPadding))
  {
    ZeroRing(reconSamples, 0, Ring(stride, reconWidth, reconHeight, leftPadding, topPadding));
  }

  /** initialize_samples_neighboring_reference_picture16_bit: the same
      positions counted in 16-bit samples; its row memsets of
      2 * (1 + width + 1) bytes are width + 2 samples. */
  method InitializeSamplesNeighboringReferencePicture16Bit(
    reconSamples: array<uint16>, stride: uint16, reconWidth: uint16, reconHeight: uint16,
    leftPadding: uint16, topPadding: uint16)
    requires RingFits(Ring(stride, reconWidth, reconHeight, leftPadding, topPadding), reconSamples.Length)
    modifies reconSamples
    ensures reconSamples[..]
         == Guarded(old(reconSamples[..]), 0, Ring(stride, reconWidth, reconHeight, leftPadding, topPadding))
  {
    ZeroRing(reconSamples, 0, Ring(stride, reconWidth, reconHeight, leftPadding, topPadding));
  }

  // ---------------------------------------------------------------------
  // The reference object

  /** The fields of an EbPictureBufferDesc the routine reads: the three
      plane buffers, their strides and the luma recon size. */
  datatype PictureBufferDesc<T> = PictureBufferDesc(
    bufferY: array<T>, bufferCb: array<T>, bufferCr: array<T>,
    strideY: uint16, strideCb: uint16, strideCr: uint16,
    width: uint16, height: uint16)

  /** The padding fields of an EbPictureBufferDescInitData. */
  datatype PictureBufferDescInitData = PictureBufferDescInitData(leftPadding: uint16, topPadding: uint16)

  /** The two reference pictures of an EbReferenceObject; either pointer
      may be NULL. */
  datatype ReferenceObject = ReferenceObject(
    referencePicture: Option<PictureBufferDesc<uint8>>,
    referencePicture16bit: Option<PictureBufferDesc<uint16>>)

  /** EB_10BIT, the bit depth at which the 16-bit buffers are used. */
  const Eb10Bit: nat := 10

  /** The luma ring: the picture's size and the full padding. */
  function LumaRing<T>(p: PictureBufferDesc<T>, init: PictureBufferDescInitData): Ring
  {
    Ring(p.strideY, p.width, p.height, init.leftPadding, init.topPadding)
  }

  /** A chroma ring: the picture's size and the padding halved (>> 1). */
  function ChromaRing<T>(p: PictureBufferDesc<T>, stride: uint16, init: PictureBufferDescInitData): Ring
  {
    Ring(stride, p.width / 2, p.height / 2, init.leftPadding / 2, init.topPadding / 2)
  }

  /** The three planes are separate buffers and each ring fits its plane. */
  predicate PlanesFit<T>(p: PictureBufferDesc<T>, init: PictureBufferDescInitData)
  {
    p.bufferY != p.bufferCb && p.bufferY != p.bufferCr && p.bufferCb != p.bufferCr &&
    RingFits(LumaRing(p, init), p.bufferY.Length) &&
    RingFits(ChromaRing(p, p.strideCb, init), p.bufferCb.Length) &&
    RingFits(ChromaRing(p, p.strideCr, init), p.bufferCr.Length)
  }

  function Planes<T>(p: PictureBufferDesc<T>): set<object>
  {
    {p.bufferY, p.bufferCb, p.bufferCr}
  }

  /** Zero the rings of one picture's three planes. */
  method ZeroPictureRings<T>(p: PictureBufferDesc<T>, zero: T, init: PictureBufferDescInitData)
    requires PlanesFit(p, init)
    modifies Planes(p)
    ensures p.bufferY[..] == Guarded(old(p.bufferY[..]), zero, LumaRing(p, init))
    ensures p.bufferCb[..] == Guarded(old(p.bufferCb[..]), zero, ChromaRing(p, p.strideCb, init))
    ensures p.bufferCr[..] == Guarded(old(p.bufferCr[..]), zero, ChromaRing(p, p.strideCr, init))
  {
    ZeroRing(p.bufferY, zero, LumaRing(p, init));
    ZeroRing(p.bufferCb, zero, ChromaRing(p, p.strideCb, init));
    ZeroRing(p.bufferCr, zero, ChromaRing(p, p.strideCr, init));
  }

  /** initialize_samples_neighboring_reference_picture: at bit depth
      EB_10BIT the rings of the 16-bit picture, otherwise those of the
      8-bit picture; the other picture is not touched. */
  method InitializeSamplesNeighboringReferencePicture(
    referenceObject: ReferenceObject, init: PictureBufferDescInitData, bitDepth: nat)
    requires bitDepth == Eb10Bit ==>
      referenceObject.referencePicture16bit.Some? && PlanesFit(referenceObject.referencePicture16bit.value, init)
    requires bitDepth != Eb10Bit ==>
      referenceObject.referencePicture.Some? && PlanesFit(referenceObject.referencePicture.value, init)
    modifies if bitDepth == Eb10Bit then Planes(referenceObject.referencePicture16bit.value)
             else Planes(referenceObject.referencePicture.value)
    ensures bitDepth == Eb10Bit ==>
      var p := referenceObject.referencePicture16bit.value;
      p.bufferY[..] == Guarded(old(p.bufferY[..]), 0, LumaRing(p, init)) &&
      p.bufferCb[..] == Guarded(old(p.bufferCb[..]), 0, ChromaRing(p, p.strideCb, init)) &&
      p.bufferCr[..] == Guarded(old(p.bufferCr[..]), 0, ChromaRing(p, p.strideCr, init))
    ensures bitDepth != Eb10Bit ==>
      var p := referenceObject.referencePicture.value;
      p.bufferY[..] == Guarded(old(p.bufferY[..]), 0, LumaRing(p, init)) &&
      p.bufferCb[..] == Guarded(old(p.bufferCb[..]), 0, ChromaRing(p, p.strideCb, init)) &&
      p.bufferCr[..] == Guarded(old(p.bufferCr[..]), 0, ChromaRing(p, p.strideCr, init))
  {
    if bitDepth == Eb10Bit {
      ZeroPictureRings(referenceObject.referencePicture16bit.value, 0, init);
    } else {
      ZeroPictureRings(referenceObject.referencePicture.value, 0, init);
    }
  }
}
