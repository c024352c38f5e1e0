/** Stage B of the hierarchical search: the sixteen raw 16x16 sums that
    Stage A left in the partial-sum table are combined, at each of the
    eight horizontal search points, into four 32x32 sums and one 64x64
    sum, and the best records of those sizes are updated. */
module SuperblockSearch {
  import opened Types
  import opened MotionVectors
  import opened Sad
  import opened BestMatch
  import opened HierarchicalSearch

  // ---------------------------------------------------------------------
  // Stage B specification

  /** The 32x32 sum of quadrant q at point i: entries i of the rows of the
      table that belong to 16x16 blocks 4q .. 4q + 3 (the table keeps
      block b's eight points in entries 8b .. 8b + 7). */
  function QuadrantSum(t: seq<uint16>, q: nat, i: nat): (sum: nat)
    requires 128 <= |t| && q < 4 && i < 8
    ensures sum <= 4 * 0xffff
  {
    t[(4 * q) * 8 + i] as int + t[(4 * q + 1) * 8 + i] as int
    + t[(4 * q + 2) * 8 + i] as int + t[(4 * q + 3) * 8 + i] as int
  }

  /** The 64x64 sum at point i: the four 32x32 sums added. */
  function SuperblockSum(t: seq<uint16>, i: nat): (sum: nat)
    requires 128 <= |t| && i < 8
    ensures sum <= 16 * 0xffff
  {
    QuadrantSum(t, 0, i) + QuadrantSum(t, 1, i) + QuadrantSum(t, 2, i) + QuadrantSum(t, 3, i)
  }

  /** The values quadrant q's 32x32 record is offered at the eight points. */
  function QuadrantCosts(exact: bool, t: seq<uint16>, q: nat): seq<uint32>
    requires 128 <= |t| && q < 4
  {
    seq(8, i requires 0 <= i < 8 => Scale(exact, QuadrantSum(t, q, i)))
  }

  /** The values the 64x64 record is offered at the eight points. */
  function SuperblockCosts(exact: bool, t: seq<uint16>): seq<uint32>
    requires 128 <= |t|
  {
    seq(8, i requires 0 <= i < 8 => Scale(exact, SuperblockSum(t, i)))
  }

  // ---------------------------------------------------------------------
  // In exact mode the sums are the SADs of the larger blocks

  /** Offsets of the sixteen 16x16 blocks of a superblock, in the order of
      the partial-sum table: block 4q + k is sub-block k of quadrant q. */
  const Block16X: seq<nat> := [0, 16, 0, 16, 32, 48, 32, 48, 0, 16, 0, 16, 32, 48, 32, 48]
  const Block16Y: seq<nat> := [0, 0, 16, 16, 0, 0, 16, 16, 32, 32, 48, 48, 32, 32, 48, 48]

  /** The 32x32 quadrant a 16x16 block belongs to. */
  function QuadrantOf(b: nat): nat
  {
    b / 4
  }

  lemma Block16Layout(b: nat)
    requires b < 16
    ensures Block16X[b] == 32 * QuadrantX[QuadrantOf(b)] + 16 * QuadrantX[b % 4]
    ensures Block16Y[b] == 32 * QuadrantY[QuadrantOf(b)] + 16 * QuadrantY[b % 4]
  {
  }

  /** The top-left sample of 32x32 quadrant q of the superblock at b. */
  function QuadrantAt(b: Block, q: nat): Block
    requires q < 4
  {
    if q == 0 then At(b, 0, 0)
    else if q == 1 then At(b, 32, 0)
    else if q == 2 then At(b, 0, 32)
    else At(b, 32, 32)
  }

  /** The top-left sample of 16x16 sub-block k of the 32x32 block at b. */
  function QuarterAt(b: Block, k: nat): Block
    requires k < 4
  {
    if k == 0 then At(b, 0, 0)
    else if k == 1 then At(b, 16, 0)
    else if k == 2 then At(b, 0, 16)
    else At(b, 16, 16)
  }

  /** The top-left sample of 16x16 block k of the superblock at b: block
      4q + j is sub-block j of quadrant q. */
  function SubBlock(b: Block, k: nat): Block
    requires k < 16
  {
    QuarterAt(QuadrantAt(b, QuadrantOf(k)), k % 4)
  }

  /** The superblock layout in offsets: quadrant q at 32 times the
      quadrant offsets and block k at (Block16X[k], Block16Y[k]). */
  lemma SuperblockLayout(b: Block, q: nat, k: nat)
    requires q < 4 && k < 16
    ensures QuadrantAt(b, q) == At(b, 32 * QuadrantX[q], 32 * QuadrantY[q])
    ensures SubBlock(b, k) == At(b, Block16X[k], Block16Y[k])
  {
    Block16Layout(k);
    var j := k % 4;
    assert QuarterAt(QuadrantAt(b, QuadrantOf(k)), j)
        == At(QuadrantAt(b, QuadrantOf(k)), 16 * QuadrantX[j], 16 * QuadrantY[j]);
    assert QuadrantAt(b, QuadrantOf(k)) == At(b, 32 * QuadrantX[QuadrantOf(k)], 32 * QuadrantY[QuadrantOf(k)]);
    AtAt(b, 32 * QuadrantX[QuadrantOf(k)], 32 * QuadrantY[QuadrantOf(k)], 16 * QuadrantX[j], 16 * QuadrantY[j]);
  }

  /** Quadrant q of a superblock that is readable dx columns wider is
      readable that much wider too, and so is the quadrant shifted right
      by dx. */
  lemma QuadrantReadable(b: Block, q: nat, dx: nat)
    requires Readable(b, 64, 64 + dx) && q < 4
    ensures Readable(QuadrantAt(b, q), 32, 32 + dx) && Readable(At(QuadrantAt(b, q), dx, 0), 32, 32)
  {
    if q == 0 {
      assert QuadrantAt(b, q) == At(b, 0, 0);
    } else if q == 1 {
      assert QuadrantAt(b, q) == At(b, 32, 0);
    } else if q == 2 {
      assert QuadrantAt(b, q) == At(b, 0, 32);
    } else {
      assert QuadrantAt(b, q) == At(b, 32, 32);
    }
  }

  /** Sub-block j of a 32x32 block that is readable dx columns wider is
      readable that much wider too. */
  lemma QuarterReadable(b: Block, j: nat, dx: nat)
    requires Readable(b, 32, 32 + dx) && j < 4
    ensures Readable(QuarterAt(b, j), 16, 16 + dx)
  {
    if j == 0 {
      assert QuarterAt(b, j) == At(b, 0, 0);
    } else if j == 1 {
      assert QuarterAt(b, j) == At(b, 16, 0);
    } else if j == 2 {
      assert QuarterAt(b, j) == At(b, 0, 16);
    } else {
      assert QuarterAt(b, j) == At(b, 16, 16);
    }
  }

  /** Block k of the superblock at src, and its reference area at ref,
      are what Stage A reads. */
  lemma SubBlockReadable(src: Block, ref: Block, k: nat)
    requires Readable(src, 64, 64) && Readable(ref, 64, 64 + 7) && k < 16
    ensures StageAReadable(true, SubBlock(src, k), SubBlock(ref, k))
  {
    var q, j := QuadrantOf(k), k % 4;
    QuadrantReadable(src, q, 0);
    QuadrantReadable(ref, q, 7);
    QuarterReadable(QuadrantAt(src, q), j, 0);
    QuarterReadable(QuadrantAt(ref, q), j, 7);
  }

  /** The table holds, for every block k of the superblock and every point
      i, the exact raw 16x16 sum Stage A computes for it. */
  ghost predicate TableOfUnitSads(src: Block, ref: Block, t: seq<uint16>)
    requires Readable(src, 64, 64) && Readable(ref, 64, 64 + 7) && 128 <= |t|
  {
    forall k, i :: 0 <= k < 16 && 0 <= i < 8 ==>
      StageAReadable(true, SubBlock(src, k), SubBlock(ref, k)) &&
      t[8 * k + i] == UnitSad(true, SubBlock(src, k), SubBlock(ref, k), i)
  }

  /** Exact mode: the entry of sub-block j of quadrant q (block 4q + j)
      at point i is the SAD of that 16x16 block at point i. */
  lemma ExactTableEntry(src: Block, ref: Block, t: seq<uint16>, q: nat, j: nat, i: nat)
    requires Readable(src, 64, 64) && Readable(ref, 64, 64 + 7) && 128 <= |t|
    requires TableOfUnitSads(src, ref, t) && q < 4 && j < 4 && i < 8
    ensures Readable(QuarterAt(QuadrantAt(src, q), j), 16, 16)
    ensures Readable(QuarterAt(At(QuadrantAt(ref, q), i, 0), j), 16, 16)
    ensures t[(4 * q + j) * 8 + i]
         == BlockSad(QuarterAt(QuadrantAt(src, q), j), QuarterAt(At(QuadrantAt(ref, q), i, 0), j), 16, 16)
  {
    var k := 4 * q + j;
    SubBlockReadable(src, ref, k);
    assert QuadrantOf(k) == q && k % 4 == j;
    assert SubBlock(src, k) == QuarterAt(QuadrantAt(src, q), j);
    assert At(SubBlock(ref, k), i, 0) == QuarterAt(At(QuadrantAt(ref, q), i, 0), j);
    assert (4 * q + j) * 8 + i == 8 * k + i;
    assert t[8 * k + i] == UnitSad(true, SubBlock(src, k), SubBlock(ref, k), i);
    ExactUnitSad(SubBlock(src, k), SubBlock(ref, k), i);
  }

  /** The four 16x16 sub-blocks of a 32x32 block, as offsets. */
  lemma QuarterOffsets(b: Block)
    ensures QuarterAt(b, 0) == b && QuarterAt(b, 1) == At(b, 16, 0)
    ensures QuarterAt(b, 2) == At(b, 0, 16) && QuarterAt(b, 3) == At(b, 16, 16)
  {
  }

  /** The four 32x32 quadrants of a superblock, as offsets. */
  lemma QuadrantOffsets(b: Block)
    ensures QuadrantAt(b, 0) == b && QuadrantAt(b, 1) == At(b, 32, 0)
    ensures QuadrantAt(b, 2) == At(b, 0, 32) && QuadrantAt(b, 3) == At(b, 32, 32)
  {
  }

  /** Exact mode: the 32x32 sum of quadrant q at point i is the SAD of the
      whole 32x32 quadrant against the reference shifted by i. */
  lemma ExactQuadrantSum(src: Block, ref: Block, t: seq<uint16>, q: nat, i: nat)
    requires Readable(src, 64, 64) && Readable(ref, 64, 64 + 7) && 128 <= |t|
    requires TableOfUnitSads(src, ref, t) && q < 4 && i < 8
    ensures Readable(QuadrantAt(src, q), 32, 32) && Readable(At(QuadrantAt(ref, q), i, 0), 32, 32)
    ensures QuadrantSum(t, q, i) == BlockSad(QuadrantAt(src, q), At(QuadrantAt(ref, q), i, 0), 32, 32)
  {
    var s, r := QuadrantAt(src, q), At(QuadrantAt(ref, q), i, 0);
    ExactTableEntry(src, ref, t, q, 0, i);
    ExactTableEntry(src, ref, t, q, 1, i);
    ExactTableEntry(src, ref, t, q, 2, i);
    ExactTableEntry(src, ref, t, q, 3, i);
    QuadrantReadable(src, q, 0);
    QuadrantReadable(ref, q, i);
    QuarterOffsets(s);
    QuarterOffsets(r);
    Quadrants(s, r, 16);
    assert t[(4 * q) * 8 + i] == BlockSad(s, r, 16, 16);
    assert t[(4 * q + 1) * 8 + i] == BlockSad(At(s, 16, 0), At(r, 16, 0), 16, 16);
    assert t[(4 * q + 2) * 8 + i] == BlockSad(At(s, 0, 16), At(r, 0, 16), 16, 16);
    assert t[(4 * q + 3) * 8 + i] == BlockSad(At(s, 16, 16), At(r, 16, 16), 16, 16);
  }

  /** Exact mode: the 64x64 sum at point i is the SAD of the whole
      superblock against the reference shifted by i. */
  lemma ExactSuperblockSum(src: Block, ref: Block, t: seq<uint16>, i: nat)
    requires Readable(src, 64, 64) && Readable(ref, 64, 64 + 7) && 128 <= |t|
    requires TableOfUnitSads(src, ref, t) && i < 8
    ensures Readable(At(ref, i, 0), 64, 64)
    ensures SuperblockSum(t, i) == BlockSad(src, At(ref, i, 0), 64, 64)
  {
    ExactQuadrantSum(src, ref, t, 0, i);
    ExactQuadrantSum(src, ref, t, 1, i);
    ExactQuadrantSum(src, ref, t, 2, i);
    ExactQuadrantSum(src, ref, t, 3, i);
    QuadrantShift(ref, 0, i);
    QuadrantShift(ref, 1, i);
    QuadrantShift(ref, 2, i);
    QuadrantShift(ref, 3, i);
    QuadrantOffsets(src);
    QuadrantOffsets(At(ref, i, 0));
    Quadrants(src, At(ref, i, 0), 32);
  }

  /** Shifting a block right by i shifts each of its quadrants by i. */
  lemma QuadrantShift(b: Block, q: nat, i: nat)
    requires q < 4
    ensures QuadrantAt(At(b, i, 0), q) == At(QuadrantAt(b, q), i, 0)
  {
    AtAt(b, i, 0, 32 * QuadrantX[q], 32 * QuadrantY[q]);
    AtAt(b, 32 * QuadrantX[q], 32 * QuadrantY[q], i, 0);
  }

  /** t0 after n runs of the 16x16 search, run k writing its eight sums
      rows[k] at base 8k, each run's effect being the Overwrite its
      postcondition (EightPointsStageA) states. */
  function OverwriteRows(t0: seq<uint16>, rows: seq<seq<uint16>>, n: nat): (t: seq<uint16>)
    requires n <= |rows| && 8 * n <= |t0|
    requires forall k :: 0 <= k < |rows| ==> |rows[k]| == 8
    ensures |t| == |t0|
  {
    if n == 0 then t0 else Overwrite(OverwriteRows(t0, rows, n - 1), 8 * (n - 1), rows[n - 1], 8)
  }

  /** After n runs, entry 8k + i holds sum i of run k for every k < n, and
      the rest of the table is untouched. */
  lemma {:induction false} OverwriteRowsEntries(t0: seq<uint16>, rows: seq<seq<uint16>>, n: nat)
    requires n <= |rows| && 8 * n <= |t0|
    requires forall k :: 0 <= k < |rows| ==> |rows[k]| == 8
    ensures forall k, i :: 0 <= k < n && 0 <= i < 8 ==> OverwriteRows(t0, rows, n)[8 * k + i] == rows[k][i]
    ensures forall j :: 8 * n <= j < |t0| ==> OverwriteRows(t0, rows, n)[j] == t0[j]
  {
    if n > 0 {
      OverwriteRowsEntries(t0, rows, n - 1);
      var prev := OverwriteRows(t0, rows, n - 1);
      var t := OverwriteRows(t0, rows, n);
      OverwriteEntries(prev, 8 * (n - 1), rows[n - 1], 8);
      forall j | 8 * n <= j < |t0|
        ensures t[j] == t0[j]
      {
        assert t[j] == prev[j];
      }
      forall k, i | 0 <= k < n && 0 <= i < 8
        ensures t[8 * k + i] == rows[k][i]
      {
        if k < n - 1 {
          assert t[8 * k + i] == prev[8 * k + i];
        }
      }
    }
  }

  /** The eight sums Stage A writes for each block k of the superblock. */
  ghost function StageARows(src: Block, ref: Block): (rows: seq<seq<uint16>>)
    requires Readable(src, 64, 64) && Readable(ref, 64, 64 + 7)
    ensures |rows| == 16 && forall k :: 0 <= k < 16 ==> |rows[k]| == 8
  {
    seq(16, k requires 0 <= k < 16 =>
      SubBlockReadable(src, ref, k);
      UnitSads(true, SubBlock(src, k), SubBlock(ref, k)))
  }

  /** Sixteen Stage A runs fill the whole table Stage B reads, so in exact
      mode every 64x64 sum Stage B forms is the superblock's SAD. */
  lemma StageAFeedsStageB(src: Block, ref: Block, t0: seq<uint16>)
    requires Readable(src, 64, 64) && Readable(ref, 64, 64 + 7) && 128 <= |t0|
    ensures TableOfUnitSads(src, ref, OverwriteRows(t0, StageARows(src, ref), 16))
    ensures forall i :: 0 <= i < 8 ==>
      && Readable(At(ref, i, 0), 64, 64)
      && SuperblockSum(OverwriteRows(t0, StageARows(src, ref), 16), i) == BlockSad(src, At(ref, i, 0), 64, 64)
  {
    var rows := StageARows(src, ref);
    var t := OverwriteRows(t0, rows, 16);
    OverwriteRowsEntries(t0, rows, 16);
    forall k, i | 0 <= k < 16 && 0 <= i < 8
      ensures StageAReadable(true, SubBlock(src, k), SubBlock(ref, k))
      ensures t[8 * k + i] == UnitSad(true, SubBlock(src, k), SubBlock(ref, k), i)
    {
      SubBlockReadable(src, ref, k);
      assert t[8 * k + i] == rows[k][i];
    }
    forall i | 0 <= i < 8
      ensures Readable(At(ref, i, 0), 64, 64)
      ensures SuperblockSum(t, i) == BlockSad(src, At(ref, i, 0), 64, 64)
    {
      ExactSuperblockSum(src, ref, t, i);
    }
  }

  // ---------------------------------------------------------------------
  // Stage B

  /** One 32x32 block of one iteration of Stage B: quadrant q's sum at
      point i, offered to record q, extends record q's scan by one point. */
  method QuadrantStep(exact: bool, sad16x16: array<uint16>,
                      bestSad32x32: array<uint32>, bestMv32x32: array<uint32>,
                      mv: uint32, q: nat, i: nat, ghost init: Record) returns (sum: uint32)
    requires 128 <= sad16x16.Length && q < 4 && i < 8
    requires 4 <= bestSad32x32.Length && 4 <= bestMv32x32.Length && bestSad32x32 != bestMv32x32
    requires Record(bestSad32x32[q], bestMv32x32[q]) == Scan(init, QuadrantCosts(exact, sad16x16[..], q), mv, i)
    modifies bestSad32x32, bestMv32x32
    ensures sum == QuadrantSum(sad16x16[..], q, i)
    ensures Record(bestSad32x32[q], bestMv32x32[q]) == Scan(init, QuadrantCosts(exact, sad16x16[..], q), mv, i + 1)
    ensures forall j :: 0 <= j < bestSad32x32.Length && j != q ==> bestSad32x32[j] == old(bestSad32x32[j])
    ensures forall j :: 0 <= j < bestMv32x32.Length && j != q ==> bestMv32x32[j] == old(bestMv32x32[j])
  {
    // The uint16_t entries are promoted to int before they are added.
    sum := sad16x16[(4 * q) * 8 + i] as int + sad16x16[(4 * q + 1) * 8 + i] as int
         + sad16x16[(4 * q + 2) * 8 + i] as int + sad16x16[(4 * q + 3) * 8 + i] as int;
    ScanStep(init, QuadrantCosts(exact, sad16x16[..], q), mv, i);
    Offer(bestSad32x32, bestMv32x32, q, Scale(exact, sum), mv, i);
  }

  /** The four quadrant records after points 0 .. n - 1. */
  ghost predicate QuadrantsScanned(exact: bool, t: seq<uint16>,
                                   bestSad32x32: array<uint32>, bestMv32x32: array<uint32>,
                                   sad32: seq<uint32>, mv32: seq<uint32>, mv: uint32, n: nat)
    requires 128 <= |t| && 4 <= bestSad32x32.Length && 4 <= bestMv32x32.Length
    requires 4 <= |sad32| && 4 <= |mv32| && n <= 8
    reads bestSad32x32, bestMv32x32
  {
    forall q :: 0 <= q < 4 ==>
      Record(bestSad32x32[q], bestMv32x32[q]) == Scan(Record(sad32[q], mv32[q]), QuadrantCosts(exact, t, q), mv, n)
  }

  /** The four 32x32 blocks of one iteration of Stage B. */
  method QuadrantsAtPoint(exact: bool, sad16x16: array<uint16>,
                          bestSad32x32: array<uint32>, bestMv32x32: array<uint32>,
                          mv: uint32, i: nat, ghost sad32: seq<uint32>, ghost mv32: seq<uint32>)
    returns (sum0: uint32, sum1: uint32, sum2: uint32, sum3: uint32)
    requires 128 <= sad16x16.Length && i < 8 && 4 <= |sad32| && 4 <= |mv32|
    requires 4 <= bestSad32x32.Length && 4 <= bestMv32x32.Length && bestSad32x32 != bestMv32x32
    requires QuadrantsScanned(exact, sad16x16[..], bestSad32x32, bestMv32x32, sad32, mv32, mv, i)
    modifies bestSad32x32, bestMv32x32
    ensures QuadrantsScanned(exact, sad16x16[..], bestSad32x32, bestMv32x32, sad32, mv32, mv, i + 1)
    ensures sum0 == QuadrantSum(sad16x16[..], 0, i) && sum1 == QuadrantSum(sad16x16[..], 1, i)
    ensures sum2 == QuadrantSum(sad16x16[..], 2, i) && sum3 == QuadrantSum(sad16x16[..], 3, i)
    ensures forall j :: 4 <= j < bestSad32x32.Length ==> bestSad32x32[j] == old(bestSad32x32[j])
    ensures forall j :: 4 <= j < bestMv32x32.Length ==> bestMv32x32[j] == old(bestMv32x32[j])
  {
    sum0 := QuadrantStep(exact, sad16x16, bestSad32x32, bestMv32x32, mv, 0, i, Record(sad32[0], mv32[0]));
    ghost var r0 := Record(bestSad32x32[0], bestMv32x32[0]);
    sum1 := QuadrantStep(exact, sad16x16, bestSad32x32, bestMv32x32, mv, 1, i, Record(sad32[1], mv32[1]));
    ghost var r1 := Record(bestSad32x32[1], bestMv32x32[1]);
    sum2 := QuadrantStep(exact, sad16x16, bestSad32x32, bestMv32x32, mv, 2, i, Record(sad32[2], mv32[2]));
    ghost var r2 := Record(bestSad32x32[2], bestMv32x32[2]);
    sum3 := QuadrantStep(exact, sad16x16, bestSad32x32, bestMv32x32, mv, 3, i, Record(sad32[3], mv32[3]));
    assert Record(bestSad32x32[0], bestMv32x32[0]) == r0;
    assert Record(bestSad32x32[1], bestMv32x32[1]) == r1;
    assert Record(bestSad32x32[2], bestMv32x32[2]) == r2;
    forall q | 0 <= q < 4
      ensures Record(bestSad32x32[q], bestMv32x32[q])
           == Scan(Record(sad32[q], mv32[q]), QuadrantCosts(exact, sad16x16[..], q), mv, i + 1)
    {
      assert q == 0 || q == 1 || q == 2 || q == 3;
    }
  }

  /** The 64x64 block of one iteration of Stage B: the four 32x32 sums of
      point i are added and offered to the 64x64 record. */
  method SuperblockAtPoint(exact: bool, sad16x16: array<uint16>,
                           bestSad64x64: array<uint32>, bestMv64x64: array<uint32>,
                           mv: uint32, i: nat, sum0: uint32, sum1: uint32, sum2: uint32, sum3: uint32,
                           ghost init: Record)
    requires 128 <= sad16x16.Length && i < 8
    requires 1 <= bestSad64x64.Length && 1 <= bestMv64x64.Length && bestSad64x64 != bestMv64x64
    requires sum0 == QuadrantSum(sad16x16[..], 0, i) && sum1 == QuadrantSum(sad16x16[..], 1, i)
    requires sum2 == QuadrantSum(sad16x16[..], 2, i) && sum3 == QuadrantSum(sad16x16[..], 3, i)
    requires Record(bestSad64x64[0], bestMv64x64[0]) == Scan(init, SuperblockCosts(exact, sad16x16[..]), mv, i)
    modifies bestSad64x64, bestMv64x64
    ensures Record(bestSad64x64[0], bestMv64x64[0]) == Scan(init, SuperblockCosts(exact, sad16x16[..]), mv, i + 1)
    ensures forall j :: 1 <= j < bestSad64x64.Length ==> bestSad64x64[j] == old(bestSad64x64[j])
    ensures forall j :: 1 <= j < bestMv64x64.Length ==> bestMv64x64[j] == old(bestMv64x64[j])
  {
    var sum64 := sum0 + sum1 + sum2 + sum3;
    assert sum64 == SuperblockSum(sad16x16[..], i);
    ScanStep(init, SuperblockCosts(exact, sad16x16[..]), mv, i);
    Offer(bestSad64x64, bestMv64x64, 0, Scale(exact, sum64), mv, i);
  }

  /** Stage B after points 0 .. n - 1, against snapshots of the record
      arrays taken before point 0. */
  ghost predicate StageBProgress(exact: bool, sad16x16: array<uint16>,
                                 bestSad32x32: array<uint32>, bestSad64x64: array<uint32>,
                                 bestMv32x32: array<uint32>, bestMv64x64: array<uint32>, mv: uint32,
                                 sad32: seq<uint32>, mv32: seq<uint32>, sad64: seq<uint32>, mv64: seq<uint32>,
                                 n: nat)
    reads sad16x16, bestSad32x32, bestSad64x64, bestMv32x32, bestMv64x64
  {
    && 128 <= sad16x16.Length && n <= 8
    && |sad32| == bestSad32x32.Length >= 4 && |mv32| == bestMv32x32.Length >= 4
    && |sad64| == bestSad64x64.Length >= 1 && |mv64| == bestMv64x64.Length >= 1
    && QuadrantsScanned(exact, sad16x16[..], bestSad32x32, bestMv32x32, sad32, mv32, mv, n)
    && Record(bestSad64x64[0], bestMv64x64[0])
       == Scan(Record(sad64[0], mv64[0]), SuperblockCosts(exact, sad16x16[..]), mv, n)
    && (forall j :: 4 <= j < bestSad32x32.Length ==> bestSad32x32[j] == sad32[j])
    && (forall j :: 4 <= j < bestMv32x32.Length ==> bestMv32x32[j] == mv32[j])
    && (forall j :: 1 <= j < bestSad64x64.Length ==> bestSad64x64[j] == sad64[j])
    && (forall j :: 1 <= j < bestMv64x64.Length ==> bestMv64x64[j] == mv64[j])
  }

  /** One iteration of the Stage B loop. */
  method SearchPointB(exact: bool, sad16x16: array<uint16>,
                      bestSad32x32: array<uint32>, bestSad64x64: array<uint32>,
                      bestMv32x32: array<uint32>, bestMv64x64: array<uint32>, mv: uint32, i: nat,
                      ghost sad32: seq<uint32>, ghost mv32: seq<uint32>,
                      ghost sad64: seq<uint32>, ghost mv64: seq<uint32>)
    requires i < 8
    requires bestSad32x32 != bestMv32x32 && bestSad32x32 != bestSad64x64 && bestSad32x32 != bestMv64x64
    requires bestMv32x32 != bestSad64x64 && bestMv32x32 != bestMv64x64 && bestSad64x64 != bestMv64x64
    requires StageBProgress(exact, sad16x16, bestSad32x32, bestSad64x64, bestMv32x32, bestMv64x64, mv,
                            sad32, mv32, sad64, mv64, i)
    modifies bestSad32x32, bestSad64x64, bestMv32x32, bestMv64x64
    ensures StageBProgress(exact, sad16x16, bestSad32x32, bestSad64x64, bestMv32x32, bestMv64x64, mv,
                           sad32, mv32, sad64, mv64, i + 1)
  {
    var sum0, sum1, sum2, sum3 := QuadrantsAtPoint(exact, sad16x16, bestSad32x32, bestMv32x32, mv, i, sad32, mv32);
    SuperblockAtPoint(exact, sad16x16, bestSad64x64, bestMv64x64, mv, i, sum0, sum1, sum2, sum3,
                      Record(sad64[0], mv64[0]));
  }

  /** Before the first point every record array equals its snapshot. */
  lemma StageBStart(exact: bool, sad16x16: array<uint16>,
                    bestSad32x32: array<uint32>, bestSad64x64: array<uint32>,
                    bestMv32x32: array<uint32>, bestMv64x64: array<uint32>, mv: uint32)
    requires 128 <= sad16x16.Length
    requires 4 <= bestSad32x32.Length && 4 <= bestMv32x32.Length
    requires 1 <= bestSad64x64.Length && 1 <= bestMv64x64.Length
    ensures StageBProgress(exact, sad16x16, bestSad32x32, bestSad64x64, bestMv32x32, bestMv64x64, mv,
                           bestSad32x32[..], bestMv32x32[..], bestSad64x64[..], bestMv64x64[..], 0)
  {
  }

  /** Once all eight points are in, StageBProgress says entry by entry
      what the stage leaves in every record array. */
  lemma StageBComplete(exact: bool, sad16x16: array<uint16>,
                       bestSad32x32: array<uint32>, bestSad64x64: array<uint32>,
                       bestMv32x32: array<uint32>, bestMv64x64: array<uint32>, mv: uint32,
                       sad32: seq<uint32>, mv32: seq<uint32>, sad64: seq<uint32>, mv64: seq<uint32>)
    requires StageBProgress(exact, sad16x16, bestSad32x32, bestSad64x64, bestMv32x32, bestMv64x64, mv,
                            sad32, mv32, sad64, mv64, 8)
    ensures forall q :: 0 <= q < 4 ==>
      Record(bestSad32x32[q], bestMv32x32[q]) == Scan(Record(sad32[q], mv32[q]), QuadrantCosts(exact, sad16x16[..], q), mv, 8)
    ensures Record(bestSad64x64[0], bestMv64x64[0])
         == Scan(Record(sad64[0], mv64[0]), SuperblockCosts(exact, sad16x16[..]), mv, 8)
    ensures forall j :: 4 <= j < bestSad32x32.Length ==> bestSad32x32[j] == sad32[j]
    ensures forall j :: 4 <= j < bestMv32x32.Length ==> bestMv32x32[j] == mv32[j]
    ensures forall j :: 1 <= j < bestSad64x64.Length ==> bestSad64x64[j] == sad64[j]
    ensures forall j :: 1 <= j < bestMv64x64.Length ==> bestMv64x64[j] == mv64[j]
  {
  }

  /** GetEightHorizontalSearchPointResults_32x32_64x64. Each 32x32 record
      and the 64x64 record ends as the scan of its eight scaled sums; the
      partial-sum table is only read, and no other entry is written. */
  method EightPointsStageB(exact: bool, sad16x16: array<uint16>,
                           bestSad32x32: array<uint32>, bestSad64x64: array<uint32>,
                           bestMv32x32: array<uint32>, bestMv64x64: array<uint32>, mv: uint32)
    requires 128 <= sad16x16.Length
    requires 4 <= bestSad32x32.Length && 4 <= bestMv32x32.Length
    requires 1 <= bestSad64x64.Length && 1 <= bestMv64x64.Length
    requires bestSad32x32 != bestMv32x32 && bestSad32x32 != bestSad64x64 && bestSad32x32 != bestMv64x64
    requires bestMv32x32 != bestSad64x64 && bestMv32x32 != bestMv64x64 && bestSad64x64 != bestMv64x64
    modifies bestSad32x32, bestSad64x64, bestMv32x32, bestMv64x64
    ensures forall q :: 0 <= q < 4 ==>
      Record(bestSad32x32[q], bestMv32x32[q])
      == Scan(Record(old(bestSad32x32[q]), old(bestMv32x32[q])), QuadrantCosts(exact, sad16x16[..], q), mv, 8)
    ensures Record(bestSad64x64[0], bestMv64x64[0])
         == Scan(Record(old(bestSad64x64[0]), old(bestMv64x64[0])), SuperblockCosts(exact, sad16x16[..]), mv, 8)
    ensures forall j :: 4 <= j < bestSad32x32.Length ==> bestSad32x32[j] == old(bestSad32x32[j])
    ensures forall j :: 4 <= j < bestMv32x32.Length ==> bestMv32x32[j] == old(bestMv32x32[j])
    ensures forall j :: 1 <= j < bestSad64x64.Length ==> bestSad64x64[j] == old(bestSad64x64[j])
    ensures forall j :: 1 <= j < bestMv64x64.Length ==> bestMv64x64[j] == old(bestMv64x64[j])
  {
    ghost var sad32, mv32, sad64, mv64 := bestSad32x32[..], bestMv32x32[..], bestSad64x64[..], bestMv64x64[..];
    StageBStart(exact, sad16x16, bestSad32x32, bestSad64x64, bestMv32x32, bestMv64x64, mv);
    var xSearchIndex: nat := 0;
    while xSearchIndex < 8
      invariant xSearchIndex <= 8
      invariant StageBProgress(exact, sad16x16, bestSad32x32, bestSad64x64, bestMv32x32, bestMv64x64, mv,
                               sad32, mv32, sad64, mv64, xSearchIndex)
    {
      SearchPointB(exact, sad16x16, bestSad32x32, bestSad64x64, bestMv32x32, bestMv64x64, mv, xSearchIndex,
                   sad32, mv32, sad64, mv64);
      xSearchIndex := xSearchIndex + 1;
    }
    StageBComplete(exact, sad16x16, bestSad32x32, bestSad64x64, bestMv32x32, bestMv64x64, mv,
                   sad32, mv32, sad64, mv64);
  }
}
