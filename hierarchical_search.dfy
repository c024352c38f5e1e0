/** The two-stage hierarchical aggregator. Stage A evaluates one 16x16 unit
    at eight horizontal search points: four 8x8 partition SADs, their 16x16
    sum, the best records of both sizes and the raw 16x16 sums for later.
    Stage B combines the sixteen raw 16x16 sums of a 64x64 superblock into
    four 32x32 sums and one 64x64 sum and updates their best records. */
module HierarchicalSearch {
  import opened Types
  import opened MotionVectors
  import opened Sad
  import opened SadKernels
  import opened BestMatch

  // ---------------------------------------------------------------------
  // Geometry shared by both stages

  /** Offsets of the four 8x8 partitions of a 16x16 unit, and of the four
      32x32 quadrants of a 64x64 superblock after scaling by 4: top-left,
      top-right, bottom-left, bottom-right. */
  const QuadrantX: seq<nat> := [0, 1, 0, 1]
  const QuadrantY: seq<nat> := [0, 0, 1, 1]

  /** Number of 16x16 rows Stage A reads: the odd last row is skipped in
      approximate mode. */
  function UnitRows(exact: bool): nat
  {
    if exact then 16 else 15
  }

  /** The 16x16 unit at src and the reference area of its eight search
      points (16 + 7 columns) can be read. */
  predicate StageAReadable(exact: bool, src: Block, ref: Block)
  {
    Readable(src, UnitRows(exact), 16) && Readable(ref, UnitRows(exact), 16 + 7)
  }

  /** The top-left sample of partition p of the unit at b. */
  function PartitionAt(b: Block, p: nat): Block
    requires p < 4
  {
    if p == 0 then At(b, 0, 0)
    else if p == 1 then At(b, 8, 0)
    else if p == 2 then At(b, 0, 8)
    else At(b, 8, 8)
  }

  /** Partition p sits at (8 x, 8 y) for the offsets (x, y) of quadrant p. */
  lemma PartitionLayout(b: Block, p: nat)
    requires p < 4
    ensures PartitionAt(b, p) == At(b, 8 * QuadrantX[p], 8 * QuadrantY[p])
  {
  }

  lemma PartitionsReadable(exact: bool, src: Block, ref: Block, p: nat, i: nat)
    requires StageAReadable(exact, src, ref) && p < 4 && i < 8
    ensures PartitionReadable(exact, PartitionAt(src, p), At(PartitionAt(ref, p), i, 0))
  {
  }

  // ---------------------------------------------------------------------
  // Stage A specification

  /** The raw SAD of partition p at search point i (the reference shifted
      right by i samples). */
  function UnitPartitionSad(exact: bool, src: Block, ref: Block, p: nat, i: nat): (sad: nat)
    requires StageAReadable(exact, src, ref) && p < 4 && i < 8
    ensures sad <= 255 * 64
  {
    PartitionsReadable(exact, src, ref, p, i);
    PartitionSad(exact, PartitionAt(src, p), At(PartitionAt(ref, p), i, 0))
  }

  /** The raw 16x16 sum at search point i: the four partition SADs added
      before any scaling. It always fits the uint16_t it is stored in. */
  function UnitSad(exact: bool, src: Block, ref: Block, i: nat): (sad: nat)
    requires StageAReadable(exact, src, ref) && i < 8
    ensures sad <= 4 * 255 * 64
  {
    UnitPartitionSad(exact, src, ref, 0, i) + UnitPartitionSad(exact, src, ref, 1, i)
    + UnitPartitionSad(exact, src, ref, 2, i) + UnitPartitionSad(exact, src, ref, 3, i)
  }

  /** The values partition p's record is offered at the eight points. */
  function PartitionCosts(exact: bool, src: Block, ref: Block, p: nat): seq<uint32>
    requires StageAReadable(exact, src, ref) && p < 4
  {
    seq(8, i requires 0 <= i < 8 => Scale(exact, UnitPartitionSad(exact, src, ref, p, i)))
  }

  /** The eight 16x16 sums Stage A stores in the partial-sum table. */
  ghost function UnitSads(exact: bool, src: Block, ref: Block): seq<uint16>
    requires StageAReadable(exact, src, ref)
  {
    seq(8, i requires 0 <= i < 8 => UnitSad(exact, src, ref, i))
  }

  /** The values the 16x16 record is offered at the eight points. */
  function UnitCosts(exact: bool, src: Block, ref: Block): seq<uint32>
    requires StageAReadable(exact, src, ref)
  {
    seq(8, i requires 0 <= i < 8 => Scale(exact, UnitSad(exact, src, ref, i)))
  }

  /** In exact mode partition p at point i is the 8x8 SAD of that
      quadrant of the 16x16 block pair. */
  lemma ExactPartition(src: Block, ref: Block, p: nat, i: nat)
    requires StageAReadable(true, src, ref) && p < 4 && i < 8
    ensures Readable(PartitionAt(src, p), 8, 8) && Readable(PartitionAt(At(ref, i, 0), p), 8, 8)
    ensures UnitPartitionSad(true, src, ref, p, i) == BlockSad(PartitionAt(src, p), PartitionAt(At(ref, i, 0), p), 8, 8)
  {
    assert PartitionAt(At(ref, i, 0), p) == At(PartitionAt(ref, p), i, 0);
    ExactPartitionIsBlock(PartitionAt(src, p), At(PartitionAt(ref, p), i, 0));
  }

  /** In exact mode the raw 16x16 sum is the SAD of the whole 16x16 block
      at search point i. */
  lemma ExactUnitSad(src: Block, ref: Block, i: nat)
    requires StageAReadable(true, src, ref) && i < 8
    ensures Readable(src, 16, 16) && Readable(At(ref, i, 0), 16, 16)
    ensures UnitSad(true, src, ref, i) == BlockSad(src, At(ref, i, 0), 16, 16)
  {
    var r := At(ref, i, 0);
    Quadrants(src, r, 8);
    assert PartitionAt(src, 0) == At(src, 0, 0) && PartitionAt(r, 0) == At(r, 0, 0);
    assert PartitionAt(src, 1) == At(src, 8, 0) && PartitionAt(r, 1) == At(r, 8, 0);
    assert PartitionAt(src, 2) == At(src, 0, 8) && PartitionAt(r, 2) == At(r, 0, 8);
    assert PartitionAt(src, 3) == At(src, 8, 8) && PartitionAt(r, 3) == At(r, 8, 8);
    assert At(src, 0, 0) == src && At(r, 0, 0) == r;
    ExactPartition(src, ref, 0, i);
    ExactPartition(src, ref, 1, i);
    ExactPartition(src, ref, 2, i);
    ExactPartition(src, ref, 3, i);
  }

  lemma UnitSadOfPartitions(exact: bool, src: Block, ref: Block, i: nat, s0: nat, s1: nat, s2: nat, s3: nat)
    requires StageAReadable(exact, src, ref) && i < 8
    requires s0 == UnitPartitionSad(exact, src, ref, 0, i) && s1 == UnitPartitionSad(exact, src, ref, 1, i)
    requires s2 == UnitPartitionSad(exact, src, ref, 2, i) && s3 == UnitPartitionSad(exact, src, ref, 3, i)
    ensures ToUint16(s0 + s1 + s2 + s3) == s0 + s1 + s2 + s3 == UnitSad(exact, src, ref, i)
  {
  }

  // ---------------------------------------------------------------------
  // Stage A

  /** t with entries base .. base + n - 1 overwritten, in order, by
      vals[0 .. n - 1]. */
  function Overwrite(t: seq<uint16>, base: nat, vals: seq<uint16>, n: nat): (r: seq<uint16>)
    requires n <= |vals| && base + n <= |t|
    ensures |r| == |t|
  {
    if n == 0 then t else Overwrite(t, base, vals, n - 1)[base + n - 1 := vals[n - 1]]
  }

  /** Entry by entry: exactly entries base .. base + n - 1 are written,
      entry base + i receiving vals[i]. */
  lemma {:induction false} OverwriteEntries(t: seq<uint16>, base: nat, vals: seq<uint16>, n: nat)
    requires n <= |vals| && base + n <= |t|
    ensures forall j :: 0 <= j < |t| ==>
      Overwrite(t, base, vals, n)[j] == if base <= j < base + n then vals[j - base] else t[j]
  {
    if n > 0 {
      OverwriteEntries(t, base, vals, n - 1);
    }
  }

  /** Offers search point i with the given cost to record k: the record is
      replaced only on a strict improvement, with x advanced by 4 i. */
  method Offer(bestSad: array<uint32>, bestMv: array<uint32>, k: nat, cost: uint32, mv: uint32, i: nat)
    requires k < bestSad.Length && k < bestMv.Length && bestSad != bestMv
    modifies bestSad, bestMv
    ensures Record(bestSad[k], bestMv[k])
         == if cost < old(bestSad[k]) then Record(cost, CandidateMv(mv, i)) else Record(old(bestSad[k]), old(bestMv[k]))
    ensures forall j :: 0 <= j < bestSad.Length && j != k ==> bestSad[j] == old(bestSad[j])
    ensures forall j :: 0 <= j < bestMv.Length && j != k ==> bestMv[j] == old(bestMv[j])
  {
    if cost < bestSad[k] {
      bestSad[k] := cost;
      var xMv := ToInt16(MvX(mv) + i * 4);
      var yMv := MvY(mv);
      bestMv[k] := PackMv(xMv, yMv);
    }
  }

  /** One 8x8 block of one iteration of Stage A: partition p's SAD at
      point i, offered to record p, extends record p's scan by one point. */
  method PartitionStep(exact: bool, src: Block, ref: Block,
                       bestSad8x8: array<uint32>, bestMv8x8: array<uint32>,
                       mv: uint32, p: nat, i: nat, ghost init: Record) returns (sad: uint32)
    requires StageAReadable(exact, src, ref) && p < 4 && i < 8
    requires 4 <= bestSad8x8.Length && 4 <= bestMv8x8.Length && bestSad8x8 != bestMv8x8
    requires Record(bestSad8x8[p], bestMv8x8[p]) == Scan(init, PartitionCosts(exact, src, ref, p), mv, i)
    modifies bestSad8x8, bestMv8x8
    ensures sad == UnitPartitionSad(exact, src, ref, p, i)
    ensures Record(bestSad8x8[p], bestMv8x8[p]) == Scan(init, PartitionCosts(exact, src, ref, p), mv, i + 1)
    ensures forall j :: 0 <= j < bestSad8x8.Length && j != p ==> bestSad8x8[j] == old(bestSad8x8[j])
    ensures forall j :: 0 <= j < bestMv8x8.Length && j != p ==> bestMv8x8[j] == old(bestMv8x8[j])
  {
    PartitionsReadable(exact, src, ref, p, i);
    sad := Subsad8x8(exact, PartitionAt(src, p), At(PartitionAt(ref, p), i, 0));
    ScanStep(init, PartitionCosts(exact, src, ref, p), mv, i);
    Offer(bestSad8x8, bestMv8x8, p, Scale(exact, sad), mv, i);
  }

  /** The four partition records after points 0 .. n - 1. */
  ghost predicate PartitionsScanned(exact: bool, src: Block, ref: Block,
                                    bestSad8x8: array<uint32>, bestMv8x8: array<uint32>,
                                    sad8: seq<uint32>, mv8: seq<uint32>, mv: uint32, n: nat)
    requires StageAReadable(exact, src, ref) && 4 <= bestSad8x8.Length && 4 <= bestMv8x8.Length
    requires 4 <= |sad8| && 4 <= |mv8| && n <= 8
    reads bestSad8x8, bestMv8x8
  {
    forall p :: 0 <= p < 4 ==>
      Record(bestSad8x8[p], bestMv8x8[p]) == Scan(Record(sad8[p], mv8[p]), PartitionCosts(exact, src, ref, p), mv, n)
  }

  /** The four 8x8 blocks of one iteration of Stage A: search point i
      offered to every partition record. */
  method PartitionsAtPoint(exact: bool, src: Block, ref: Block,
                           bestSad8x8: array<uint32>, bestMv8x8: array<uint32>,
                           mv: uint32, i: nat, ghost sad8: seq<uint32>, ghost mv8: seq<uint32>)
    returns (sad8x8_0: uint32, sad8x8_1: uint32, sad8x8_2: uint32, sad8x8_3: uint32)
    requires StageAReadable(exact, src, ref) && i < 8 && 4 <= |sad8| && 4 <= |mv8|
    requires 4 <= bestSad8x8.Length && 4 <= bestMv8x8.Length && bestSad8x8 != bestMv8x8
    requires PartitionsScanned(exact, src, ref, bestSad8x8, bestMv8x8, sad8, mv8, mv, i)
    modifies bestSad8x8, bestMv8x8
    ensures PartitionsScanned(exact, src, ref, bestSad8x8, bestMv8x8, sad8, mv8, mv, i + 1)
    ensures sad8x8_0 == UnitPartitionSad(exact, src, ref, 0, i) && sad8x8_1 == UnitPartitionSad(exact, src, ref, 1, i)
    ensures sad8x8_2 == UnitPartitionSad(exact, src, ref, 2, i) && sad8x8_3 == UnitPartitionSad(exact, src, ref, 3, i)
    ensures forall j :: 4 <= j < bestSad8x8.Length ==> bestSad8x8[j] == old(bestSad8x8[j])
    ensures forall j :: 4 <= j < bestMv8x8.Length ==> bestMv8x8[j] == old(bestMv8x8[j])
  {
    sad8x8_0 := PartitionStep(exact, src, ref, bestSad8x8, bestMv8x8, mv, 0, i, Record(sad8[0], mv8[0]));
    ghost var r0 := Record(bestSad8x8[0], bestMv8x8[0]);
    sad8x8_1 := PartitionStep(exact, src, ref, bestSad8x8, bestMv8x8, mv, 1, i, Record(sad8[1], mv8[1]));
    ghost var r1 := Record(bestSad8x8[1], bestMv8x8[1]);
    sad8x8_2 := PartitionStep(exact, src, ref, bestSad8x8, bestMv8x8, mv, 2, i, Record(sad8[2], mv8[2]));
    ghost var r2 := Record(bestSad8x8[2], bestMv8x8[2]);
    sad8x8_3 := PartitionStep(exact, src, ref, bestSad8x8, bestMv8x8, mv, 3, i, Record(sad8[3], mv8[3]));
    assert Record(bestSad8x8[0], bestMv8x8[0]) == r0;
    assert Record(bestSad8x8[1], bestMv8x8[1]) == r1;
    assert Record(bestSad8x8[2], bestMv8x8[2]) == r2;
    forall p | 0 <= p < 4
      ensures Record(bestSad8x8[p], bestMv8x8[p]) == Scan(Record(sad8[p], mv8[p]), PartitionCosts(exact, src, ref, p), mv, i + 1)
    {
      assert p == 0 || p == 1 || p == 2 || p == 3;
    }
  }

  /** The 16x16 block of one iteration of Stage A: the four partition SADs
      of point i are added, stored in the partial-sum table and offered to
      the 16x16 record. */
  method UnitAtPoint(exact: bool, src: Block, ref: Block,
                     bestSad16x16: array<uint32>, bestMv16x16: array<uint32>,
                     mv: uint32, sad16x16: array<uint16>, base: nat, i: nat,
                     sad8x8_0: uint32, sad8x8_1: uint32, sad8x8_2: uint32, sad8x8_3: uint32,
                     ghost init16: Record)
    requires StageAReadable(exact, src, ref) && i < 8
    requires 1 <= bestSad16x16.Length && 1 <= bestMv16x16.Length && bestSad16x16 != bestMv16x16
    requires base + 8 <= sad16x16.Length
    requires sad8x8_0 == UnitPartitionSad(exact, src, ref, 0, i) && sad8x8_1 == UnitPartitionSad(exact, src, ref, 1, i)
    requires sad8x8_2 == UnitPartitionSad(exact, src, ref, 2, i) && sad8x8_3 == UnitPartitionSad(exact, src, ref, 3, i)
    requires Record(bestSad16x16[0], bestMv16x16[0]) == Scan(init16, UnitCosts(exact, src, ref), mv, i)
    modifies bestSad16x16, bestMv16x16, sad16x16
    ensures Record(bestSad16x16[0], bestMv16x16[0]) == Scan(init16, UnitCosts(exact, src, ref), mv, i + 1)
    ensures sad16x16[..] == old(sad16x16[..])[base + i := UnitSads(exact, src, ref)[i]]
    ensures forall j :: 1 <= j < bestSad16x16.Length ==> bestSad16x16[j] == old(bestSad16x16[j])
    ensures forall j :: 1 <= j < bestMv16x16.Length ==> bestMv16x16[j] == old(bestMv16x16[j])
  {
    // The source casts this sum to uint16_t; it never exceeds 65280.
    UnitSadOfPartitions(exact, src, ref, i, sad8x8_0, sad8x8_1, sad8x8_2, sad8x8_3);
    var sad16 := ToUint16(sad8x8_0 + sad8x8_1 + sad8x8_2 + sad8x8_3);
    sad16x16[base + i] := sad16;
    assert sad16x16[base + i] == UnitSad(exact, src, ref, i);
    ScanStep(init16, UnitCosts(exact, src, ref), mv, i);
    Offer(bestSad16x16, bestMv16x16, 0, Scale(exact, sad16), mv, i);
  }

  /** Stage A after points 0 .. n - 1, against snapshots of the arrays
      taken before point 0: the five records are the scans of their first
      n costs, the table holds the first n sums, and no other entry of any
      array differs from its snapshot. */
  ghost predicate StageAProgress(exact: bool, src: Block, ref: Block,
                                 bestSad8x8: array<uint32>, bestMv8x8: array<uint32>,
                                 bestSad16x16: array<uint32>, bestMv16x16: array<uint32>,
                                 mv: uint32, sad16x16: array<uint16>, base: nat,
                                 sad8: seq<uint32>, mv8: seq<uint32>, sad16: seq<uint32>, mv16: seq<uint32>,
                                 table: seq<uint16>, n: nat)
    reads bestSad8x8, bestMv8x8, bestSad16x16, bestMv16x16, sad16x16
  {
    && StageAReadable(exact, src, ref) && n <= 8
    && |sad8| == bestSad8x8.Length >= 4 && |mv8| == bestMv8x8.Length >= 4
    && |sad16| == bestSad16x16.Length >= 1 && |mv16| == bestMv16x16.Length >= 1
    && |table| == sad16x16.Length >= base + 8
    && PartitionsScanned(exact, src, ref, bestSad8x8, bestMv8x8, sad8, mv8, mv, n)
    && Record(bestSad16x16[0], bestMv16x16[0]) == Scan(Record(sad16[0], mv16[0]), UnitCosts(exact, src, ref), mv, n)
    && sad16x16[..] == Overwrite(table, base, UnitSads(exact, src, ref), n)
    && (forall j :: 4 <= j < bestSad8x8.Length ==> bestSad8x8[j] == sad8[j])
    && (forall j :: 4 <= j < bestMv8x8.Length ==> bestMv8x8[j] == mv8[j])
    && (forall j :: 1 <= j < bestSad16x16.Length ==> bestSad16x16[j] == sad16[j])
    && (forall j :: 1 <= j < bestMv16x16.Length ==> bestMv16x16[j] == mv16[j])
  }

  /** One iteration of the Stage A loop: point i offered to the four
      partition records and to the 16x16 record. */
  method SearchPointA(exact: bool, src: Block, ref: Block,
                      bestSad8x8: array<uint32>, bestMv8x8: array<uint32>,
                      bestSad16x16: array<uint32>, bestMv16x16: array<uint32>,
                      mv: uint32, sad16x16: array<uint16>, base: nat, i: nat,
                      ghost sad8: seq<uint32>, ghost mv8: seq<uint32>, ghost sad16: seq<uint32>, ghost mv16: seq<uint32>,
                      ghost table: seq<uint16>)
    requires i < 8
    requires bestSad8x8 != bestMv8x8 && bestSad8x8 != bestSad16x16 && bestSad8x8 != bestMv16x16
    requires bestMv8x8 != bestSad16x16 && bestMv8x8 != bestMv16x16 && bestSad16x16 != bestMv16x16
    requires StageAProgress(exact, src, ref, bestSad8x8, bestMv8x8, bestSad16x16, bestMv16x16, mv, sad16x16, base,
                            sad8, mv8, sad16, mv16, table, i)
    modifies bestSad8x8, bestMv8x8, bestSad16x16, bestMv16x16, sad16x16
    ensures StageAProgress(exact, src, ref, bestSad8x8, bestMv8x8, bestSad16x16, bestMv16x16, mv, sad16x16, base,
                           sad8, mv8, sad16, mv16, table, i + 1)
  {
    var sad8x8_0, sad8x8_1, sad8x8_2, sad8x8_3 :=
      PartitionsAtPoint(exact, src, ref, bestSad8x8, bestMv8x8, mv, i, sad8, mv8);
    UnitAtPoint(exact, src, ref, bestSad16x16, bestMv16x16, mv, sad16x16, base, i,
                sad8x8_0, sad8x8_1, sad8x8_2, sad8x8_3, Record(sad16[0], mv16[0]));
  }

  /** Before the first point every array equals its snapshot. */
  lemma StageAStart(exact: bool, src: Block, ref: Block,
                    bestSad8x8: array<uint32>, bestMv8x8: array<uint32>,
                    bestSad16x16: array<uint32>, bestMv16x16: array<uint32>,
                    mv: uint32, sad16x16: array<uint16>, base: nat)
    requires StageAReadable(exact, src, ref)
    requires 4 <= bestSad8x8.Length && 4 <= bestMv8x8.Length
    requires 1 <= bestSad16x16.Length && 1 <= bestMv16x16.Length
    requires base + 8 <= sad16x16.Length
    ensures StageAProgress(exact, src, ref, bestSad8x8, bestMv8x8, bestSad16x16, bestMv16x16, mv, sad16x16, base,
                           bestSad8x8[..], bestMv8x8[..], bestSad16x16[..], bestMv16x16[..], sad16x16[..], 0)
  {
  }

  /** Once all eight points are in, StageAProgress says entry by entry
      what the stage leaves in every array. */
  lemma StageAComplete(exact: bool, src: Block, ref: Block,
                       bestSad8x8: array<uint32>, bestMv8x8: array<uint32>,
                       bestSad16x16: array<uint32>, bestMv16x16: array<uint32>,
                       mv: uint32, sad16x16: array<uint16>, base: nat,
                       sad8: seq<uint32>, mv8: seq<uint32>, sad16: seq<uint32>, mv16: seq<uint32>,
                       table: seq<uint16>)
    requires StageAProgress(exact, src, ref, bestSad8x8, bestMv8x8, bestSad16x16, bestMv16x16, mv, sad16x16, base,
                            sad8, mv8, sad16, mv16, table, 8)
    ensures forall p :: 0 <= p < 4 ==>
      Record(bestSad8x8[p], bestMv8x8[p]) == Scan(Record(sad8[p], mv8[p]), PartitionCosts(exact, src, ref, p), mv, 8)
    ensures Record(bestSad16x16[0], bestMv16x16[0]) == Scan(Record(sad16[0], mv16[0]), UnitCosts(exact, src, ref), mv, 8)
    ensures sad16x16[..] == Overwrite(table, base, UnitSads(exact, src, ref), 8)
    ensures forall j :: 4 <= j < bestSad8x8.Length ==> bestSad8x8[j] == sad8[j]
    ensures forall j :: 4 <= j < bestMv8x8.Length ==> bestMv8x8[j] == mv8[j]
    ensures forall j :: 1 <= j < bestSad16x16.Length ==> bestSad16x16[j] == sad16[j]
    ensures forall j :: 1 <= j < bestMv16x16.Length ==> bestMv16x16[j] == mv16[j]
  {
  }

  /** GetEightHorizontalSearchPointResults_8x8_16x16_PU. Each of the four
      partition records and the 16x16 record ends as the scan of its eight
      scaled costs; the raw 16x16 sums land in entries base .. base + 7 of
      the partial-sum table (Overwrite, OverwriteEntries) and nothing else is
      written. */
  method EightPointsStageA(exact: bool, src: Block, ref: Block,
                           bestSad8x8: array<uint32>, bestMv8x8: array<uint32>,
                           bestSad16x16: array<uint32>, bestMv16x16: array<uint32>,
                           mv: uint32, sad16x16: array<uint16>, base: nat)
    requires StageAReadable(exact, src, ref)
    requires 4 <= bestSad8x8.Length && 4 <= bestMv8x8.Length
    requires 1 <= bestSad16x16.Length && 1 <= bestMv16x16.Length
    requires base + 8 <= sad16x16.Length
    requires bestSad8x8 != bestMv8x8 && bestSad8x8 != bestSad16x16 && bestSad8x8 != bestMv16x16
    requires bestMv8x8 != bestSad16x16 && bestMv8x8 != bestMv16x16 && bestSad16x16 != bestMv16x16
    modifies bestSad8x8, bestMv8x8, bestSad16x16, bestMv16x16, sad16x16
    ensures forall p :: 0 <= p < 4 ==>
      Record(bestSad8x8[p], bestMv8x8[p])
      == Scan(Record(old(bestSad8x8[p]), old(bestMv8x8[p])), PartitionCosts(exact, src, ref, p), mv, 8)
    ensures Record(bestSad16x16[0], bestMv16x16[0])
         == Scan(Record(old(bestSad16x16[0]), old(bestMv16x16[0])), UnitCosts(exact, src, ref), mv, 8)
    ensures sad16x16[..] == Overwrite(old(sad16x16[..]), base, UnitSads(exact, src, ref), 8)
    ensures forall j :: 4 <= j < bestSad8x8.Length ==> bestSad8x8[j] == old(bestSad8x8[j])
    ensures forall j :: 4 <= j < bestMv8x8.Length ==> bestMv8x8[j] == old(bestMv8x8[j])
    ensures forall j :: 1 <= j < bestSad16x16.Length ==> bestSad16x16[j] == old(bestSad16x16[j])
    ensures forall j :: 1 <= j < bestMv16x16.Length ==> bestMv16x16[j] == old(bestMv16x16[j])
  {
    ghost var sad8, mv8, sad16, mv16, table := bestSad8x8[..], bestMv8x8[..], bestSad16x16[..], bestMv16x16[..], sad16x16[..];
    StageAStart(exact, src, ref, bestSad8x8, bestMv8x8, bestSad16x16, bestMv16x16, mv, sad16x16, base);
    var xSearchIndex: nat := 0;
    while xSearchIndex < 8
      invariant xSearchIndex <= 8
      invariant StageAProgress(exact, src, ref, bestSad8x8, bestMv8x8, bestSad16x16, bestMv16x16, mv, sad16x16, base,
                               sad8, mv8, sad16, mv16, table, xSearchIndex)
    {
      SearchPointA(exact, src, ref, bestSad8x8, bestMv8x8, bestSad16x16, bestMv16x16, mv, sad16x16, base,
                   xSearchIndex, sad8, mv8, sad16, mv16, table);
      xSearchIndex := xSearchIndex + 1;
    }
    StageAComplete(exact, src, ref, bestSad8x8, bestMv8x8, bestSad16x16, bestMv16x16, mv, sad16x16, base,
                   sad8, mv8, sad16, mv16, table);
  }
}
