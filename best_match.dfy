/** The best-so-far records of the hierarchical search and the rule by
    which eight horizontal search points update them. */
module BestMatch {
  import opened Types
  import opened MotionVectors

  /** One p_best_sadNxN / p_best_mvNxN pair. */
  datatype Record = Record(sad: uint32, mv: uint32)

  /** The scaling policy of the hierarchical search: in exact mode
      (USE_SAD_ME) a level compares and stores its raw SAD, otherwise it
      compares and stores twice the raw SAD of the subsampled rows. */
  function Scale(exact: bool, raw: nat): nat
  {
    if exact then raw else 2 * raw
  }

  /** The record after search points 0 .. n - 1 have been offered in
      order, point i with cost costs[i] and vector CandidateMv(mv, i); a
      point replaces the record only when its cost is strictly smaller. */
  function Scan(init: Record, costs: seq<uint32>, mv: uint32, n: nat): Record
    requires n <= |costs|
  {
    if n == 0 then init
    else
      var prev := Scan(init, costs, mv, n - 1);
      if costs[n - 1] < prev.sad then Record(costs[n - 1], CandidateMv(mv, n - 1)) else prev
  }

  /** Offering point i extends the scan of points 0 .. i - 1. */
  lemma ScanStep(init: Record, costs: seq<uint32>, mv: uint32, i: nat)
    requires i < |costs|
    ensures Scan(init, costs, mv, i + 1)
         == (var prev := Scan(init, costs, mv, i);
             if costs[i] < prev.sad then Record(costs[i], CandidateMv(mv, i)) else prev)
  {
  }

  /** A scan ends at the minimum of the initial value and the costs offered.
      Its vector is the initial one when no point improved on the initial
      value, and otherwise that of the first point reaching the minimum. */
  lemma {:induction false} ScanFirstMinimum(init: Record, costs: seq<uint32>, mv: uint32, n: nat)
    requires n <= |costs|
    ensures Scan(init, costs, mv, n).sad <= init.sad
    ensures forall i :: 0 <= i < n ==> Scan(init, costs, mv, n).sad <= costs[i]
    ensures Scan(init, costs, mv, n).sad == init.sad ==> Scan(init, costs, mv, n).mv == init.mv
    ensures Scan(init, costs, mv, n).sad < init.sad ==>
      exists k :: 0 <= k < n && costs[k] == Scan(init, costs, mv, n).sad &&
        Scan(init, costs, mv, n).mv == CandidateMv(mv, k) &&
        forall j :: 0 <= j < k ==> Scan(init, costs, mv, n).sad < costs[j]
  {
    if n > 0 {
      ScanFirstMinimum(init, costs, mv, n - 1);
      var prev := Scan(init, costs, mv, n - 1);
      if costs[n - 1] < prev.sad {
        assert forall j :: 0 <= j < n - 1 ==> costs[n - 1] < costs[j];
      } else {
        assert Scan(init, costs, mv, n) == prev;
      }
    }
  }

  /** When every point costs at least the initial value (ties included),
      the record is left exactly as it was. */
  lemma {:induction false} ScanNoImprovement(init: Record, costs: seq<uint32>, mv: uint32, n: nat)
    requires n <= |costs|
    requires forall i :: 0 <= i < n ==> init.sad <= costs[i]
    ensures Scan(init, costs, mv, n) == init
  {
    if n > 0 {
      ScanNoImprovement(init, costs, mv, n - 1);
    }
  }
}
