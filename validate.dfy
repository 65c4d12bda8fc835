/** The benchmark driver's cross-check of an engine's matrix against the
    reference matrix: the largest absolute cell difference, reported when
    it exceeds the error margin. Matrices here are the numeric values the
    engines store, as exact reals. */
module Validation {

  /** The error margin above which a difference is reported. */
  const ErrorMargin: real := 0.01

  function Abs(x: real): real
  {
    if x < 0.0 then -x else x
  }

  /** The candidate can be read wherever the reference has a cell: it has
      at least as many rows, and each row is at least as long. */
  predicate Covers(reference: seq<seq<real>>, candidate: seq<seq<real>>)
  {
    |candidate| >= |reference| && forall i :: 0 <= i < |reference| ==> |candidate[i]| >= |reference[i]|
  }

  /** `ValidateSameResult`: walk every cell of the reference, keep the
      largest |reference - candidate|, and report when it exceeds the
      margin. The report is the console line; here it is a flag. */
  method ValidateSameResult(reference: seq<seq<real>>, candidate: seq<seq<real>>) returns (maxDiff: real, reportsError: bool)
    requires Covers(reference, candidate)
    ensures maxDiff >= 0.0
    ensures forall i, j :: 0 <= i < |reference| && 0 <= j < |reference[i]| ==>
      Abs(reference[i][j] - candidate[i][j]) <= maxDiff
    ensures maxDiff == 0.0 || exists i, j :: (0 <= i < |reference| && 0 <= j < |reference[i]| &&
      maxDiff == Abs(reference[i][j] - candidate[i][j]))
    ensures reportsError <==> maxDiff > ErrorMargin
    ensures reportsError <==> exists i, j :: (0 <= i < |reference| && 0 <= j < |reference[i]| &&
      Abs(reference[i][j] - candidate[i][j]) > ErrorMargin)
  {
    maxDiff := 0.0;
    ghost var wi, wj := 0, 0;
    var i := 0;
    while i < |reference|
      invariant 0 <= i <= |reference|
      invariant maxDiff >= 0.0
      invariant forall a, b :: 0 <= a < i && 0 <= b < |reference[a]| ==>
        Abs(reference[a][b] - candidate[a][b]) <= maxDiff
      invariant maxDiff > 0.0 ==> (0 <= wi < |reference| && 0 <= wj < |reference[wi]| &&
        maxDiff == Abs(reference[wi][wj] - candidate[wi][wj]))
    {
      var j := 0;
      while j < |reference[i]|
        invariant 0 <= j <= |reference[i]|
        invariant maxDiff >= 0.0
        invariant forall a, b :: 0 <= a < i && 0 <= b < |reference[a]| ==>
          Abs(reference[a][b] - candidate[a][b]) <= maxDiff
        invariant forall b :: 0 <= b < j ==> Abs(reference[i][b] - candidate[i][b]) <= maxDiff
        invariant maxDiff > 0.0 ==> (0 <= wi < |reference| && 0 <= wj < |reference[wi]| &&
          maxDiff == Abs(reference[wi][wj] - candidate[wi][wj]))
      {
        var diff := Abs(reference[i][j] - candidate[i][j]);
        if diff > maxDiff {
          maxDiff := diff;
          wi, wj := i, j;
        }
        j := j + 1;
      }
      i := i + 1;
    }
    reportsError := maxDiff > ErrorMargin;
  }
}
