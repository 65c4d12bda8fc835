/** The pairwise matrix fill that every CPU engine's `ComputeDistances`
    shares: allocate an N-by-N matrix of zeros, then either visit j < i
    sequentially or walk the flat range [0, N * N) and act where
    k % N < k / N, writing each pair's distance to both mirrored cells.
    The parallel path is modelled as a plain loop over the flat index:
    distinct indices write disjoint cells, so the order does not matter. */
module Pairwise {
  import opened Sums
  import opened Indexing
  import opened Distance

  /** The per-pair kernel an engine's `ComputeDistances` calls. */
  datatype Kernel =
    | Simple                                                   // three sums over the common prefix
    | SimpleV2(magnitudes: seq<real>)                          // dot over the common prefix, cached magnitudes
    | VectorizedV1(lanes: Lanes, accelerated: bool)            // per-group reduction, then scalar tail
    | VectorizedV2(lanes: Lanes, accelerated: bool, rentedLength: nat)  // lane accumulators, one reduction, tail

  /** What a kernel needs from the whole dataset of n rows: one cached
      magnitude per row, and a rented buffer at least one lane group long. */
  predicate ValidKernel(k: Kernel, n: nat)
  {
    match k
    case SimpleV2(mags) => |mags| == n
    case VectorizedV2(s, _, rented) => rented >= s
    case _ => true
  }

  /** What a kernel needs from the rows it is called with: the SIMD kernels
      bound their loops by the first row only, so the second must be at
      least as long. */
  predicate Accepts(k: Kernel, a: seq<real>, b: seq<real>)
  {
    (k.VectorizedV1? || k.VectorizedV2?) ==> |a| <= |b|
  }

  /** The value the kernel returns for rows i and j (in that order). */
  function PairValue(k: Kernel, ds: seq<seq<real>>, i: nat, j: nat): Value
    requires i < |ds| && j < |ds| && ValidKernel(k, |ds|)
  {
    match k
    case SimpleV2(mags) => Finish(Dot(ds[i], ds[j], Min(|ds[i]|, |ds[j]|)), mags[i], mags[j])
    case _ => CosineDistance(ds[i], ds[j])
  }

  /** Every kernel is symmetric in its two rows, which is why the two paths,
      which pass the rows in opposite orders, agree. */
  lemma PairValueSymmetric(k: Kernel, ds: seq<seq<real>>, i: nat, j: nat)
    requires i < |ds| && j < |ds| && ValidKernel(k, |ds|)
    ensures PairValue(k, ds, i, j) == PairValue(k, ds, j, i)
  {
    match k
    case SimpleV2(mags) =>
      DotSymmetric(ds[i], ds[j], Min(|ds[i]|, |ds[j]|));
      FinishSymmetric(Dot(ds[i], ds[j], Min(|ds[i]|, |ds[j]|)), mags[i], mags[j]);
    case _ =>
      CosineDistanceSymmetric(ds[i], ds[j]);
  }

  /** The engine's `ComputeDistance(dataSet[i], dataSet[j])` call. A
      VectorizedV2 call rents a buffer; the model hands it a fresh zeroed
      one, which is what a pool with no returned buffers gives out. */
  method ComputeDistance(k: Kernel, ds: seq<seq<real>>, i: nat, j: nat) returns (v: Value)
    requires i < |ds| && j < |ds| && ValidKernel(k, |ds|) && Accepts(k, ds[i], ds[j])
    ensures v == PairValue(k, ds, i, j)
  {
    match k
    case Simple =>
      v := SimpleDistance(ds[i], ds[j]);
    case SimpleV2(mags) =>
      v := SimpleV2Distance(ds[i], ds[j], mags[i], mags[j]);
    case VectorizedV1(s, accelerated) =>
      v := VectorizedV1Distance(ds[i], ds[j], s, accelerated);
    case VectorizedV2(s, accelerated, rented) =>
      var buffer := new real[rented](_ => 0.0);
      assert buffer[s..] == seq(rented - s, _ => 0.0);
      SumZeros(rented - s);
      v := VectorizedV2Distance(ds[i], ds[j], s, accelerated, buffer);
  }

  /** Cell (a, b) after the sequential path: off the diagonal, the value for
      the pair with the larger index passed first; on the diagonal, the 0 the
      allocation left there. */
  function SequentialCell(k: Kernel, ds: seq<seq<real>>, a: nat, b: nat): Value
    requires a < |ds| && b < |ds| && ValidKernel(k, |ds|)
  {
    if a == b then Zero else PairValue(k, ds, Max(a, b), Min(a, b))
  }

  /** Cell (a, b) after the flat-index path: the smaller index is passed first. */
  function ParallelCell(k: Kernel, ds: seq<seq<real>>, a: nat, b: nat): Value
    requires a < |ds| && b < |ds| && ValidKernel(k, |ds|)
  {
    if a == b then Zero else PairValue(k, ds, Min(a, b), Max(a, b))
  }

  /** Both paths produce the same matrix; it is symmetric and its diagonal is 0. */
  lemma PathsAgree(k: Kernel, ds: seq<seq<real>>, a: nat, b: nat)
    requires a < |ds| && b < |ds| && ValidKernel(k, |ds|)
    ensures SequentialCell(k, ds, a, b) == ParallelCell(k, ds, a, b)
    ensures SequentialCell(k, ds, a, b) == SequentialCell(k, ds, b, a)
    ensures a == b ==> SequentialCell(k, ds, a, b) == Zero
  {
    PairValueSymmetric(k, ds, Max(a, b), Min(a, b));
  }

  /** The flat index k splits into i = k % n, j = k / n and acts only when i < j. */
  predicate Acts(n: nat, k: nat)
    requires n > 0
  {
    k % n < k / n
  }

  /** The two cells an acting flat index writes. */
  function CellsOf(n: nat, k: nat): set<(nat, nat)>
    requires n > 0
  {
    {(k % n, k / n), (k / n, k % n)}
  }

  /** Each off-diagonal pair i < j is written by exactly one flat index in
      [0, n * n), namely i + j * n. */
  lemma FlatCoversEachPairOnce(n: nat, i: nat, j: nat)
    requires i < j < n
    ensures Flat(n, i, j) < n * n && Acts(n, Flat(n, i, j))
    ensures (i, j) in CellsOf(n, Flat(n, i, j)) && (j, i) in CellsOf(n, Flat(n, i, j))
    ensures forall k :: 0 <= k < n * n && Acts(n, k) && ((i, j) in CellsOf(n, k) || (j, i) in CellsOf(n, k)) ==> k == Flat(n, i, j)
  {
    FlatBounds(n, n, i, j);
    SplitFlat(n, i, j);
    forall k | 0 <= k < n * n && Acts(n, k) && ((i, j) in CellsOf(n, k) || (j, i) in CellsOf(n, k))
      ensures k == Flat(n, i, j)
    {
      SplitBounds(n, n, k);
    }
  }

  /** Distinct acting flat indices write disjoint cells, so the parallel
      writes need no synchronisation. */
  lemma FlatCellsDisjoint(n: nat, k1: nat, k2: nat)
    requires 0 < n && k1 < n * n && k2 < n * n && k1 != k2
    requires Acts(n, k1) && Acts(n, k2)
    ensures CellsOf(n, k1) !! CellsOf(n, k2)
  {
    SplitBounds(n, n, k1);
    SplitBounds(n, n, k2);
  }

  /** The sequential path: for i in [0, n), j in [0, i), compute the pair
      (i, j) once and write it to [i][j] and [j][i]. */
  method FillSequential(k: Kernel, ds: seq<seq<real>>, d: array2<Value>)
    requires ValidKernel(k, |ds|) && forall i, j :: 0 <= j < i < |ds| ==> Accepts(k, ds[i], ds[j])
    requires d.Length0 == |ds| && d.Length1 == |ds|
    requires forall a, b :: 0 <= a < |ds| && 0 <= b < |ds| ==> d[a, b] == Zero
    modifies d
    ensures forall a, b :: 0 <= a < |ds| && 0 <= b < |ds| ==> d[a, b] == SequentialCell(k, ds, a, b)
  {
    var n := |ds|;
    var i := 0;
    while i < n
      invariant 0 <= i <= n
      invariant forall a, b :: 0 <= a < n && 0 <= b < n ==>
        d[a, b] == if a != b && Max(a, b) < i then SequentialCell(k, ds, a, b) else Zero
    {
      var j := 0;
      while j < i
        invariant 0 <= j <= i
        invariant forall a, b :: 0 <= a < n && 0 <= b < n ==>
          d[a, b] == if a != b && (Max(a, b) < i || (Max(a, b) == i && Min(a, b) < j)) then SequentialCell(k, ds, a, b) else Zero
      {
        StoreMirror(k, ds, d, i, j);
        j := j + 1;
      }
      i := i + 1;
    }
  }

  /** The body of one sequential iteration: compute the pair (i, j), j < i,
      once and write it to both mirrored cells. */
  method StoreMirror(k: Kernel, ds: seq<seq<real>>, d: array2<Value>, i: nat, j: nat)
    requires ValidKernel(k, |ds|) && j < i < |ds| && Accepts(k, ds[i], ds[j])
    requires d.Length0 == |ds| && d.Length1 == |ds|
    modifies d
    ensures forall a, b :: 0 <= a < |ds| && 0 <= b < |ds| ==>
      d[a, b] == (if Max(a, b) == i && Min(a, b) == j then SequentialCell(k, ds, a, b) else old(d[a, b]))
  {
    var v := ComputeDistance(k, ds, i, j);
    d[i, j] := v;
    d[j, i] := v;
  }

  /** The body of one flat-index iteration that acts: compute the pair
      (i, j) once and write it to both mirrored cells. */
  method StorePair(k: Kernel, ds: seq<seq<real>>, d: array2<Value>, i: nat, j: nat)
    requires ValidKernel(k, |ds|) && i < j < |ds| && Accepts(k, ds[i], ds[j])
    requires d.Length0 == |ds| && d.Length1 == |ds|
    modifies d
    ensures forall a, b :: 0 <= a < |ds| && 0 <= b < |ds| ==>
      d[a, b] == (if Min(a, b) == i && Max(a, b) == j then ParallelCell(k, ds, a, b) else old(d[a, b]))
  {
    var v := ComputeDistance(k, ds, i, j);
    d[i, j] := v;
    d[j, i] := v;
  }

  /** The flat-index path: for every k in [0, n * n), split it into
      i = k % n, j = k / n and, when i < j, compute the pair (i, j) and write
      it to [i][j] and [j][i]. */
  method FillFlat(k: Kernel, ds: seq<seq<real>>, d: array2<Value>)
    requires ValidKernel(k, |ds|) && forall i, j :: 0 <= i < j < |ds| ==> Accepts(k, ds[i], ds[j])
    requires d.Length0 == |ds| && d.Length1 == |ds|
    requires forall a, b :: 0 <= a < |ds| && 0 <= b < |ds| ==> d[a, b] == Zero
    modifies d
    ensures forall a, b :: 0 <= a < |ds| && 0 <= b < |ds| ==> d[a, b] == ParallelCell(k, ds, a, b)
  {
    var n := |ds|;
    var size := n * n;
    var index := 0;
    while index < size
      invariant 0 <= index <= size
      invariant forall a, b :: 0 <= a < n && 0 <= b < n ==>
        d[a, b] == if a != b && Owner(n, a, b) < index then ParallelCell(k, ds, a, b) else Zero
    {
      SplitBounds(n, n, index);
      var i := index % n;
      var j := index / n;
      if i < j {
        StorePair(k, ds, d, i, j);
      }
      forall a, b | 0 <= a < n && 0 <= b < n
        ensures Owner(n, a, b) == index <==> Min(a, b) == i && Max(a, b) == j
      {
        OwnerIs(n, index, a, b);
      }
      index := index + 1;
    }
    forall a, b | 0 <= a < n && 0 <= b < n
      ensures Owner(n, a, b) < size
    {
      FlatBounds(n, n, Min(a, b), Max(a, b));
    }
  }

  /** The worker count handed to the scheduler: a request of 0 means the
      processor count, and the result is clamped to at least 1. */
  function DegreeOfParallelism(requested: int, processorCount: nat): (r: nat)
    ensures r >= 1
    ensures requested > 0 ==> r == requested
    ensures requested == 0 ==> r == Max(1, processorCount)
    ensures requested < 0 ==> r == 1
  {
    var effective := if requested == 0 then processorCount else requested;
    if effective < 1 then 1 else effective
  }

  /** `ComputeDistances(dataSet, useMultipleThread)` of a CPU engine whose
      pair kernel is k. Either path yields the sequential matrix. */
  method ComputeDistances(k: Kernel, ds: seq<seq<real>>, useMultipleThread: bool) returns (d: array2<Value>)
    requires ValidKernel(k, |ds|)
    requires useMultipleThread ==> forall i, j :: 0 <= i < j < |ds| ==> Accepts(k, ds[i], ds[j])
    requires !useMultipleThread ==> forall i, j :: 0 <= j < i < |ds| ==> Accepts(k, ds[i], ds[j])
    ensures fresh(d) && d.Length0 == |ds| && d.Length1 == |ds|
    ensures forall a, b :: 0 <= a < |ds| && 0 <= b < |ds| ==> d[a, b] == SequentialCell(k, ds, a, b)
  {
    var n := |ds|;
    d := new Value[n, n]((_, _) => Zero);
    if useMultipleThread {
      FillFlat(k, ds, d);
      forall a, b | 0 <= a < n && 0 <= b < n
        ensures d[a, b] == SequentialCell(k, ds, a, b)
      {
        PathsAgree(k, ds, a, b);
      }
    } else {
      FillSequential(k, ds, d);
    }
  }

  /** Squared magnitude of every whole row: what SimpleV2's first pass caches. */
  function FullMagnitudes(ds: seq<seq<real>>): (r: seq<real>)
    ensures |r| == |ds|
  {
    seq(|ds|, i requires 0 <= i < |ds| => Dot(ds[i], ds[i], |ds[i]|))
  }

  /** SimpleV2's first pass over the integer rows: `dataSetMagnitude[i]` is
      the sum of the squares of the whole of row i, each square an int
      product added to a double. The parallel pass runs the same body for
      each i and writes only slot i. */
  method Magnitudes(ds: seq<seq<int>>) returns (mags: array<real>)
    ensures fresh(mags) && mags[..] == FullMagnitudes(Lift(ds))
  {
    mags := new real[|ds|](_ => 0.0);
    var i := 0;
    while i < |ds|
      invariant 0 <= i <= |ds|
      invariant forall p :: 0 <= p < i ==> mags[p] == FullMagnitudes(Lift(ds))[p]
    {
      var row := LiftRow(ds[i]);
      var magnitude := 0.0;
      var j := 0;
      while j < |ds[i]|
        invariant 0 <= j <= |ds[i]|
        invariant magnitude == Dot(row, row, j)
      {
        magnitude := magnitude + (ds[i][j] * ds[i][j]) as real;
        j := j + 1;
      }
      mags[i] := magnitude;
      i := i + 1;
    }
  }

  /** SimpleV2's `ComputeDistances`: the magnitude pass, then either path
      with the cached-magnitude kernel. */
  method SimpleV2ComputeDistances(ds: seq<seq<int>>, useMultipleThread: bool) returns (d: array2<Value>)
    ensures fresh(d) && d.Length0 == |ds| && d.Length1 == |ds|
    ensures forall a, b :: 0 <= a < |ds| && 0 <= b < |ds| ==>
      d[a, b] == SequentialCell(SimpleV2(FullMagnitudes(Lift(ds))), Lift(ds), a, b)
  {
    var rows := Lift(ds);
    var n := |ds|;
    d := new Value[n, n]((_, _) => Zero);
    var mags := Magnitudes(ds);
    var k := SimpleV2(mags[..]);
    if useMultipleThread {
      FillFlat(k, rows, d);
      forall a, b | 0 <= a < n && 0 <= b < n
        ensures d[a, b] == SequentialCell(k, rows, a, b)
      {
        PathsAgree(k, rows, a, b);
      }
    } else {
      FillSequential(k, rows, d);
    }
  }

  /** Every kernel except the cached-magnitude one gives the scalar engine's
      matrix; the cached-magnitude one does too when its two rows have the
      same length, because then the common prefix is the whole row. */
  lemma EnginesAgree(k: Kernel, ds: seq<seq<real>>, a: nat, b: nat)
    requires a < |ds| && b < |ds| && ValidKernel(k, |ds|)
    requires k.SimpleV2? ==> k.magnitudes == FullMagnitudes(ds) && |ds[a]| == |ds[b]|
    ensures SequentialCell(k, ds, a, b) == SequentialCell(Simple, ds, a, b)
  {
  }

  /** With rows of different lengths the cached-magnitude engine departs
      from the scalar one: its magnitudes cover whole rows while its dot
      product stops at the shorter row. */
  lemma SimpleV2DiffersOnRaggedRows()
    ensures var ds := [[1.0, 1.0], [1.0]];
      SequentialCell(SimpleV2(FullMagnitudes(ds)), ds, 0, 1) == Cosine(1.0, 2.0) &&
      SequentialCell(Simple, ds, 0, 1) == Cosine(1.0, 1.0)
  {
    var ds := [[1.0, 1.0], [1.0]];
    assert FullMagnitudes(ds)[0] == 2.0 by {
      assert Dot(ds[0], ds[0], 2) == 2.0;
    }
  }
}
