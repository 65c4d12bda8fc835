/** The device engine: the dataset is transposed into one flat buffer,
    one kernel instance runs per flat index of an N-by-N grid, and the flat
    result buffer is read back into a matrix. Device views address cell
    (x, y) at x + y * N, which is the layout `Flat` of the index module. */
module Gpu {
  import opened Sums
  import opened Indexing
  import opened Distance
  import opened Pairwise

  /** The exception the one-shot device engine throws. */
  datatype Error =
    | NoGpuFound  // no CUDA accelerator among the installed ones

  datatype Result<T> = Success(value: T) | Failure(error: Error)

  /** Every row has at least dim components, so the transposition can read dim of each. */
  predicate RowsCover(ds: seq<seq<real>>, dim: nat)
  {
    forall i :: 0 <= i < |ds| ==> dim <= |ds[i]|
  }

  /** The device copy of the dataset: component k of row i at i + k * n. */
  function Layout(ds: seq<seq<real>>, dim: nat): (flat: seq<real>)
    requires RowsCover(ds, dim)
    ensures |flat| == |ds| * dim
  {
    var n := |ds|;
    seq(n * dim, p requires 0 <= p < n * dim => SplitBounds(n, dim, p); ds[p % n][p / n])
  }

  /** Row i as a kernel reads it from a flat buffer: components i + k * n, k < dim. */
  function Row(flat: seq<real>, n: nat, dim: nat, i: nat): (r: seq<real>)
    requires i < n && |flat| == n * dim
    ensures |r| == dim
  {
    seq(dim, k requires 0 <= k < dim => FlatBounds(n, dim, i, k); flat[Flat(n, i, k)])
  }

  /** Reading a row back from the device layout gives its first dim components. */
  lemma LayoutRoundTrip(ds: seq<seq<real>>, dim: nat, i: nat)
    requires RowsCover(ds, dim) && i < |ds|
    ensures Row(Layout(ds, dim), |ds|, dim, i) == ds[i][..dim]
  {
    var n := |ds|;
    forall k | 0 <= k < dim
      ensures Row(Layout(ds, dim), n, dim, i)[k] == ds[i][k]
    {
      FlatBounds(n, dim, i, k);
      SplitFlat(n, i, k);
    }
  }

  /** The cells of rows before i, and of row i before column j, hold their
      dataset components. */
  ghost predicate TransposedUpTo(flat: seq<real>, ds: seq<seq<real>>, dim: nat, i: nat, j: nat)
    requires RowsCover(ds, dim) && |flat| == |ds| * dim
  {
    forall a, b :: 0 <= a < |ds| && 0 <= b < dim && (a < i || (a == i && b < j)) ==>
      (FlatBounds(|ds|, dim, a, b); flat[Flat(|ds|, a, b)] == ds[a][b])
  }

  /** Writing component j of row i extends the transposed region by one cell. */
  lemma TransposeStep(flat: seq<real>, ds: seq<seq<real>>, dim: nat, i: nat, j: nat)
    requires RowsCover(ds, dim) && |flat| == |ds| * dim && i < |ds| && j < dim
    requires TransposedUpTo(flat, ds, dim, i, j)
    ensures Flat(|ds|, i, j) < |flat|
    ensures TransposedUpTo(flat[Flat(|ds|, i, j) := ds[i][j]], ds, dim, i, j + 1)
  {
    var n := |ds|;
    FlatBounds(n, dim, i, j);
    var flat' := flat[Flat(n, i, j) := ds[i][j]];
    forall a, b | 0 <= a < n && 0 <= b < dim && (a < i || (a == i && b < j + 1))
      ensures Flat(n, a, b) < |flat'| && flat'[Flat(n, a, b)] == ds[a][b]
    {
      FlatBounds(n, dim, a, b);
      if Flat(n, a, b) == Flat(n, i, j) {
        FlatInjective(n, a, b, i, j);
      }
    }
  }

  /** A fully transposed buffer is the layout. */
  lemma TransposedIsLayout(flat: seq<real>, ds: seq<seq<real>>, dim: nat)
    requires RowsCover(ds, dim) && |flat| == |ds| * dim
    requires TransposedUpTo(flat, ds, dim, |ds|, 0)
    ensures flat == Layout(ds, dim)
  {
    var n := |ds|;
    forall p | 0 <= p < n * dim
      ensures flat[p] == Layout(ds, dim)[p]
    {
      SplitBounds(n, dim, p);
      FlatBounds(n, dim, p % n, p / n);
    }
  }

  /** The host-side transposition loop filling the upload buffer. */
  method Transpose(ds: seq<seq<real>>, dim: nat) returns (flat: array<real>)
    requires RowsCover(ds, dim)
    ensures fresh(flat) && flat[..] == Layout(ds, dim)
  {
    var n := |ds|;
    flat := new real[n * dim];
    for i := 0 to n
      invariant TransposedUpTo(flat[..], ds, dim, i, 0)
    {
      for j := 0 to dim
        invariant TransposedUpTo(flat[..], ds, dim, i, j)
      {
        TransposeStep(flat[..], ds, dim, i, j);
        flat[i + j * n] := ds[i][j];
      }
      assert TransposedUpTo(flat[..], ds, dim, i + 1, 0);
    }
    TransposedIsLayout(flat[..], ds, dim);
  }

  /** The kernel's final step: NaN when the square root of the magnitude
      product is 0, otherwise the clamped distance. */
  function DeviceFinish(dot: real, m1: real, m2: real): Value
  {
    if m1 * m2 == 0.0 then NaN else Cosine(dot, m1 * m2)
  }

  /** What the kernel stores for rows a and b, over their first dim components. */
  function DeviceValue(a: seq<real>, b: seq<real>, dim: nat): Value
    requires dim <= |a| && dim <= |b|
  {
    DeviceFinish(Dot(a, b, dim), Dot(a, a, dim), Dot(b, b, dim))
  }

  /** The value the kernel instance owning cell (x, y) computes from a flat
      dataset buffer: the larger index is its first row. */
  function DeviceCell(flat: seq<real>, n: nat, dim: nat, x: nat, y: nat): Value
    requires x < n && y < n && |flat| == n * dim
  {
    DeviceValue(Row(flat, n, dim, Max(x, y)), Row(flat, n, dim, Min(x, y)), dim)
  }

  /** Component k of a row read back from a flat buffer. */
  lemma RowAt(flat: seq<real>, n: nat, dim: nat, i: nat, k: nat)
    requires i < n && |flat| == n * dim && k < dim
    ensures Flat(n, i, k) < |flat| && Row(flat, n, dim, i)[k] == flat[Flat(n, i, k)]
  {
    FlatBounds(n, dim, i, k);
  }

  /** The three sums of the kernel's loop after its first k columns. */
  ghost predicate SumsUpTo(a: seq<real>, b: seq<real>, k: nat, dot: real, m1: real, m2: real)
    requires k <= |a| && k <= |b|
  {
    dot == Dot(a, b, k) && m1 == Dot(a, a, k) && m2 == Dot(b, b, k)
  }

  lemma SumsStep(a: seq<real>, b: seq<real>, k: nat, dot: real, m1: real, m2: real, one: real, two: real)
    requires k < |a| && k < |b| && SumsUpTo(a, b, k, dot, m1, m2)
    requires one == a[k] && two == b[k]
    ensures SumsUpTo(a, b, k + 1, dot + one * two, m1 + one * one, m2 + two * two)
  {
  }

  /** The read of component k of row i in the kernel's loop. */
  method Component(dataset: seq<real>, n: nat, dim: nat, i: nat, k: nat) returns (x: real)
    requires i < n && k < dim && |dataset| == n * dim
    ensures x == Row(dataset, n, dim, i)[k]
  {
    RowAt(dataset, n, dim, i, k);
    x := dataset[i + k * n];
  }

  /** The kernel's loop over the dim columns of rows i and j, reading
      component k of a row at i + k * n. */
  method Accumulate(dataset: seq<real>, n: nat, dim: nat, i: nat, j: nat) returns (dot: real, m1: real, m2: real)
    requires i < n && j < n && |dataset| == n * dim
    ensures dot == Dot(Row(dataset, n, dim, i), Row(dataset, n, dim, j), dim)
    ensures m1 == Dot(Row(dataset, n, dim, i), Row(dataset, n, dim, i), dim)
    ensures m2 == Dot(Row(dataset, n, dim, j), Row(dataset, n, dim, j), dim)
  {
    ghost var a, b := Row(dataset, n, dim, i), Row(dataset, n, dim, j);
    dot, m1, m2 := 0.0, 0.0, 0.0;
    for k := 0 to dim
      invariant SumsUpTo(a, b, k, dot, m1, m2)
    {
      dot, m1, m2 := AddColumn(dataset, n, dim, i, j, k, dot, m1, m2);
    }
  }

  /** One iteration of the kernel's loop: read component k of both rows
      and add the three products. */
  method AddColumn(dataset: seq<real>, n: nat, dim: nat, i: nat, j: nat, k: nat, dot0: real, m10: real, m20: real)
    returns (dot: real, m1: real, m2: real)
    requires i < n && j < n && k < dim && |dataset| == n * dim
    requires SumsUpTo(Row(dataset, n, dim, i), Row(dataset, n, dim, j), k, dot0, m10, m20)
    ensures SumsUpTo(Row(dataset, n, dim, i), Row(dataset, n, dim, j), k + 1, dot, m1, m2)
  {
    var one := Component(dataset, n, dim, i, k);
    var two := Component(dataset, n, dim, j, k);
    SumsStep(Row(dataset, n, dim, i), Row(dataset, n, dim, j), k, dot0, m10, m20, one, two);
    dot, m1, m2 := dot0 + one * two, m10 + one * one, m20 + two * two;
  }

  /** The result buffer after the instance for rows i and j ran on buf:
      nothing when i < j, otherwise the cells (i, j) and (j, i) hold the
      device value of the two rows. */
  function KernelEffect(buf: seq<Value>, flat: seq<real>, n: nat, dim: nat, i: nat, j: nat): (r: seq<Value>)
    requires |buf| == n * n && |flat| == n * dim && i < n && j < n
    ensures |r| == |buf|
  {
    if i < j then buf
    else
      FlatBounds(n, n, i, j);
      FlatBounds(n, n, j, i);
      var v := DeviceCell(flat, n, dim, i, j);
      buf[Flat(n, i, j) := v][Flat(n, j, i) := v]
  }

  /** One kernel instance: i = index / n, j = index % n; it returns when
      i < j, and otherwise writes the value of rows i and j to the cells
      (i, j) and (j, i). */
  method KernelInstance(index: nat, dataset: seq<real>, n: nat, dim: nat, distances: array<Value>)
    requires index < n * n && |dataset| == n * dim && distances.Length == n * n
    modifies distances
    ensures index / n < n && index % n < n
    ensures distances[..] == KernelEffect(old(distances[..]), dataset, n, dim, index / n, index % n)
  {
    SplitBounds(n, n, index);
    var i := index / n;
    var j := index % n;
    if i < j {
      return;
    }
    var distance := Measure(dataset, n, dim, i, j);
    FlatBounds(n, n, i, j);
    FlatBounds(n, n, j, i);
    distances[i + j * n] := distance;
    distances[j + i * n] := distance;
  }

  /** The arithmetic of one acting instance (j <= i): the three sums, then
      NaN for a zero magnitude product and the distance otherwise. */
  method Measure(dataset: seq<real>, n: nat, dim: nat, i: nat, j: nat) returns (distance: Value)
    requires j <= i < n && |dataset| == n * dim
    ensures distance == DeviceCell(dataset, n, dim, i, j)
  {
    var dot, m1, m2 := Accumulate(dataset, n, dim, i, j);
    distance := NaN;
    if m1 * m2 != 0.0 {
      distance := Cosine(dot, m1 * m2);
    }
    assert Max(i, j) == i && Min(i, j) == j;
    assert distance == DeviceFinish(dot, m1, m2);
  }

  /** Every cell whose owning instance is below index holds its device value. */
  ghost predicate LaunchedUpTo(buf: seq<Value>, flat: seq<real>, n: nat, dim: nat, index: nat)
    requires |buf| == n * n && |flat| == n * dim
  {
    forall x, y :: 0 <= x < n && 0 <= y < n && Owner(n, x, y) < index ==>
      (FlatBounds(n, n, x, y); buf[Flat(n, x, y)] == DeviceCell(flat, n, dim, x, y))
  }

  /** One cell across the instance for rows i and j: if every cell owned
      below that instance held its value before, the cell holds its value
      after whenever its owner is at most that instance. */
  lemma LaunchCell(buf: seq<Value>, flat: seq<real>, n: nat, dim: nat, i: nat, j: nat, x: nat, y: nat)
    requires |buf| == n * n && |flat| == n * dim && i < n && j < n && x < n && y < n
    requires Flat(n, x, y) < n * n
    requires Owner(n, x, y) < Flat(n, j, i) ==> buf[Flat(n, x, y)] == DeviceCell(flat, n, dim, x, y)
    requires Owner(n, x, y) <= Flat(n, j, i)
    ensures KernelEffect(buf, flat, n, dim, i, j)[Flat(n, x, y)] == DeviceCell(flat, n, dim, x, y)
  {
    LaunchStep(n, i, j, x, y);
    var p := Flat(n, x, y);
    var after := KernelEffect(buf, flat, n, dim, i, j);
    if i < j {
      assert after == buf;
      assert Owner(n, x, y) != Flat(n, j, i);
    } else {
      FlatBounds(n, n, i, j);
      FlatBounds(n, n, j, i);
      var v := DeviceCell(flat, n, dim, i, j);
      assert after == buf[Flat(n, i, j) := v][Flat(n, j, i) := v];
      if p == Flat(n, i, j) || p == Flat(n, j, i) {
        assert after[p] == v;
        assert Max(x, y) == Max(i, j) && Min(x, y) == Min(i, j);
      } else {
        assert after[p] == buf[p];
        assert Owner(n, x, y) != Flat(n, j, i);
      }
    }
  }

  /** Running the instance at index extends the launched region by its cells. */
  lemma LaunchProgress(buf: seq<Value>, flat: seq<real>, n: nat, dim: nat, index: nat)
    requires |buf| == n * n && |flat| == n * dim && index < n * n
    requires LaunchedUpTo(buf, flat, n, dim, index)
    ensures index / n < n && index % n < n
    ensures LaunchedUpTo(KernelEffect(buf, flat, n, dim, index / n, index % n), flat, n, dim, index + 1)
  {
    SplitBounds(n, n, index);
    var i, j := index / n, index % n;
    assert index == Flat(n, j, i);
    forall x, y | 0 <= x < n && 0 <= y < n && Owner(n, x, y) < index + 1
      ensures Flat(n, x, y) < n * n && KernelEffect(buf, flat, n, dim, i, j)[Flat(n, x, y)] == DeviceCell(flat, n, dim, x, y)
    {
      FlatBounds(n, n, x, y);
      LaunchCell(buf, flat, n, dim, i, j, x, y);
    }
  }

  /** The kernel launched over the flat range [0, n * n). The result buffer
      starts with whatever the device allocation holds; every cell is
      written by the instance that owns it. */
  method Launch(dataset: seq<real>, n: nat, dim: nat, distances: array<Value>)
    requires |dataset| == n * dim && distances.Length == n * n
    modifies distances
    ensures forall x, y :: 0 <= x < n && 0 <= y < n ==>
      Flat(n, x, y) < n * n && distances[Flat(n, x, y)] == DeviceCell(dataset, n, dim, x, y)
  {
    var index := 0;
    while index < n * n
      invariant 0 <= index <= n * n
      invariant LaunchedUpTo(distances[..], dataset, n, dim, index)
    {
      LaunchProgress(distances[..], dataset, n, dim, index);
      KernelInstance(index, dataset, n, dim, distances);
      index := index + 1;
    }
    forall x, y | 0 <= x < n && 0 <= y < n
      ensures Flat(n, x, y) < n * n && distances[Flat(n, x, y)] == DeviceCell(dataset, n, dim, x, y)
    {
      FlatBounds(n, n, x, y);
      FlatBounds(n, n, Min(x, y), Max(x, y));
    }
  }

  /** The instance whose flat index splits into i = index / n and
      j = index % n owns the cells {x, y} == {i, j}, and the cells it writes
      are exactly those. */
  lemma LaunchStep(n: nat, i: nat, j: nat, x: nat, y: nat)
    requires i < n && j < n && x < n && y < n
    ensures Flat(n, x, y) < n * n
    ensures Owner(n, x, y) == Flat(n, j, i) <==> Min(x, y) == j && Max(x, y) == i
    ensures Flat(n, x, y) == Flat(n, i, j) || Flat(n, x, y) == Flat(n, j, i) ==>
      Min(x, y) == Min(i, j) && Max(x, y) == Max(i, j)
  {
    FlatBounds(n, n, x, y);
    if Owner(n, x, y) == Flat(n, j, i) {
      FlatInjective(n, Min(x, y), Max(x, y), j, i);
    }
    if Flat(n, x, y) == Flat(n, i, j) {
      FlatInjective(n, x, y, i, j);
    }
    if Flat(n, x, y) == Flat(n, j, i) {
      FlatInjective(n, x, y, j, i);
    }
  }

  /** The host-side readback: result[x][y] is the buffer entry x + y * n. */
  method Readback(data: array<Value>, n: nat) returns (d: array2<Value>)
    requires data.Length == n * n
    ensures fresh(d) && d.Length0 == n && d.Length1 == n
    ensures forall x, y :: 0 <= x < n && 0 <= y < n ==>
      Flat(n, x, y) < n * n && d[x, y] == data[Flat(n, x, y)]
  {
    d := new Value[n, n]((_, _) => Zero);
    for x := 0 to n
      invariant forall a, b :: 0 <= a < x && 0 <= b < n ==>
        Flat(n, a, b) < n * n && d[a, b] == data[Flat(n, a, b)]
    {
      for y := 0 to n
        invariant forall a, b :: 0 <= a < x && 0 <= b < n ==>
          Flat(n, a, b) < n * n && d[a, b] == data[Flat(n, a, b)]
        invariant forall b :: 0 <= b < y ==> Flat(n, x, b) < n * n && d[x, b] == data[Flat(n, x, b)]
      {
        FlatBounds(n, n, x, y);
        d[x, y] := data[x + y * n];
      }
    }
  }

  /** Cell (x, y) of the device engine's matrix, over the first
      dim = |ds[0]| components of each row. */
  function GpuCell(ds: seq<seq<real>>, x: nat, y: nat): Value
    requires x < |ds| && y < |ds| && RowsCover(ds, |ds[0]|)
  {
    DeviceValue(ds[Max(x, y)], ds[Min(x, y)], |ds[0]|)
  }

  /** A dot product of two rows read back from the layout is the dot
      product of the rows themselves. */
  lemma LayoutDot(ds: seq<seq<real>>, dim: nat, a: nat, b: nat)
    requires RowsCover(ds, dim) && a < |ds| && b < |ds|
    ensures Dot(Row(Layout(ds, dim), |ds|, dim, a), Row(Layout(ds, dim), |ds|, dim, b), dim) == Dot(ds[a], ds[b], dim)
  {
    var ra, rb := Row(Layout(ds, dim), |ds|, dim, a), Row(Layout(ds, dim), |ds|, dim, b);
    LayoutRoundTrip(ds, dim, a);
    LayoutRoundTrip(ds, dim, b);
    assert ra[..dim] == ra && rb[..dim] == rb;
    DotPrefix(ra, rb, ds[a], ds[b], dim);
  }

  /** The kernel reading the uploaded layout computes the cell from the rows themselves. */
  lemma DeviceCellOfLayout(ds: seq<seq<real>>, dim: nat, x: nat, y: nat)
    requires RowsCover(ds, dim) && x < |ds| && y < |ds|
    ensures DeviceCell(Layout(ds, dim), |ds|, dim, x, y) == DeviceValue(ds[Max(x, y)], ds[Min(x, y)], dim)
  {
    var a, b := Max(x, y), Min(x, y);
    var flat := Layout(ds, dim);
    var ra, rb := Row(flat, |ds|, dim, a), Row(flat, |ds|, dim, b);
    assert DeviceCell(flat, |ds|, dim, x, y) == DeviceValue(ra, rb, dim);
    LayoutDot(ds, dim, a, b);
    LayoutDot(ds, dim, a, a);
    LayoutDot(ds, dim, b, b);
  }

  /** Upload, launch over n * n instances, synchronise and read back: the
      device part shared by the one-shot and the cached engine. */
  method Offload(ds: seq<seq<real>>, flat: array<real>) returns (d: array2<Value>)
    requires |ds| >= 1 && RowsCover(ds, |ds[0]|) && flat[..] == Layout(ds, |ds[0]|)
    ensures fresh(d) && d.Length0 == |ds| && d.Length1 == |ds|
    ensures forall x, y :: 0 <= x < |ds| && 0 <= y < |ds| ==> d[x, y] == GpuCell(ds, x, y)
  {
    var n, dim := |ds|, |ds[0]|;
    var distances := new Value[n * n];
    Launch(flat[..], n, dim, distances);
    d := Readback(distances, n);
    forall x, y | 0 <= x < n && 0 <= y < n
      ensures d[x, y] == GpuCell(ds, x, y)
    {
      DeviceCellOfLayout(ds, dim, x, y);
    }
  }

  /** The one-shot device engine: transpose, look for a CUDA accelerator
      (given here as a flag), then offload. */
  method ComputeDistances(ds: seq<seq<real>>, cudaDevice: bool) returns (r: Result<array2<Value>>)
    requires |ds| >= 1 && RowsCover(ds, |ds[0]|)
    ensures r.Failure? <==> !cudaDevice
    ensures r.Failure? ==> r.error == NoGpuFound
    ensures r.Success? ==> fresh(r.value) && r.value.Length0 == |ds| && r.value.Length1 == |ds|
    ensures r.Success? ==> forall x, y :: 0 <= x < |ds| && 0 <= y < |ds| ==> r.value[x, y] == GpuCell(ds, x, y)
  {
    var flat := Transpose(ds, |ds[0]|);
    if !cudaDevice {
      return Failure(NoGpuFound);
    }
    var d := Offload(ds, flat);
    r := Success(d);
  }

  /** The device matrix is symmetric and, off the diagonal and on
      equal-length rows, reads as the scalar engine's matrix does once
      its 0 / 0 cells are evaluated to NaN. */
  lemma GpuMatchesCpu(ds: seq<seq<real>>, x: nat, y: nat)
    requires x < |ds| && y < |ds| && x != y
    requires forall i :: 0 <= i < |ds| ==> |ds[i]| == |ds[0]|
    ensures GpuCell(ds, x, y) == GpuCell(ds, y, x)
    ensures GpuCell(ds, x, y) == Observed(SequentialCell(Simple, ds, x, y))
  {
    ZeroNormHasZeroDot(ds[Max(x, y)], ds[Min(x, y)]);
  }

  /** Unlike the CPU engines, the device engine writes the diagonal: a row
      that is zero over the first dim components gives NaN; any other row
      gives dot == m and normProduct == m * m with m > 0, that is
      1 - m / sqrt(m * m) == 0 in exact arithmetic. */
  lemma GpuDiagonal(ds: seq<seq<real>>, x: nat)
    requires x < |ds| && RowsCover(ds, |ds[0]|)
    ensures GpuCell(ds, x, x) == NaN <==> forall k :: 0 <= k < |ds[0]| ==> ds[x][k] == 0.0
    ensures GpuCell(ds, x, x).Cosine? ==>
      var m := GpuCell(ds, x, x).dot; m > 0.0 && GpuCell(ds, x, x).normProduct == m * m
  {
    var dim := |ds[0]|;
    var m := Dot(ds[x], ds[x], dim);
    SquaredMagnitudeNonNegative(ds[x], dim);
    SquaredMagnitudeZero(ds[x], dim);
    SquareZero(m);
  }
}
