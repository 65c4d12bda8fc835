/** The per-pair distance kernels of the CPU engines. Each accumulates a
    dot product and two squared magnitudes and then applies the final step
    max(0, 1 - dot / sqrt(m1 * m2)). The float, double and int copies of
    one kernel differ only in element width and are one model here. */
module Distance {
  import opened Sums
  import opened Indexing

  /** One cell of a distance matrix. The source stores the floating-point
      value max(0, 1 - dot / sqrt(m1 * m2)); a square root is not available
      here, so a computed cell records the two exact quantities that value
      is a function of. */
  datatype Value =
    | Zero                                  // the 0 a freshly allocated matrix holds
    | NaN                                   // the marker the device kernel writes for a zero divisor
    | Cosine(dot: real, normProduct: real)  // max(0, 1 - dot / sqrt(normProduct))

  /** The final step shared by every engine. It reads the magnitudes only
      through their product. */
  function Finish(dot: real, m1: real, m2: real): Value
  {
    Cosine(dot, m1 * m2)
  }

  lemma FinishSymmetric(dot: real, m1: real, m2: real)
    ensures Finish(dot, m1, m2) == Finish(dot, m2, m1)
  {
  }

  /** The reference distance (the scalar engine): the three sums run over
      the indices below the shorter of the two lengths. */
  function CosineDistance(a: seq<real>, b: seq<real>): Value
  {
    var m := Min(|a|, |b|);
    Finish(Dot(a, b, m), Dot(a, a, m), Dot(b, b, m))
  }

  /** Swapping the arguments keeps the dot product and swaps the two
      magnitudes, so the distance is symmetric. */
  lemma CosineDistanceSymmetric(a: seq<real>, b: seq<real>)
    ensures CosineDistance(a, b) == CosineDistance(b, a)
  {
    DotSymmetric(a, b, Min(|a|, |b|));
  }

  /** How a cell reads once the final step is evaluated in floating point:
      a zero norm product makes the division 0 / 0, which is NaN, and the
      clamp keeps NaN. Every other cell reads as itself. */
  function Observed(v: Value): Value
  {
    if v.Cosine? && v.normProduct == 0.0 then NaN else v
  }

  /** A zero norm product comes from a zero vector, so the dot product is
      zero too: the reference distance of a zero row is 0 / 0, never x / 0
      with x nonzero. */
  lemma ZeroNormHasZeroDot(a: seq<real>, b: seq<real>)
    ensures CosineDistance(a, b).normProduct >= 0.0
    ensures CosineDistance(a, b).normProduct == 0.0 ==> CosineDistance(a, b).dot == 0.0
  {
    var m := Min(|a|, |b|);
    SquaredMagnitudeNonNegative(a, m);
    SquaredMagnitudeNonNegative(b, m);
    var m1, m2 := Dot(a, a, m), Dot(b, b, m);
    if m1 * m2 == 0.0 {
      if m1 == 0.0 {
        SquaredMagnitudeZero(a, m);
        DotZeroLeft(a, b, m);
      } else {
        assert m2 == 0.0 by {
          assert m1 * m2 / m1 == m2;
        }
        SquaredMagnitudeZero(b, m);
        DotZeroLeft(b, a, m);
        DotSymmetric(a, b, m);
      }
    }
  }

  /** The scalar kernel (Simple engines): one loop over the common prefix
      updating three accumulators. */
  method SimpleDistance(a: seq<real>, b: seq<real>) returns (v: Value)
    ensures v == CosineDistance(a, b)
  {
    var dot, m1, m2 := 0.0, 0.0, 0.0;
    var i := 0;
    while i < |a| && i < |b|
      invariant i <= |a| && i <= |b|
      invariant dot == Dot(a, b, i) && m1 == Dot(a, a, i) && m2 == Dot(b, b, i)
    {
      dot := dot + a[i] * b[i];
      m1 := m1 + a[i] * a[i];
      m2 := m2 + b[i] * b[i];
      i := i + 1;
    }
    v := Finish(dot, m1, m2);
  }

  /** The magnitude-cached kernel (SimpleV2): only the dot product is
      accumulated, over the common prefix; the magnitudes are passed in. */
  method SimpleV2Distance(a: seq<real>, b: seq<real>, m1: real, m2: real) returns (v: Value)
    ensures v == Finish(Dot(a, b, Min(|a|, |b|)), m1, m2)
    ensures |a| == |b| && m1 == Dot(a, a, |a|) && m2 == Dot(b, b, |b|) ==> v == CosineDistance(a, b)
  {
    var dot := 0.0;
    var i := 0;
    while i < |a| && i < |b|
      invariant i <= |a| && i <= |b|
      invariant dot == Dot(a, b, i)
    {
      dot := dot + a[i] * b[i];
      i := i + 1;
    }
    v := Finish(dot, m1, m2);
  }

  /** Hardware lane count `Vector<T>.Count`: at least one. */
  type Lanes = s: int | s >= 1 witness 1

  /** Where the lane loop stops: `len / s * s`, the largest multiple of s
      not above len. The scalar tail covers the fewer than s indices after it. */
  function ChunkEnd(len: nat, s: Lanes): (n: nat)
    ensures n % s == 0 && n <= len && len - n < s
    ensures n == (len / s) * s
  {
    DivModUnique(len / s * s, s, len / s, 0);
    len / s * s
  }

  /** The narrow-accumulate SIMD kernel (VectorizedV1): each lane group of
      width s is reduced at once with `Vector.Dot`, then a scalar tail runs
      from where the lane loop stopped. Only the first argument's length
      bounds the loops, so the second must be at least as long. The result
      is the reference distance whether or not the hardware is accelerated. */
  method VectorizedV1Distance(a: seq<real>, b: seq<real>, s: Lanes, accelerated: bool) returns (v: Value)
    requires |a| <= |b|
    ensures v == CosineDistance(a, b)
  {
    var dot, m1, m2 := 0.0, 0.0, 0.0;
    var i := 0;
    if accelerated {
      var n := ChunkEnd(|a|, s);
      ghost var c := 0;
      while i < n
        invariant 0 <= i <= n && i == c * s
        invariant dot == Dot(a, b, i) && m1 == Dot(a, a, i) && m2 == Dot(b, b, i)
      {
        assert i + s <= n by {
          NextChunkFits(c, |a| / s, s);
        }
        DotSplit(a, b, i, s);
        DotSplit(a, a, i, s);
        DotSplit(b, b, i, s);
        dot := dot + LaneDot(a, b, i, s);
        m1 := m1 + LaneDot(a, a, i, s);
        m2 := m2 + LaneDot(b, b, i, s);
        assert i + s == (c + 1) * s;
        i, c := i + s, c + 1;
      }
    }
    dot, m1, m2 := ScalarTail(a, b, i, dot, m1, m2);
    v := Finish(dot, m1, m2);
  }

  /** The scalar loop the SIMD kernels finish with: from `start` to the end
      of the first argument, each accumulator gains the products the lane
      loop did not cover. */
  method ScalarTail(a: seq<real>, b: seq<real>, start: nat, dot0: real, m10: real, m20: real)
    returns (dot: real, m1: real, m2: real)
    requires start <= |a| <= |b|
    ensures dot - dot0 == Dot(a, b, |a|) - Dot(a, b, start)
    ensures m1 - m10 == Dot(a, a, |a|) - Dot(a, a, start)
    ensures m2 - m20 == Dot(b, b, |a|) - Dot(b, b, start)
  {
    dot, m1, m2 := dot0, m10, m20;
    var i := start;
    while i < |a|
      invariant start <= i <= |a|
      invariant dot - dot0 == Dot(a, b, i) - Dot(a, b, start)
      invariant m1 - m10 == Dot(a, a, i) - Dot(a, a, start)
      invariant m2 - m20 == Dot(b, b, i) - Dot(b, b, start)
    {
      dot := dot + a[i] * b[i];
      m1 := m1 + a[i] * a[i];
      m2 := m2 + b[i] * b[i];
      i := i + 1;
    }
  }

  /** `Vector<T>.CopyTo(array)`: the lanes overwrite the first |lanes|
      slots of the buffer; the slots after them keep what they held. */
  method CopyTo(lanes: seq<real>, buffer: array<real>)
    requires |lanes| <= buffer.Length
    modifies buffer
    ensures buffer[..] == lanes + old(buffer[|lanes|..])
  {
    forall l | 0 <= l < |lanes| {
      buffer[l] := lanes[l];
    }
    assert buffer[..] == lanes + old(buffer[|lanes|..]);
  }

  /** The lane loop of the wide-accumulate kernel: three lane-width
      accumulators start at zero and take `acc + one * two` for every lane
      group before `ChunkEnd(|a|, s)`. Afterwards lane l holds the sum of
      the products at offset l of every group, and the lanes of each
      accumulator add up to the plain sum over [0, n). */
  method AccumulateLanes(a: seq<real>, b: seq<real>, s: Lanes)
    returns (n: nat, dotLanes: seq<real>, m1Lanes: seq<real>, m2Lanes: seq<real>)
    requires |a| <= |b|
    ensures n == ChunkEnd(|a|, s)
    ensures |dotLanes| == s && |m1Lanes| == s && |m2Lanes| == s
    ensures Accumulated(dotLanes, a, b, s, n) && Accumulated(m1Lanes, a, a, s, n) && Accumulated(m2Lanes, b, b, s, n)
  {
    n := ChunkEnd(|a|, s);
    dotLanes, m1Lanes, m2Lanes := seq(s, _ => 0.0), seq(s, _ => 0.0), seq(s, _ => 0.0);
    SumZeros(s);
    assert HoldsColumns(seq(s, _ => 0.0), a, b, s, 0);
    var i := 0;
    ghost var c := 0;
    while i < n
      invariant 0 <= i <= n && i == c * s
      invariant Accumulated(dotLanes, a, b, s, i) && Accumulated(m1Lanes, a, a, s, i) && Accumulated(m2Lanes, b, b, s, i)
    {
      assert i + s <= n by {
        NextChunkFits(c, |a| / s, s);
      }
      dotLanes, m1Lanes, m2Lanes := AddLaneGroup(a, b, s, i, dotLanes, m1Lanes, m2Lanes);
      assert i + s == (c + 1) * s;
      i, c := i + s, c + 1;
    }
  }

  /** One iteration of the lane loop: the vectors of a and b starting at i
      are multiplied lane-wise into the three accumulators. */
  method AddLaneGroup(a: seq<real>, b: seq<real>, s: Lanes, i: nat, dot0: seq<real>, m10: seq<real>, m20: seq<real>)
    returns (dotLanes: seq<real>, m1Lanes: seq<real>, m2Lanes: seq<real>)
    requires i + s <= |a| <= |b|
    requires Accumulated(dot0, a, b, s, i) && Accumulated(m10, a, a, s, i) && Accumulated(m20, b, b, s, i)
    ensures Accumulated(dotLanes, a, b, s, i + s) && Accumulated(m1Lanes, a, a, s, i + s) && Accumulated(m2Lanes, b, b, s, i + s)
  {
    AccumulateStep(dot0, a, b, s, i);
    AccumulateStep(m10, a, a, s, i);
    AccumulateStep(m20, b, b, s, i);
    dotLanes := AddProducts(dot0, a, b, i);
    m1Lanes := AddProducts(m10, a, a, i);
    m2Lanes := AddProducts(m20, b, b, i);
  }

  /** An accumulator after the lane groups before i: lane l holds the
      products at offset l of every group, and the lanes add up to the plain
      sum over [0, i). */
  ghost predicate Accumulated(acc: seq<real>, x: seq<real>, y: seq<real>, s: Lanes, i: nat)
    requires i <= |x| && i <= |y|
  {
    HoldsColumns(acc, x, y, s, i) && Sum(acc) == Dot(x, y, i)
  }

  /** One lane-wise update keeps an accumulator accumulated, one group further on. */
  lemma AccumulateStep(acc: seq<real>, x: seq<real>, y: seq<real>, s: Lanes, i: nat)
    requires i + s <= |x| && i + s <= |y|
    requires Accumulated(acc, x, y, s, i)
    ensures Accumulated(AddProducts(acc, x, y, i), x, y, s, i + s)
  {
    DotSplit(x, y, i, s);
    SumAddProducts(acc, x, y, i);
    ColumnsStep(acc, x, y, s, i);
  }

  /** Lane l of the accumulator holds `LaneColumn(x, y, s, l, i)`, for every lane. */
  ghost predicate HoldsColumns(acc: seq<real>, x: seq<real>, y: seq<real>, s: Lanes, i: nat)
    requires i <= |x| && i <= |y|
  {
    |acc| == s && forall l :: 0 <= l < s ==> acc[l] == LaneColumn(x, y, s, l, i)
  }

  /** One lane-wise update moves every lane on by one lane group. */
  lemma ColumnsStep(acc: seq<real>, x: seq<real>, y: seq<real>, s: Lanes, i: nat)
    requires i + s <= |x| && i + s <= |y|
    requires HoldsColumns(acc, x, y, s, i)
    ensures HoldsColumns(AddProducts(acc, x, y, i), x, y, s, i + s)
  {
  }

  /** The single reduction of one accumulator: `CopyTo` the rented buffer,
      then sum the whole buffer. Slots past the lanes are summed too. */
  method Reduce(lanes: seq<real>, buffer: array<real>) returns (total: real)
    requires |lanes| <= buffer.Length
    modifies buffer
    ensures total == Sum(lanes) + Sum(old(buffer[|lanes|..]))
    ensures buffer[..|lanes|] == lanes && buffer[|lanes|..] == old(buffer[|lanes|..])
  {
    CopyTo(lanes, buffer);
    total := Sum(buffer[..]);
    SumAppend(lanes, old(buffer[|lanes|..]));
    assert buffer[|lanes|..] == (lanes + old(buffer[|lanes|..]))[|lanes|..];
  }

  /** The wide-accumulate SIMD kernel (VectorizedV2): the lane loop, one
      reduction per accumulator through a rented buffer, then the scalar
      tail. A rented buffer may be longer than s; whatever its slots past s
      hold (`extra` is their sum) is added to each of the three totals. With
      those slots at zero, the result is the reference distance. */
  method VectorizedV2Distance(a: seq<real>, b: seq<real>, s: Lanes, accelerated: bool, buffer: array<real>)
    returns (v: Value)
    requires |a| <= |b| && s <= buffer.Length
    modifies buffer
    ensures var extra := if accelerated then Sum(old(buffer[s..])) else 0.0;
      v == Finish(Dot(a, b, |a|) + extra, Dot(a, a, |a|) + extra, Dot(b, b, |a|) + extra)
    ensures buffer[s..] == old(buffer[s..])
    ensures Sum(old(buffer[s..])) == 0.0 || !accelerated ==> v == CosineDistance(a, b)
  {
    var dot, m1, m2 := 0.0, 0.0, 0.0;
    var i := 0;
    if accelerated {
      var dotLanes, m1Lanes, m2Lanes;
      i, dotLanes, m1Lanes, m2Lanes := AccumulateLanes(a, b, s);
      dot := Reduce(dotLanes, buffer);
      m1 := Reduce(m1Lanes, buffer);
      m2 := Reduce(m2Lanes, buffer);
    }
    dot, m1, m2 := ScalarTail(a, b, i, dot, m1, m2);
    v := Finish(dot, m1, m2);
  }

  lemma {:induction false} SumZeros(s: nat)
    ensures Sum(seq(s, _ => 0.0)) == 0.0
  {
    if s > 0 {
      assert seq(s, _ => 0.0)[..s - 1] == seq(s - 1, _ => 0.0);
      SumZeros(s - 1);
    }
  }
}
