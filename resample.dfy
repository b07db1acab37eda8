/**
 * The linear resampler of whisper_jni.cpp (`resample_audio`).
 *
 * Output sample i sits at source position i * inRate / outRate; it is the
 * straight-line interpolation between the input samples either side of
 * that position (the last input sample stands in for the one past the end).
 * The output holds floor(|input| * outRate / inRate) samples. Positions,
 * lengths and weights are computed exactly here; the source computes them
 * in double precision.
 */
module Resampler {
  import opened Arith
  import opened RealMath

  /** The rates the source can resample between without undefined behaviour:
      equal rates are copied, otherwise both must be positive. */
  predicate ValidRates(inRate: int, outRate: int)
  {
    inRate == outRate || (inRate > 0 && outRate > 0)
  }

  /** The number of output samples: the floor of n * outRate / inRate. */
  function OutputLength(n: nat, inRate: nat, outRate: nat): (r: nat)
    requires inRate > 0
    ensures r * inRate <= n * outRate < (r + 1) * inRate
  {
    var x := n * outRate;
    var q := x / inRate;
    FloorMul(x, inRate);
    assert q * inRate <= x < (q + 1) * inRate;
    q
  }

  /** The input sample at or before output sample i's source position. */
  function SourceIndex(i: nat, inRate: nat, outRate: nat): nat
    requires outRate > 0
  {
    i * inRate / outRate
  }

  /** How far output sample i's source position lies past SourceIndex. */
  function Frac(i: nat, inRate: nat, outRate: nat): (f: real)
    requires outRate > 0
    ensures 0.0 <= f < 1.0
    ensures (SourceIndex(i, inRate, outRate) as real + f) * outRate as real == (i * inRate) as real
  {
    var x := i * inRate;
    assert x == outRate * (x / outRate) + x % outRate;
    (x % outRate) as real / outRate as real
  }

  /** Every output position falls inside the input. */
  lemma SourceIndexInBounds(n: nat, inRate: nat, outRate: nat, i: nat)
    requires inRate > 0 && outRate > 0 && i < OutputLength(n, inRate, outRate)
    ensures SourceIndex(i, inRate, outRate) < n
  {
    var len := OutputLength(n, inRate, outRate);
    MulMonotone(i + 1, len, inRate);
    var q := SourceIndex(i, inRate, outRate);
    FloorMul(i * inRate, outRate);
    assert q * outRate < n * outRate;
    MulCancelLess(q, n, outRate);
  }

  /** Output sample i: the interpolation between the two input samples around
      its source position. */
  function Interpolated(input: seq<real>, inRate: nat, outRate: nat, i: nat): real
    requires inRate > 0 && outRate > 0 && i < OutputLength(|input|, inRate, outRate)
  {
    SourceIndexInBounds(|input|, inRate, outRate, i);
    var idx0 := SourceIndex(i, inRate, outRate);
    var idx1 := Min(idx0 + 1, |input| - 1);
    var f := Frac(i, inRate, outRate);
    (1.0 - f) * input[idx0] + f * input[idx1]
  }

  /** The resampled signal. */
  function Resampled(input: seq<real>, inRate: int, outRate: int): seq<real>
    requires ValidRates(inRate, outRate)
  {
    if inRate == outRate then input
    else
      var len := OutputLength(|input|, inRate, outRate);
      seq(len, i requires 0 <= i < len => Interpolated(input, inRate, outRate, i))
  }

  /** The resampler as the source runs it: a copy for equal rates, otherwise
      one loop over the output. */
  method Resample(input: seq<real>, inRate: int, outRate: int) returns (output: seq<real>)
    requires ValidRates(inRate, outRate)
    ensures output == Resampled(input, inRate, outRate)
  {
    if inRate == outRate {
      return input;
    }
    output := InterpolateAll(input, inRate, outRate);
  }

  /** The loop of `resample_audio` for distinct rates. */
  method InterpolateAll(input: seq<real>, inRate: nat, outRate: nat) returns (output: seq<real>)
    requires inRate > 0 && outRate > 0
    ensures |output| == OutputLength(|input|, inRate, outRate)
    ensures forall i :: 0 <= i < |output| ==> output[i] == Interpolated(input, inRate, outRate, i)
  {
    var size := |input| * outRate / inRate;
    var out := new real[size];
    for i := 0 to size
      invariant forall k :: 0 <= k < i ==> out[k] == Interpolated(input, inRate, outRate, k)
    {
      SourceIndexInBounds(|input|, inRate, outRate, i);
      var src := i * inRate;
      var idx0 := src / outRate;
      var idx1 := if idx0 + 1 < |input| - 1 then idx0 + 1 else |input| - 1;
      var frac := (src % outRate) as real / outRate as real;
      out[i] := (1.0 - frac) * input[idx0] + frac * input[idx1];
    }
    return out[..];
  }

  // ---------------------------------------------------------------------------
  // Properties
  // ---------------------------------------------------------------------------

  /** A weighted mean of two values in [lo, hi] lies in [lo, hi]. */
  lemma ConvexCombination(a: real, b: real, f: real, lo: real, hi: real)
    requires 0.0 <= f <= 1.0 && lo <= a <= hi && lo <= b <= hi
    ensures lo <= (1.0 - f) * a + f * b <= hi
  {
    assert (1.0 - f) * a + f * b - lo == (1.0 - f) * (a - lo) + f * (b - lo);
    MulNonNegative(1.0 - f, a - lo);
    MulNonNegative(f, b - lo);
    assert hi - ((1.0 - f) * a + f * b) == (1.0 - f) * (hi - a) + f * (hi - b);
    MulNonNegative(1.0 - f, hi - a);
    MulNonNegative(f, hi - b);
  }

  lemma MulNonNegative(x: real, y: real)
    requires x >= 0.0 && y >= 0.0
    ensures x * y >= 0.0
  {
  }

  /** Resampling never leaves the range of its input. */
  lemma ResampledWithinRange(input: seq<real>, inRate: int, outRate: int, lo: real, hi: real)
    requires ValidRates(inRate, outRate)
    requires forall x :: x in input ==> lo <= x <= hi
    ensures forall x :: x in Resampled(input, inRate, outRate) ==> lo <= x <= hi
  {
    if inRate != outRate {
      var r := Resampled(input, inRate, outRate);
      forall i | 0 <= i < |r|
        ensures lo <= r[i] <= hi
      {
        InterpolatedWithinRange(input, inRate, outRate, i, lo, hi);
      }
    }
  }

  /** Each output lies between its two neighbouring inputs, input[idx0] and
      input[min(idx0 + 1, n - 1)]. */
  lemma InterpolatedBetweenNeighbours(input: seq<real>, inRate: nat, outRate: nat, i: nat)
    requires inRate > 0 && outRate > 0 && i < OutputLength(|input|, inRate, outRate)
    ensures SourceIndex(i, inRate, outRate) < |input|
    ensures var a := input[SourceIndex(i, inRate, outRate)];
      var b := input[Min(SourceIndex(i, inRate, outRate) + 1, |input| - 1)];
      (if a <= b then a else b) <= Interpolated(input, inRate, outRate, i) <= (if a <= b then b else a)
  {
    SourceIndexInBounds(|input|, inRate, outRate, i);
    var idx0 := SourceIndex(i, inRate, outRate);
    var a, b := input[idx0], input[Min(idx0 + 1, |input| - 1)];
    ConvexCombination(a, b, Frac(i, inRate, outRate), if a <= b then a else b, if a <= b then b else a);
  }

  /** Each output lies within any bounds of the whole input. */
  lemma InterpolatedWithinRange(input: seq<real>, inRate: nat, outRate: nat, i: nat, lo: real, hi: real)
    requires inRate > 0 && outRate > 0 && i < OutputLength(|input|, inRate, outRate)
    requires forall x :: x in input ==> lo <= x <= hi
    ensures lo <= Interpolated(input, inRate, outRate, i) <= hi
  {
    SourceIndexInBounds(|input|, inRate, outRate, i);
    var idx0 := SourceIndex(i, inRate, outRate);
    var idx1 := Min(idx0 + 1, |input| - 1);
    var a, b := input[idx0], input[idx1];
    assert a in input && b in input;
    ConvexCombination(a, b, Frac(i, inRate, outRate), lo, hi);
  }

  /** An output position that falls exactly on an input sample takes its value. */
  lemma ResampledOnGrid(input: seq<real>, inRate: nat, outRate: nat, i: nat)
    requires inRate > 0 && outRate > 0 && i < OutputLength(|input|, inRate, outRate)
    requires (i * inRate) % outRate == 0
    ensures SourceIndex(i, inRate, outRate) < |input|
    ensures Interpolated(input, inRate, outRate, i) == input[SourceIndex(i, inRate, outRate)]
  {
    SourceIndexInBounds(|input|, inRate, outRate, i);
  }

  /** Resampling to a rate k times lower keeps every k-th sample. */
  lemma DownsampleByFactor(input: seq<real>, outRate: nat, k: nat)
    requires outRate > 0 && k > 1
    ensures var r := Resampled(input, k * outRate, outRate);
      |r| == |input| / k && forall i :: 0 <= i < |r| ==> k * i < |input| && r[i] == input[k * i]
  {
    var inRate := k * outRate;
    MulMonotone(2, k, outRate);
    assert inRate != outRate;
    var r := Resampled(input, inRate, outRate);
    var n := |input|;
    DivScale(n, k, outRate);
    assert |r| == n * outRate / inRate;
    assert |r| == n / k;
    forall i | 0 <= i < |r|
      ensures k * i < n && r[i] == input[k * i]
    {
      DownsampleAt(input, outRate, k, i);
    }
  }

  lemma DownsampleAt(input: seq<real>, outRate: nat, k: nat, i: nat)
    requires outRate > 0 && k > 1 && i < OutputLength(|input|, k * outRate, outRate)
    ensures k * i < |input|
    ensures Interpolated(input, k * outRate, outRate, i) == input[k * i]
  {
    var inRate := k * outRate;
    assert i * inRate == (k * i) * outRate;
    MulDivExact(k * i, outRate);
    assert SourceIndex(i, inRate, outRate) == k * i;
    ResampledOnGrid(input, inRate, outRate, i);
  }

  /** Resampling to a rate k times higher puts input sample j at output k * j. */
  lemma UpsampleByFactor(input: seq<real>, inRate: nat, k: nat)
    requires inRate > 0 && k > 1
    ensures var r := Resampled(input, inRate, k * inRate);
      |r| == k * |input| && forall j :: 0 <= j < |input| ==> k * j < |r| && r[k * j] == input[j]
  {
    var outRate := k * inRate;
    MulMonotone(2, k, inRate);
    assert inRate != outRate;
    var r := Resampled(input, inRate, outRate);
    assert |input| * outRate == (k * |input|) * inRate;
    MulDivExact(k * |input|, inRate);
    forall j | 0 <= j < |input|
      ensures k * j < |r| && r[k * j] == input[j]
    {
      MulMonotone(j + 1, |input|, k);
      assert (k * j) * inRate == j * outRate;
      MulDivExact(j, outRate);
      ResampledOnGrid(input, inRate, outRate, k * j);
    }
  }

  /** Down-sampling by k undoes up-sampling by k. */
  lemma UpThenDownIsIdentity(input: seq<real>, rate: nat, k: nat)
    requires rate > 0 && k > 1
    ensures Resampled(Resampled(input, rate, k * rate), k * rate, rate) == input
  {
    var up := Resampled(input, rate, k * rate);
    UpsampleByFactor(input, rate, k);
    DownsampleByFactor(up, rate, k);
    var down := Resampled(up, k * rate, rate);
    assert |down| == |input| by {
      assert k * |input| == |input| * k;
      MulDivExact(|input|, k);
    }
    forall i | 0 <= i < |input|
      ensures down[i] == input[i]
    {
    }
  }
}
