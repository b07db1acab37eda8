/**
 * The log-mel spectrogram of whisper_jni.cpp (`compute_mel_spectrogram`):
 *
 *  - the samples are padded with 200 zeros on each side;
 *  - frame f is the 400 padded samples from f * 160 on, times a Hann window;
 *  - each frame goes through a 400-point discrete Fourier transform, and
 *    its 201 one-sided bins are squared into a power spectrum;
 *  - filter m of the mel filter bank weighs the power spectrum into one
 *    energy, floored at 1e-10, whose log10 becomes cell m * n_frames + f;
 *  - finally the whole matrix is clamped to (max - 8) and mapped to
 *    (v + 4) / 4.
 *
 * The source hands the frame to `fft`, which needs a power-of-two length
 * and indexes past the end on 400 points (see Fft.Fft400OutOfBounds). The
 * model computes the transform the call is there for, the discrete
 * Fourier transform of the frame, by its definition.
 */
module Spectrogram {
  import opened Arith
  import opened RealMath
  import Fft
  import MelFilterBank

  const NFft: nat := MelFilterBank.NFft
  const NMel: nat := MelFilterBank.NMel
  const NFreqs: nat := MelFilterBank.NFreqs
  const Hop: nat := 160
  /** The energy floor 1e-10 applied before the logarithm. */
  const EnergyFloor: real := 0.0000000001

  // ---------------------------------------------------------------------------
  // Padding and framing
  // ---------------------------------------------------------------------------

  /** The samples with NFft / 2 zeros before and after them. */
  function Padded(samples: seq<real>): (p: seq<real>)
    ensures |p| == |samples| + NFft
  {
    seq(|samples| + NFft, i requires 0 <= i < |samples| + NFft =>
      if NFft / 2 <= i < NFft / 2 + |samples| then samples[i - NFft / 2] else 0.0)
  }

  /** Removing the 200 zeros on each side gives the samples back. */
  lemma PaddedLayout(samples: seq<real>)
    ensures Padded(samples)[NFft / 2..NFft / 2 + |samples|] == samples
    ensures forall i :: 0 <= i < NFft / 2 ==> Padded(samples)[i] == 0.0
    ensures forall i :: NFft / 2 + |samples| <= i < |samples| + NFft ==> Padded(samples)[i] == 0.0
  {
    var p := Padded(samples);
    forall i | 0 <= i < |samples|
      ensures p[NFft / 2..NFft / 2 + |samples|][i] == samples[i]
    {
      assert p[NFft / 2 + i] == samples[i];
    }
  }

  /** The zero-filled vector of n + 400 floats, then `std::copy` of the
      samples to offset 200. */
  method PadSamples(samples: seq<real>) returns (padded: array<real>)
    ensures fresh(padded) && padded[..] == Padded(samples)
  {
    padded := new real[|samples| + NFft](_ => 0.0);
    for i := 0 to |samples|
      invariant forall p :: 0 <= p < padded.Length ==>
        padded[p] == if NFft / 2 <= p < NFft / 2 + i then samples[p - NFft / 2] else 0.0
    {
      padded[NFft / 2 + i] := samples[i];
    }
  }

  /** n_frames = (padded_length - n_fft) / hop_length + 1: one frame for each
      hop position from 0 to n, so the last frame starts inside the samples
      (or at their end) and a further frame would start past them. */
  function NFrames(n: nat): (r: nat)
    ensures r >= 1 && (r - 1) * 160 <= n < r * 160
  {
    var r := (n + NFft - NFft) / Hop + 1;
    DivModBounds(n, Hop);
    r
  }

  /** Every read `padded[start + i]` of the frame loop is in range. */
  lemma FrameInBounds(n: nat, frame: nat, i: nat)
    requires frame < NFrames(n) && i < NFft
    ensures frame * Hop + i < n + NFft
  {
    MulMonotone(frame, NFrames(n) - 1, Hop);
  }

  /** The cell of filter m and frame f in the row-major mel matrix. */
  function CellIndex(nFrames: nat, m: nat, f: nat): (c: nat)
    requires m < NMel && f < nFrames
    ensures c < NMel * nFrames && c / nFrames == m && c % nFrames == f
  {
    DivModUnique(m * nFrames + f, nFrames, m, f);
    MulMonotone(m + 1, NMel, nFrames);
    m * nFrames + f
  }

  /** Every cell of the matrix is the cell of exactly one filter and frame. */
  lemma CellOf(nFrames: nat, c: nat)
    requires c < NMel * nFrames
    ensures nFrames > 0 && 0 <= c / nFrames < NMel && 0 <= c % nFrames < nFrames
    ensures CellIndex(nFrames, c / nFrames, c % nFrames) == c
  {
    assert nFrames > 0;
    DivModBounds(c, nFrames);
    MulCancelLess(c / nFrames, NMel, nFrames);
  }

  // ---------------------------------------------------------------------------
  // The Hann window and the windowed frame
  // ---------------------------------------------------------------------------

  /** hann[i] = 0.5 * (1 - cos(2 * pi * i / n_fft)) */
  function HannCoefficient(math: Math, i: nat): real
  {
    0.5 * (1.0 - math.cosTurn(i as real / NFft as real))
  }

  function HannWindow(math: Math): (w: seq<real>)
    ensures |w| == NFft
  {
    seq(NFft, i requires 0 <= i < NFft => HannCoefficient(math, i))
  }

  /** The cosine lies in [-1, 1]. */
  ghost predicate CosineBounded(math: Math)
  {
    forall x :: -1.0 <= math.cosTurn(x) <= 1.0
  }

  /** Each Hann coefficient lies in [0, 1], and the window starts at 0. */
  lemma HannInUnitInterval(math: Math, i: nat)
    requires CosineBounded(math)
    ensures 0.0 <= HannCoefficient(math, i) <= 1.0
    ensures math.cosTurn(0.0) == 1.0 ==> HannCoefficient(math, 0) == 0.0
  {
    var c := math.cosTurn(i as real / NFft as real);
    assert -1.0 <= c <= 1.0;
  }

  /** The loop that fills `hann`. */
  method ComputeHann(math: Math) returns (hann: array<real>)
    ensures fresh(hann) && hann[..] == HannWindow(math)
  {
    hann := new real[NFft];
    for i := 0 to NFft
      invariant forall j :: 0 <= j < i ==> hann[j] == HannCoefficient(math, j)
    {
      hann[i] := 0.5 * (1.0 - math.cosTurn(i as real / NFft as real));
    }
  }

  /** The frame from start, times the window; its imaginary part is zero. */
  function Windowed(padded: seq<real>, hann: seq<real>, start: nat): (x: Fft.Signal)
    requires |hann| == NFft && start + NFft <= |padded|
    ensures |x.re| == |x.im| == NFft
  {
    Fft.Signal(seq(NFft, i requires 0 <= i < NFft => padded[start + i] * hann[i]),
               seq(NFft, i requires 0 <= i < NFft => 0.0))
  }

  /** The `real` and `imag` vectors of one frame. */
  method WindowFrame(padded: array<real>, hann: array<real>, start: nat) returns (re: array<real>, im: array<real>)
    requires hann.Length == NFft && start + NFft <= padded.Length
    ensures fresh(re) && fresh(im) && re != im
    ensures Fft.Signal(re[..], im[..]) == Windowed(padded[..], hann[..], start)
  {
    re := new real[NFft];
    im := new real[NFft](_ => 0.0);
    for i := 0 to NFft
      invariant forall j :: 0 <= j < i ==> re[j] == padded[start + j] * hann[j]
      invariant forall j :: 0 <= j < NFft ==> im[j] == 0.0
    {
      re[i] := padded[start + i] * hann[i];
    }
    ghost var x := Windowed(padded[..], hann[..], start);
    forall j | 0 <= j < NFft
      ensures re[j] == x.re[j] && im[j] == x.im[j]
    {
      assert x.re[j] == padded[start + j] * hann[j];
    }
    assert re[..] == x.re && im[..] == x.im;
  }

  // ---------------------------------------------------------------------------
  // The discrete Fourier transform and the power spectrum
  // ---------------------------------------------------------------------------

  /** Term t of bin k: input t turned by -k * t / n turns. */
  function DftTerm(x: Fft.Signal, math: Math, k: nat, t: nat): Fft.Complex
    requires |x.re| == |x.im| && t < |x.re|
  {
    var turns := -((k * t) as real) / (|x.re| as real);
    Fft.Mul(Fft.At(x.re, x.im, t), Fft.Complex(math.cosTurn(turns), math.sinTurn(turns)))
  }

  /** The sum of the first t terms of bin k. */
  function DftPartial(x: Fft.Signal, math: Math, k: nat, t: nat): Fft.Complex
    requires |x.re| == |x.im| && t <= |x.re|
  {
    if t == 0 then Fft.Complex(0.0, 0.0) else Fft.Add(DftPartial(x, math, k, t - 1), DftTerm(x, math, k, t - 1))
  }

  /** Bin k of the discrete Fourier transform of x. */
  function DftBin(x: Fft.Signal, math: Math, k: nat): Fft.Complex
    requires |x.re| == |x.im|
  {
    DftPartial(x, math, k, |x.re|)
  }

  /** The squared magnitude of a bin. */
  function Power(c: Fft.Complex): (p: real)
    ensures p >= 0.0
  {
    SquareNonNegative(c.re);
    SquareNonNegative(c.im);
    c.re * c.re + c.im * c.im
  }

  lemma SquareNonNegative(a: real)
    ensures a * a >= 0.0
  {
    if a < 0.0 {
      var b := -a;
      assert a * a == b * b;
    }
  }

  /** The one-sided power spectrum: bins 0 to n_fft / 2. */
  function PowerSpectrum(x: Fft.Signal, math: Math): (p: seq<real>)
    requires |x.re| == |x.im|
    ensures |p| == NFreqs && forall k :: 0 <= k < NFreqs ==> p[k] >= 0.0
  {
    seq(NFreqs, k requires 0 <= k < NFreqs => Power(DftBin(x, math, k)))
  }

  /** Bin k, summed term by term. */
  method ComputeBin(re: array<real>, im: array<real>, math: Math, k: nat, ghost x: Fft.Signal) returns (c: Fft.Complex)
    requires re.Length == im.Length && re[..] == x.re && im[..] == x.im
    ensures c == DftBin(x, math, k)
  {
    var n := re.Length;
    c := Fft.Complex(0.0, 0.0);
    for t := 0 to n
      invariant c == DftPartial(x, math, k, t)
    {
      var turns := -((k * t) as real) / (n as real);
      var w := Fft.Complex(math.cosTurn(turns), math.sinTurn(turns));
      assert Fft.At(x.re, x.im, t) == Fft.Complex(re[t], im[t]);
      c := Fft.Add(c, Fft.Mul(Fft.Complex(re[t], im[t]), w));
    }
  }

  /** `power[i] = real[i] * real[i] + imag[i] * imag[i]` for i <= n_fft / 2,
      over the transform of the frame. */
  method ComputePower(re: array<real>, im: array<real>, math: Math) returns (power: array<real>)
    requires re.Length == im.Length
    ensures fresh(power) && power[..] == PowerSpectrum(Fft.Signal(re[..], im[..]), math)
  {
    ghost var x := Fft.Signal(re[..], im[..]);
    power := new real[NFreqs];
    for k := 0 to NFreqs
      invariant forall j :: 0 <= j < k ==> power[j] == Power(DftBin(x, math, j))
    {
      var c := ComputeBin(re, im, math, k, x);
      power[k] := Power(c);
    }
    assert power[..] == PowerSpectrum(x, math);
  }

  /** Bin 0 of the transform is the sum of the inputs. */
  lemma {:induction false} DftPartialDc(x: Fft.Signal, math: Math, t: nat)
    requires |x.re| == |x.im| && t <= |x.re|
    requires math.cosTurn(0.0) == 1.0 && math.sinTurn(0.0) == 0.0
    ensures DftPartial(x, math, 0, t) == Fft.Complex(Fft.SumRange(x.re, 0, t), Fft.SumRange(x.im, 0, t))
  {
    if t > 0 {
      DftPartialDc(x, math, t - 1);
      assert -((0 * (t - 1)) as real) / (|x.re| as real) == 0.0;
    }
  }

  /** On a power-of-two length the FFT and the discrete Fourier transform
      agree on bin 0: both are the sum of the inputs. */
  lemma FftAgreesWithDftAtDc(x: Fft.Signal, math: Math, k: nat)
    requires |x.re| == |x.im| == Fft.Pow2(k)
    requires math.cosTurn(0.0) == 1.0 && math.sinTurn(0.0) == 0.0
    ensures Fft.Transform(x, math, k).re[0] == DftBin(x, math, 0).re
    ensures Fft.Transform(x, math, k).im[0] == DftBin(x, math, 0).im
  {
    Fft.TransformDcIsSum(x, math, k);
    DftPartialDc(x, math, |x.re|);
    Fft.SumRangeAll(x.re);
    Fft.SumRangeAll(x.im);
  }

  /** A silent frame has a silent transform. */
  lemma {:induction false} DftPartialOfSilence(x: Fft.Signal, math: Math, k: nat, t: nat)
    requires |x.re| == |x.im| && t <= |x.re|
    requires forall i :: 0 <= i < |x.re| ==> x.re[i] == 0.0 && x.im[i] == 0.0
    ensures DftPartial(x, math, k, t) == Fft.Complex(0.0, 0.0)
  {
    if t > 0 {
      DftPartialOfSilence(x, math, k, t - 1);
    }
  }

  /** A silent frame has a power spectrum of zeros. */
  lemma PowerOfSilence(x: Fft.Signal, math: Math)
    requires |x.re| == |x.im|
    requires forall i :: 0 <= i < |x.re| ==> x.re[i] == 0.0 && x.im[i] == 0.0
    ensures forall k :: 0 <= k < NFreqs ==> PowerSpectrum(x, math)[k] == 0.0
  {
    forall k | 0 <= k < NFreqs
      ensures PowerSpectrum(x, math)[k] == 0.0
    {
      DftPartialOfSilence(x, math, k, |x.re|);
    }
  }

  // ---------------------------------------------------------------------------
  // Mel energies
  // ---------------------------------------------------------------------------

  /** The filter matrix get_mel_filters returns. */
  function Filters(math: Math): (f: seq<real>)
    requires MelFilterBank.Edges(MelFilterBank.MelPoints(math))
    ensures |f| == NMel * NFreqs
  {
    seq(NMel * NFreqs, c requires 0 <= c < NMel * NFreqs => MelFilterBank.FilterEntry(MelFilterBank.MelPoints(math), c))
  }

  /** The weighted sum of the first k bins of the power spectrum under
      filter m. */
  function MelEnergy(filters: seq<real>, power: seq<real>, m: nat, k: nat): real
    requires |filters| == NMel * NFreqs && |power| == NFreqs && m < NMel && k <= NFreqs
  {
    if k == 0 then 0.0 else MelEnergy(filters, power, m, k - 1) + filters[m * NFreqs + (k - 1)] * power[k - 1]
  }

  /** Non-negative weights over a non-negative spectrum give a non-negative
      energy. */
  lemma {:induction false} MelEnergyNonNegative(filters: seq<real>, power: seq<real>, m: nat, k: nat)
    requires |filters| == NMel * NFreqs && |power| == NFreqs && m < NMel && k <= NFreqs
    requires forall c :: 0 <= c < |filters| ==> filters[c] >= 0.0
    requires forall j :: 0 <= j < |power| ==> power[j] >= 0.0
    ensures MelEnergy(filters, power, m, k) >= 0.0
  {
    if k > 0 {
      MelEnergyNonNegative(filters, power, m, k - 1);
      var w, p := filters[m * NFreqs + (k - 1)], power[k - 1];
      assert w * p >= 0.0;
    }
  }

  /** log10 of the energy floored at 1e-10. */
  function LogEnergy(math: Math, energy: real): real
  {
    math.log10(MaxReal(energy, EnergyFloor))
  }

  /** The log energy never falls below log10(1e-10), and reaches it exactly
      when the energy is at most 1e-10. */
  lemma LogEnergyFloor(math: Math, energy: real)
    requires IncreasingOnPositives(math.log10)
    ensures LogEnergy(math, energy) >= math.log10(EnergyFloor)
    ensures LogEnergy(math, energy) == math.log10(EnergyFloor) <==> energy <= EnergyFloor
  {
    if energy > EnergyFloor {
      assert math.log10(EnergyFloor) < math.log10(energy);
    }
  }

  /** The windowed frame f of the samples. */
  function Frame(samples: seq<real>, math: Math, f: nat): (x: Fft.Signal)
    requires f < NFrames(|samples|)
    ensures |x.re| == |x.im| == NFft
  {
    FrameInBounds(|samples|, f, NFft - 1);
    Windowed(Padded(samples), HannWindow(math), f * Hop)
  }

  /** The cell of filter m and frame f before normalisation, under the
      filter matrix weights. */
  function RawCell(samples: seq<real>, math: Math, weights: seq<real>, m: nat, f: nat): real
    requires |weights| == NMel * NFreqs && m < NMel && f < NFrames(|samples|)
  {
    LogEnergy(math, MelEnergy(weights, PowerSpectrum(Frame(samples, math, f), math), m, NFreqs))
  }

  /** The mel matrix before normalisation, row-major by filter. */
  function RawMel(samples: seq<real>, math: Math, weights: seq<real>): (r: seq<real>)
    requires |weights| == NMel * NFreqs
    ensures |r| == NMel * NFrames(|samples|)
  {
    var nFrames := NFrames(|samples|);
    seq(NMel * nFrames, c requires 0 <= c < NMel * nFrames =>
      CellOf(nFrames, c);
      RawCell(samples, math, weights, c / nFrames, c % nFrames))
  }

  /** Cell c of the raw matrix is that of filter c / n_frames and frame
      c % n_frames. */
  lemma RawMelAt(samples: seq<real>, math: Math, weights: seq<real>, c: nat)
    requires |weights| == NMel * NFreqs && c < NMel * NFrames(|samples|)
    ensures c / NFrames(|samples|) < NMel && c % NFrames(|samples|) < NFrames(|samples|)
    ensures CellIndex(NFrames(|samples|), c / NFrames(|samples|), c % NFrames(|samples|)) == c
    ensures RawMel(samples, math, weights)[c] == RawCell(samples, math, weights, c / NFrames(|samples|), c % NFrames(|samples|))
  {
    CellOf(NFrames(|samples|), c);
  }

  /** Every raw cell is at least log10(1e-10). */
  lemma RawCellAtLeastFloor(samples: seq<real>, math: Math, weights: seq<real>, m: nat, f: nat)
    requires IncreasingOnPositives(math.log10)
    requires |weights| == NMel * NFreqs && m < NMel && f < NFrames(|samples|)
    ensures RawCell(samples, math, weights, m, f) >= math.log10(EnergyFloor)
  {
    LogEnergyFloor(math, MelEnergy(weights, PowerSpectrum(Frame(samples, math, f), math), m, NFreqs));
  }

  /** The weighted sum over bins 0..200 for filter m. */
  method BandEnergy(filters: array<real>, power: array<real>, m: nat, ghost weights: seq<real>, ghost spectrum: seq<real>)
    returns (sum: real)
    requires filters.Length == |weights| == NMel * NFreqs && power.Length == |spectrum| == NFreqs && m < NMel
    requires forall c :: 0 <= c < filters.Length ==> filters[c] == weights[c]
    requires forall k :: 0 <= k < power.Length ==> power[k] == spectrum[k]
    ensures sum == MelEnergy(weights, spectrum, m, NFreqs)
  {
    sum := 0.0;
    for k := 0 to NFreqs
      invariant sum == MelEnergy(weights, spectrum, m, k)
    {
      sum := sum + filters[m * NFreqs + k] * power[k];
    }
  }

  /** The first part of an iteration of the frame loop: window the frame,
      transform it, square the one-sided bins. */
  method FrameSpectrum(padded: array<real>, hann: array<real>, math: Math, f: nat, ghost samples: seq<real>)
    returns (power: array<real>)
    requires padded[..] == Padded(samples) && hann[..] == HannWindow(math) && f < NFrames(|samples|)
    ensures fresh(power) && power[..] == PowerSpectrum(Frame(samples, math, f), math)
  {
    var start := f * Hop;
    FrameInBounds(|samples|, f, NFft - 1);
    var re, im := WindowFrame(padded, hann, start);
    power := ComputePower(re, im, math);
  }

  /** The second part: the 80 filters over the power spectrum into column f
      of the matrix. */
  method FilterColumn(filters: array<real>, power: array<real>, math: Math, f: nat, nFrames: nat, melSpec: array<real>,
                      ghost weights: seq<real>, ghost spectrum: seq<real>)
    requires filters.Length == |weights| == NMel * NFreqs && power.Length == |spectrum| == NFreqs
    requires forall c :: 0 <= c < filters.Length ==> filters[c] == weights[c]
    requires forall k :: 0 <= k < power.Length ==> power[k] == spectrum[k]
    requires f < nFrames && melSpec.Length == NMel * nFrames && melSpec != filters && melSpec != power
    modifies melSpec
    ensures forall m :: 0 <= m < NMel ==> melSpec[CellIndex(nFrames, m, f)] == LogEnergy(math, MelEnergy(weights, spectrum, m, NFreqs))
    ensures forall c :: 0 <= c < melSpec.Length && c % nFrames != f ==> melSpec[c] == old(melSpec[c])
  {
    for m := 0 to NMel
      invariant forall j :: 0 <= j < m ==> melSpec[CellIndex(nFrames, j, f)] == LogEnergy(math, MelEnergy(weights, spectrum, j, NFreqs))
      invariant forall c :: 0 <= c < melSpec.Length && (c % nFrames != f || c / nFrames >= m) ==> melSpec[c] == old(melSpec[c])
    {
      var sum := BandEnergy(filters, power, m, weights, spectrum);
      melSpec[CellIndex(nFrames, m, f)] := math.log10(MaxReal(sum, EnergyFloor));
    }
  }

  // ---------------------------------------------------------------------------
  // Normalisation
  // ---------------------------------------------------------------------------

  /** The largest value of a non-empty sequence. */
  function Maximum(v: seq<real>): (r: real)
    requires |v| > 0
    ensures r in v && forall i :: 0 <= i < |v| ==> v[i] <= r
  {
    if |v| == 1 then v[0] else MaxReal(Maximum(v[..|v| - 1]), v[|v| - 1])
  }

  /** Clamp v to at least max - 8, then map it to (v + 4) / 4. */
  function Rescale(v: real, max: real): real
  {
    (MaxReal(v, max - 8.0) + 4.0) / 4.0
  }

  /** The normalised matrix. */
  function Normalized(v: seq<real>): (r: seq<real>)
    requires |v| > 0
    ensures |r| == |v|
  {
    var max := Maximum(v);
    seq(|v|, i requires 0 <= i < |v| => Rescale(v[i], max))
  }

  /** Every normalised value lies in [(max - 4) / 4, (max + 4) / 4]; it is at
      the bottom exactly when the value was clamped, and at the top exactly
      when it was the maximum. */
  lemma NormalizedBounds(v: seq<real>, i: nat)
    requires 0 <= i < |v|
    ensures (Maximum(v) - 4.0) / 4.0 <= Normalized(v)[i] <= (Maximum(v) + 4.0) / 4.0
    ensures Normalized(v)[i] == (Maximum(v) - 4.0) / 4.0 <==> v[i] <= Maximum(v) - 8.0
    ensures Normalized(v)[i] == (Maximum(v) + 4.0) / 4.0 <==> v[i] == Maximum(v)
  {
  }

  /** Normalisation keeps the order of the values. */
  lemma NormalizedMonotone(v: seq<real>, i: nat, j: nat)
    requires 0 <= i < |v| && 0 <= j < |v| && v[i] <= v[j]
    ensures Normalized(v)[i] <= Normalized(v)[j]
  {
  }

  /** The normalised maximum is (max + 4) / 4. */
  lemma NormalizedMaximum(v: seq<real>)
    requires |v| > 0
    ensures Maximum(Normalized(v)) == (Maximum(v) + 4.0) / 4.0
  {
    var r := Normalized(v);
    var max := Maximum(v);
    var i :| 0 <= i < |v| && v[i] == max;
    forall j | 0 <= j < |r|
      ensures r[j] <= r[i]
    {
      NormalizedMonotone(v, j, i);
    }
    MaximumAt(r, i);
    NormalizedBounds(v, i);
  }

  /** A value of v that every value is at most is the maximum. */
  lemma MaximumAt(v: seq<real>, i: nat)
    requires i < |v| && forall j :: 0 <= j < |v| ==> v[j] <= v[i]
    ensures Maximum(v) == v[i]
  {
    var k :| 0 <= k < |v| && v[k] == Maximum(v);
  }

  /** A constant matrix (a silent recording) normalises to the constant
      (c + 4) / 4. */
  lemma NormalizedConstant(v: seq<real>, c: real)
    requires |v| > 0 && forall i :: 0 <= i < |v| ==> v[i] == c
    ensures forall i :: 0 <= i < |v| ==> Normalized(v)[i] == (c + 4.0) / 4.0
  {
    MaximumAt(v, 0);
  }

  /** `std::max_element` over the matrix. */
  method MaxElement(a: array<real>) returns (max: real)
    requires a.Length > 0
    ensures max == Maximum(a[..])
  {
    max := a[0];
    assert a[..1] == [a[0]];
    for i := 1 to a.Length
      invariant max == Maximum(a[..i])
    {
      assert a[..i + 1][..i] == a[..i];
      if max < a[i] {
        max := a[i];
      }
    }
    assert a[..a.Length] == a[..];
  }

  /** The two passes of the normalisation: the maximum first, then every
      entry rewritten in place. */
  method NormalizeInPlace(a: array<real>)
    requires a.Length > 0
    modifies a
    ensures a[..] == Normalized(old(a[..]))
  {
    var maxVal := MaxElement(a);
    ghost var v := a[..];
    for i := 0 to a.Length
      invariant forall j :: 0 <= j < a.Length ==> a[j] == if j < i then Rescale(v[j], maxVal) else v[j]
    {
      var x := MaxReal(a[i], maxVal - 8.0);
      a[i] := (x + 4.0) / 4.0;
    }
  }

  // ---------------------------------------------------------------------------
  // The whole computation
  // ---------------------------------------------------------------------------

  /** `compute_mel_spectrogram`: pad, fill the raw matrix frame by frame,
      normalise. It always succeeds. The filter bank is well formed because
      log10 and 10^x rise strictly. */
  method ComputeMelSpectrogram(samples: seq<real>, math: Math) returns (ok: bool, melSpec: array<real>, nFrames: nat)
    requires IncreasingOnPositives(math.log10) && Increasing(math.exp10)
    ensures ok && nFrames == NFrames(|samples|) && fresh(melSpec)
    ensures MelFilterBank.Edges(MelFilterBank.MelPoints(math))
    ensures melSpec[..] == Normalized(RawMel(samples, math, Filters(math)))
  {
    var padded := PadSamples(samples);
    nFrames := (padded.Length - NFft) / Hop + 1;
    MelFilterBank.MelPointsIncrease(math);
    var filters := MelFilterBank.GetMelFilters(math);
    ghost var weights := Filters(math);
    assert forall c :: 0 <= c < filters.Length ==> filters[c] == weights[c];
    var hann := ComputeHann(math);
    melSpec := new real[NMel * nFrames](_ => 0.0);
    FillRawMel(padded, hann, filters, math, nFrames, melSpec, samples, weights);
    NormalizeInPlace(melSpec);
    ok := true;
  }

  /** The frame loop of `compute_mel_spectrogram`. */
  method FillRawMel(padded: array<real>, hann: array<real>, filters: array<real>, math: Math,
                    nFrames: nat, melSpec: array<real>, ghost samples: seq<real>, ghost weights: seq<real>)
    requires padded[..] == Padded(samples) && hann[..] == HannWindow(math)
    requires filters.Length == |weights| == NMel * NFreqs && forall c :: 0 <= c < filters.Length ==> filters[c] == weights[c]
    requires nFrames == NFrames(|samples|) && melSpec.Length == NMel * nFrames
    requires melSpec != padded && melSpec != hann && melSpec != filters
    modifies melSpec
    ensures melSpec[..] == RawMel(samples, math, weights)
  {
    for f := 0 to nFrames
      invariant forall m, g :: 0 <= m < NMel && 0 <= g < f ==>
        melSpec[CellIndex(nFrames, m, g)] == RawCell(samples, math, weights, m, g)
    {
      var power := FrameSpectrum(padded, hann, math, f, samples);
      FilterColumn(filters, power, math, f, nFrames, melSpec, weights, power[..]);
    }
    AllCellsFilled(melSpec[..], samples, math, weights);
  }

  /** A matrix whose every (filter, frame) cell holds its raw value is the
      raw matrix. */
  lemma AllCellsFilled(cells: seq<real>, samples: seq<real>, math: Math, weights: seq<real>)
    requires |weights| == NMel * NFreqs && |cells| == NMel * NFrames(|samples|)
    requires forall m, g :: 0 <= m < NMel && 0 <= g < NFrames(|samples|) ==>
      cells[CellIndex(NFrames(|samples|), m, g)] == RawCell(samples, math, weights, m, g)
    ensures cells == RawMel(samples, math, weights)
  {
    var nFrames := NFrames(|samples|);
    forall c | 0 <= c < |cells|
      ensures cells[c] == RawMel(samples, math, weights)[c]
    {
      RawMelAt(samples, math, weights, c);
      var m, g := c / nFrames, c % nFrames;
      assert cells[CellIndex(nFrames, m, g)] == RawCell(samples, math, weights, m, g);
    }
  }

  /** Every value of the final matrix lies within 2 of (max + 4) / 4 below
      it, where max is the largest raw cell. */
  lemma SpectrogramBounds(samples: seq<real>, math: Math, weights: seq<real>, c: nat)
    requires |weights| == NMel * NFreqs && c < NMel * NFrames(|samples|)
    ensures var max := Maximum(RawMel(samples, math, weights));
      (max - 4.0) / 4.0 <= Normalized(RawMel(samples, math, weights))[c] <= (max + 4.0) / 4.0
  {
    NormalizedBounds(RawMel(samples, math, weights), c);
  }
}
