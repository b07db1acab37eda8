/**
 * The triangular mel filter bank of whisper_jni.cpp (`get_mel_filters`):
 * 80 filters over the 201 frequency bins of a 400-point transform at
 * 16 kHz, stored row-major (filter m, bin k at index m * 201 + k).
 *
 * The 82 band edges are spaced evenly on the mel scale between 0 Hz and
 * 8 kHz. Filter m rises linearly from edge m to edge m + 1 and falls back
 * to zero at edge m + 2.
 */
module MelFilterBank {
  import opened Arith
  import opened RealMath

  const NFft: nat := 400
  const NMel: nat := 80
  /** n_fft / 2 + 1 */
  const NFreqs: nat := 201
  const SampleRate: real := 16000.0

  /** hz_to_mel: 2595 * log10(1 + hz / 700) */
  function HzToMel(math: Math, hz: real): real
  {
    2595.0 * math.log10(1.0 + hz / 700.0)
  }

  /** mel_to_hz: 700 * (10^(mel / 2595) - 1) */
  function MelToHz(math: Math, mel: real): real
  {
    700.0 * (math.exp10(mel / 2595.0) - 1.0)
  }

  /** Band edge i of 0..81 on the mel scale: i / 81 of the way from the mel
      value of 0 Hz to that of the Nyquist frequency. */
  function MelGrid(math: Math, i: nat): real
  {
    var melMin := HzToMel(math, 0.0);
    var melMax := HzToMel(math, SampleRate / 2.0);
    melMin + (melMax - melMin) * i as real / (NMel + 1) as real
  }

  /** The 82 band edges, in Hz. */
  function MelPoints(math: Math): (points: seq<real>)
    ensures |points| == NMel + 2
  {
    seq(NMel + 2, i requires 0 <= i < NMel + 2 => MelToHz(math, MelGrid(math, i)))
  }

  /** The centre frequency of bin k: k * sample_rate / n_fft. */
  function BinFrequency(k: nat): real
  {
    k as real * SampleRate / NFft as real
  }

  /** Band edges that rise strictly. */
  ghost predicate Edges(points: seq<real>)
  {
    |points| == NMel + 2 && forall i, j :: 0 <= i < j < |points| ==> points[i] < points[j]
  }

  /** The weight of bin k in filter m: the rising edge on [left, centre], the
      falling edge on (centre, right], zero elsewhere. */
  function Weight(points: seq<real>, m: nat, k: nat): real
    requires Edges(points) && m < NMel
  {
    var left, center, right := points[m], points[m + 1], points[m + 2];
    var freq := BinFrequency(k);
    if left <= freq && freq <= center then (freq - left) / (center - left)
    else if center < freq && freq <= right then (right - freq) / (right - center)
    else 0.0
  }

  /** Entry c of the row-major matrix: filter c / 201, bin c % 201. */
  function FilterEntry(points: seq<real>, c: nat): real
    requires Edges(points) && c < NMel * NFreqs
  {
    Weight(points, c / NFreqs, c % NFreqs)
  }

  /** The band edges, evenly spaced on the mel scale. */
  method ComputeMelPoints(math: Math) returns (melPoints: array<real>)
    ensures fresh(melPoints) && melPoints[..] == MelPoints(math)
  {
    var melMin := HzToMel(math, 0.0);
    var melMax := HzToMel(math, SampleRate / 2.0);
    melPoints := new real[NMel + 2];
    for i := 0 to NMel + 2
      invariant forall j :: 0 <= j < i ==> melPoints[j] == MelPoints(math)[j]
    {
      var mel := melMin + (melMax - melMin) * i as real / (NMel + 1) as real;
      assert mel == MelGrid(math, i);
      melPoints[i] := MelToHz(math, mel);
    }
  }

  /** get_mel_filters: fills the edges, then every filter row, in place. */
  method GetMelFilters(math: Math) returns (filters: array<real>)
    requires Edges(MelPoints(math))
    ensures fresh(filters) && filters.Length == NMel * NFreqs
    ensures forall c :: 0 <= c < filters.Length ==> filters[c] == FilterEntry(MelPoints(math), c)
  {
    var melPoints := ComputeMelPoints(math);
    ghost var points := melPoints[..];
    filters := new real[NMel * NFreqs](_ => 0.0);
    FillFilters(points, melPoints, filters);
  }

  /** The two loops of get_mel_filters over filters and bins. */
  method FillFilters(ghost points: seq<real>, melPoints: array<real>, filters: array<real>)
    requires Edges(points) && melPoints[..] == points
    requires filters.Length == NMel * NFreqs && filters != melPoints
    requires forall c :: 0 <= c < filters.Length ==> filters[c] == 0.0
    modifies filters
    ensures forall c :: 0 <= c < filters.Length ==> filters[c] == FilterEntry(points, c)
  {
    for m := 0 to NMel
      invariant forall c :: 0 <= c < m * NFreqs ==> filters[c] == FilterEntry(points, c)
      invariant forall c :: m * NFreqs <= c < filters.Length ==> filters[c] == 0.0
    {
      var left, center, right := melPoints[m], melPoints[m + 1], melPoints[m + 2];
      assert left < center < right;
      for k := 0 to NFreqs
        invariant forall c :: 0 <= c < m * NFreqs + k ==> filters[c] == FilterEntry(points, c)
        invariant forall c :: m * NFreqs + k <= c < filters.Length ==> filters[c] == 0.0
      {
        var c := m * NFreqs + k;
        FlatIndex(m, k);
        assert FilterEntry(points, c) == Weight(points, m, k);
        var freq := k as real * SampleRate / NFft as real;
        if left <= freq && freq <= center {
          filters[c] := (freq - left) / (center - left);
        } else if center < freq && freq <= right {
          filters[c] := (right - freq) / (right - center);
        }
      }
    }
  }

  lemma FlatIndex(m: nat, k: nat)
    requires k < NFreqs
    ensures (m * NFreqs + k) / NFreqs == m && (m * NFreqs + k) % NFreqs == k
  {
    DivModUnique(m * NFreqs + k, NFreqs, m, k);
  }

  // ---------------------------------------------------------------------------
  // Properties
  // ---------------------------------------------------------------------------

  /** log10 and 10^x rise strictly, so the band edges do. */
  lemma MelPointsIncrease(math: Math)
    requires IncreasingOnPositives(math.log10) && Increasing(math.exp10)
    ensures Edges(MelPoints(math))
  {
    var melMin := HzToMel(math, 0.0);
    var melMax := HzToMel(math, SampleRate / 2.0);
    assert math.log10(1.0) < math.log10(1.0 + 8000.0 / 700.0);
    assert melMin < melMax;
    var p := MelPoints(math);
    forall i, j | 0 <= i < j < |p|
      ensures p[i] < p[j]
    {
      var d := melMax - melMin;
      assert MelGrid(math, j) - MelGrid(math, i) == d * (j - i) as real / 81.0;
      assert math.exp10(MelGrid(math, i) / 2595.0) < math.exp10(MelGrid(math, j) / 2595.0);
    }
  }

  /** Every weight lies in [0, 1]. */
  lemma WeightInUnitInterval(points: seq<real>, m: nat, k: nat)
    requires Edges(points) && m < NMel
    ensures 0.0 <= Weight(points, m, k) <= 1.0
  {
    var left, center, right := points[m], points[m + 1], points[m + 2];
    var freq := BinFrequency(k);
    if left <= freq && freq <= center {
      FractionInUnitInterval(freq - left, center - left);
    } else if center < freq && freq <= right {
      FractionInUnitInterval(right - freq, right - center);
    }
  }

  lemma FractionInUnitInterval(x: real, y: real)
    requires 0.0 <= x <= y && y > 0.0
    ensures 0.0 <= x / y <= 1.0
  {
  }

  /** A bin outside [left edge, right edge] of a filter has weight 0 in it. */
  lemma WeightZeroOutsideBand(points: seq<real>, m: nat, k: nat)
    requires Edges(points) && m < NMel
    requires BinFrequency(k) < points[m] || BinFrequency(k) > points[m + 2]
    ensures Weight(points, m, k) == 0.0
  {
  }

  /** Between two neighbouring centres, the falling edge of one filter and the
      rising edge of the next add up to 1. */
  lemma NeighbouringWeightsSumToOne(points: seq<real>, m: nat, k: nat)
    requires Edges(points) && m + 1 < NMel
    requires points[m + 1] < BinFrequency(k) <= points[m + 2]
    ensures Weight(points, m, k) + Weight(points, m + 1, k) == 1.0
  {
    var c, r := points[m + 1], points[m + 2];
    var f := BinFrequency(k);
    assert Weight(points, m, k) == (r - f) / (r - c);
    assert Weight(points, m + 1, k) == (f - c) / (r - c);
    SameDenominator(r - f, f - c, r - c);
  }

  lemma SameDenominator(x: real, y: real, d: real)
    requires d != 0.0 && x + y == d
    ensures x / d + y / d == 1.0
  {
    assert x / d + y / d == (x + y) / d;
  }

  /** The bins lie 40 Hz apart, from 0 Hz to the Nyquist frequency. */
  lemma BinFrequencies(k: nat)
    requires k < NFreqs
    ensures BinFrequency(k) == 40.0 * k as real
    ensures 0.0 <= BinFrequency(k) <= SampleRate / 2.0
  {
  }

  /** Every entry of the matrix get_mel_filters returns lies in [0, 1], and an
      entry is 0 when its bin lies outside its filter's band. */
  lemma FilterMatrixProperties(math: Math, c: nat)
    requires IncreasingOnPositives(math.log10) && Increasing(math.exp10)
    requires c < NMel * NFreqs
    ensures Edges(MelPoints(math))
    ensures 0.0 <= FilterEntry(MelPoints(math), c) <= 1.0
    ensures var p, m, k := MelPoints(math), c / NFreqs, c % NFreqs;
      BinFrequency(k) < p[m] || BinFrequency(k) > p[m + 2] ==> FilterEntry(p, c) == 0.0
  {
    MelPointsIncrease(math);
    var p := MelPoints(math);
    WeightInUnitInterval(p, c / NFreqs, c % NFreqs);
    var m, k := c / NFreqs, c % NFreqs;
    if BinFrequency(k) < p[m] || BinFrequency(k) > p[m + 2] {
      WeightZeroOutsideBand(p, m, k);
    }
  }
}
