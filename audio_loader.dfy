/**
 * `load_audio_file` of whisper_jni.cpp: a path ending in ".wav" or ".WAV" is
 * first read as a WAV file and, when its rate is not 16 kHz, resampled to
 * 16 kHz; any other path, or a WAV read that fails, falls back to reading
 * the file as raw 16-bit PCM.
 *
 * The file system is a parameter: the bytes of the file at the path, or None
 * when it cannot be opened (both readers open the same path).
 */
module AudioLoader {
  import opened Wrappers
  import opened RealMath
  import opened Bytes
  import WavReader
  import RawPcm
  import Resampler

  /** WHISPER_SAMPLE_RATE */
  const WhisperSampleRate: nat := 16000

  /** The path is longer than 4 characters and ends in ".wav" or ".WAV". */
  predicate IsWavPath(path: string)
  {
    |path| > 4 && (path[|path| - 4..] == ".wav" || path[|path| - 4..] == ".WAV")
  }

  /** The `int` a 32-bit unsigned rate becomes when stored in `sample_rate`
      (two's complement wrap-around). */
  function AsInt32(x: nat): (r: int)
    ensures -0x8000_0000 <= r < 0x8000_0000
    ensures (x - r) % 0x1_0000_0000 == 0
    ensures x < 0x8000_0000 ==> r == x
  {
    var w := x % 0x1_0000_0000;
    if w < 0x8000_0000 then w else w - 0x1_0000_0000
  }

  /** The WAV branch: the decoded file, when the path names a WAV file, it
      parses, and its rate is a positive `int` (the resampler divides by it). */
  function WavBranch(path: string, file: Option<seq<byte>>, math: Math): Option<WavReader.Wav>
  {
    if IsWavPath(path) && file.Some? then
      match WavReader.ParseWav(file.value, math)
      case Ok(w) => if AsInt32(w.format.sampleRate) > 0 then Some(w) else None
      case Err(_) => None
    else None
  }

  /** What load_audio_file delivers. */
  function LoadAudio(path: string, file: Option<seq<byte>>, math: Math): Option<seq<real>>
  {
    match WavBranch(path, file, math)
    case Some(w) =>
      var rate := AsInt32(w.format.sampleRate);
      if rate != WhisperSampleRate then Some(Resampler.Resampled(w.samples, rate, WhisperSampleRate))
      else Some(w.samples)
    case None => RawPcm.LoadRawPcm(file)
  }

  /** The loader as the source runs it, calling the readers and the resampler. */
  method LoadAudioFile(path: string, file: Option<seq<byte>>, math: Math) returns (r: Option<seq<real>>)
    ensures r == LoadAudio(path, file, math)
  {
    if IsWavPath(path) && file.Some? {
      var parsed := WavReader.ReadWav(file.value, math);
      if parsed.Ok? {
        var rate := AsInt32(parsed.value.format.sampleRate);
        if rate > 0 {
          if rate != WhisperSampleRate {
            var resampled := Resampler.Resample(parsed.value.samples, rate, WhisperSampleRate);
            return Some(resampled);
          }
          return Some(parsed.value.samples);
        }
      }
    }
    r := RawPcm.ReadRawPcm(file);
  }

  // ---------------------------------------------------------------------------
  // Properties
  // ---------------------------------------------------------------------------

  /** Loading fails exactly when the file cannot be opened. */
  lemma LoadFailsOnlyWithoutFile(path: string, file: Option<seq<byte>>, math: Math)
    ensures LoadAudio(path, file, math).None? <==> file.None?
  {
  }

  /** A path that does not end in ".wav" or ".WAV" is read as raw PCM. */
  lemma OtherPathsReadAsRawPcm(path: string, file: Option<seq<byte>>, math: Math)
    requires !IsWavPath(path)
    ensures LoadAudio(path, file, math) == RawPcm.LoadRawPcm(file)
  {
  }

  /** A WAV file that does not parse is read as raw PCM. */
  lemma BrokenWavReadAsRawPcm(path: string, bytes: seq<byte>, math: Math)
    requires WavReader.ParseWav(bytes, math).Err?
    ensures LoadAudio(path, Some(bytes), math) == RawPcm.LoadRawPcm(Some(bytes))
  {
  }

  /** A 16 kHz WAV file is delivered as decoded. */
  lemma Wav16kUnchanged(path: string, bytes: seq<byte>, math: Math)
    requires IsWavPath(path) && WavReader.ParseWav(bytes, math).Ok?
    requires WavReader.ParseWav(bytes, math).value.format.sampleRate == WhisperSampleRate
    ensures LoadAudio(path, Some(bytes), math) == Some(WavReader.ParseWav(bytes, math).value.samples)
  {
  }

  /** A 32 kHz WAV file is delivered as every second decoded sample. */
  lemma Wav32kDecimated(path: string, bytes: seq<byte>, math: Math)
    requires IsWavPath(path) && WavReader.ParseWav(bytes, math).Ok?
    requires WavReader.ParseWav(bytes, math).value.format.sampleRate == 2 * WhisperSampleRate
    ensures var w := WavReader.ParseWav(bytes, math).value.samples;
      var r := LoadAudio(path, Some(bytes), math);
      r.Some? && |r.value| == |w| / 2 && forall i :: 0 <= i < |r.value| ==> 2 * i < |w| && r.value[i] == w[2 * i]
  {
    var w := WavReader.ParseWav(bytes, math).value;
    assert AsInt32(w.format.sampleRate) == 32000;
    Resampler.DownsampleByFactor(w.samples, 16000, 2);
    assert LoadAudio(path, Some(bytes), math) == Some(Resampler.Resampled(w.samples, 2 * 16000, 16000));
  }

  /** An 8 kHz WAV file is delivered at twice its length, with decoded sample
      j at position 2j. */
  lemma Wav8kUpsampled(path: string, bytes: seq<byte>, math: Math)
    requires IsWavPath(path) && WavReader.ParseWav(bytes, math).Ok?
    requires WavReader.ParseWav(bytes, math).value.format.sampleRate == WhisperSampleRate / 2
    ensures var w := WavReader.ParseWav(bytes, math).value.samples;
      var r := LoadAudio(path, Some(bytes), math);
      r.Some? && |r.value| == 2 * |w| && forall j :: 0 <= j < |w| ==> 2 * j < |r.value| && r.value[2 * j] == w[j]
  {
    var w := WavReader.ParseWav(bytes, math).value;
    assert AsInt32(w.format.sampleRate) == 8000;
    Resampler.UpsampleByFactor(w.samples, 8000, 2);
    assert LoadAudio(path, Some(bytes), math) == Some(Resampler.Resampled(w.samples, 8000, 2 * 8000));
  }

  /** Unless the file is a 32-bit float WAV, every loaded sample lies in [-1, 1]. */
  lemma LoadedSamplesInRange(path: string, file: Option<seq<byte>>, math: Math)
    requires WavBranch(path, file, math).Some? ==> WavBranch(path, file, math).value.format.bitsPerSample == 16
    ensures LoadAudio(path, file, math).Some? ==> forall x :: x in LoadAudio(path, file, math).value ==> -1.0 <= x <= 1.0
  {
    match WavBranch(path, file, math)
    case Some(w) =>
      WavReader.Pcm16SamplesInRange(file.value, math);
      var rate := AsInt32(w.format.sampleRate);
      if rate != WhisperSampleRate {
        Resampler.ResampledWithinRange(w.samples, rate, WhisperSampleRate, -1.0, 1.0);
      }
    case None =>
      RawPcm.LoadRawPcmTotal(file);
  }

  // ---------------------------------------------------------------------------
  // The loader as written: the WAV rate reaches the resampler unchecked
  // ---------------------------------------------------------------------------

  datatype LoadOutcome =
    | Loaded(result: Option<seq<real>>)
    | UndefinedResample(rate: int)   // an infinite, NaN or negative output size is converted to size_t

  /** load_audio_file as written: any rate other than 16000 is passed to
      resample_audio, which divides by it in double precision. A rate of 0
      gives an infinite ratio (and NaN for an empty input). A rate of 2^31 or
      more is negative once stored in an `int`; the output size n·16000/rate
      is then negative, and converting it to size_t is defined only when it
      truncates to 0, that is when 16000·n < |rate|: the resampler then
      produces no samples and the load succeeds with an empty signal. */
  function LoadAudioAsWritten(path: string, file: Option<seq<byte>>, math: Math): LoadOutcome
  {
    if IsWavPath(path) && file.Some? && WavReader.ParseWav(file.value, math).Ok? then
      var w := WavReader.ParseWav(file.value, math).value;
      var rate := AsInt32(w.format.sampleRate);
      if rate == WhisperSampleRate then Loaded(Some(w.samples))
      else if rate > 0 then Loaded(Some(Resampler.Resampled(w.samples, rate, WhisperSampleRate)))
      else if rate < 0 && |w.samples| * WhisperSampleRate < -rate then Loaded(Some([]))
      else UndefinedResample(rate)
    else Loaded(RawPcm.LoadRawPcm(file))
  }

  /** The behaviour is undefined exactly for a parsed WAV file whose stored rate
      is zero, or negative with 16000·n >= |rate| for its n samples; everywhere
      else except a negative rate with 16000·n < |rate|, where the source
      returns an empty signal, the corrected loader agrees. */
  lemma AsWrittenUndefinedIff(path: string, file: Option<seq<byte>>, math: Math)
    ensures LoadAudioAsWritten(path, file, math).UndefinedResample? <==>
      IsWavPath(path) && file.Some? && WavReader.ParseWav(file.value, math).Ok? &&
      (AsInt32(WavReader.ParseWav(file.value, math).value.format.sampleRate) == 0 ||
       (AsInt32(WavReader.ParseWav(file.value, math).value.format.sampleRate) < 0 &&
        |WavReader.ParseWav(file.value, math).value.samples| * WhisperSampleRate >=
          -AsInt32(WavReader.ParseWav(file.value, math).value.format.sampleRate)))
    ensures LoadAudioAsWritten(path, file, math).Loaded? && WavBranch(path, file, math).Some? ==>
      LoadAudioAsWritten(path, file, math).result == LoadAudio(path, file, math)
    ensures !(IsWavPath(path) && file.Some? && WavReader.ParseWav(file.value, math).Ok?) ==>
      LoadAudioAsWritten(path, file, math) == Loaded(LoadAudio(path, file, math))
    ensures (IsWavPath(path) && file.Some? && WavReader.ParseWav(file.value, math).Ok? &&
             AsInt32(WavReader.ParseWav(file.value, math).value.format.sampleRate) < 0 &&
             |WavReader.ParseWav(file.value, math).value.samples| * WhisperSampleRate <
               -AsInt32(WavReader.ParseWav(file.value, math).value.format.sampleRate)) ==>
      LoadAudioAsWritten(path, file, math) == Loaded(Some([]))
  {
  }

  /** A rate field of 2^31 is stored as -2^31: for a file of one sample the
      output size 16000/-2^31 truncates to 0, and the source loads it as an
      empty signal. */
  lemma WrappedRateShortInput(path: string, bytes: seq<byte>, math: Math)
    requires IsWavPath(path) && WavReader.ParseWav(bytes, math).Ok?
    requires WavReader.ParseWav(bytes, math).value.format.sampleRate == 0x8000_0000
    requires |WavReader.ParseWav(bytes, math).value.samples| == 1
    ensures LoadAudioAsWritten(path, Some(bytes), math) == Loaded(Some([]))
  {
  }

  /** A WAV file that parses but whose stored rate is not positive is read
      as raw PCM by the corrected loader, whatever its path. */
  lemma NonPositiveRateReadAsRawPcm(path: string, bytes: seq<byte>, math: Math)
    requires WavReader.ParseWav(bytes, math).Ok?
    requires AsInt32(WavReader.ParseWav(bytes, math).value.format.sampleRate) <= 0
    ensures LoadAudio(path, Some(bytes), math) == RawPcm.LoadRawPcm(Some(bytes))
  {
  }

  /** A well-formed 16-bit WAV file declaring a rate of 0 Hz: the source's
      resampler divides by zero; the corrected loader reads the file as raw PCM. */
  lemma ZeroRateWav(pcm: seq<int>, math: Math)
    requires |pcm| > 0 && 2 * |pcm| < 0x1_0000_0000 - 36 && IsPcm16(pcm)
    ensures LoadAudioAsWritten("a.wav", Some(WavReader.Wav16Mono(0, pcm)), math) == UndefinedResample(0)
    ensures LoadAudio("a.wav", Some(WavReader.Wav16Mono(0, pcm)), math)
         == RawPcm.LoadRawPcm(Some(WavReader.Wav16Mono(0, pcm)))
  {
    WavReader.Pcm16MonoRoundTrip(0, pcm, math);
    assert IsWavPath("a.wav") by {
      assert "a.wav"[1..] == ".wav";
    }
  }
}
