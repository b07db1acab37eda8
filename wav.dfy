/**
 * The RIFF/WAVE reader of whisper_jni.cpp (`read_wav_file`).
 *
 * A file is the sequence of its bytes. The reader checks the 12-byte
 * RIFF/WAVE header, walks chunks (a 4-byte tag and a 4-byte little-endian
 * length) until it meets `fmt `, reads the format from it, walks on until it
 * meets `data`, and decodes 16-bit integer or 32-bit float samples, averaged
 * over the channels into one mono sample per frame.
 *
 * A read that runs past the end of the file while reading a header makes the
 * stream fail, and the reader then reports failure. A `seekg` past the end
 * succeeds; only the next read fails. The payload read of the `data` chunk
 * may be short: what was not delivered stays zero.
 */
module WavReader {
  import opened Arith
  import opened Bytes
  import opened Wrappers
  import opened RealMath

  /** "RIFF", "WAVE", "fmt " and "data" as bytes. */
  const RIFF: seq<byte> := [0x52, 0x49, 0x46, 0x46]
  const WAVE: seq<byte> := [0x57, 0x41, 0x56, 0x45]
  const FMT: seq<byte> := [0x66, 0x6d, 0x74, 0x20]
  const DATA: seq<byte> := [0x64, 0x61, 0x74, 0x61]

  /** The four bytes at pos are the given tag (the source compares a 4-byte
      std::string with a literal). */
  predicate TagAt(file: seq<byte>, pos: nat, tag: seq<byte>)
    requires pos + 4 <= |file| && |tag| == 4
  {
    file[pos] == tag[0] && file[pos + 1] == tag[1] && file[pos + 2] == tag[2] && file[pos + 3] == tag[3]
  }

  /** The fields of a `fmt ` chunk that the reader uses. */
  datatype Format = Format(audioFormat: nat, channels: nat, sampleRate: nat, bitsPerSample: nat)

  /** A located `data` chunk: the format in force, the declared length, and
      every byte of the file that follows the chunk's header. */
  datatype DataChunk = DataChunk(format: Format, size: nat, payload: seq<byte>)

  datatype WavError =
    | NotRiff             // bytes 0..3 are not "RIFF"
    | NotWave             // bytes 8..11 are not "WAVE"
    | NoDataChunk         // the walk ran out of file before a `data` chunk after `fmt `
    | UnsupportedBits(bits: nat)
    | NoChannels          // a `fmt ` chunk declaring zero channels

  /** A decoded file: its format (the sample rate among it) and mono samples. */
  datatype Wav = Wav(format: Format, samples: seq<real>)

  /** The 16 bytes of a `fmt ` chunk starting at `at`: format tag, channel
      count, sample rate, then (after byte rate and block align) bits per sample. */
  function ReadFormat(file: seq<byte>, at: nat): (f: Format)
    requires at + 16 <= |file|
    ensures f.channels < 0x1_0000 && f.sampleRate < 0x1_0000_0000 && f.bitsPerSample < 0x1_0000
  {
    Format(U16(file[at], file[at + 1]), U16(file[at + 2], file[at + 3]),
           U32(file, at + 4), U16(file[at + 14], file[at + 15]))
  }

  /** How far the reader seeks past the 16 format bytes it read. */
  function FmtExtra(size: nat): nat
  {
    if size > 16 then size - 16 else 0
  }

  /** The header check and the two chunk walks. */
  function FindData(file: seq<byte>): Result<DataChunk, WavError>
  {
    if |file| < 4 || !TagAt(file, 0, RIFF) then Err(NotRiff)
    else if |file| < 12 || !TagAt(file, 8, WAVE) then Err(NotWave)
    else FmtFrom(file, 12)
  }

  /** The outer walk: skip every chunk until `fmt `. */
  function FmtFrom(file: seq<byte>, pos: nat): Result<DataChunk, WavError>
    decreases |file| - pos
  {
    if pos + 8 > |file| then Err(NoDataChunk)
    else if TagAt(file, pos, FMT) then
      if pos + 24 > |file| then Err(NoDataChunk)
      else DataFrom(file, ReadFormat(file, pos + 8), pos + 24 + FmtExtra(U32(file, pos + 4)))
    else FmtFrom(file, pos + 8 + U32(file, pos + 4))
  }

  /** The inner walk: skip every chunk until `data`. */
  function DataFrom(file: seq<byte>, format: Format, pos: nat): Result<DataChunk, WavError>
    decreases |file| - pos
  {
    if pos + 8 > |file| then Err(NoDataChunk)
    else if TagAt(file, pos, DATA) then Ok(DataChunk(format, U32(file, pos + 4), file[pos + 8..]))
    else DataFrom(file, format, pos + 8 + U32(file, pos + 4))
  }

  /** Channel value j of the interleaved samples, from the bytes the payload
      read delivered (missing bytes read as zero). */
  function RawValue(format: Format, data: seq<byte>, j: nat, math: Math): real
  {
    if format.bitsPerSample == 16 then
      Int16(U16(ByteAt(data, 2 * j), ByteAt(data, 2 * j + 1))) as real
    else
      Float32Value(math, ByteAt(data, 4 * j) as int + 256 * ByteAt(data, 4 * j + 1) as int
                         + 0x1_0000 * ByteAt(data, 4 * j + 2) as int + 0x100_0000 * ByteAt(data, 4 * j + 3) as int)
  }

  /** The sum of the first c channel values of frame i. */
  function ChannelSum(format: Format, data: seq<byte>, i: nat, c: nat, math: Math): real
  {
    if c == 0 then 0.0
    else ChannelSum(format, data, i, c - 1, math) + RawValue(format, data, i * format.channels + c - 1, math)
  }

  /** Mono sample i: the mean of its channel values, scaled by 1/32768 for 16-bit data. */
  function MonoSample(format: Format, data: seq<byte>, i: nat, math: Math): real
    requires format.channels > 0
  {
    var mean := ChannelSum(format, data, i, format.channels, math) / format.channels as real;
    if format.bitsPerSample == 16 then mean / 32768.0 else mean
  }

  /** The number of whole frames in a data chunk of the given length. */
  function FrameCount(format: Format, size: nat): nat
    requires format.bitsPerSample >= 8 && format.channels > 0
  {
    size / (format.bitsPerSample / 8) / format.channels
  }

  /** The bytes of the payload the corrected reader takes: one buffer of whole
      frames, or less when the file ends first. */
  function FrameBytes(d: DataChunk): seq<byte>
    requires d.format.bitsPerSample >= 8 && d.format.channels > 0
  {
    var capacity := FrameCount(d.format, d.size) * d.format.channels * (d.format.bitsPerSample / 8);
    d.payload[..Min(capacity, |d.payload|)]
  }

  /** Decoding of a located data chunk, with the bit depth and the channel
      count checked before they are divided by. */
  function DecodeData(d: DataChunk, math: Math): (r: Result<Wav, WavError>)
    ensures r.Ok? ==> r.value.format == d.format
    ensures r.Ok? <==> (d.format.bitsPerSample == 16 || d.format.bitsPerSample == 32) && d.format.channels > 0
    ensures r.Ok? ==> |r.value.samples| == d.size / (d.format.bitsPerSample / 8) / d.format.channels
  {
    var bits := d.format.bitsPerSample;
    if bits != 16 && bits != 32 then Err(UnsupportedBits(bits))
    else if d.format.channels == 0 then Err(NoChannels)
    else
      var data := FrameBytes(d);
      Ok(Wav(d.format, seq(FrameCount(d.format, d.size), i requires 0 <= i => MonoSample(d.format, data, i, math))))
  }

  /** What read_wav_file returns (true with the samples and rate, or false). */
  function ParseWav(file: seq<byte>, math: Math): Result<Wav, WavError>
  {
    match FindData(file)
    case Err(e) => Err(e)
    case Ok(d) => DecodeData(d, math)
  }

  // ---------------------------------------------------------------------------
  // The reader, as the source runs it: a stream position advanced by nested loops
  // ---------------------------------------------------------------------------

  method ReadWav(file: seq<byte>, math: Math) returns (r: Result<Wav, WavError>)
    ensures r == ParseWav(file, math)
  {
    var located := WalkChunks(file);
    match located
    case Err(e) => r := Err(e);
    case Ok(d) => r := DecodeSamples(d, math);
  }

  /** The header checks of read_wav_file. */
  method WalkChunks(file: seq<byte>) returns (r: Result<DataChunk, WavError>)
    ensures r == FindData(file)
  {
    if |file| < 4 || !TagAt(file, 0, RIFF) {
      return Err(NotRiff);
    }
    // the 4-byte RIFF size is skipped
    if |file| < 12 || !TagAt(file, 8, WAVE) {
      return Err(NotWave);
    }
    r := WalkToFmt(file, 12);
  }

  /** The outer `while (file.good())` loop: each iteration reads one chunk
      header; a header read past the end fails the stream. */
  method WalkToFmt(file: seq<byte>, pos0: nat) returns (r: Result<DataChunk, WavError>)
    ensures r == FmtFrom(file, pos0)
  {
    var pos := pos0;
    while pos + 8 <= |file|
      invariant FmtFrom(file, pos0) == FmtFrom(file, pos)
      decreases |file| - pos
    {
      FmtFromStep(file, pos);
      var isFmt := TagAt(file, pos, FMT);
      var size := U32(file, pos + 4);
      pos := pos + 8;
      if isFmt {
        if pos + 16 > |file| {
          return Err(NoDataChunk);
        }
        var format := ReadFormat(file, pos);
        pos := pos + 16;
        if size > 16 {
          pos := pos + (size - 16);
        }
        r := WalkToData(file, format, pos);
        return;
      }
      pos := pos + size;
    }
    return Err(NoDataChunk);
  }

  /** One step of the outer walk. */
  lemma FmtFromStep(file: seq<byte>, pos: nat)
    requires pos + 8 <= |file|
    ensures !TagAt(file, pos, FMT) ==> FmtFrom(file, pos) == FmtFrom(file, pos + 8 + U32(file, pos + 4))
    ensures TagAt(file, pos, FMT) && pos + 24 <= |file| ==>
      FmtFrom(file, pos) == DataFrom(file, ReadFormat(file, pos + 8), pos + 24 + FmtExtra(U32(file, pos + 4)))
    ensures TagAt(file, pos, FMT) && pos + 24 > |file| ==> FmtFrom(file, pos) == Err(NoDataChunk)
  {
  }

  /** One step of the inner walk past a chunk that is not `data`. */
  lemma DataFromStep(file: seq<byte>, format: Format, pos: nat)
    requires pos + 8 <= |file| && !TagAt(file, pos, DATA)
    ensures DataFrom(file, format, pos) == DataFrom(file, format, pos + 8 + U32(file, pos + 4))
  {
  }

  /** The inner `while (file.good())` loop, entered after a `fmt ` chunk. */
  method WalkToData(file: seq<byte>, format: Format, pos0: nat) returns (r: Result<DataChunk, WavError>)
    ensures r == DataFrom(file, format, pos0)
  {
    var pos := pos0;
    while pos + 8 <= |file|
      invariant DataFrom(file, format, pos0) == DataFrom(file, format, pos)
      decreases |file| - pos
    {
      var isData := TagAt(file, pos, DATA);
      var size := U32(file, pos + 4);
      pos := pos + 8;
      if isData {
        return Ok(DataChunk(format, size, file[pos..]));
      }
      pos := pos + size;
    }
    return Err(NoDataChunk);
  }

  /** The sample loop of a `data` chunk: one mono sample per frame, summing its channels. */
  method DecodeSamples(d: DataChunk, math: Math) returns (r: Result<Wav, WavError>)
    ensures r == DecodeData(d, math)
  {
    var bits := d.format.bitsPerSample;
    var channels := d.format.channels;
    if bits != 16 && bits != 32 {
      return Err(UnsupportedBits(bits));
    }
    if channels == 0 {
      return Err(NoChannels);
    }
    var n := d.size / (bits / 8) / channels;
    var data := FrameBytes(d);
    var samples := new real[n];
    for i := 0 to n
      invariant forall k :: 0 <= k < i ==> samples[k] == MonoSample(d.format, data, k, math)
    {
      var sum := 0.0;
      for c := 0 to channels
        invariant sum == ChannelSum(d.format, data, i, c, math)
      {
        sum := sum + RawValue(d.format, data, i * channels + c, math);
      }
      samples[i] := if bits == 16 then (sum / channels as real) / 32768.0 else sum / channels as real;
    }
    assert samples[..] == seq(n, i requires 0 <= i => MonoSample(d.format, data, i, math));
    return Ok(Wav(d.format, samples[..]));
  }

  // ---------------------------------------------------------------------------
  // The data-chunk decoding as written, with its undefined behaviour made visible
  // ---------------------------------------------------------------------------

  /** Undefined behaviour the source can reach while decoding a `data` chunk. */
  datatype Undefined =
    | DivisionByZero                              // bits / 8 == 0 or zero channels
    | BufferOverrun(written: nat, capacity: nat)  // file.read writes more bytes than raw_samples holds

  datatype Outcome = Defined(result: Result<Wav, WavError>) | Undefined(why: Undefined)

  /** The `data` branch as written: the frame count is computed by dividing by
      bits/8 and by the channel count before either is checked, and the
      payload read asks for `chunk_size` bytes into a buffer of whole frames. */
  function DecodeDataAsWritten(d: DataChunk, math: Math): Outcome
  {
    var bits := d.format.bitsPerSample;
    if bits / 8 == 0 || d.format.channels == 0 then Undefined(DivisionByZero)
    else if bits != 16 && bits != 32 then Defined(Err(UnsupportedBits(bits)))
    else
      var capacity := FrameCount(d.format, d.size) * d.format.channels * (bits / 8);
      var written := Min(d.size, |d.payload|);
      if written > capacity then Undefined(BufferOverrun(written, capacity))
      else Defined(DecodeData(d, math))
  }

  function ParseWavAsWritten(file: seq<byte>, math: Math): Outcome
  {
    match FindData(file)
    case Err(e) => Defined(Err(e))
    case Ok(d) => DecodeDataAsWritten(d, math)
  }

  /** Where the source's behaviour is defined, the corrected decoding agrees with it. */
  lemma CorrectedAgreesWhereDefined(file: seq<byte>, math: Math)
    ensures ParseWavAsWritten(file, math).Defined? ==> ParseWavAsWritten(file, math).result == ParseWav(file, math)
  {
  }

  /** The whole frames of a chunk fill it exactly when its length is a
      multiple of the frame size, and never exceed it. */
  lemma DivMulBound(size: nat, bps: nat, channels: nat)
    requires bps > 0 && channels > 0
    ensures size / bps / channels * channels * bps <= size
    ensures size / bps / channels * channels * bps == size <==> size % (channels * bps) == 0
  {
    DivDiv(size, bps, channels);
    var k := size / (channels * bps);
    assert size == (channels * bps) * k + size % (channels * bps);
    assert k * channels * bps == (channels * bps) * k;
  }

  /** The overrun happens exactly when the declared length is not a whole number
      of frames (and the file holds that many bytes). */
  lemma OverrunIffPartialFrame(d: DataChunk, math: Math)
    requires d.format.bitsPerSample == 16 || d.format.bitsPerSample == 32
    requires d.format.channels > 0 && |d.payload| >= d.size
    ensures DecodeDataAsWritten(d, math).Undefined?
            <==> d.size % (d.format.channels * (d.format.bitsPerSample / 8)) != 0
  {
    DivMulBound(d.size, d.format.bitsPerSample / 8, d.format.channels);
  }

  /** A 16-bit stereo file at the given rate whose `data` chunk declares 6
      bytes: one whole frame of 4 bytes, so raw_samples holds 4 bytes and the
      read writes 6. */
  function StereoOddChunk(rate: nat, body: seq<byte>): seq<byte>
    requires rate < 0x4000_0000 && |body| == 6
  {
    CanonicalFile(RIFF + EncodeU32(42) + WAVE, PcmFields(2, rate, 4 * rate, 4, 16), body)
  }

  lemma StereoOddChunkFound(rate: nat, body: seq<byte>)
    requires rate < 0x4000_0000 && |body| == 6
    ensures FindData(StereoOddChunk(rate, body)) == Ok(DataChunk(Format(1, 2, rate, 16), 6, body))
  {
    RiffHeader(42);
    CanonicalFileFound(RIFF + EncodeU32(42) + WAVE, PcmFields(2, rate, 4 * rate, 4, 16), body);
    PcmFieldsRead(2, rate, 4 * rate, 4, 16);
  }

  lemma StereoOddChunkOverruns(rate: nat, body: seq<byte>, math: Math)
    requires rate < 0x4000_0000 && |body| == 6
    ensures ParseWavAsWritten(StereoOddChunk(rate, body), math) == Undefined(BufferOverrun(6, 4))
    ensures ParseWav(StereoOddChunk(rate, body), math).Ok?
    ensures |ParseWav(StereoOddChunk(rate, body), math).value.samples| == 1
  {
    var file := StereoOddChunk(rate, body);
    var d := DataChunk(Format(1, 2, rate, 16), 6, body);
    StereoOddChunkFound(rate, body);
    assert FrameCount(d.format, d.size) == 1;
    assert DecodeDataAsWritten(d, math) == Undefined(BufferOverrun(6, 4));
    assert |DecodeData(d, math).value.samples| == 1;
  }

  /** A `fmt ` chunk with zero channels or fewer than 8 bits per sample
      divides by zero in the source; the corrected reader rejects it. */
  lemma DegenerateFormatDividesByZero(d: DataChunk, math: Math)
    requires d.format.channels == 0 || d.format.bitsPerSample < 8
    ensures DecodeDataAsWritten(d, math) == Undefined(DivisionByZero)
    ensures DecodeData(d, math).Err?
  {
  }

  // ---------------------------------------------------------------------------
  // Properties of the chunk walk
  // ---------------------------------------------------------------------------

  /** One chunk: tag, little-endian length, payload of that length. */
  function Chunk(id: seq<byte>, payload: seq<byte>): (c: seq<byte>)
    requires |id| == 4 && |payload| < 0x1_0000_0000
    ensures |c| == 8 + |payload|
  {
    id + EncodeU32(|payload|) + payload
  }

  lemma ChunkHeader(a: seq<byte>, id: seq<byte>, payload: seq<byte>, rest: seq<byte>)
    requires |id| == 4 && |payload| < 0x1_0000_0000
    ensures var f := a + Chunk(id, payload) + rest;
      |f| == |a| + 8 + |payload| + |rest| &&
      (TagAt(f, |a|, FMT) <==> id == FMT) && (TagAt(f, |a|, DATA) <==> id == DATA) &&
      U32(f, |a| + 4) == |payload|
  {
    var f := a + Chunk(id, payload) + rest;
    assert f == (a + id) + EncodeU32(|payload|) + (payload + rest);
    U32RoundTrip(|payload|, a + id, payload + rest);
    assert f[|a|..|a| + 4] == id;
    TagAtSlice(f, |a|, FMT);
    TagAtSlice(f, |a|, DATA);
  }

  /** The inner walk looks only at the bytes from its position on. */
  lemma {:induction false} DataFromShift(a: seq<byte>, b: seq<byte>, format: Format, p: nat)
    ensures DataFrom(a + b, format, |a| + p) == DataFrom(b, format, p)
    decreases |b| - p
  {
    var f := a + b;
    if p + 8 <= |b| {
      TagAtShift(a, b, p, DATA);
      assert f[|a| + p + 8..] == b[p + 8..];
      U32Shift(a, b, p + 4);
      if !TagAt(b, p, DATA) {
        DataFromShift(a, b, format, p + 8 + U32(b, p + 4));
      }
    }
  }

  lemma ReadFormatShift(a: seq<byte>, b: seq<byte>, p: nat)
    requires p + 16 <= |b|
    ensures ReadFormat(a + b, |a| + p) == ReadFormat(b, p)
  {
    var f := a + b;
    assert f[|a| + p] == b[p] && f[|a| + p + 1] == b[p + 1];
    assert f[|a| + p + 2] == b[p + 2] && f[|a| + p + 3] == b[p + 3];
    assert f[|a| + p + 14] == b[p + 14] && f[|a| + p + 15] == b[p + 15];
    U32Shift(a, b, p + 4);
  }

  lemma DataFromSuffix(a: seq<byte>, b: seq<byte>, format: Format)
    ensures DataFrom(a + b, format, |a|) == DataFrom(b, format, 0)
  {
    DataFromShift(a, b, format, 0);
  }

  lemma FmtFromSuffix(a: seq<byte>, b: seq<byte>)
    ensures FmtFrom(a + b, |a|) == FmtFrom(b, 0)
  {
    FmtFromShift(a, b, 0);
  }

  /** The outer walk looks only at the bytes from its position on. */
  lemma {:induction false} FmtFromShift(a: seq<byte>, b: seq<byte>, p: nat)
    ensures FmtFrom(a + b, |a| + p) == FmtFrom(b, p)
    decreases |b| - p
  {
    var f := a + b;
    if p + 8 <= |b| {
      TagAtShift(a, b, p, FMT);
      U32Shift(a, b, p + 4);
      if TagAt(b, p, FMT) {
        if p + 24 <= |b| {
          ReadFormatShift(a, b, p + 8);
          DataFromShift(a, b, ReadFormat(b, p + 8), p + 24 + FmtExtra(U32(b, p + 4)));
        }
      } else {
        FmtFromShift(a, b, p + 8 + U32(b, p + 4));
      }
    }
  }

  /** The RIFF/WAVE header of a file (its 4-byte RIFF size is not checked). */
  ghost predicate IsHeader(h: seq<byte>)
  {
    |h| == 12 && TagAt(h, 0, RIFF) && TagAt(h, 8, WAVE)
  }

  /** Behind a header, the outer walk starts at byte 12. */
  lemma HeaderFound(header: seq<byte>, rest: seq<byte>)
    requires IsHeader(header)
    ensures FindData(header + rest) == FmtFrom(header + rest, 12)
  {
    var f := header + rest;
    assert f[0] == header[0] && f[1] == header[1] && f[2] == header[2] && f[3] == header[3];
    assert f[8] == header[8] && f[9] == header[9] && f[10] == header[10] && f[11] == header[11];
  }

  lemma TagAtSlice(f: seq<byte>, p: nat, tag: seq<byte>)
    requires p + 4 <= |f| && |tag| == 4
    ensures TagAt(f, p, tag) <==> f[p..p + 4] == tag
  {
    if TagAt(f, p, tag) {
      assert f[p..p + 4] == tag;
    }
  }

  lemma TagAtShift(a: seq<byte>, b: seq<byte>, p: nat, tag: seq<byte>)
    requires p + 4 <= |b| && |tag| == 4
    ensures TagAt(a + b, |a| + p, tag) <==> TagAt(b, p, tag)
  {
    var f := a + b;
    assert f[|a| + p] == b[p] && f[|a| + p + 1] == b[p + 1];
    assert f[|a| + p + 2] == b[p + 2] && f[|a| + p + 3] == b[p + 3];
  }

  /** A chunk met before `fmt ` (a `data` chunk among them) is skipped by its
      declared length and never used. */
  lemma ChunkBeforeFmtSkipped(header: seq<byte>, id: seq<byte>, payload: seq<byte>, rest: seq<byte>, math: Math)
    requires IsHeader(header) && |id| == 4 && id != FMT && |payload| < 0x1_0000_0000
    ensures ParseWav(header + Chunk(id, payload) + rest, math) == ParseWav(header + rest, math)
  {
    var f := header + Chunk(id, payload) + rest;
    ChunkHeader(header, id, payload, rest);
    assert f == header + (Chunk(id, payload) + rest);
    HeaderFound(header, Chunk(id, payload) + rest);
    HeaderFound(header, rest);
    assert FmtFrom(f, 12) == FmtFrom(f, 20 + |payload|);
    FmtFromSuffix(header + Chunk(id, payload), rest);
    FmtFromSuffix(header, rest);
  }

  /** After `fmt `, a chunk that is not `data` (a second `fmt ` among them) is
      skipped by its declared length. */
  lemma ChunkBeforeDataSkipped(a: seq<byte>, format: Format, id: seq<byte>, payload: seq<byte>, rest: seq<byte>)
    requires |id| == 4 && id != DATA && |payload| < 0x1_0000_0000
    ensures DataFrom(a + Chunk(id, payload) + rest, format, |a|) == DataFrom(rest, format, 0)
  {
    var a' := a + Chunk(id, payload);
    var f := a' + rest;
    ChunkHeader(a, id, payload, rest);
    DataFromStep(f, format, |a|);
    assert DataFrom(f, format, |a|) == DataFrom(f, format, |a'|);
    DataFromSuffix(a', rest, format);
  }

  /** A file whose first chunk is `fmt ` is located by the inner walk over
      what follows that chunk, with the format of its first 16 bytes. */
  lemma FmtChunkFound(header: seq<byte>, fields: seq<byte>, rest: seq<byte>)
    requires IsHeader(header) && 16 <= |fields| < 0x1_0000_0000
    ensures FindData(header + Chunk(FMT, fields) + rest) == DataFrom(rest, ReadFormat(fields, 0), 0)
  {
    var a := header + Chunk(FMT, fields);
    var f := a + rest;
    ChunkHeader(header, FMT, fields, rest);
    assert f == header + (Chunk(FMT, fields) + rest);
    HeaderFound(header, Chunk(FMT, fields) + rest);
    assert f == header + FMT + EncodeU32(|fields|) + (fields + rest);
    ReadFormatShift(header + FMT + EncodeU32(|fields|), fields + rest, 0);
    ReadFormatPrefix(fields, rest);
    var format := ReadFormat(fields, 0);
    assert FmtFrom(f, 12) == DataFrom(f, format, |a|);
    DataFromSuffix(a, rest, format);
  }

  /** Bytes of a `fmt ` chunk beyond the 16 the reader uses are skipped. */
  lemma FmtExtraBytesSkipped(header: seq<byte>, fields: seq<byte>, extra: seq<byte>, rest: seq<byte>, math: Math)
    requires IsHeader(header) && |fields| == 16 && 16 + |extra| < 0x1_0000_0000
    ensures ParseWav(header + Chunk(FMT, fields + extra) + rest, math)
         == ParseWav(header + Chunk(FMT, fields) + rest, math)
  {
    FmtChunkFound(header, fields + extra, rest);
    FmtChunkFound(header, fields, rest);
    ReadFormatPrefix(fields, extra);
  }

  /** Without a `data` chunk after `fmt `, the walk fails. */
  lemma FmtWithoutDataFails(header: seq<byte>, fields: seq<byte>, math: Math)
    requires IsHeader(header) && |fields| == 16
    ensures ParseWav(header + Chunk(FMT, fields), math) == Err(NoDataChunk)
  {
    FmtChunkFound(header, fields, []);
    assert header + Chunk(FMT, fields) + [] == header + Chunk(FMT, fields);
  }

  /** A canonical 44-byte-header, 16-bit, mono WAV file holding the given samples. */
  function Wav16Mono(rate: nat, pcm: seq<int>): seq<byte>
    requires rate < 0x8000_0000 && 2 * |pcm| < 0x1_0000_0000 - 36 && IsPcm16(pcm)
  {
    CanonicalFile(RIFF + EncodeU32(36 + 2 * |pcm|) + WAVE, PcmFields(1, rate, 2 * rate, 2, 16), EncodePcm16(pcm))
  }

  lemma Wav16MonoFound(rate: nat, pcm: seq<int>)
    requires rate < 0x8000_0000 && 2 * |pcm| < 0x1_0000_0000 - 36 && IsPcm16(pcm)
    ensures FindData(Wav16Mono(rate, pcm)) == Ok(DataChunk(Format(1, 1, rate, 16), 2 * |pcm|, EncodePcm16(pcm)))
  {
    RiffHeader(36 + 2 * |pcm|);
    CanonicalFileFound(RIFF + EncodeU32(36 + 2 * |pcm|) + WAVE, PcmFields(1, rate, 2 * rate, 2, 16), EncodePcm16(pcm));
    PcmFieldsRead(1, rate, 2 * rate, 2, 16);
  }

  /** The 16 bytes of a PCM `fmt ` chunk: format tag 1, channel count, sample
      rate, byte rate, block align and bits per sample. */
  function PcmFields(channels: byte, rate: nat, byteRate: nat, blockAlign: byte, bits: byte): (r: seq<byte>)
    requires rate < 0x1_0000_0000 && byteRate < 0x1_0000_0000
    ensures |r| == 16
  {
    [1, 0, channels, 0] + EncodeU32(rate) + EncodeU32(byteRate) + [blockAlign, 0, bits, 0]
  }

  lemma PcmFieldsRead(channels: byte, rate: nat, byteRate: nat, blockAlign: byte, bits: byte)
    requires rate < 0x1_0000_0000 && byteRate < 0x1_0000_0000
    ensures ReadFormat(PcmFields(channels, rate, byteRate, blockAlign, bits), 0) == Format(1, channels, rate, bits)
  {
    var tail := EncodeU32(byteRate) + [blockAlign, 0, bits, 0];
    var fields := PcmFields(channels, rate, byteRate, blockAlign, bits);
    U32RoundTrip(rate, [1, 0, channels, 0], tail);
    assert fields == [1, 0, channels, 0] + EncodeU32(rate) + tail;
    assert fields[0] == 1 && fields[1] == 0 && fields[2] == channels && fields[3] == 0;
    assert fields[14] == bits && fields[15] == 0;
  }

  lemma RiffHeader(size: nat)
    requires size < 0x1_0000_0000
    ensures IsHeader(RIFF + EncodeU32(size) + WAVE)
  {
    var h := RIFF + EncodeU32(size) + WAVE;
    assert h[0] == RIFF[0] && h[1] == RIFF[1] && h[2] == RIFF[2] && h[3] == RIFF[3];
    assert h[8] == WAVE[0] && h[9] == WAVE[1] && h[10] == WAVE[2] && h[11] == WAVE[3];
  }

  /** A header, a `fmt ` chunk and a `data` chunk, in that order. */
  function CanonicalFile(header: seq<byte>, fields: seq<byte>, body: seq<byte>): seq<byte>
    requires |fields| < 0x1_0000_0000 && |body| < 0x1_0000_0000
  {
    header + Chunk(FMT, fields) + Chunk(DATA, body)
  }

  /** A file made of a header, a `fmt ` chunk of exactly 16 bytes and a `data`
      chunk is located with the format of those 16 bytes and the whole body. */
  lemma CanonicalFileFound(header: seq<byte>, fields: seq<byte>, body: seq<byte>)
    requires IsHeader(header) && |fields| == 16 && |body| < 0x1_0000_0000
    ensures FindData(CanonicalFile(header, fields, body))
         == Ok(DataChunk(ReadFormat(fields, 0), |body|, body))
  {
    FmtChunkFound(header, fields, Chunk(DATA, body));
    ChunkHeader([], DATA, body, []);
    var c := Chunk(DATA, body);
    assert [] + c + [] == c;
    assert c[8..] == body;
  }

  /** The format read from the head of a sequence ignores what follows it. */
  lemma ReadFormatPrefix(b: seq<byte>, rest: seq<byte>)
    requires 16 <= |b|
    ensures ReadFormat(b + rest, 0) == ReadFormat(b, 0)
  {
    var f := b + rest;
    assert f[0] == b[0] && f[1] == b[1] && f[2] == b[2] && f[3] == b[3];
    assert f[4] == b[4] && f[5] == b[5] && f[6] == b[6] && f[7] == b[7];
    assert f[14] == b[14] && f[15] == b[15];
  }

  /** Reading back a 16-bit mono file returns every sample, divided by 32768. */
  lemma Pcm16MonoRoundTrip(rate: nat, pcm: seq<int>, math: Math)
    requires rate < 0x8000_0000 && 2 * |pcm| < 0x1_0000_0000 - 36 && IsPcm16(pcm)
    ensures ParseWav(Wav16Mono(rate, pcm), math)
         == Ok(Wav(Format(1, 1, rate, 16), seq(|pcm|, i requires 0 <= i < |pcm| => pcm[i] as real / 32768.0)))
  {
    var body := EncodePcm16(pcm);
    var format := Format(1, 1, rate, 16);
    var d := DataChunk(format, 2 * |pcm|, body);
    Wav16MonoFound(rate, pcm);
    assert FrameCount(format, 2 * |pcm|) == |pcm|;
    assert FrameBytes(d) == body;
    var samples := seq(|pcm|, i requires 0 <= i < |pcm| => pcm[i] as real / 32768.0);
    var decoded := DecodeData(d, math).value.samples;
    assert decoded == seq(|pcm|, i requires 0 <= i => MonoSample(format, body, i, math));
    forall i | 0 <= i < |pcm|
      ensures decoded[i] == samples[i]
    {
      EncodePcm16At(pcm, i);
      assert MonoSample(format, body, i, math) == ChannelSum(format, body, i, 1, math) / 32768.0;
    }
    assert decoded == samples;
  }

  /** Bounds of a sum of c 16-bit channel values. */
  lemma {:induction false} ChannelSum16Bounds(format: Format, data: seq<byte>, i: nat, c: nat, math: Math)
    requires format.bitsPerSample == 16
    ensures -32768.0 * c as real <= ChannelSum(format, data, i, c, math) <= 32767.0 * c as real
  {
    if c > 0 {
      ChannelSum16Bounds(format, data, i, c - 1, math);
    }
  }

  /** The mean of c values in [-32768, 32767], divided by 32768, lies in
      [-1, 1). */
  lemma MeanScaled(sum: real, c: real)
    requires c > 0.0 && -32768.0 * c <= sum <= 32767.0 * c
    ensures -1.0 <= sum / c / 32768.0 < 1.0
  {
    var mean := sum / c;
    assert mean * c == sum;
    assert -32768.0 <= mean <= 32767.0;
  }

  lemma MonoSample16InRange(format: Format, data: seq<byte>, i: nat, math: Math)
    requires format.bitsPerSample == 16 && format.channels > 0
    ensures -1.0 <= MonoSample(format, data, i, math) < 1.0
  {
    var ch := format.channels;
    ChannelSum16Bounds(format, data, i, ch, math);
    MeanScaled(ChannelSum(format, data, i, ch, math), ch as real);
  }

  /** Every sample decoded from 16-bit data lies in [-1, 1). */
  lemma Pcm16SamplesInRange(file: seq<byte>, math: Math)
    requires ParseWav(file, math).Ok? && ParseWav(file, math).value.format.bitsPerSample == 16
    ensures forall x :: x in ParseWav(file, math).value.samples ==> -1.0 <= x < 1.0
  {
    var d := FindData(file).value;
    var data := FrameBytes(d);
    var samples := ParseWav(file, math).value.samples;
    assert samples == seq(FrameCount(d.format, d.size), i requires 0 <= i => MonoSample(d.format, data, i, math));
    forall i | 0 <= i < |samples|
      ensures -1.0 <= samples[i] < 1.0
    {
      MonoSample16InRange(d.format, data, i, math);
    }
  }
}
