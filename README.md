# LocalLLM native layer: audio front end and generation bookkeeping

This project is a Dafny model of the native C++ layer of the LocalLLM Android
app. It models three parts, with proofs about each.

1. **The speech front end of `whisper_jni.cpp`.** It turns the bytes of an
   audio file into a normalised log-mel spectrogram:
   - `read_wav_file` walks the RIFF chunks, reads `fmt ` and `data`, decodes
     16-bit integer or 32-bit float samples and mixes them down to mono;
   - `read_raw_pcm` is the headerless fallback;
   - `load_audio_file` picks the reader by extension and resamples WAV audio
     to 16 kHz;
   - `resample_audio` interpolates linearly;
   - `get_mel_filters` builds the 80 × 201 triangular filter bank;
   - `fft` is the iterative radix-2 transform;
   - `compute_mel_spectrogram` pads, frames, windows, transforms, filters,
     takes logarithms and normalises.
2. **The bookkeeping of `llama_jni.cpp` around llama.cpp.** This covers:
   - the batch helpers over the parallel arrays of a `llama_batch`;
   - the prompt-chunking loop and the generation loop of `generateNative`,
     with their position and context bookkeeping;
   - the busy flag, which is released on every return path;
   - the parameter defaults of context creation and of the sampler chain;
   - the record string of `getModelInfoNative`.
3. **The stand-in library `llama_android_stub.cpp`.** This covers its
   word-by-word streaming of a fixed response and its context-handle
   bookkeeping.

Bytes are `seq<byte>` with explicit little-endian decoding. In the llama
parts a `string` stands for the bytes of a C++ `std::string` (the UTF-8
bytes JNI hands over), one `char` per byte, so every length there counts
bytes. Samples are
`real`. `log10`, `pow(10, ·)`, `cos`, `sin` and the bit-level reading of an
IEEE float are the fields of a `RealMath.Math` value. Lemmas that need
monotonicity of the logarithm, or a bound on the cosine, state it as a
precondition. The llama.cpp calls are the fields of a `LlamaGenerate.Llama`
value. Calls whose result depends on the context's state (`llama_decode`,
`llama_sampler_sample`) receive every batch decoded before them. A
cancellation from another thread is the flag `cancelled(i)` read before step
`i`.

Each imperative routine is a `method` proved equal to a specification
function:
- `WavReader.ReadWav` against `WavReader.ParseWav`;
- `Resampler.Resample` against `Resampler.Resampled`;
- `Fft.BitReverse` against `Fft.BitReversed`;
- `Spectrogram.ComputeMelSpectrogram` against `Spectrogram.Normalized(Spectrogram.RawMel(...))`;
- `LlamaGenerate.Generator.Generate` against `LlamaGenerate.GenerateRun`;
- `LlamaStub.StreamWords` against `LlamaStub.StreamFrom`.

The properties are then proved as lemmas about those functions.

The code is followed where it departs from the documentation of the project:
- `resample_audio` truncates the output length (it does not round), and the
  model truncates;
- the FFT size of 400 is not a power of two, and the model shows the
  out-of-bounds index this causes;
- the transform used in the spectrogram is the direct discrete Fourier
  transform of the 201 non-negative frequency bins (see "## Findings").

When the stub is cancelled, the pieces it has streamed are an exact prefix
of the uncancelled pieces. The word being collected when the flag is seen is
dropped, not emitted cut off.
Neither the stub nor `generateNative` lowers the cancel flag after entry, so
a cancel that stopped the stream is still raised when the call returns.

## Model

| member | source | states |
|---|---|---|
| Bytes.U16 | app/src/main/cpp/whisper_jni.cpp:88-92 | a little-endian 16-bit field is below 2^16, with low byte `lo` and high byte `hi` |
| Bytes.U32 | app/src/main/cpp/whisper_jni.cpp:84-85 | a little-endian 32-bit field is below 2^32 |
| Bytes.Int16 | app/src/main/cpp/whisper_jni.cpp:123-130 | reading 16 bits as `int16_t` gives a value in [-32768, 32767] congruent to the bits modulo 2^16 |
| Bytes.Int16RoundTrip | app/src/main/cpp/whisper_jni.cpp:123-130 | encoding an int16 as two little-endian bytes and reading it back gives the value |
| Bytes.U32RoundTrip | app/src/main/cpp/whisper_jni.cpp:84-85 | a 32-bit length written little-endian anywhere in a file reads back unchanged |
| Bytes.EncodePcm16At | app/src/main/cpp/whisper_jni.cpp:207-212 | sample i of an encoded PCM stream is at bytes 2i and 2i+1 |
| RawPcm.PcmSample | app/src/main/cpp/whisper_jni.cpp:211-213 | every raw PCM sample lies in [-1, 1) |
| RawPcm.ReadRawPcm | app/src/main/cpp/whisper_jni.cpp:196-217 | the reading loop computes the corrected reader `LoadRawPcm` |
| RawPcm.LoadRawPcmTotal | app/src/main/cpp/whisper_jni.cpp:196-217 | the reader fails exactly when the file cannot be opened; otherwise it yields file_size/2 samples, all in [-1, 1) |
| RawPcm.RawPcmRoundTrip | app/src/main/cpp/whisper_jni.cpp:206-213 | raw PCM written from int16 values reads back as each value / 32768 |
| RawPcm.OddByteIgnored | app/src/main/cpp/whisper_jni.cpp:206 | a trailing odd byte does not change the decoded samples |
| RawPcm.RawOverrunIffOdd | app/src/main/cpp/whisper_jni.cpp:206-208 | the code as written overruns its buffer exactly when the file length is odd, by one byte; otherwise it agrees with the corrected reader |
| RawPcm.ThreeByteFileOverruns | app/src/main/cpp/whisper_jni.cpp:206-208 | a 3-byte file makes the code write 3 bytes into a 2-byte buffer; the corrected reader gives one sample |
| WavReader.ReadFormat | app/src/main/cpp/whisper_jni.cpp:88-102 | the fmt fields are read at offsets 0, 2, 4 and 14 with their 16/32-bit widths, and the byte rate and block align are skipped |
| WavReader.ReadWav | app/src/main/cpp/whisper_jni.cpp:53-164 | the nested chunk-walking loops compute `ParseWav` |
| WavReader.WalkChunks | app/src/main/cpp/whisper_jni.cpp:58-80 | the RIFF and WAVE checks followed by the walk compute `FindData` |
| WavReader.WalkToFmt | app/src/main/cpp/whisper_jni.cpp:80-160 | the outer loop, which skips chunks until `fmt `, computes `FmtFrom` |
| WavReader.WalkToData | app/src/main/cpp/whisper_jni.cpp:112-156 | the inner loop, which skips chunks until `data`, computes `DataFrom` |
| WavReader.FmtFromStep | app/src/main/cpp/whisper_jni.cpp:87-159 | a chunk that is not `fmt ` is skipped by its declared length; a `fmt ` chunk starts the search for `data` after 16 + extra bytes; a truncated `fmt ` chunk fails |
| WavReader.DataFromStep | app/src/main/cpp/whisper_jni.cpp:153-155 | a chunk that is not `data` is skipped by its declared length |
| WavReader.DecodeData | app/src/main/cpp/whisper_jni.cpp:116-152 | decoding succeeds exactly for 16 or 32 bits and at least one channel; it keeps the format and yields chunk_size / (bits/8) / channels samples |
| WavReader.DecodeSamples | app/src/main/cpp/whisper_jni.cpp:117-152 | the sample loops compute `DecodeData` |
| WavReader.CorrectedAgreesWhereDefined | app/src/main/cpp/whisper_jni.cpp:53-164 | wherever the code as written has defined behaviour, the corrected reader returns the same result |
| WavReader.DivMulBound | app/src/main/cpp/whisper_jni.cpp:118-124 | the samples requested cover at most chunk_size bytes, and exactly that many only when chunk_size is a whole number of frames |
| WavReader.OverrunIffPartialFrame | app/src/main/cpp/whisper_jni.cpp:117-136 | for 16 or 32 bits, the `file.read(…, chunk_size)` overruns exactly when chunk_size is not a multiple of channels × bytes per sample |
| WavReader.StereoOddChunkFound | app/src/main/cpp/whisper_jni.cpp:80-118 | a 16-bit stereo file with a 6-byte data chunk is found with that format and payload |
| WavReader.StereoOddChunkOverruns | app/src/main/cpp/whisper_jni.cpp:117-124 | that file makes the code write 6 bytes into a 4-byte buffer; the corrected reader returns its one whole frame |
| WavReader.DegenerateFormatDividesByZero | app/src/main/cpp/whisper_jni.cpp:117-118 | with zero channels or fewer than 8 bits the code divides by zero; the corrected reader fails |
| WavReader.Chunk | app/src/main/cpp/whisper_jni.cpp:81-85 | a chunk is its 4-byte tag, its 4-byte length and its payload |
| WavReader.ChunkHeader | app/src/main/cpp/whisper_jni.cpp:81-116 | the walk sees a chunk's tag and reads its payload length from its header |
| WavReader.DataFromShift | app/src/main/cpp/whisper_jni.cpp:112-156 | the data search depends only on the bytes from its start position on |
| WavReader.FmtFromShift | app/src/main/cpp/whisper_jni.cpp:80-160 | the fmt search depends only on the bytes from its start position on |
| WavReader.ReadFormatShift | app/src/main/cpp/whisper_jni.cpp:88-102 | the fmt fields depend only on the 16 bytes read |
| WavReader.HeaderFound | app/src/main/cpp/whisper_jni.cpp:58-80 | after a valid 12-byte RIFF/WAVE header the walk starts at byte 12 |
| WavReader.TagAtSlice | app/src/main/cpp/whisper_jni.cpp:87-116 | a tag comparison is a comparison of four bytes |
| WavReader.ChunkBeforeFmtSkipped | app/src/main/cpp/whisper_jni.cpp:157-159 | any chunk before `fmt ` is skipped without effect, including a `data` chunk |
| WavReader.ChunkBeforeDataSkipped | app/src/main/cpp/whisper_jni.cpp:153-155 | any chunk after `fmt ` that is not `data` is skipped without effect |
| WavReader.FmtChunkFound | app/src/main/cpp/whisper_jni.cpp:87-112 | the `data` search starts right after the `fmt ` chunk, with the fields it holds |
| WavReader.FmtExtraBytesSkipped | app/src/main/cpp/whisper_jni.cpp:106-109 | bytes of a `fmt ` chunk beyond 16 do not change the result |
| WavReader.FmtWithoutDataFails | app/src/main/cpp/whisper_jni.cpp:112-163 | a file that ends after its `fmt ` chunk fails |
| WavReader.Wav16MonoFound | app/src/main/cpp/whisper_jni.cpp:58-118 | a canonical 16-bit mono file is found with its format and payload |
| WavReader.PcmFieldsRead | app/src/main/cpp/whisper_jni.cpp:88-102 | the 16 fmt bytes of a PCM file read back as its channels, rate and bits |
| WavReader.RiffHeader | app/src/main/cpp/whisper_jni.cpp:58-77 | "RIFF", any size and "WAVE" pass the header checks |
| WavReader.CanonicalFileFound | app/src/main/cpp/whisper_jni.cpp:58-118 | a header, a 16-byte `fmt ` chunk and a `data` chunk are found as that format and payload |
| WavReader.Pcm16MonoRoundTrip | app/src/main/cpp/whisper_jni.cpp:53-152 | a 16-bit mono WAV built from int16 values reads back as each value / 32768, with its rate |
| WavReader.ChannelSum16Bounds | app/src/main/cpp/whisper_jni.cpp:128-131 | the sum over c 16-bit channels lies in [-32768c, 32767c] |
| WavReader.MonoSample16InRange | app/src/main/cpp/whisper_jni.cpp:127-133 | a mixed-down 16-bit sample lies in [-1, 1) |
| WavReader.Pcm16SamplesInRange | app/src/main/cpp/whisper_jni.cpp:122-133 | every sample of a 16-bit file lies in [-1, 1) |
| Resampler.OutputLength | app/src/main/cpp/whisper_jni.cpp:176-177 | the output length is floor(n × out / in), so truncated and not rounded |
| Resampler.Frac | app/src/main/cpp/whisper_jni.cpp:181-184 | the source position i × in / out splits into its index and a fraction in [0, 1) |
| Resampler.SourceIndexInBounds | app/src/main/cpp/whisper_jni.cpp:180-183 | every `input[idx0]` read is in bounds |
| Resampler.Resample | app/src/main/cpp/whisper_jni.cpp:169-191 | the resampling loop computes `Resampled`, which returns the input unchanged for equal rates |
| Resampler.InterpolateAll | app/src/main/cpp/whisper_jni.cpp:176-187 | the output has floor(n × out / in) entries, each the interpolation at its index |
| Resampler.ResampledWithinRange | app/src/main/cpp/whisper_jni.cpp:180-187 | an output never leaves the range of the input |
| Resampler.InterpolatedBetweenNeighbours | app/src/main/cpp/whisper_jni.cpp:183-186 | each output lies between its two neighbouring inputs, input[idx0] and input[min(idx0 + 1, n − 1)] |
| Resampler.InterpolatedWithinRange | app/src/main/cpp/whisper_jni.cpp:183-186 | each output lies within any bounds of the whole input |
| Resampler.ConvexCombination | app/src/main/cpp/whisper_jni.cpp:186 | (1 − frac)·a + frac·b lies between bounds that hold a and b |
| Resampler.ResampledOnGrid | app/src/main/cpp/whisper_jni.cpp:181-186 | an output that falls on an input position is that input |
| Resampler.DownsampleByFactor | app/src/main/cpp/whisper_jni.cpp:176-187 | downsampling by an integer factor k keeps every k-th input, n / k of them |
| Resampler.UpsampleByFactor | app/src/main/cpp/whisper_jni.cpp:176-187 | upsampling by k gives k × n outputs, with input j at output k × j |
| Resampler.UpThenDownIsIdentity | app/src/main/cpp/whisper_jni.cpp:169-187 | upsampling by k and downsampling by k gives back the input |
| AudioLoader.AsInt32 | app/src/main/cpp/whisper_jni.cpp:94-96 | storing the 32-bit rate in an `int` keeps rates below 2^31 and wraps larger ones modulo 2^32 |
| AudioLoader.LoadAudioFile | app/src/main/cpp/whisper_jni.cpp:222-241 | the loader computes `LoadAudio` |
| AudioLoader.LoadFailsOnlyWithoutFile | app/src/main/cpp/whisper_jni.cpp:222-241 | loading fails exactly when the file cannot be opened |
| AudioLoader.OtherPathsReadAsRawPcm | app/src/main/cpp/whisper_jni.cpp:226-240 | a path without a ".wav" or ".WAV" suffix after at least one character is read as raw PCM |
| AudioLoader.BrokenWavReadAsRawPcm | app/src/main/cpp/whisper_jni.cpp:229-240 | a file that fails to parse as WAV is read as raw PCM |
| AudioLoader.Wav16kUnchanged | app/src/main/cpp/whisper_jni.cpp:230-234 | WAV audio at 16000 Hz is returned unchanged |
| AudioLoader.Wav32kDecimated | app/src/main/cpp/whisper_jni.cpp:230-231 | WAV audio at 32000 Hz becomes every second sample |
| AudioLoader.Wav8kUpsampled | app/src/main/cpp/whisper_jni.cpp:230-231 | WAV audio at 8000 Hz doubles in length, keeping each sample at an even position |
| AudioLoader.LoadedSamplesInRange | app/src/main/cpp/whisper_jni.cpp:222-241 | audio loaded from 16-bit data lies in [-1, 1] |
| AudioLoader.AsWrittenUndefinedIff | app/src/main/cpp/whisper_jni.cpp:169-241 | the code as written reaches an undefined float-to-size conversion exactly for a WAV rate of 0, or a negative rate with 16000·n >= -rate for n samples; a smaller negative output size truncates to 0 and loads an empty signal; elsewhere it agrees with the corrected loader |
| AudioLoader.WrappedRateShortInput | app/src/main/cpp/whisper_jni.cpp:169-177 | a rate field of 2^31, stored as -2^31, with one sample gives an output size that truncates to 0, so the source loads an empty signal |
| AudioLoader.NonPositiveRateReadAsRawPcm | app/src/main/cpp/whisper_jni.cpp:222-241 | the corrected loader reads any parsed WAV file whose stored rate is 0 or negative as raw PCM, whatever the path |
| AudioLoader.ZeroRateWav | app/src/main/cpp/whisper_jni.cpp:176-177 | a 16-bit WAV with rate 0 reaches that conversion; the corrected loader reads it as raw PCM |
| MelFilterBank.MelPoints | app/src/main/cpp/whisper_jni.cpp:270-277 | there are 82 band edges |
| MelFilterBank.ComputeMelPoints | app/src/main/cpp/whisper_jni.cpp:270-277 | the edge loop fills the 82 edges evenly spaced in mel between 0 Hz and 8000 Hz |
| MelFilterBank.GetMelFilters | app/src/main/cpp/whisper_jni.cpp:249-297 | the result has 80 × 201 entries; entry m × 201 + k is the weight of band m at bin k |
| MelFilterBank.FillFilters | app/src/main/cpp/whisper_jni.cpp:279-294 | the band and bin loops write every entry of the zeroed matrix with its weight |
| MelFilterBank.FlatIndex | app/src/main/cpp/whisper_jni.cpp:289-291 | the row-major index m × 201 + k names band m and bin k |
| MelFilterBank.MelPointsIncrease | app/src/main/cpp/whisper_jni.cpp:262-277 | the band edges increase when log10 and 10^x increase |
| MelFilterBank.WeightInUnitInterval | app/src/main/cpp/whisper_jni.cpp:285-293 | every weight lies in [0, 1] |
| MelFilterBank.WeightZeroOutsideBand | app/src/main/cpp/whisper_jni.cpp:285-293 | a bin below f_left or above f_right has weight 0 |
| MelFilterBank.NeighbouringWeightsSumToOne | app/src/main/cpp/whisper_jni.cpp:285-293 | on the falling slope of band m, the weights of bands m and m + 1 sum to 1 |
| MelFilterBank.BinFrequencies | app/src/main/cpp/whisper_jni.cpp:286 | bin k lies at 40k Hz, within [0, 8000] |
| MelFilterBank.FilterMatrixProperties | app/src/main/cpp/whisper_jni.cpp:249-297 | every entry of the matrix lies in [0, 1] and is 0 outside its band |
| Fft.Rev | app/src/main/cpp/whisper_jni.cpp:305-316 | the bit reversal of a k-bit index is a k-bit index |
| Fft.RevInvolution | app/src/main/cpp/whisper_jni.cpp:305-316 | reversing the bits twice gives the index back |
| Fft.RevStepIncrements | app/src/main/cpp/whisper_jni.cpp:306-310 | the carry loop turns rev(i − 1) into rev(i) |
| Fft.RevTopBit | app/src/main/cpp/whisper_jni.cpp:305-316 | reversing a (k+1)-bit index moves its top bit to the bottom |
| Fft.NextReversed | app/src/main/cpp/whisper_jni.cpp:306-310 | the inner loop sets j to the bit reversal of i |
| Fft.PermutedStep | app/src/main/cpp/whisper_jni.cpp:312-315 | step i swaps entries i and rev(i) only when i < rev(i) |
| Fft.AllPermuted | app/src/main/cpp/whisper_jni.cpp:305-316 | after all steps, entry p holds the input at rev(p), so each pair is swapped exactly once |
| Fft.BitReversedTwice | app/src/main/cpp/whisper_jni.cpp:305-316 | the bit-reversal permutation is its own inverse |
| Fft.BitReversedMultiset | app/src/main/cpp/whisper_jni.cpp:305-316 | the permutation keeps the multiset of values |
| Fft.SwapLoop | app/src/main/cpp/whisper_jni.cpp:305-316 | the loop from i = 1 applies every step |
| Fft.SwapPair | app/src/main/cpp/whisper_jni.cpp:312-315 | one step swaps both arrays as the permutation says |
| Fft.BitReverse | app/src/main/cpp/whisper_jni.cpp:305-316 | both arrays end bit-reversed and are permutations of their inputs |
| Fft.ButterflyPartner | app/src/main/cpp/whisper_jni.cpp:324-334 | for n a multiple of len, the partner of a top index is in bounds and in the bottom half of its block |
| Fft.ButterflyOutputs | app/src/main/cpp/whisper_jni.cpp:327-339 | a stage writes u + w·v at the top index and u − w·v at the bottom index, with w the twiddle of j |
| Fft.Butterfly | app/src/main/cpp/whisper_jni.cpp:328-337 | one butterfly writes u + w·v and u − w·v and changes no other entry |
| Fft.TwiddleNext | app/src/main/cpp/whisper_jni.cpp:338 | multiplying by wlen advances the twiddle from j to j + 1 |
| Fft.ButterflyBlock | app/src/main/cpp/whisper_jni.cpp:325-339 | the j loop turns one block into its stage output and leaves the other entries alone |
| Fft.BlockButterfly | app/src/main/cpp/whisper_jni.cpp:327-338 | each iteration of the j loop extends the finished part of the block by one pair |
| Fft.ButterflyStage | app/src/main/cpp/whisper_jni.cpp:320-340 | the block loop computes one whole stage |
| Fft.StagePrefixAt | app/src/main/cpp/whisper_jni.cpp:324-339 | each entry of a stage is its butterfly value |
| Fft.Butterflies | app/src/main/cpp/whisper_jni.cpp:319-341 | the stage loop applies the stages of length 2, 4, ..., n in order |
| Fft.FftInPlace | app/src/main/cpp/whisper_jni.cpp:300-342 | n ≤ 1 is left unchanged; for n = 2^k the arrays end as the bit reversal followed by the k stages |
| Fft.Pow2Fits | app/src/main/cpp/whisper_jni.cpp:319-324 | for n = 2^k every stage length divides n |
| Fft.TransformDcIsSum | app/src/main/cpp/whisper_jni.cpp:300-342 | bin 0 of the transform is the sum of the inputs |
| Fft.BlockSum | app/src/main/cpp/whisper_jni.cpp:319-341 | after s stages, the first entry of each block of 2^s holds the sum over that block |
| Fft.SumPermutation | app/src/main/cpp/whisper_jni.cpp:305-316 | a permutation keeps the sum of the values |
| Fft.TwoPointTransform | app/src/main/cpp/whisper_jni.cpp:300-342 | the transform of two points is their sum and difference |
| Fft.ButterflyInBounds | app/src/main/cpp/whisper_jni.cpp:319-334 | for n = 2^k every butterfly index i + j + len/2 is below n |
| Fft.NotPow2Of400 | app/src/main/cpp/whisper_jni.cpp:29 | 400 is no power of two |
| Fft.Fft400OutOfBounds | app/src/main/cpp/whisper_jni.cpp:319-334 | with n = 400 the stage len = 32 reaches block i = 384 and the bottom index 384 + j + 16 runs from 400 to 415 |
| Spectrogram.Padded | app/src/main/cpp/whisper_jni.cpp:356-358 | the padded signal has n + 400 entries |
| Spectrogram.PaddedLayout | app/src/main/cpp/whisper_jni.cpp:356-358 | it holds the samples at offset 200 and zeros everywhere else |
| Spectrogram.PadSamples | app/src/main/cpp/whisper_jni.cpp:356-358 | the padding code builds that signal |
| Spectrogram.NFrames | app/src/main/cpp/whisper_jni.cpp:361 | n_frames = n / 160 + 1, so the last frame starts within the samples |
| Spectrogram.FrameInBounds | app/src/main/cpp/whisper_jni.cpp:377-385 | every `padded[start + i]` read is in bounds |
| Spectrogram.CellIndex | app/src/main/cpp/whisper_jni.cpp:405 | cell m × n_frames + frame is in bounds and names band m and frame `frame` |
| Spectrogram.CellOf | app/src/main/cpp/whisper_jni.cpp:373-405 | every cell of the matrix is named by exactly one band and frame |
| Spectrogram.HannInUnitInterval | app/src/main/cpp/whisper_jni.cpp:367-370 | window coefficients lie in [0, 1] when the cosine does, and the first is 0 when cos 0 = 1 |
| Spectrogram.ComputeHann | app/src/main/cpp/whisper_jni.cpp:367-370 | the window loop fills the 400 coefficients |
| Spectrogram.WindowFrame | app/src/main/cpp/whisper_jni.cpp:380-385 | the frame is the windowed samples from `start`, with zero imaginary part |
| Spectrogram.PowerSpectrum | app/src/main/cpp/whisper_jni.cpp:391-394 | the power spectrum has 201 entries, none negative |
| Spectrogram.ComputeBin | app/src/main/cpp/whisper_jni.cpp:388 | the bin loop computes frequency bin k of the transform |
| Spectrogram.ComputePower | app/src/main/cpp/whisper_jni.cpp:388-394 | the power loop computes re² + im² of each of the 201 bins |
| Spectrogram.FftAgreesWithDftAtDc | app/src/main/cpp/whisper_jni.cpp:300-342 | for a power-of-two length, bin 0 of the transform used agrees with bin 0 of `fft` |
| Spectrogram.PowerOfSilence | app/src/main/cpp/whisper_jni.cpp:388-394 | a silent frame has zero power in every bin |
| Spectrogram.MelEnergyNonNegative | app/src/main/cpp/whisper_jni.cpp:398-401 | the filtered energy of a non-negative spectrum is non-negative |
| Spectrogram.LogEnergyFloor | app/src/main/cpp/whisper_jni.cpp:403-405 | the log energy is at least log10(1e-10), and equal to it exactly when the energy is at most 1e-10 |
| Spectrogram.RawMelAt | app/src/main/cpp/whisper_jni.cpp:397-406 | each cell of the raw matrix is the log energy of its band in its frame |
| Spectrogram.RawCellAtLeastFloor | app/src/main/cpp/whisper_jni.cpp:403-405 | no raw cell is below log10(1e-10) |
| Spectrogram.BandEnergy | app/src/main/cpp/whisper_jni.cpp:398-401 | the k loop sums weight × power over the 201 bins |
| Spectrogram.FrameSpectrum | app/src/main/cpp/whisper_jni.cpp:377-394 | the frame body computes the power spectrum of frame `frame` |
| Spectrogram.FilterColumn | app/src/main/cpp/whisper_jni.cpp:397-406 | the band loop writes the 80 cells of one frame and changes no cell of another frame |
| Spectrogram.FillRawMel | app/src/main/cpp/whisper_jni.cpp:376-407 | the frame loop writes every cell exactly once with its raw value |
| Spectrogram.AllCellsFilled | app/src/main/cpp/whisper_jni.cpp:376-407 | a matrix holding the raw value at every (band, frame) is the raw matrix |
| Spectrogram.Maximum | app/src/main/cpp/whisper_jni.cpp:410 | the maximum is an entry and no entry exceeds it |
| Spectrogram.MaxElement | app/src/main/cpp/whisper_jni.cpp:410 | `max_element` finds the maximum |
| Spectrogram.NormalizeInPlace | app/src/main/cpp/whisper_jni.cpp:410-414 | the maximum is taken before any entry changes, and every entry is then clamped to max − 8 and mapped by (v + 4) / 4 |
| Spectrogram.NormalizedBounds | app/src/main/cpp/whisper_jni.cpp:411-414 | every normalised value lies in [(max − 4)/4, (max + 4)/4]; the lower end is reached exactly by entries at or below max − 8, and the upper exactly by the maximum |
| Spectrogram.NormalizedMonotone | app/src/main/cpp/whisper_jni.cpp:411-414 | normalisation preserves order |
| Spectrogram.NormalizedMaximum | app/src/main/cpp/whisper_jni.cpp:410-414 | the largest normalised value is (max + 4)/4 |
| Spectrogram.NormalizedConstant | app/src/main/cpp/whisper_jni.cpp:410-414 | a constant matrix c, such as the one silence gives, normalises to (c + 4)/4 everywhere |
| Spectrogram.ComputeMelSpectrogram | app/src/main/cpp/whisper_jni.cpp:347-418 | it returns true with n / 160 + 1 frames, and the matrix is the normalised raw log-mel matrix |
| Spectrogram.SpectrogramBounds | app/src/main/cpp/whisper_jni.cpp:410-414 | every cell of the result lies in [(max − 4)/4, (max + 4)/4], with max the largest raw cell |
| LlamaBatch.Batch.constructor | app/src/main/cpp/llama_jni.cpp:471-473 | `llama_batch_init` gives arrays of the requested size and no slot in use |
| LlamaBatch.Batch.Clear | app/src/main/cpp/llama_jni.cpp:38-40 | only the counter is reset, so no slot is in use |
| LlamaBatch.Batch.Add | app/src/main/cpp/llama_jni.cpp:43-55 | slot n_tokens gets the token, position, one sequence, the sequence id and logits 1 iff asked; the counter grows by one and no other slot changes |
| LlamaGenerate.OrDefault | app/src/main/cpp/llama_jni.cpp:186-187 | a positive setting is kept and any other is replaced by the default |
| LlamaGenerate.OrDefaultReal | app/src/main/cpp/llama_jni.cpp:525-526 | the same rule for top-p and temperature |
| LlamaGenerate.OrDefaultIdempotent | app/src/main/cpp/llama_jni.cpp:186-187 | applying a default twice changes nothing |
| LlamaGenerate.ContextDefaults | app/src/main/cpp/llama_jni.cpp:185-189 | n_ctx falls back to 2048 and n_batch to 512; threads fall back to the hardware count, and batch threads equal threads |
| LlamaGenerate.CreateContext | app/src/main/cpp/llama_jni.cpp:176-201 | there is no context for a null model or a failed init; otherwise it is made with the defaults |
| LlamaGenerate.SamplerDefaults | app/src/main/cpp/llama_jni.cpp:524-526 | top-k falls back to 40, top-p to 0.95 and temperature to 0.8 |
| LlamaGenerate.PieceLength | app/src/main/cpp/llama_jni.cpp:551-553 | a positive piece length is the byte length of the token text, at most 255 bytes |
| LlamaGenerate.Generator.constructor | app/src/main/cpp/llama_jni.cpp:58-59 | both flags start false |
| LlamaGenerate.Generator.Cancel | app/src/main/cpp/llama_jni.cpp:617-621 | cancelling sets the request flag only |
| LlamaGenerate.Generator.Generate | app/src/main/cpp/llama_jni.cpp:340-614 | null handles are refused; a busy call is refused and leaves the flag set; a call that takes the flag clears the cancel request, runs `GenerateRun` and clears the busy flag on every return; the cancel request is still raised on return exactly when the generation loop stopped on it |
| LlamaGenerate.Respond | app/src/main/cpp/llama_jni.cpp:385-480 | the checks of vocabulary, prompt, tokenization (with one retry), context length and batch allocation return their errors in that order |
| LlamaGenerate.AnswerTokens | app/src/main/cpp/llama_jni.cpp:483-599 | the prompt loop, the sampler and the generation loop compute `Answer` |
| LlamaGenerate.ProcessPrompt | app/src/main/cpp/llama_jni.cpp:485-509 | the prompt loop decodes the chunks in order up to the first failure, and n_cur = n afterwards |
| LlamaGenerate.FillChunk | app/src/main/cpp/llama_jni.cpp:491-496 | the cleared batch holds prompt tokens i … i + len − 1 at their own positions |
| LlamaGenerate.GenerateTokens | app/src/main/cpp/llama_jni.cpp:534-591 | the generation loop computes `GenerationLoop` |
| LlamaGenerate.GenerationLoop | app/src/main/cpp/llama_jni.cpp:534-591 | the generation loop never returns an error |
| LlamaGenerate.PromptChunksCover | app/src/main/cpp/llama_jni.cpp:487-496 | the chunks cover tokens i … n − 1 exactly once, in order |
| LlamaGenerate.PromptCoversTokens | app/src/main/cpp/llama_jni.cpp:485-509 | the prompt slots are tokens 0 … n − 1 at positions 0 … n − 1 in sequence 0, and only the last asks for logits |
| LlamaGenerate.PromptChunkSizes | app/src/main/cpp/llama_jni.cpp:487-488 | each chunk holds between 1 and n_batch tokens, and there are ceil(n / n_batch) of them |
| LlamaGenerate.DecodeAllPrefix | app/src/main/cpp/llama_jni.cpp:500-506 | the decoded batches are all the chunks, or those up to and including the first that fails |
| LlamaGenerate.GenerationDecodes | app/src/main/cpp/llama_jni.cpp:534-591 | the generation loop appends single-token batches at positions n_cur, n_cur + 1, … below n_ctx − 1, at most one per step |
| LlamaGenerate.GenerationPieces | app/src/main/cpp/llama_jni.cpp:551-568 | at most one piece is streamed per step, each of 1 to 255 bytes |
| LlamaGenerate.GenerationText | app/src/main/cpp/llama_jni.cpp:552-556 | the result grows by exactly the streamed pieces |
| LlamaGenerate.RunReply | app/src/main/cpp/llama_jni.cpp:381-599 | the reply is an error with nothing streamed, or exactly the streamed pieces joined, at most max_tokens of them |
| LlamaGenerate.GenerationStops | app/src/main/cpp/llama_jni.cpp:534-539 | the generation loop reports a stop on the cancel flag only if the flag was up at one of its steps, always when it is up at the step reached, and then streams nothing more |
| LlamaGenerate.RunStops | app/src/main/cpp/llama_jni.cpp:369-599 | a run ends with the cancel request raised only without an error and only when a cancel was seen within max_tokens steps |
| LlamaGenerate.GenerationReply | app/src/main/cpp/llama_jni.cpp:530-599 | the returned text of a generation is the concatenation of the streamed pieces |
| LlamaGenerate.RejectedPrompts | app/src/main/cpp/llama_jni.cpp:437-467 | a prompt of 0 tokens, or of n_ctx tokens or more, is refused before any batch is allocated or decoded |
| LlamaGenerate.PromptPhaseSlots | app/src/main/cpp/llama_jni.cpp:485-509 | the decoded prompt slots are at positions 0, 1, … and all n are decoded when every decode succeeds |
| LlamaGenerate.PromptPhaseSizes | app/src/main/cpp/llama_jni.cpp:487-488 | every decoded prompt batch holds 1 to min(n_batch, n) tokens |
| LlamaGenerate.RunPositions | app/src/main/cpp/llama_jni.cpp:471-591 | all decoded slots are at positions 0, 1, 2, …, fewer than n_ctx of them, and each batch fits the capacity max(n_batch, n) |
| LlamaGenerate.AnswerSlots | app/src/main/cpp/llama_jni.cpp:485-591 | after tokenization the decoded slots are at consecutive positions below n_ctx |
| LlamaGenerate.AnswerSizes | app/src/main/cpp/llama_jni.cpp:485-591 | after tokenization every decoded batch holds 1 to min(n_batch, n) tokens |
| LlamaGenerate.RunGeneration | app/src/main/cpp/llama_jni.cpp:534-591 | the generation batches continue the positions after the n prompt slots |
| ModelInfo.Decimal | app/src/main/cpp/llama_jni.cpp:645-646 | `std::to_string` gives at least one digit and no leading zero |
| ModelInfo.DecimalRoundTrip | app/src/main/cpp/llama_jni.cpp:645-646 | a rendered number reads back as that number |
| ModelInfo.Description | app/src/main/cpp/llama_jni.cpp:639-640 | the description is the model text cut to 255 bytes and ended at the first NUL byte |
| ModelInfo.InfoJson | app/src/main/cpp/llama_jni.cpp:631-653 | the record is "{}" exactly for a null handle, and always a brace-delimited record |
| ModelInfo.NumbersRoundTrip | app/src/main/cpp/llama_jni.cpp:645-647 | the n_params and size fields read back as the two numbers |
| ModelInfo.InfoRoundTrip | app/src/main/cpp/llama_jni.cpp:643-647 | a description without a double quote reads back from the record, with both numbers |
| ModelInfo.QuoteBreaksRecord | app/src/main/cpp/llama_jni.cpp:644 | a description holding a double quote does not read back, because it is not escaped |
| LlamaStub.StreamWords | app/src/main/cpp/llama_android_stub.cpp:103-115 | the streaming loop emits `StreamFrom`, and reports a stop on the cancel flag exactly when the flag is up before some character of the response |
| LlamaStub.StreamConcat | app/src/main/cpp/llama_android_stub.cpp:103-115 | without cancellation, the pending word and the pieces join to the rest of the text |
| LlamaStub.SplitConcat | app/src/main/cpp/llama_android_stub.cpp:103-115 | without cancellation the pieces join to exactly the response |
| LlamaStub.StreamShape | app/src/main/cpp/llama_android_stub.cpp:105-110 | every piece is non-empty and has a space only as its last character, and every piece but the last ends with a space |
| LlamaStub.CancelledPrefix | app/src/main/cpp/llama_android_stub.cpp:104-110 | the pieces streamed under cancellation are a prefix of the uncancelled pieces |
| LlamaStub.UncancelledStream | app/src/main/cpp/llama_android_stub.cpp:104 | a flag that stays down streams every piece |
| LlamaStub.StubRuntime.constructor | app/src/main/cpp/llama_android_stub.cpp:18-19 | both flags start false |
| LlamaStub.StubRuntime.GenerateTokens | app/src/main/cpp/llama_android_stub.cpp:87-120 | the full response is returned, cancelled or not, with the busy flag down; pieces are streamed only with a callback; the cancel flag is still raised on return exactly when it stopped the stream |
| LlamaStub.StubRuntime.Cancel | app/src/main/cpp/llama_android_stub.cpp:129 | cancelling sets the cancel flag only |
| LlamaStub.StubContext.constructor | app/src/main/cpp/llama_android_stub.cpp:21-24 | a new record holds n_ctx 2048 and 4 threads |
| LlamaStub.LoadModel | app/src/main/cpp/llama_android_stub.cpp:55-59 | a new record stores the given context size and thread count |
| LlamaStub.GetContextSize | app/src/main/cpp/llama_android_stub.cpp:146-147 | the result is 2048 for a null handle, otherwise the stored size |
| LlamaStub.LoadThenQuery | app/src/main/cpp/llama_android_stub.cpp:55-147 | a handle made by `loadModel` reports the context size it was loaded with |

## Left out

- JNI marshalling, callbacks and Android logging are not modelled. The callback is modelled as the sequence of pieces it receives. In `generateNative` that sequence is recorded whether or not a callback is registered (`onToken` is called only when one is, llama_jni.cpp:558); the reply does not depend on it. Exceptions thrown inside it are cleared by the source and have no effect.
- `std::ifstream` I/O is not modelled. A file is an optional byte sequence, and `None` means it could not be opened.
- WAV short reads are simplified. A short read of a header, a chunk header or the fmt fields is a failure. The stale tag bytes that a partial read leaves in `chunk_id` are not modelled. A data payload cut short by the end of the file reads as zeros in the missing part. This differs from the source when a `data` tag is followed by fewer than 4 size bytes (whisper_jni.cpp:113-116). The source then keeps stale bytes in `chunk_size`, sizes its buffers from them, reads nothing into the zeroed buffer and returns true with zero-valued samples. The model fails the WAV read there, and the loader falls back to raw PCM.
- Floating-point rounding, NaN and infinities are not modelled. Samples, weights and energies are exact reals.
- `resample_audio` computes its ratio and positions in `double`; the model uses exact rational arithmetic.
- `log10`, `pow`, `cos`, `sin` and the IEEE reading of a 32-bit float are parameters. Lemmas that need `log10` and `10^x` to be increasing, or the cosine to lie in [-1, 1], require it.
- The numerical values of the FFT twiddle factors and of the Hann window are parameters. Only the index structure of the FFT is proved, together with the value of bin 0.
- Spectrogram.ComputePower computes the 201 bins by a direct discrete Fourier transform, not by `fft`. `fft` is modelled separately in `Fft`, where its 400-point call is shown to index out of bounds (see "## Findings").
- Integer widths of sizes are not modelled. `int` and `size_t` sample counts, `int` frame counts and the `int` token counters of `generateNative` are unbounded. The one width that matters, the 32-bit WAV rate stored in an `int`, is modelled by AudioLoader.AsInt32.
- The audio and mel statistics and the report string of `whisperTranscribe` are left out. So are `whisperInit`, `whisperFree`, `isModelLoaded`, `loadAudioSamples` and the global whisper context: they are lifecycle plumbing around foreign handles.
- All llama.cpp and ggml calls are parameters with no algorithm: model loading, `llama_init_from_model`, tokenization, decoding, the sampler chain, the vocabulary, `llama_model_desc`, `llama_model_n_params` and `llama_model_size`.
- The KV-cache clear has no effect on the model's bookkeeping and is left out. So are `freeModel`, `freeBackend`, `initBackend`, the Vulkan queries, system info and `getThreadCountNative`.
- Atomics and mutexes are left out. Cancellation from another thread is the flag value `cancelled(i)` read before step i. `isGeneratingNative` and the stub's `isGenerating` are reads of the `generating` field.
- The unreachable "Invalid context or model" branch at llama_jni.cpp:379-383 is left out. The handles were already checked non-zero at line 356.
- The exception handlers of `generateNative` and `getModelInfoNative` are left out, because no modelled step throws.
- `std::thread::hardware_concurrency()` is the parameter `hardwareThreads` of LlamaGenerate.ContextDefaults.
- The stub ignores the prompt and the sampling settings. It also waits 500 ms and 50 ms; these delays are not modelled.
- `getContextSizeNative` of llama_jni.cpp (lines 656-665) is left out: it forwards to `llama_n_ctx` of a foreign handle.
- `getVocabSize` and `clearKVCache` of llama_android_stub.cpp (lines 150-167) are left out: they return constants or do nothing.
- The cancel flag's value on return is modelled only through the reads the loops make. A cancel requested after the last read, or during a stub call without a callback (where the flag is never read), is not reflected in `cancelRequested` or `shouldCancel`.
- AudioLoader.LoadAudioAsWritten: the boundary 16000·n = -rate of a negative rate is decided in exact arithmetic. In `double` the product can round to just above -1 and truncate to 0, which the model does not capture.
- llama_android.cpp, an `#ifdef` wrapper over an older llama.cpp API, is not part of this model. Neither is convert_bge_to_onnx.py, a conversion script.
- MelFilterBank.MelPoints: its own contract states only the length (82). The values are tied to the edge loop by MelFilterBank.ComputeMelPoints, and their order is proved in MelFilterBank.MelPointsIncrease.

## Findings

| source | as written | input that shows it | evidently intended | confidence | as-written member | corrected member |
|---|---|---|---|---|---|---|
| app/src/main/cpp/whisper_jni.cpp:117-136 | `file.read(raw, chunk_size)` reads `chunk_size` bytes into a buffer of `chunk_size / bytes_per_sample / num_channels` whole frames | a 16-bit stereo file whose `data` chunk is 6 bytes: 6 bytes are written into a 4-byte buffer | read only the whole frames the buffer holds | high, not executed | WavReader.StereoOddChunkOverruns | WavReader.DecodeData |
| app/src/main/cpp/whisper_jni.cpp:117-118 | `chunk_size / (bits_per_sample / 8) / num_channels` with no check of the divisors | a `fmt ` chunk with 0 channels, or with fewer than 8 bits per sample | reject the file | high, not executed | WavReader.DegenerateFormatDividesByZero | WavReader.DecodeData |
| app/src/main/cpp/whisper_jni.cpp:206-208 | `file_size` bytes are read into `file_size / 2` int16 values | a 3-byte raw PCM file: 3 bytes are written into a 2-byte buffer | read `2 × (file_size / 2)` bytes and ignore the odd byte | high, not executed | RawPcm.ThreeByteFileOverruns | RawPcm.LoadRawPcmTotal |
| app/src/main/cpp/whisper_jni.cpp:319-334 | the radix-2 `fft` is called at line 388 on `WHISPER_N_FFT` = 400 points (line 29), which is not a power of two | any frame: at stage len = 32 the block at i = 384 reads `real[400]` to `real[415]` | a transform valid for 400 points, such as a direct DFT of the 201 non-negative bins | high, not executed | Fft.Fft400OutOfBounds | Spectrogram.ComputePower |
| app/src/main/cpp/whisper_jni.cpp:176-177 | a WAV sample rate of 0, or one that wraps negative in `int` at line 95, is passed to `resample_audio` at line 231, where `(size_t)(input.size() * ratio)` converts an infinite or NaN value, or, for a negative rate with 16000·n >= -rate, a negative value of -1 or less | a 16-bit mono WAV file with rate 0 and at least one sample | treat a WAV file with a non-positive rate as unreadable | medium, not executed | AudioLoader.ZeroRateWav | AudioLoader.NonPositiveRateReadAsRawPcm |
