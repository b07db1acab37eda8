/**
 * The raw PCM reader of whisper_jni.cpp (`read_raw_pcm`): a headerless file
 * of 16-bit little-endian mono samples, each scaled into [-1, 1) by 1/32768.
 *
 * The file is given as its bytes, or None when it cannot be opened.
 */
module RawPcm {
  import opened Bytes
  import opened Wrappers

  /** Sample i of the file: the signed 16-bit value of bytes 2i and 2i+1, over 32768. */
  function PcmSample(file: seq<byte>, i: nat): (x: real)
    requires 2 * i + 1 < |file|
    ensures -1.0 <= x < 1.0
  {
    Int16(U16(file[2 * i], file[2 * i + 1])) as real / 32768.0
  }

  /** Every whole 16-bit sample of the file; a trailing odd byte is not a sample. */
  function DecodeRawPcm(file: seq<byte>): seq<real>
  {
    seq(|file| / 2, i requires 0 <= i < |file| / 2 => PcmSample(file, i))
  }

  /** What read_raw_pcm delivers: nothing when the file does not open. */
  function LoadRawPcm(file: Option<seq<byte>>): Option<seq<real>>
  {
    match file
    case None => None
    case Some(bytes) => Some(DecodeRawPcm(bytes))
  }

  /** The reader as the source runs it: one buffer of whole samples, then a
      conversion loop. */
  method ReadRawPcm(file: Option<seq<byte>>) returns (r: Option<seq<real>>)
    ensures r == LoadRawPcm(file)
  {
    if file.None? {
      return None;
    }
    var bytes := file.value;
    var n := |bytes| / 2;
    var samples := new real[n];
    for i := 0 to n
      invariant forall k :: 0 <= k < i ==> samples[k] == PcmSample(bytes, k)
    {
      samples[i] := Int16(U16(bytes[2 * i], bytes[2 * i + 1])) as real / 32768.0;
    }
    assert samples[..] == DecodeRawPcm(bytes);
    return Some(samples[..]);
  }

  // ---------------------------------------------------------------------------
  // Properties
  // ---------------------------------------------------------------------------

  /** The reader fails exactly when the file cannot be opened, and then every
      sample it returns lies in [-1, 1). */
  lemma LoadRawPcmTotal(file: Option<seq<byte>>)
    ensures LoadRawPcm(file).Some? <==> file.Some?
    ensures LoadRawPcm(file).Some? ==> |LoadRawPcm(file).value| == |file.value| / 2
    ensures LoadRawPcm(file).Some? ==>
      forall x :: x in LoadRawPcm(file).value ==> -1.0 <= x < 1.0
  {
  }

  /** Decoding the little-endian encoding of 16-bit values gives them back, scaled. */
  lemma RawPcmRoundTrip(pcm: seq<int>)
    requires IsPcm16(pcm)
    ensures DecodeRawPcm(EncodePcm16(pcm)) == seq(|pcm|, i requires 0 <= i < |pcm| => pcm[i] as real / 32768.0)
  {
    var e := EncodePcm16(pcm);
    var r := DecodeRawPcm(e);
    var expected := seq(|pcm|, i requires 0 <= i < |pcm| => pcm[i] as real / 32768.0);
    assert |r| == |pcm|;
    forall i | 0 <= i < |pcm|
      ensures r[i] == expected[i]
    {
      assert r[i] == PcmSample(e, i);
      EncodePcm16At(pcm, i);
    }
    assert r == expected;
  }

  /** A trailing odd byte is ignored. */
  lemma OddByteIgnored(file: seq<byte>, b: byte)
    requires |file| % 2 == 0
    ensures DecodeRawPcm(file + [b]) == DecodeRawPcm(file)
  {
    var f := file + [b];
    assert |f| / 2 == |file| / 2;
    forall i | 0 <= i < |file| / 2
      ensures PcmSample(f, i) == PcmSample(file, i)
    {
      assert f[2 * i] == file[2 * i] && f[2 * i + 1] == file[2 * i + 1];
    }
  }

  // ---------------------------------------------------------------------------
  // The reader as written: the read asks for the whole file into a buffer of
  // whole samples
  // ---------------------------------------------------------------------------

  datatype RawOutcome =
    | Defined(result: Option<seq<real>>)
    | BufferOverrun(written: nat, capacity: nat)  // file.read writes past raw_samples

  /** read_raw_pcm as written: `file.read` is asked for `file_size` bytes into
      a buffer of `file_size / 2` 16-bit values. */
  function ReadRawPcmAsWritten(file: Option<seq<byte>>): RawOutcome
  {
    match file
    case None => Defined(None)
    case Some(bytes) =>
      var capacity := 2 * (|bytes| / 2);
      if |bytes| > capacity then BufferOverrun(|bytes|, capacity)
      else Defined(LoadRawPcm(file))
  }

  /** The source overruns its buffer by one byte exactly on files of odd length;
      otherwise it agrees with the corrected reader. */
  lemma RawOverrunIffOdd(file: Option<seq<byte>>)
    ensures ReadRawPcmAsWritten(file).BufferOverrun? <==> file.Some? && |file.value| % 2 == 1
    ensures ReadRawPcmAsWritten(file).BufferOverrun? ==>
      ReadRawPcmAsWritten(file).written == ReadRawPcmAsWritten(file).capacity + 1
    ensures ReadRawPcmAsWritten(file).Defined? ==> ReadRawPcmAsWritten(file).result == LoadRawPcm(file)
  {
  }

  /** A three-byte file: the source writes 3 bytes into a 2-byte buffer. */
  lemma ThreeByteFileOverruns(a: byte, b: byte, c: byte)
    ensures ReadRawPcmAsWritten(Some([a, b, c])) == BufferOverrun(3, 2)
    ensures LoadRawPcm(Some([a, b, c])) == Some([Int16(U16(a, b)) as real / 32768.0])
  {
    var d := DecodeRawPcm([a, b, c]);
    assert |d| == 1 && d[0] == PcmSample([a, b, c], 0);
    assert d == [Int16(U16(a, b)) as real / 32768.0];
  }
}
