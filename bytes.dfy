/**
 * Bytes of a file and the little-endian integers the audio readers decode
 * from them (the `uint16_t`, `uint32_t` and `int16_t` values that
 * whisper_jni.cpp reads with `file.read` on a little-endian device).
 */
module Bytes {

  type byte = b: int | 0 <= b < 256

  /** The byte at offset k of what a read delivered, or 0 past its end:
      a short read leaves the rest of a zero-initialised buffer as it was. */
  function ByteAt(s: seq<byte>, k: nat): byte
  {
    if k < |s| then s[k] else 0
  }

  /** Unsigned 16-bit little-endian value of two bytes. */
  function U16(lo: byte, hi: byte): (r: nat)
    ensures r < 0x1_0000
    ensures r % 256 == lo && r / 256 == hi
  {
    lo as int + 256 * hi as int
  }

  /** Unsigned 32-bit little-endian value of the four bytes at s[at..at+4]. */
  function U32(s: seq<byte>, at: nat): (r: nat)
    requires at + 4 <= |s|
    ensures r < 0x1_0000_0000
  {
    s[at] as int + 256 * s[at + 1] as int + 0x1_0000 * s[at + 2] as int + 0x100_0000 * s[at + 3] as int
  }

  /** Two's-complement reading of a 16-bit pattern (`int16_t`). */
  function Int16(u: nat): (r: int)
    requires u < 0x1_0000
    ensures -0x8000 <= r < 0x8000
    ensures r % 0x1_0000 == u
  {
    if u < 0x8000 then u else u - 0x1_0000
  }

  /** Little-endian encoding of a signed 16-bit value (the inverse of Int16 . U16). */
  function EncodeInt16(x: int): (r: seq<byte>)
    requires -0x8000 <= x < 0x8000
    ensures |r| == 2
  {
    var u := if x < 0 then x + 0x1_0000 else x;
    [u % 256, u / 256]
  }

  /** Little-endian encoding of an unsigned 32-bit value. */
  function EncodeU32(x: nat): (r: seq<byte>)
    requires x < 0x1_0000_0000
    ensures |r| == 4
  {
    [x % 256, (x / 256) % 256, (x / 0x1_0000) % 256, x / 0x100_0000]
  }

  lemma Int16RoundTrip(x: int)
    requires -0x8000 <= x < 0x8000
    ensures var e := EncodeInt16(x); Int16(U16(e[0], e[1])) == x
  {
  }

  lemma U32RoundTrip(x: nat, prefix: seq<byte>, suffix: seq<byte>)
    requires x < 0x1_0000_0000
    ensures U32(prefix + EncodeU32(x) + suffix, |prefix|) == x
  {
    var s := prefix + EncodeU32(x) + suffix;
    var e := EncodeU32(x);
    assert s[|prefix|..|prefix| + 4] == e;
    assert s[|prefix|] == x % 256;
    assert s[|prefix| + 1] == (x / 256) % 256;
    assert s[|prefix| + 2] == (x / 0x1_0000) % 256;
    assert s[|prefix| + 3] == x / 0x100_0000;
  }

  /** A 32-bit field read at offset |a| + p of a + b is the one at offset p of b. */
  lemma U32Shift(a: seq<byte>, b: seq<byte>, p: nat)
    requires p + 4 <= |b|
    ensures U32(a + b, |a| + p) == U32(b, p)
  {
    var f := a + b;
    assert f[|a| + p] == b[p] && f[|a| + p + 1] == b[p + 1];
    assert f[|a| + p + 2] == b[p + 2] && f[|a| + p + 3] == b[p + 3];
  }

  // 16-bit little-endian PCM

  ghost predicate IsPcm16(pcm: seq<int>)
  {
    forall i :: 0 <= i < |pcm| ==> -0x8000 <= pcm[i] < 0x8000
  }

  function EncodePcm16(pcm: seq<int>): (r: seq<byte>)
    requires IsPcm16(pcm)
    ensures |r| == 2 * |pcm|
  {
    if pcm == [] then [] else EncodeInt16(pcm[0]) + EncodePcm16(pcm[1..])
  }

  lemma {:induction false} EncodePcm16At(pcm: seq<int>, i: nat)
    requires IsPcm16(pcm) && i < |pcm|
    ensures var r := EncodePcm16(pcm); Int16(U16(r[2 * i], r[2 * i + 1])) == pcm[i]
  {
    var r := EncodePcm16(pcm);
    if i == 0 {
      Int16RoundTrip(pcm[0]);
    } else {
      EncodePcm16At(pcm[1..], i - 1);
      assert r[2 * i] == EncodePcm16(pcm[1..])[2 * (i - 1)];
      assert r[2 * i + 1] == EncodePcm16(pcm[1..])[2 * (i - 1) + 1];
    }
  }
}
