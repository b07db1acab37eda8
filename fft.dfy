/**
 * The in-place iterative radix-2 FFT of whisper_jni.cpp (`fft`): a
 * bit-reversal permutation of the real and imaginary parts, then one
 * butterfly stage per power of two len = 2, 4, ..., n.
 *
 * The model follows the index structure exactly. The butterfly values are
 * real arithmetic over the twiddle factors the source computes by its
 * recurrence from cos and sin of -2*pi/len; float rounding is not modelled.
 * The algorithm is only defined for n a power of two (or n <= 1).
 */
module Fft {
  import opened Arith
  import opened RealMath

  /** 2^k */
  function Pow2(k: nat): (r: nat)
    ensures r >= 1
  {
    if k == 0 then 1 else 2 * Pow2(k - 1)
  }

  /** `n >> 1` for n = 2^k: the first bit the reversal counter tests. */
  function Half(k: nat): nat
  {
    if k == 0 then 0 else Pow2(k - 1)
  }

  // ---------------------------------------------------------------------------
  // Bit reversal
  // ---------------------------------------------------------------------------

  /** The low k bits of x, in reverse order. */
  function Rev(x: nat, k: nat): (r: nat)
    ensures r < Pow2(k)
  {
    if k == 0 then 0 else Bit(x % 2 == 1, k - 1) + Rev(x / 2, k - 1)
  }

  /** 2^k when the bit is set, else 0. */
  function Bit(on: bool, k: nat): nat
  {
    if on then Pow2(k) else 0
  }

  /** The inner loop of the reversal counter: clear set bits from `bit`
      downwards, then set the first clear one (`j ^= bit` on a set bit is a
      subtraction, on a clear bit an addition; `j & 0` is 0). */
  function RevStep(j: nat, bit: nat): nat
    decreases bit
  {
    if bit == 0 then j
    else if (j / bit) % 2 == 1 && j >= bit then RevStep(j - bit, bit / 2)
    else j + bit
  }

  lemma {:induction false} RevZero(k: nat)
    ensures Rev(0, k) == 0
  {
    if k > 0 {
      RevZero(k - 1);
    }
  }

  /** Reversing a value whose top bit is `top` moves that bit to the bottom. */
  lemma {:induction false} RevTopBit(top: bool, r: nat, k: nat)
    requires r < Pow2(k)
    ensures Rev(Bit(top, k) + r, k + 1) == 2 * Rev(r, k) + (if top then 1 else 0)
  {
    var y := Bit(top, k) + r;
    if k == 0 {
      assert r == 0 && y / 2 == 0;
    } else {
      assert y == 2 * (Bit(top, k - 1) + r / 2) + r % 2;
      DivModUnique(y, 2, Bit(top, k - 1) + r / 2, r % 2);
      RevTopBit(top, r / 2, k - 1);
    }
  }

  /** Bit reversal is an involution on [0, 2^k), hence a permutation. */
  lemma {:induction false} RevInvolution(x: nat, k: nat)
    requires x < Pow2(k)
    ensures Rev(Rev(x, k), k) == x
  {
    if k > 0 {
      RevInvolution(x / 2, k - 1);
      RevTopBit(x % 2 == 1, Rev(x / 2, k - 1), k - 1);
    }
  }

  /** One round of the reversal counter takes Rev(x) to Rev(x + 1). */
  lemma {:induction false} RevStepIncrements(x: nat, k: nat)
    requires x + 1 < Pow2(k)
    ensures RevStep(Rev(x, k), Half(k)) == Rev(x + 1, k)
  {
    if x % 2 == 1 {
      DivModUnique(x, 2, x / 2, 1);
      RevStepIncrements(x / 2, k - 1);
      RevStepOdd(x, k);
    } else {
      RevStepEven(x, k);
    }
  }

  lemma RevStepReaches(i: nat, k: nat)
    requires 0 < i < Pow2(k)
    ensures RevStep(Rev(i - 1, k), Half(k)) == Rev(i, k)
  {
    var x := i - 1;
    RevStepIncrements(x, k);
    assert x + 1 == i;
  }

  /** x ends in a 1: the counter clears Rev(x)'s top bit and carries on below. */
  lemma RevStepOdd(x: nat, k: nat)
    requires 0 < k && x % 2 == 1 && x + 1 < Pow2(k)
    requires RevStep(Rev(x / 2, k - 1), Half(k - 1)) == Rev(x / 2 + 1, k - 1)
    ensures RevStep(Rev(x, k), Half(k)) == Rev(x + 1, k)
  {
    var h := Pow2(k - 1);
    var low := Rev(x / 2, k - 1);
    HalfIsHalf(k - 1);
    assert Rev(x, k) == h + low;
    RevStepClearsTop(low, h);
    DivModUnique(x + 1, 2, x / 2 + 1, 0);
    assert Rev(x + 1, k) == Rev(x / 2 + 1, k - 1);
  }

  /** x ends in a 0: the counter sets Rev(x)'s clear top bit. */
  lemma RevStepEven(x: nat, k: nat)
    requires 0 < k && x % 2 == 0 && x + 1 < Pow2(k)
    ensures RevStep(Rev(x, k), Half(k)) == Rev(x + 1, k)
  {
    var h := Pow2(k - 1);
    var low := Rev(x / 2, k - 1);
    assert Rev(x, k) == low;
    RevStepSetsTop(low, h);
    DivModUnique(x + 1, 2, x / 2, 1);
    assert Rev(x + 1, k) == h + low;
  }

  lemma HalfIsHalf(k: nat)
    ensures Half(k) == Pow2(k) / 2
  {
  }

  lemma RevStepClearsTop(low: nat, h: nat)
    requires 0 < h && low < h
    ensures RevStep(h + low, h) == RevStep(low, h / 2)
  {
    DivModUnique(h + low, h, 1, low);
  }

  lemma RevStepSetsTop(low: nat, h: nat)
    requires 0 < h && low < h
    ensures RevStep(low, h) == low + h
  {
    DivModUnique(low, h, 0, low);
  }

  /** Where index q's value comes from once indices below i are processed:
      the reversal loop swaps the pair {q, Rev(q)} when visiting its smaller
      member. */
  function Source(q: nat, i: nat, k: nat): nat
  {
    if Min(q, Rev(q, k)) < i then Rev(q, k) else q
  }

  lemma SourceStep(q: nat, i: nat, k: nat)
    requires q < Pow2(k) && i < Pow2(k)
    ensures var j := Rev(i, k);
      if i < j && q == i then Source(q, i + 1, k) == j && Source(q, i, k) == i
      else if i < j && q == j then Source(q, i + 1, k) == i && Source(q, i, k) == j
      else Source(q, i + 1, k) == Source(q, i, k)
  {
    RevInvolution(i, k);
    RevInvolution(q, k);
  }

  /** Element q of the result is element Rev(q) of the input. */
  function BitReversed(s: seq<real>, k: nat): (r: seq<real>)
    requires |s| == Pow2(k)
    ensures |r| == |s|
  {
    seq(|s|, q requires 0 <= q < |s| => s[Rev(q, k)])
  }

  /** Reordering twice gives the input back. */
  lemma BitReversedTwice(s: seq<real>, k: nat)
    requires |s| == Pow2(k)
    ensures BitReversed(BitReversed(s, k), k) == s
  {
    forall q | 0 <= q < |s|
      ensures BitReversed(BitReversed(s, k), k)[q] == s[q]
    {
      RevInvolution(q, k);
    }
  }

  /** The sequence after the reversal loop has processed indices below i. */
  function Permuted(s: seq<real>, i: nat, k: nat): seq<real>
    requires |s| == Pow2(k)
  {
    seq(|s|, q requires 0 <= q < |s| => s[Source(q, i, k)])
  }

  lemma PermutedStep(s: seq<real>, i: nat, k: nat)
    requires |s| == Pow2(k) && i < |s|
    ensures var j, p := Rev(i, k), Permuted(s, i, k);
      Permuted(s, i + 1, k) == if i < j then p[i := p[j]][j := p[i]] else p
  {
    var j, p := Rev(i, k), Permuted(s, i, k);
    var expected := if i < j then p[i := p[j]][j := p[i]] else p;
    SourceStep(i, i, k);
    SourceStep(j, i, k);
    forall q | 0 <= q < |s|
      ensures Permuted(s, i + 1, k)[q] == expected[q]
    {
      SourceStep(q, i, k);
      if i < j && q == i {
        assert expected[q] == p[j] == s[Source(j, i, k)];
      } else if i < j && q == j {
        assert expected[q] == p[i] == s[Source(i, i, k)];
      } else {
        assert expected[q] == p[q];
      }
    }
    assert Permuted(s, i + 1, k) == expected;
  }

  /** Index 0 is its own reversal, so visiting it changes nothing. */
  lemma PermutedStart(s: seq<real>, k: nat)
    requires |s| == Pow2(k) && Rev(0, k) == 0
    ensures Permuted(s, 1, k) == s
  {
    forall q | 0 <= q < |s|
      ensures Source(q, 1, k) == q
    {
      RevInvolution(q, k);
    }
  }

  lemma AllPermuted(s: seq<real>, k: nat)
    requires |s| == Pow2(k)
    ensures Permuted(s, |s|, k) == BitReversed(s, k)
  {
  }

  lemma SwapKeepsMultiset(p: seq<real>, i: nat, j: nat)
    requires i < j < |p|
    ensures multiset(p[i := p[j]][j := p[i]]) == multiset(p)
  {
    var p1 := p[i := p[j]];
    assert multiset(p1) == multiset(p) - multiset{p[i]} + multiset{p[j]};
    assert multiset(p1[j := p[i]]) == multiset(p1) - multiset{p1[j]} + multiset{p[i]};
  }

  /** The reversal counter of the first loop of `fft`: from j = Rev(i - 1),
      the inner loop and the final `j ^= bit` leave j = Rev(i). */
  method NextReversed(j: nat, n: nat, ghost k: nat, ghost i: nat) returns (r: nat)
    requires n == Pow2(k) && 0 < i < n && j == Rev(i - 1, k)
    ensures r == Rev(i, k)
  {
    RevStepReaches(i, k);
    HalfIsHalf(k);
    var bit: nat := n / 2;
    r := j;
    while bit > 0 && (r / bit) % 2 == 1 && r >= bit
      invariant RevStep(r, bit) == Rev(i, k)
      decreases bit
    {
      r := r - bit;
      bit := bit / 2;
    }
    assert RevStep(r, bit) == r + bit;
    r := r + bit;
  }

  /** The loop over i = 1 .. n - 1, with j = Rev(i) kept alongside. */
  method SwapLoop(re: array<real>, im: array<real>, ghost re0: seq<real>, ghost im0: seq<real>, ghost k: nat)
    requires re != im && re.Length == im.Length == |re0| == |im0| == Pow2(k) && Rev(0, k) == 0
    requires re[..] == Permuted(re0, 1, k) && im[..] == Permuted(im0, 1, k)
    modifies re, im
    ensures re[..] == Permuted(re0, re.Length, k) && im[..] == Permuted(im0, re.Length, k)
  {
    var n := re.Length;
    var i := 1;
    var j := 0;
    while i < n
      invariant 1 <= i <= n
      invariant j == Rev(i - 1, k)
      invariant re[..] == Permuted(re0, i, k) && im[..] == Permuted(im0, i, k)
    {
      j := NextReversed(j, n, k, i);
      SwapPair(re, im, i, j, re0, im0, k);
      i := i + 1;
    }
  }

  /** The body of the reversal loop once j = Rev(i): swap the pair when i < j. */
  method SwapPair(re: array<real>, im: array<real>, i: nat, j: nat, ghost re0: seq<real>, ghost im0: seq<real>, ghost k: nat)
    requires re != im && re.Length == im.Length == |re0| == |im0| == Pow2(k)
    requires i < re.Length && j == Rev(i, k)
    requires re[..] == Permuted(re0, i, k) && im[..] == Permuted(im0, i, k)
    modifies re, im
    ensures re[..] == Permuted(re0, i + 1, k) && im[..] == Permuted(im0, i + 1, k)
  {
    PermutedStep(re0, i, k);
    PermutedStep(im0, i, k);
    if i < j {
      re[i], re[j] := re[j], re[i];
      im[i], im[j] := im[j], im[i];
    }
  }

  /** The bit-reversal permutation: the first loop of `fft`. */
  method BitReverse(re: array<real>, im: array<real>, ghost k: nat)
    requires re != im && re.Length == im.Length == Pow2(k)
    modifies re, im
    ensures re[..] == BitReversed(old(re[..]), k) && im[..] == BitReversed(old(im[..]), k)
    ensures multiset(re[..]) == multiset(old(re[..])) && multiset(im[..]) == multiset(old(im[..]))
  {
    ghost var re0, im0 := re[..], im[..];
    RevZero(k);
    PermutedStart(re0, k);
    PermutedStart(im0, k);
    SwapLoop(re, im, re0, im0, k);
    AllPermuted(re0, k);
    AllPermuted(im0, k);
    BitReversedMultiset(re0, k);
    BitReversedMultiset(im0, k);
  }

  // ---------------------------------------------------------------------------
  // Butterfly stages
  // ---------------------------------------------------------------------------

  datatype Complex = Complex(re: real, im: real)

  function Add(a: Complex, b: Complex): Complex
  {
    Complex(a.re + b.re, a.im + b.im)
  }

  function Sub(a: Complex, b: Complex): Complex
  {
    Complex(a.re - b.re, a.im - b.im)
  }

  function Mul(a: Complex, b: Complex): Complex
  {
    Complex(a.re * b.re - a.im * b.im, a.re * b.im + a.im * b.re)
  }

  /** Element p of the two parallel arrays, as one complex value. */
  function At(re: seq<real>, im: seq<real>, p: nat): Complex
    requires p < |re| && p < |im|
  {
    Complex(re[p], im[p])
  }

  /** The twiddle step of a stage of size len: (cos, sin) of -2*pi/len. */
  function TwiddleStep(math: Math, len: nat): Complex
    requires len > 0
  {
    Complex(math.cosTurn(-1.0 / len as real), math.sinTurn(-1.0 / len as real))
  }

  /** The twiddle factor of butterfly j, by the source's recurrence from 1. */
  function Twiddle(math: Math, len: nat, j: nat): Complex
    requires len > 0
  {
    if j == 0 then Complex(1.0, 0.0) else Mul(Twiddle(math, len, j - 1), TwiddleStep(math, len))
  }

  /** A stage of size len applies to n points when len is an even divisor of n. */
  predicate StageFits(n: nat, len: nat)
  {
    2 <= len && len % 2 == 0 && n % len == 0
  }

  /** Index p of a stage: its offset in its block, and whether it is the top
      half of a butterfly (its partner is len / 2 further on) or the bottom
      half (its partner is len / 2 before). */
  lemma ButterflyPartner(n: nat, len: nat, p: nat)
    requires StageFits(n, len) && p < n
    ensures p % len < len / 2 ==> p + len / 2 < n && (p + len / 2) % len == p % len + len / 2
    ensures p % len >= len / 2 ==> p >= len / 2 && (p - len / 2) % len == p % len - len / 2
  {
    DivModBounds(p, len);
    DivModBounds(n, len);
    var b, j, half := p / len, p % len, len / 2;
    var c := n / len;
    BlockWithin(len, b, j, c);
    if j < half {
      DivModUnique(p + half, len, b, j + half);
    } else {
      DivModUnique(p - half, len, b, j - half);
    }
  }

  /** A block that starts inside a whole number of blocks ends inside them. */
  lemma BlockWithin(len: nat, b: nat, j: nat, c: nat)
    requires 0 < len && j < len && len * b + j < len * c
    ensures len * b + len <= len * c
  {
    if b >= c {
      MulMonotone(c, b, len);
    }
    MulMonotone(b + 1, c, len);
  }

  /** Output p of the stage of size len over (re, im). */
  function StageValue(re: seq<real>, im: seq<real>, math: Math, len: nat, p: nat): Complex
    requires |re| == |im| && StageFits(|re|, len) && p < |re|
  {
    ButterflyPartner(|re|, len, p);
    var half, j := len / 2, p % len;
    if j < half then Add(At(re, im, p), Mul(Twiddle(math, len, j), At(re, im, p + half)))
    else Sub(At(re, im, p - half), Mul(Twiddle(math, len, j - half), At(re, im, p)))
  }

  /** The real and imaginary parts of a signal. */
  datatype Signal = Signal(re: seq<real>, im: seq<real>)

  /** The whole stage of size len, as a function of its input. */
  function Stage(x: Signal, math: Math, len: nat): (y: Signal)
    requires |x.re| == |x.im| && StageFits(|x.re|, len)
    ensures |y.re| == |y.im| == |x.re|
  {
    StagePrefix(x, math, len, |x.re|)
  }

  /** The first m outputs of the stage of size len. */
  function StagePrefix(x: Signal, math: Math, len: nat, m: nat): (y: Signal)
    requires |x.re| == |x.im| && StageFits(|x.re|, len) && m <= |x.re|
    ensures |y.re| == |y.im| == m
  {
    if m == 0 then Signal([], [])
    else
      var y, v := StagePrefix(x, math, len, m - 1), StageValue(x.re, x.im, math, len, m - 1);
      Signal(y.re + [v.re], y.im + [v.im])
  }

  /** A block that starts inside n ends inside n. */
  lemma BlockEnd(n: nat, len: nat, base: nat)
    requires StageFits(n, len) && base % len == 0 && base < n
    ensures base + len <= n && (base + len) % len == 0
  {
    DivModBounds(base, len);
    DivModBounds(n, len);
    BlockWithin(len, base / len, 0, n / len);
    DivModUnique(base + len, len, base / len + 1, 0);
  }

  /** Offset j of the block that starts at base. */
  lemma OffsetInBlock(len: nat, base: nat, j: nat)
    requires 0 < len && base % len == 0 && j < len
    ensures (base + j) % len == j
  {
    DivModBounds(base, len);
    DivModUnique(base + j, len, base / len, j);
  }

  /** Butterfly j of the block at base: its two outputs. */
  lemma ButterflyOutputs(re: seq<real>, im: seq<real>, math: Math, len: nat, half: nat, base: nat, j: nat)
    requires |re| == |im| && StageFits(|re|, len) && len == 2 * half
    requires base % len == 0 && base < |re| && j < half
    ensures base + len <= |re| && base + j < base + j + half < |re|
    ensures StageValue(re, im, math, len, base + j)
         == Add(At(re, im, base + j), Mul(Twiddle(math, len, j), At(re, im, base + j + half)))
    ensures StageValue(re, im, math, len, base + j + half)
         == Sub(At(re, im, base + j), Mul(Twiddle(math, len, j), At(re, im, base + j + half)))
  {
    BlockEnd(|re|, len, base);
    OffsetInBlock(len, base, j);
    OffsetInBlock(len, base, j + half);
    StageTop(re, im, math, len, half, base + j, j);
    StageBottom(re, im, math, len, half, base + j, j);
  }

  /** A stage output at offset j in the top half of its block. */
  lemma StageTop(re: seq<real>, im: seq<real>, math: Math, len: nat, half: nat, top: nat, j: nat)
    requires |re| == |im| && StageFits(|re|, len) && len == 2 * half
    requires top + half < |re| && top % len == j && j < half
    ensures StageValue(re, im, math, len, top) == Add(At(re, im, top), Mul(Twiddle(math, len, j), At(re, im, top + half)))
  {
    assert len / 2 == half;
  }

  /** The partner of the top output at offset j, in the bottom half of its block. */
  lemma StageBottom(re: seq<real>, im: seq<real>, math: Math, len: nat, half: nat, top: nat, j: nat)
    requires |re| == |im| && StageFits(|re|, len) && len == 2 * half
    requires top + half < |re| && (top + half) % len == j + half
    ensures StageValue(re, im, math, len, top + half) == Sub(At(re, im, top), Mul(Twiddle(math, len, j), At(re, im, top + half)))
  {
    assert len / 2 == half;
    assert (top + half) % len - half == j && top + half - half == top;
  }

  /** The stage's outputs y over the block at base, butterfly by butterfly:
      the bottom input turned by the twiddle factor, added to the top input
      and subtracted from it. */
  ghost predicate BlockOutputs(x: Signal, y: Signal, math: Math, len: nat, half: nat, base: nat)
    requires len == 2 * half && 0 < len
    requires |x.re| == |x.im| == |y.re| == |y.im| && base + len <= |x.re|
  {
    forall j {:trigger Twiddle(math, len, j)} :: 0 <= j < half ==>
      At(y.re, y.im, base + j) == Add(At(x.re, x.im, base + j), Mul(Twiddle(math, len, j), At(x.re, x.im, base + j + half))) &&
      At(y.re, y.im, base + j + half) == Sub(At(x.re, x.im, base + j), Mul(Twiddle(math, len, j), At(x.re, x.im, base + j + half)))
  }

  /** Butterfly j of a block with outputs y. */
  lemma BlockOutputsAt(x: Signal, y: Signal, math: Math, len: nat, half: nat, base: nat, j: nat, w: Complex)
    requires len == 2 * half && 0 < len
    requires |x.re| == |x.im| == |y.re| == |y.im| && base + len <= |x.re|
    requires BlockOutputs(x, y, math, len, half, base) && j < half && w == Twiddle(math, len, j)
    ensures At(y.re, y.im, base + j) == Add(At(x.re, x.im, base + j), Mul(w, At(x.re, x.im, base + j + half)))
    ensures At(y.re, y.im, base + j + half) == Sub(At(x.re, x.im, base + j), Mul(w, At(x.re, x.im, base + j + half)))
  {
  }

  /** Every block of a stage has the stage's butterfly outputs. */
  lemma StageBlockOutputs(x: Signal, math: Math, len: nat, half: nat, base: nat)
    requires |x.re| == |x.im| && StageFits(|x.re|, len) && len == 2 * half
    requires base % len == 0 && base < |x.re|
    ensures base + len <= |x.re|
    ensures BlockOutputs(x, Stage(x, math, len), math, len, half, base)
  {
    BlockEnd(|x.re|, len, base);
    forall j | 0 <= j < half
      ensures At(Stage(x, math, len).re, Stage(x, math, len).im, base + j)
           == Add(At(x.re, x.im, base + j), Mul(Twiddle(math, len, j), At(x.re, x.im, base + j + half)))
      ensures At(Stage(x, math, len).re, Stage(x, math, len).im, base + j + half)
           == Sub(At(x.re, x.im, base + j), Mul(Twiddle(math, len, j), At(x.re, x.im, base + j + half)))
    {
      ButterflyOutputs(x.re, x.im, math, len, half, base, j);
      StageAt(x, math, len, base + j);
      StageAt(x, math, len, base + j + half);
    }
  }

  /** The innermost loop of `fft`: the len / 2 butterflies of the block that
      starts at base, with the twiddle factor advanced by its recurrence. */
  method ButterflyBlock(re: array<real>, im: array<real>, base: nat, len: nat, wp: Complex,
                        ghost x: Signal, ghost y: Signal, math: Math)
    requires re != im && re.Length == im.Length == |x.re| == |x.im| == |y.re| == |y.im|
    requires len % 2 == 0 && 0 < len && base + len <= re.Length && wp == TwiddleStep(math, len)
    requires BlockOutputs(x, y, math, len, len / 2, base)
    requires forall p :: base <= p < re.Length ==> re[p] == x.re[p] && im[p] == x.im[p]
    modifies re, im
    ensures forall p :: 0 <= p < re.Length ==>
      if base <= p < base + len then re[p] == y.re[p] && im[p] == y.im[p]
      else re[p] == old(re[p]) && im[p] == old(im[p])
  {
    var half := len / 2;
    var w := Complex(1.0, 0.0);
    ghost var re0, im0 := re[..], im[..];
    assert forall p :: base <= p < |re0| ==> re0[p] == x.re[p] && im0[p] == x.im[p];
    for j := 0 to half
      invariant w == Twiddle(math, len, j)
      invariant BlockDone(re[..], im[..], y, re0, im0, base, half, j)
    {
      BlockOutputsAt(x, y, math, len, half, base, j, w);
      BlockButterfly(re, im, base, half, j, w, x, y, re0, im0);
      TwiddleNext(math, len, j, w, wp);
      w := Mul(w, wp);
    }
    BlockDoneAll(re[..], im[..], y, re0, im0, base, half);
  }

  /** The butterflies 0 .. j - 1 of the block at base are done: their two
      outputs hold y, and every other element is as it was. */
  ghost predicate BlockDone(r: seq<real>, i: seq<real>, y: Signal, r0: seq<real>, i0: seq<real>,
                            base: nat, half: nat, j: nat)
  {
    |r| == |i| == |y.re| == |y.im| == |r0| == |i0| &&
    forall p :: 0 <= p < |r| ==>
      if base <= p < base + j || base + half <= p < base + half + j then r[p] == y.re[p] && i[p] == y.im[p]
      else r[p] == r0[p] && i[p] == i0[p]
  }

  /** Butterfly j of the block at base, on arrays whose first j butterflies
      are done. */
  method BlockButterfly(re: array<real>, im: array<real>, base: nat, half: nat, j: nat, w: Complex,
                        ghost x: Signal, ghost y: Signal, ghost r0: seq<real>, ghost i0: seq<real>)
    requires re != im && BlockDone(re[..], im[..], y, r0, i0, base, half, j)
    requires j < half && base + j + half < re.Length && |x.re| == |x.im| == re.Length
    requires forall p :: base <= p < |r0| ==> r0[p] == x.re[p] && i0[p] == x.im[p]
    requires At(y.re, y.im, base + j) == Add(At(x.re, x.im, base + j), Mul(w, At(x.re, x.im, base + j + half)))
    requires At(y.re, y.im, base + j + half) == Sub(At(x.re, x.im, base + j), Mul(w, At(x.re, x.im, base + j + half)))
    modifies re, im
    ensures BlockDone(re[..], im[..], y, r0, i0, base, half, j + 1)
  {
    ghost var rB, iB := re[..], im[..];
    Butterfly(re, im, base + j, base + j + half, w);
    BlockStep(rB, iB, re[..], im[..], x, y, w, r0, i0, base, half, j);
  }

  /** Butterfly j of the block keeps BlockDone: its inputs, untouched so
      far, are those of x, so its outputs are those of y. */
  lemma BlockStep(rB: seq<real>, iB: seq<real>, rA: seq<real>, iA: seq<real>, x: Signal, y: Signal, w: Complex,
                  r0: seq<real>, i0: seq<real>, base: nat, half: nat, j: nat)
    requires BlockDone(rB, iB, y, r0, i0, base, half, j) && j < half && base + j + half < |rB|
    requires |x.re| == |x.im| == |rB|
    requires forall p :: base <= p < |r0| ==> r0[p] == x.re[p] && i0[p] == x.im[p]
    requires At(y.re, y.im, base + j) == Add(At(x.re, x.im, base + j), Mul(w, At(x.re, x.im, base + j + half)))
    requires At(y.re, y.im, base + j + half) == Sub(At(x.re, x.im, base + j), Mul(w, At(x.re, x.im, base + j + half)))
    requires |rA| == |rB| && |iA| == |iB|
    requires At(rA, iA, base + j) == Add(At(rB, iB, base + j), Mul(w, At(rB, iB, base + j + half)))
    requires At(rA, iA, base + j + half) == Sub(At(rB, iB, base + j), Mul(w, At(rB, iB, base + j + half)))
    requires forall p :: 0 <= p < |rA| && p != base + j && p != base + j + half ==> rA[p] == rB[p] && iA[p] == iB[p]
    ensures BlockDone(rA, iA, y, r0, i0, base, half, j + 1)
  {
    var top, bot := base + j, base + j + half;
    assert At(rB, iB, top) == At(x.re, x.im, top) && At(rB, iB, bot) == At(x.re, x.im, bot);
  }

  /** All butterflies of the block done: the block holds y, the rest is as
      it was. */
  lemma BlockDoneAll(r: seq<real>, i: seq<real>, y: Signal, r0: seq<real>, i0: seq<real>, base: nat, half: nat)
    requires BlockDone(r, i, y, r0, i0, base, half, half)
    ensures forall p :: 0 <= p < |r| ==>
      if base <= p < base + 2 * half then r[p] == y.re[p] && i[p] == y.im[p]
      else r[p] == r0[p] && i[p] == i0[p]
  {
  }

  /** The recurrence that advances the twiddle factor by one step. */
  lemma TwiddleNext(math: Math, len: nat, j: nat, w: Complex, wp: Complex)
    requires len > 0 && w == Twiddle(math, len, j) && wp == TwiddleStep(math, len)
    ensures Mul(w, wp) == Twiddle(math, len, j + 1)
  {
  }

  /** One butterfly: the bottom input, turned by the twiddle factor w, is
      added to the top input and subtracted from it; nothing else changes. */
  method Butterfly(re: array<real>, im: array<real>, top: nat, bot: nat, w: Complex)
    requires re != im && re.Length == im.Length && top < bot < re.Length
    modifies re, im
    ensures At(re[..], im[..], top) == Add(At(old(re[..]), old(im[..]), top), Mul(w, At(old(re[..]), old(im[..]), bot)))
    ensures At(re[..], im[..], bot) == Sub(At(old(re[..]), old(im[..]), top), Mul(w, At(old(re[..]), old(im[..]), bot)))
    ensures forall p :: 0 <= p < re.Length && p != top && p != bot ==> re[p] == old(re[p]) && im[p] == old(im[p])
  {
    var t := Mul(w, Complex(re[bot], im[bot]));
    re[bot] := re[top] - t.re;
    im[bot] := im[top] - t.im;
    re[top] := re[top] + t.re;
    im[top] := im[top] + t.im;
  }

  /** Element p of a stage. */
  lemma StageAt(x: Signal, math: Math, len: nat, p: nat)
    requires |x.re| == |x.im| && StageFits(|x.re|, len) && p < |x.re|
    ensures At(Stage(x, math, len).re, Stage(x, math, len).im, p) == StageValue(x.re, x.im, math, len, p)
  {
    StagePrefixAt(x, math, len, |x.re|, p);
  }

  lemma {:induction false} StagePrefixAt(x: Signal, math: Math, len: nat, m: nat, p: nat)
    requires |x.re| == |x.im| && StageFits(|x.re|, len) && p < m <= |x.re|
    ensures At(StagePrefix(x, math, len, m).re, StagePrefix(x, math, len, m).im, p) == StageValue(x.re, x.im, math, len, p)
  {
    if p < m - 1 {
      StagePrefixAt(x, math, len, m - 1, p);
    }
  }

  /** One stage of `fft`: the butterfly blocks at 0, len, 2 len, ... */
  method ButterflyStage(re: array<real>, im: array<real>, len: nat, math: Math, ghost x: Signal)
    requires re != im && re.Length == im.Length && StageFits(re.Length, len)
    requires re[..] == x.re && im[..] == x.im
    modifies re, im
    ensures Signal(re[..], im[..]) == Stage(x, math, len)
  {
    ghost var y := Stage(x, math, len);
    var n := re.Length;
    var wp := Complex(math.cosTurn(-1.0 / len as real), math.sinTurn(-1.0 / len as real));
    var i := 0;
    while i < n
      invariant i % len == 0 && i <= n
      invariant forall p :: 0 <= p < n ==>
        if p < i then re[p] == y.re[p] && im[p] == y.im[p] else re[p] == x.re[p] && im[p] == x.im[p]
      decreases n - i
    {
      BlockEnd(n, len, i);
      StageBlockOutputs(x, math, len, len / 2, i);
      ButterflyBlock(re, im, i, len, wp, x, y, math);
      i := i + len;
    }
    assert re[..] == y.re && im[..] == y.im;
  }

  // ---------------------------------------------------------------------------
  // The whole transform
  // ---------------------------------------------------------------------------

  /** 2^(a + b) == 2^a * 2^b */
  lemma {:induction false} Pow2Add(a: nat, b: nat)
    ensures Pow2(a + b) == Pow2(a) * Pow2(b)
  {
    if b > 0 {
      var t := b - 1;
      Pow2Add(a, t);
      var x, y, z := Pow2(a), Pow2(t), Pow2(a + t);
      assert z == x * y;
      assert Pow2(a + b) == 2 * z;
      assert Pow2(b) == 2 * y;
    }
  }

  /** 2^a < 2^b exactly when a < b. */
  lemma {:induction false} Pow2Less(a: nat, b: nat)
    ensures a < b <==> Pow2(a) < Pow2(b)
  {
    if a < b {
      Pow2Add(a, b - a);
      var x, y := Pow2(a), Pow2(b - a);
      assert y == 2 * Pow2(b - a - 1);
      assert x * y >= x * 2 by { MulMonotone(2, y, x); }
    } else {
      Pow2Add(b, a - b);
      var x, y := Pow2(b), Pow2(a - b);
      assert x * y >= x * 1 by { MulMonotone(1, y, x); }
    }
  }

  /** A stage of size 2^s applies to 2^k points for 1 <= s <= k. */
  lemma Pow2Fits(k: nat, s: nat)
    requires 1 <= s <= k
    ensures StageFits(Pow2(k), Pow2(s))
  {
    var t := k - s;
    var x, y, h := Pow2(s), Pow2(t), Pow2(s - 1);
    Pow2Add(s, t);
    assert s + t == k;
    DivModUnique(x * y, x, y, 0);
    assert x == 2 * h;
    DivModUnique(2 * h, 2, h, 0);
  }

  /** The signal after the stages of size 2, 4, ..., 2^s. */
  function AfterStages(x: Signal, math: Math, k: nat, s: nat): (y: Signal)
    requires |x.re| == |x.im| == Pow2(k) && s <= k
    ensures |y.re| == |y.im| == Pow2(k)
  {
    if s == 0 then x
    else
      Pow2Fits(k, s);
      Stage(AfterStages(x, math, k, s - 1), math, Pow2(s))
  }

  /** The transform of 2^k points: the bit-reversed input through every stage. */
  function Transform(x: Signal, math: Math, k: nat): (y: Signal)
    requires |x.re| == |x.im| == Pow2(k)
    ensures |y.re| == |y.im| == Pow2(k)
  {
    AfterStages(Signal(BitReversed(x.re, k), BitReversed(x.im, k)), math, k, k)
  }

  /** The outer loop of the butterfly part of `fft`: len = 2, 4, ... while len <= n. */
  method Butterflies(re: array<real>, im: array<real>, math: Math, ghost k: nat)
    requires re != im && re.Length == im.Length == Pow2(k)
    modifies re, im
    ensures Signal(re[..], im[..]) == AfterStages(Signal(old(re[..]), old(im[..])), math, k, k)
  {
    ghost var x := Signal(re[..], im[..]);
    var n := re.Length;
    var len := 2;
    ghost var done := 0;
    while len <= n
      invariant done <= k && len == Pow2(done + 1)
      invariant Signal(re[..], im[..]) == AfterStages(x, math, k, done)
      decreases n - len
    {
      assert done + 1 <= k by { Pow2Less(k, done + 1); }
      Pow2Fits(k, done + 1);
      ButterflyStage(re, im, len, math, Signal(re[..], im[..]));
      assert Signal(re[..], im[..]) == AfterStages(x, math, k, done + 1);
      len := len * 2;
      done := done + 1;
    }
    assert done == k by { Pow2Less(k, done + 1); }
  }

  /** `fft`: nothing for n <= 1; otherwise the bit-reversal permutation, then
      the butterfly stages. */
  method FftInPlace(re: array<real>, im: array<real>, math: Math, ghost k: nat)
    requires re != im && re.Length == im.Length && (re.Length <= 1 || re.Length == Pow2(k))
    modifies re, im
    ensures re.Length <= 1 ==> re[..] == old(re[..]) && im[..] == old(im[..])
    ensures re.Length > 1 ==> Signal(re[..], im[..]) == Transform(Signal(old(re[..]), old(im[..])), math, k)
  {
    var n := re.Length;
    if n <= 1 {
      return;
    }
    BitReverse(re, im, k);
    Butterflies(re, im, math, k);
  }

  // ---------------------------------------------------------------------------
  // Properties of the transform
  // ---------------------------------------------------------------------------

  /** The sum of a sequence. */
  function Sum(s: seq<real>): real
  {
    if |s| == 0 then 0.0 else Sum(s[..|s| - 1]) + s[|s| - 1]
  }

  lemma {:induction false} SumConcat(a: seq<real>, b: seq<real>)
    ensures Sum(a + b) == Sum(a) + Sum(b)
  {
    if |b| == 0 {
      assert a + b == a;
    } else {
      SumConcat(a, b[..|b| - 1]);
      assert (a + b)[..|a + b| - 1] == a + b[..|b| - 1];
    }
  }

  /** Taking element i out of b takes b[i] off its sum. */
  lemma SumRemove(b: seq<real>, i: nat)
    requires i < |b|
    ensures Sum(b) == Sum(b[..i] + b[i + 1..]) + b[i]
  {
    var p, q, x := b[..i], b[i + 1..], b[i];
    SplitAround(b, i);
    SumConcat(p + [x], q);
    SumConcat(p, [x]);
    SumConcat(p, q);
    SumSingleton(x);
  }

  /** A sequence is the part before index i, element i and the part after. */
  lemma SplitAround<T>(b: seq<T>, i: nat)
    requires i < |b|
    ensures b == (b[..i] + [b[i]]) + b[i + 1..]
  {
  }

  lemma SumSingleton(x: real)
    ensures Sum([x]) == x
  {
    assert [x][..0] == [];
  }

  /** Taking element i out of b takes one b[i] out of its multiset. */
  lemma MultisetRemove(b: seq<real>, i: nat)
    requires i < |b|
    ensures multiset(b[..i] + b[i + 1..]) == multiset(b) - multiset{b[i]}
  {
    var p, q := b[..i], b[i + 1..];
    assert b == p + [b[i]] + q;
    assert multiset(b) == multiset(p) + multiset{b[i]} + multiset(q);
  }

  /** Reordering a sequence does not change its sum. */
  lemma {:induction false} SumPermutation(a: seq<real>, b: seq<real>)
    requires multiset(a) == multiset(b)
    ensures Sum(a) == Sum(b)
    decreases |a|
  {
    if |a| > 0 {
      var n := |a| - 1;
      var x := a[n];
      assert x in multiset(b) by { assert x in multiset(a); }
      var i :| 0 <= i < |b| && b[i] == x;
      MultisetRemove(a, n);
      MultisetRemove(b, i);
      assert a[..n] + a[n + 1..] == a[..n];
      SumPermutation(a[..n], b[..i] + b[i + 1..]);
      SumRemove(b, i);
    }
  }

  lemma PermutedNone(s: seq<real>, k: nat)
    requires |s| == Pow2(k)
    ensures Permuted(s, 0, k) == s
  {
  }

  /** The reversal loop only swaps, so every intermediate sequence is a
      reordering of the input. */
  lemma {:induction false} PermutedMultiset(s: seq<real>, i: nat, k: nat)
    requires |s| == Pow2(k) && i <= |s|
    ensures multiset(Permuted(s, i, k)) == multiset(s)
  {
    if i == 0 {
      PermutedNone(s, k);
    } else {
      PermutedMultisetStep(s, i - 1, k);
      PermutedMultiset(s, i - 1, k);
    }
  }

  /** One step of the reversal loop keeps the multiset. */
  lemma PermutedMultisetStep(s: seq<real>, i: nat, k: nat)
    requires |s| == Pow2(k) && i < |s|
    ensures multiset(Permuted(s, i + 1, k)) == multiset(Permuted(s, i, k))
  {
    PermutedStep(s, i, k);
    SwapOrKeep(Permuted(s, i, k), Permuted(s, i + 1, k), i, Rev(i, k));
  }

  lemma SwapOrKeep(p: seq<real>, p': seq<real>, i: nat, j: nat)
    requires i < |p| && j < |p|
    requires p' == if i < j then p[i := p[j]][j := p[i]] else p
    ensures multiset(p') == multiset(p)
  {
    if i < j {
      SwapKeepsMultiset(p, i, j);
    }
  }

  /** The bit-reversal permutation is a reordering. */
  lemma BitReversedMultiset(s: seq<real>, k: nat)
    requires |s| == Pow2(k)
    ensures multiset(BitReversed(s, k)) == multiset(s)
  {
    PermutedMultiset(s, |s|, k);
    AllPermuted(s, k);
  }

  /** The first butterfly of a block has twiddle factor 1: its top output is
      the sum of its two inputs. */
  lemma BlockStartSum(y: Signal, math: Math, len: nat, half: nat, base: nat)
    requires |y.re| == |y.im| && StageFits(|y.re|, len) && len == 2 * half
    requires base % len == 0 && base < |y.re|
    ensures base + half < |y.re|
    ensures Stage(y, math, len).re[base] == y.re[base] + y.re[base + half]
    ensures Stage(y, math, len).im[base] == y.im[base] + y.im[base + half]
  {
    BlockEnd(|y.re|, len, base);
    StageTop(y.re, y.im, math, len, half, base, 0);
    StageAt(y, math, len, base);
  }

  /** A block of 2h starting at lo splits into two blocks of h. */
  lemma HalfBlocks(lo: nat, h: nat)
    requires h > 0 && lo % (2 * h) == 0
    ensures lo % h == 0 && (lo + h) % h == 0
  {
    var q := lo / (2 * h);
    DivModBounds(lo, 2 * h);
    assert lo == h * (2 * q);
    DivModUnique(lo, h, 2 * q, 0);
    DivModUnique(lo + h, h, 2 * q + 1, 0);
  }

  /** The sum of v[lo..hi]. */
  function SumRange(v: seq<real>, lo: nat, hi: nat): real
    requires lo <= hi <= |v|
    decreases hi - lo
  {
    if lo == hi then 0.0 else SumRange(v, lo, hi - 1) + v[hi - 1]
  }

  /** After the stages up to size 2^s, the first element of each block of
      2^s is the sum of the block's elements before the stages. */
  lemma {:induction false} BlockSum(x: Signal, math: Math, k: nat, s: nat, lo: nat)
    requires |x.re| == |x.im| == Pow2(k) && s <= k && lo % Pow2(s) == 0 && lo + Pow2(s) <= Pow2(k)
    ensures lo < Pow2(k)
    ensures AfterStages(x, math, k, s).re[lo] == SumRange(x.re, lo, lo + Pow2(s))
    ensures AfterStages(x, math, k, s).im[lo] == SumRange(x.im, lo, lo + Pow2(s))
  {
    if s == 0 {
    } else {
      var h, len := Pow2(s - 1), Pow2(s);
      assert len == 2 * h;
      var mid := lo + h;
      HalfBlocks(lo, h);
      BlockSum(x, math, k, s - 1, lo);
      BlockSum(x, math, k, s - 1, mid);
      AfterStagesStep(x, math, k, s);
      BlockSumCombine(x, AfterStages(x, math, k, s - 1), AfterStages(x, math, k, s), math, len, h, lo);
    }
  }

  /** One stage joins the sums of two neighbouring half blocks. */
  lemma BlockSumCombine(x: Signal, y: Signal, z: Signal, math: Math, len: nat, h: nat, lo: nat)
    requires |y.re| == |y.im| && StageFits(|y.re|, len) && len == 2 * h
    requires lo % len == 0 && lo + len <= |y.re| && lo + len <= |x.re| && lo + len <= |x.im|
    requires z == Stage(y, math, len)
    requires y.re[lo] == SumRange(x.re, lo, lo + h) && y.re[lo + h] == SumRange(x.re, lo + h, lo + len)
    requires y.im[lo] == SumRange(x.im, lo, lo + h) && y.im[lo + h] == SumRange(x.im, lo + h, lo + len)
    ensures z.re[lo] == SumRange(x.re, lo, lo + len) && z.im[lo] == SumRange(x.im, lo, lo + len)
  {
    BlockStartSum(y, math, len, h, lo);
    SumRangeSplit(x.re, lo, lo + h, lo + len);
    SumRangeSplit(x.im, lo, lo + h, lo + len);
  }

  /** The stages up to 2^s are those up to 2^(s - 1), then the stage of 2^s. */
  lemma AfterStagesStep(x: Signal, math: Math, k: nat, s: nat)
    requires |x.re| == |x.im| == Pow2(k) && 1 <= s <= k
    ensures StageFits(Pow2(k), Pow2(s))
    ensures AfterStages(x, math, k, s) == Stage(AfterStages(x, math, k, s - 1), math, Pow2(s))
  {
    Pow2Fits(k, s);
  }

  /** The sum over [lo, hi) is the sum over [lo, mid) plus that over [mid, hi). */
  lemma {:induction false} SumRangeSplit(v: seq<real>, lo: nat, mid: nat, hi: nat)
    requires lo <= mid <= hi <= |v|
    ensures SumRange(v, lo, hi) == SumRange(v, lo, mid) + SumRange(v, mid, hi)
    decreases hi
  {
    if hi > mid {
      SumRangeSplit(v, lo, mid, hi - 1);
    }
  }

  /** The sum over the whole range is the sum of the sequence. */
  lemma {:induction false} SumRangeAll(v: seq<real>)
    ensures SumRange(v, 0, |v|) == Sum(v)
    decreases |v|
  {
    if |v| > 0 {
      var w := v[..|v| - 1];
      SumRangeAll(w);
      SumRangePrefix(v, |v| - 1);
    }
  }

  /** A range inside a prefix of v sums the same over v and over the prefix. */
  lemma {:induction false} SumRangePrefix(v: seq<real>, hi: nat)
    requires hi <= |v|
    ensures SumRange(v, 0, hi) == SumRange(v[..hi], 0, hi)
    decreases hi
  {
    if hi > 0 {
      SumRangePrefix(v, hi - 1);
      SumRangePrefix(v[..hi], hi - 1);
      assert v[..hi][..hi - 1] == v[..hi - 1];
    }
  }

  /** Output 0 of the transform is the sum of the inputs (the zero-frequency
      term of the discrete Fourier transform), whatever cos and sin are. */
  lemma TransformDcIsSum(x: Signal, math: Math, k: nat)
    requires |x.re| == |x.im| == Pow2(k)
    ensures Transform(x, math, k).re[0] == Sum(x.re) && Transform(x, math, k).im[0] == Sum(x.im)
  {
    var r := Signal(BitReversed(x.re, k), BitReversed(x.im, k));
    BlockSum(r, math, k, k, 0);
    SumRangeAll(r.re);
    SumRangeAll(r.im);
    BitReversedMultiset(x.re, k);
    BitReversedMultiset(x.im, k);
    SumPermutation(r.re, x.re);
    SumPermutation(r.im, x.im);
  }

  /** The transform of two points: their sum and their difference. */
  lemma TwoPointTransform(a: real, b: real, c: real, d: real, math: Math)
    ensures Pow2(1) == 2
    ensures Transform(Signal([a, b], [c, d]), math, 1) == Signal([a + b, a - b], [c + d, c - d])
  {
    var x := Signal([a, b], [c, d]);
    assert Rev(0, 1) == 0 && Rev(1, 1) == 1;
    assert BitReversed(x.re, 1) == x.re && BitReversed(x.im, 1) == x.im;
    Pow2Fits(1, 1);
    assert AfterStages(x, math, 1, 1) == Stage(AfterStages(x, math, 1, 0), math, Pow2(1));
    assert Transform(x, math, 1) == Stage(x, math, 2);
    StageTop(x.re, x.im, math, 2, 1, 0, 0);
    StageBottom(x.re, x.im, math, 2, 1, 0, 0);
    StageAt(x, math, 2, 0);
    StageAt(x, math, 2, 1);
  }

  // ---------------------------------------------------------------------------
  // The butterfly loops on a length that is not a power of two
  // ---------------------------------------------------------------------------

  /** The butterfly loops of `fft` reach stage len = 2^s, block start i and
      butterfly j on n points: len <= n, i a multiple of len below n, and
      j < len / 2. The loop then touches index i + j + len / 2. */
  predicate ButterflyReached(n: nat, s: nat, i: nat, j: nat)
  {
    1 <= s && Pow2(s) <= n && i % Pow2(s) == 0 && i < n && j < Pow2(s) / 2
  }

  /** On a power of two every index the butterfly loops touch is in range. */
  lemma ButterflyInBounds(k: nat, s: nat, i: nat, j: nat)
    requires ButterflyReached(Pow2(k), s, i, j)
    ensures i + j + Pow2(s) / 2 < Pow2(k)
  {
    Pow2Less(k, s);
    Pow2Fits(k, s);
    BlockEnd(Pow2(k), Pow2(s), i);
  }

  /** 400 is not a power of two. */
  lemma NotPow2Of400(k: nat)
    ensures Pow2(k) != 400
  {
    assert Pow2(8) == 256 && Pow2(9) == 512;
    if k < 8 {
      Pow2Less(k, 8);
    } else if k > 9 {
      Pow2Less(9, k);
    }
  }

  /** On the 400 points of a Whisper frame the loops reach stage 32 (32 <= 400)
      and block 384 (a multiple of 32 below 400), whose butterflies write
      indices 400 .. 415, past the end of the arrays. */
  lemma Fft400OutOfBounds()
    ensures ButterflyReached(400, 5, 384, 0) && 384 + 0 + Pow2(5) / 2 == 400
    ensures ButterflyReached(400, 5, 384, 15) && 384 + 15 + Pow2(5) / 2 == 415
  {
    assert Pow2(5) == 32;
  }
}

