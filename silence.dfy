/** The silence test that the recorder applies to every captured chunk
    (`isSilent` and `calculateRMS`, main.js:143-157). A chunk is read as
    signed 16-bit little-endian samples; it is silent when the root mean
    square of its samples is below `SILENCE_THRESHOLD`. */
module Silence {
  import opened LittleEndian

  /** `SILENCE_THRESHOLD` (main.js:11). */
  const SilenceThreshold: nat := 2

  type Int16 = x: int | -0x8000 <= x < 0x8000

  /** The two's-complement sample stored in the byte pair `lo`, `hi`. */
  function Int16LE(lo: Byte, hi: Byte): (x: Int16)
    ensures (x + 0x1_0000) % 0x1_0000 == lo + 0x100 * hi
  {
    var u := lo + 0x100 * hi;
    if u < 0x8000 then u else u - 0x1_0000
  }

  /** The chunk viewed as an `Int16Array`: one sample per byte pair. */
  function Samples(chunk: seq<Byte>): (s: seq<Int16>)
    requires |chunk| % 2 == 0
    ensures |s| == |chunk| / 2
    ensures forall i :: 0 <= i < |s| ==> s[i] == Int16LE(chunk[2 * i], chunk[2 * i + 1])
  {
    if chunk == [] then []
    else [Int16LE(chunk[0], chunk[1])] + Samples(chunk[2..])
  }

  /** The sum of the squares of the samples, accumulated from the first. */
  function SumSquares(s: seq<int>): nat
  {
    if s == [] then 0 else SumSquares(s[..|s| - 1]) + s[|s| - 1] * s[|s| - 1]
  }

  /** The mean of the squared samples: the square of the RMS. */
  function MeanSquare(s: seq<int>): real
    requires |s| > 0
  {
    SumSquares(s) as real / |s| as real
  }

  /** `isSilent`: `sqrt(sum / length) < SILENCE_THRESHOLD`. As the square
      root is increasing and both sides are non-negative, this is the mean
      square compared with the threshold squared. For an empty chunk
      `0 / 0` is NaN, and a comparison with NaN is false: an empty chunk is
      not silent. */
  predicate Silent(chunk: seq<Byte>)
    requires |chunk| % 2 == 0
    ensures Silent(chunk) ==> |chunk| >= 2
  {
    var s := Samples(chunk);
    |s| > 0 && MeanSquare(s) < (SilenceThreshold * SilenceThreshold) as real
  }

  /** The loop of `calculateRMS`. */
  method CalculateSumOfSquares(samples: seq<Int16>) returns (sum: nat)
    ensures sum == SumSquares(samples)
    ensures sum <= |samples| * 0x4000_0000
  {
    sum := 0;
    var i := 0;
    while i < |samples|
      invariant 0 <= i <= |samples|
      invariant sum == SumSquares(samples[..i])
    {
      assert samples[..i + 1][..i] == samples[..i];
      sum := sum + samples[i] as int * samples[i] as int;
      i := i + 1;
    }
    assert samples[..i] == samples;
    SumSquaresBound(samples);
  }

  /** `isSilent`, deciding with integers what the source decides with a
      floating-point square root. */
  method IsSilent(chunk: seq<Byte>) returns (silent: bool)
    requires |chunk| % 2 == 0
    ensures silent == Silent(chunk)
    ensures silent <==> |chunk| > 0 && SumSquares(Samples(chunk)) < SilenceThreshold * SilenceThreshold * (|chunk| / 2)
  {
    var samples := Samples(chunk);
    var sum := CalculateSumOfSquares(samples);
    var length := |samples|;
    if length == 0 {
      silent := false;
    } else {
      MeanSquareBelow(samples, SilenceThreshold * SilenceThreshold);
      silent := sum < SilenceThreshold * SilenceThreshold * length;
    }
  }

  /** The mean square is below `bound` exactly when the sum of squares is
      below `bound` times the number of samples. */
  lemma MeanSquareBelow(s: seq<int>, bound: nat)
    requires |s| > 0
    ensures MeanSquare(s) < bound as real <==> SumSquares(s) < bound * |s|
  {
    QuotientBelow(SumSquares(s) as real, |s| as real, bound as real);
    assert (bound * |s|) as real == bound as real * |s| as real;
  }

  lemma QuotientBelow(a: real, n: real, c: real)
    requires n > 0.0
    ensures a / n < c <==> a < c * n
  {
    var q := a / n;
    assert q * n == a;
    if q < c {
      assert q * n < c * n;
    } else {
      assert q * n >= c * n;
    }
  }

  lemma {:induction false} SumSquaresOfZeros(s: seq<int>)
    requires forall i :: 0 <= i < |s| ==> s[i] == 0
    ensures SumSquares(s) == 0
  {
    if s != [] {
      SumSquaresOfZeros(s[..|s| - 1]);
    }
  }

  /** The sum of squares of `n` copies of `a` is `n * a * a`. */
  lemma {:induction false} SumSquaresOfConstant(s: seq<int>, a: int)
    requires forall i :: 0 <= i < |s| ==> s[i] == a
    ensures SumSquares(s) == |s| * (a * a)
  {
    if s != [] {
      SumSquaresOfConstant(s[..|s| - 1], a);
    }
  }

  /** No 16-bit sample squares to more than 2^30, so a chunk of n samples
      sums to at most n * 2^30. */
  lemma {:induction false} SumSquaresBound(s: seq<Int16>)
    ensures SumSquares(s) <= |s| * 0x4000_0000
  {
    if s != [] {
      SumSquaresBound(s[..|s| - 1]);
      SquareOfSample(s[|s| - 1]);
    }
  }

  lemma SquareOfSample(x: int)
    requires -0x8000 <= x < 0x8000
    ensures x * x <= 0x4000_0000
  {
    var m := if x >= 0 then x else -x;
    NegatedSquare(x);
    MulAtMost(m, m, 0x8000);
  }

  lemma NegatedSquare(x: int)
    ensures (-x) * (-x) == x * x
  {
  }

  lemma MulAtMost(a: nat, b: nat, c: nat)
    requires a <= c && b <= c
    ensures a * b <= c * c
  {
    assert a * b <= c * b;
  }

  /** A non-empty chunk of zero bytes is silent. */
  lemma AllZeroChunkSilent(chunk: seq<Byte>)
    requires |chunk| > 0 && |chunk| % 2 == 0
    requires forall i :: 0 <= i < |chunk| ==> chunk[i] == 0
    ensures Silent(chunk)
  {
    var s := Samples(chunk);
    SumSquaresOfZeros(s);
    MeanSquareBelow(s, SilenceThreshold * SilenceThreshold);
  }

  /** A chunk whose samples all have amplitude `a` has RMS |a|: its mean
      square is exactly a * a, so it is silent iff -2 < a < 2. */
  lemma ConstantChunk(chunk: seq<Byte>, a: int)
    requires |chunk| > 0 && |chunk| % 2 == 0
    requires forall i :: 0 <= i < |chunk| / 2 ==> Samples(chunk)[i] == a
    ensures MeanSquare(Samples(chunk)) == (a * a) as real
    ensures Silent(chunk) <==> -2 < a < 2
  {
    var s := Samples(chunk);
    var sq := a * a;
    SumSquaresOfConstant(s, a);
    MeanOfConstant(|s|, sq);
    assert MeanSquare(s) == sq as real;
    SquareBelowFour(a);
  }

  lemma MeanOfConstant(n: nat, sq: int)
    requires n > 0
    ensures (n * sq) as real / n as real == sq as real
  {
    assert (n * sq) as real == n as real * sq as real;
  }

  lemma SquareBelowFour(a: int)
    ensures a * a < 4 <==> -2 < a < 2
  {
    if a >= 2 {
      assert a * a >= 2 * a;
    } else if a <= -2 {
      assert a * a == (-a) * (-a) >= 2 * (-a);
    }
  }

  /** An empty chunk is kept: its RMS is NaN, which is not below the threshold. */
  lemma EmptyChunkNotSilent()
    ensures !Silent([])
  {
  }
}
