/** Per-frame signal metrics of the snore detector: the sum of squares that
    underlies the RMS energy, and the zero-crossing count and rate.
    Samples are signed 16-bit PCM values. */
module AudioMetrics {

  /** A signed 16-bit PCM sample. */
  type Short = x: int | -0x8000 <= x < 0x8000

  /** The sum of the squared samples, accumulated from the front. */
  function SumSq(s: seq<int>): (r: int)
    ensures r >= 0
  {
    if |s| == 0 then 0 else SumSq(s[..|s| - 1]) + s[|s| - 1] * s[|s| - 1]
  }

  /** `rms` is the root mean square of the non-empty frame `s`:
      rms >= 0 and rms^2 * |s| is the sum of squares. */
  ghost predicate IsRmsOf(rms: real, s: seq<int>)
  {
    |s| > 0 && rms >= 0.0 && rms * rms * (|s| as real) == SumSq(s) as real
  }

  /** Every square of a 16-bit sample is at most 2^30 and fits in an Int, so
      the sum of squares of a frame is bounded by |s| * 2^30. */
  lemma {:induction false} SumSqBounded(s: seq<Short>)
    ensures SumSq(s) <= |s| * 0x4000_0000
  {
    if |s| > 0 {
      var x := s[|s| - 1];
      SumSqBounded(s[..|s| - 1]);
      SquareOfShort(x);
    }
  }

  lemma SquareOfShort(x: Short)
    ensures 0 <= x * x <= 0x4000_0000
  {
    var y: int := if x >= 0 then x else -(x as int);
    MulLe(y, y, 0x8000);
    assert x * x == y * y;
  }

  lemma MulLe(a: int, b: int, c: int)
    requires 0 <= a <= c && 0 <= b <= c
    ensures a * b <= c * c
  {
    assert a * b <= a * c;
    assert a * c <= c * c;
  }

  /** The loop of calculateRMS, up to the final division and square root:
      it accumulates the sum of squares of the frame. */
  method SumOfSquares(data: array<Short>) returns (sum: int)
    ensures sum == SumSq(data[..])
  {
    sum := 0;
    for i := 0 to data.Length
      invariant sum == SumSq(data[..i])
    {
      assert data[..i + 1][..i] == data[..i];
      sum := sum + (data[i] as int) * (data[i] as int);
    }
    assert data[..data.Length] == data[..];
  }

  /** Deciding "rms >= t" without a square root: for a threshold t >= 0 it
      holds exactly when the sum of squares reaches t^2 * n. */
  lemma RmsAtLeastIff(rms: real, s: seq<int>, t: real)
    requires IsRmsOf(rms, s) && t >= 0.0
    ensures rms >= t <==> SumSq(s) as real >= t * t * (|s| as real)
  {
    RootAtLeastIff(rms, |s| as real, SumSq(s) as real, t);
  }

  lemma RootAtLeastIff(r: real, n: real, sum: real, t: real)
    requires r >= 0.0 && n > 0.0 && t >= 0.0 && r * r * n == sum
    ensures r >= t <==> sum >= t * t * n
  {
    var sq, tt := r * r, t * t;
    if r >= t {
      SquareLe(t, r);
      ScaleLe(tt, sq, n);
    } else {
      SquareLt(r, t);
      ScaleLt(sq, tt, n);
    }
  }

  lemma SquareLe(a: real, b: real)
    requires 0.0 <= a <= b
    ensures a * a <= b * b
  {
    var aa, ab, bb := a * a, a * b, b * b;
    assert aa <= ab by { assert a * (b - a) >= 0.0; }
    assert ab <= bb by { assert b * (b - a) >= 0.0; }
  }

  lemma SquareLt(a: real, b: real)
    requires 0.0 <= a < b
    ensures a * a < b * b
  {
    var aa, ab, bb := a * a, a * b, b * b;
    assert aa <= ab by { assert a * (b - a) >= 0.0; }
    assert ab < bb by { assert b * (b - a) > 0.0; }
  }

  lemma ScaleLe(a: real, b: real, n: real)
    requires a <= b && n > 0.0
    ensures a * n <= b * n
  {
    assert (b - a) * n >= 0.0;
  }

  lemma ScaleLt(a: real, b: real, n: real)
    requires a < b && n > 0.0
    ensures a * n < b * n
  {
    assert (b - a) * n > 0.0;
  }

  /** A frame of silence (all samples zero) has RMS 0. */
  lemma SilentFrameRms(rms: real, s: seq<int>)
    requires IsRmsOf(rms, s)
    requires forall i :: 0 <= i < |s| ==> s[i] == 0
    ensures rms == 0.0
  {
    SilentSumSq(s);
    var n := |s| as real;
    if rms > 0.0 {
      SquareLt(0.0, rms);
      ScaleLt(0.0, rms * rms, n);
      assert false;
    }
  }

  lemma {:induction false} SilentSumSq(s: seq<int>)
    requires forall i :: 0 <= i < |s| ==> s[i] == 0
    ensures SumSq(s) == 0
  {
    if |s| > 0 {
      SilentSumSq(s[..|s| - 1]);
    }
  }

  /** Every sample multiplied by k. */
  function Scaled(s: seq<int>, k: int): (r: seq<int>)
    ensures |r| == |s|
    ensures forall i :: 0 <= i < |s| ==> r[i] == k * s[i]
  {
    seq(|s|, i requires 0 <= i < |s| => k * s[i])
  }

  /** Scaling every sample by k scales the sum of squares by k^2. */
  lemma {:induction false} SumSqScaled(s: seq<int>, k: int)
    ensures SumSq(Scaled(s, k)) == k * k * SumSq(s)
  {
    if |s| > 0 {
      var p, x := s[..|s| - 1], s[|s| - 1];
      assert Scaled(s, k)[..|s| - 1] == Scaled(p, k);
      SumSqScaled(p, k);
      var kk, a := k * k, SumSq(p);
      assert SumSq(Scaled(s, k)) == kk * a + (k * x) * (k * x);
      SquareOfProduct(k, x);
      Distribute(kk, a, x * x);
    }
  }

  lemma SquareOfProduct(k: int, x: int)
    ensures (k * x) * (k * x) == (k * k) * (x * x)
  {}

  lemma Distribute(c: int, a: int, b: int)
    ensures c * (a + b) == c * a + c * b
  {}

  /** The sign classes of calculateZCR: zero counts as non-negative. */
  predicate CrossesZero(prev: int, cur: int)
  {
    (cur >= 0 && prev < 0) || (cur < 0 && prev >= 0)
  }

  /** The number of indices i in 1..|s|-1 whose samples s[i-1] and s[i] lie
      in different sign classes. */
  function Crossings(s: seq<int>): (r: nat)
    ensures |s| >= 1 ==> r <= |s| - 1
  {
    if |s| < 2 then 0
    else Crossings(s[..|s| - 1]) + (if CrossesZero(s[|s| - 2], s[|s| - 1]) then 1 else 0)
  }

  /** A frame whose samples all lie in one sign class has no crossings. */
  lemma {:induction false} OneSignClassNoCrossings(s: seq<int>)
    requires (forall i :: 0 <= i < |s| ==> s[i] >= 0) || (forall i :: 0 <= i < |s| ==> s[i] < 0)
    ensures Crossings(s) == 0
  {
    if |s| >= 2 {
      OneSignClassNoCrossings(s[..|s| - 1]);
    }
  }

  /** When consecutive samples always change sign class, every pair crosses:
      the bound |s| - 1 is attained. */
  lemma {:induction false} AlternatingCrossesEverywhere(s: seq<int>)
    requires |s| >= 1
    requires forall i :: 1 <= i < |s| ==> CrossesZero(s[i - 1], s[i])
    ensures Crossings(s) == |s| - 1
  {
    if |s| >= 2 {
      AlternatingCrossesEverywhere(s[..|s| - 1]);
    }
  }

  /** The zero-crossing rate of a frame of at least two samples. */
  function Zcr(s: seq<int>): (r: real)
    requires |s| >= 2
    ensures 0.0 <= r <= 1.0
  {
    var c := Crossings(s) as real;
    var d := (|s| - 1) as real;
    assert c <= d;
    assert c / d <= 1.0 by { DivAtMostOne(c, d); }
    c / d
  }

  lemma DivAtMostOne(c: real, d: real)
    requires 0.0 <= c <= d && d > 0.0
    ensures 0.0 <= c / d <= 1.0
  {
    assert c / d * d == c;
  }

  /** calculateZCR: counts crossings over consecutive pairs and divides by
      the number of pairs. */
  method CalculateZcr(data: array<Short>) returns (zcr: real)
    requires data.Length >= 2
    ensures zcr == Zcr(data[..])
    ensures 0.0 <= zcr <= 1.0
  {
    var crossings := 0;
    for i := 1 to data.Length
      invariant crossings == Crossings(data[..i])
    {
      assert data[..i + 1][..i] == data[..i];
      if (data[i] >= 0 && data[i - 1] < 0) || (data[i] < 0 && data[i - 1] >= 0) {
        crossings := crossings + 1;
      }
    }
    assert data[..data.Length] == data[..];
    zcr := crossings as real / (data.Length - 1) as real;
  }
}
