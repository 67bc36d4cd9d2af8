/** The session-quality rating shown on the history list and on the
    session detail screen: snores per minute, bucketed. */
module History {

  datatype Quality = Excellent | Good | Fair | Poor

  /** Position of a rating on the scale, Poor lowest. */
  function Rank(q: Quality): nat
  {
    match q
    case Poor => 0
    case Fair => 1
    case Good => 2
    case Excellent => 3
  }

  /** Snores per minute; a session without a positive duration rates 0. */
  function SnoreRate(snoreCount: int, durationMinutes: int): (rate: real)
    ensures durationMinutes <= 0 ==> rate == 0.0
    ensures durationMinutes > 0 ==> rate * (durationMinutes as real) == snoreCount as real
  {
    if durationMinutes > 0 then (snoreCount as real) / (durationMinutes as real) else 0.0
  }

  /** The buckets: below 1, below 3, below 5 snores per minute, or more. */
  function QualityOf(rate: real): Quality
  {
    if rate < 1.0 then Excellent
    else if rate < 3.0 then Good
    else if rate < 5.0 then Fair
    else Poor
  }

  function SessionQuality(snoreCount: int, durationMinutes: int): Quality
  {
    QualityOf(SnoreRate(snoreCount, durationMinutes))
  }

  /** Comparing the rate with a whole number is comparing the count with
      that many snores per minute of the session. */
  lemma RateBelowIff(snoreCount: int, durationMinutes: int, k: int)
    requires durationMinutes > 0
    ensures SnoreRate(snoreCount, durationMinutes) < k as real <==> snoreCount < k * durationMinutes
  {
    var r, d := SnoreRate(snoreCount, durationMinutes), durationMinutes as real;
    var rd, kd := r * d, (k as real) * d;
    assert (k * durationMinutes) as real == kd;
    if r < k as real {
      assert rd < kd by { assert (k as real - r) * d > 0.0; }
    } else {
      assert rd >= kd by { assert (r - k as real) * d >= 0.0; }
    }
  }

  /** The rating in whole numbers: with a positive duration d and count c,
      Excellent is c < d, Good is d <= c < 3d, Fair is 3d <= c < 5d and
      Poor is c >= 5d. */
  lemma QualityByCounts(snoreCount: int, durationMinutes: int)
    requires durationMinutes > 0
    ensures SessionQuality(snoreCount, durationMinutes) == Excellent <==> snoreCount < durationMinutes
    ensures SessionQuality(snoreCount, durationMinutes) == Good <==>
      durationMinutes <= snoreCount < 3 * durationMinutes
    ensures SessionQuality(snoreCount, durationMinutes) == Fair <==>
      3 * durationMinutes <= snoreCount < 5 * durationMinutes
    ensures SessionQuality(snoreCount, durationMinutes) == Poor <==> snoreCount >= 5 * durationMinutes
  {
    RateBelowIff(snoreCount, durationMinutes, 1);
    RateBelowIff(snoreCount, durationMinutes, 3);
    RateBelowIff(snoreCount, durationMinutes, 5);
  }

  /** A session with no positive duration is rated Excellent, whatever its
      count. */
  lemma NoDurationIsExcellent(snoreCount: int, durationMinutes: int)
    requires durationMinutes <= 0
    ensures SessionQuality(snoreCount, durationMinutes) == Excellent
  {
  }

  /** More snores in the same time never rate better. */
  lemma MoreSnoresNeverRateBetter(fewer: int, more: int, durationMinutes: int)
    requires fewer <= more
    ensures Rank(SessionQuality(more, durationMinutes)) <= Rank(SessionQuality(fewer, durationMinutes))
  {
    if durationMinutes > 0 {
      QualityByCounts(fewer, durationMinutes);
      QualityByCounts(more, durationMinutes);
    }
  }
}
