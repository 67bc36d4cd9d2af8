/** The settings sliders and the sensitivity label they show. */
module Settings {
  import opened Numeric

  /** getSensitivityLabel: a name per level; any other level reads as the
      default's name. */
  function SensitivityLabel(level: int): string
  {
    if level == 1 then "Very Sensitive"
    else if level == 2 then "Sensitive"
    else if level == 3 then "Medium"
    else if level == 4 then "Less Sensitive"
    else if level == 5 then "Least Sensitive"
    else "Medium"
  }

  /** The five levels have five different names. */
  lemma SensitivityLabelsDistinct(a: int, b: int)
    requires 1 <= a <= 5 && 1 <= b <= 5
    ensures SensitivityLabel(a) == SensitivityLabel(b) <==> a == b
  {
  }

  /** A level outside 1..5 is named like the default level 3. */
  lemma OtherLevelsReadAsDefault(level: int)
    requires !(1 <= level <= 5)
    ensures SensitivityLabel(level) == SensitivityLabel(3) == "Medium"
  {
  }

  /** The sensitivity slider: the thumb value truncated and clamped to 1..5. */
  function SnapSensitivity(value: real): (level: int)
    ensures 1 <= level <= 5
    ensures 1.0 <= value < 6.0 ==> level as real <= value < level as real + 1.0
  {
    CoerceIn(TruncateToInt(value), 1, 5)
  }

  /** Every level is a fixed point of the sensitivity slider. */
  lemma SnapSensitivityKeepsLevels(level: int)
    requires 1 <= level <= 5
    ensures SnapSensitivity(level as real) == level
  {
  }

  lemma QuotientBounds(v: real, t: int)
    ensures t as real <= v / 100.0 < t as real + 1.0 ==> (t * 100) as real <= v < (t * 100) as real + 100.0
  {
    var q := v / 100.0;
    if t as real <= q < t as real + 1.0 {
      assert q * 100.0 == v;
      assert (t as real) * 100.0 <= q * 100.0;
      assert q * 100.0 < (t as real) * 100.0 + 100.0;
    }
  }

  /** The duration slider: snapped down to a whole 100 ms, then clamped to
      100..2000 ms. */
  function SnapDuration(value: real): (ms: int)
    ensures 100 <= ms <= 2000 && ms % 100 == 0
    ensures 100.0 <= value < 2100.0 ==> ms as real <= value < ms as real + 100.0
    ensures value < 100.0 ==> ms == 100
    ensures value >= 2000.0 ==> ms == 2000
  {
    var t := TruncateToInt(value / 100.0);
    QuotientBounds(value, t);
    CoerceIn(t * 100, 100, 2000)
  }

  /** Every multiple of 100 in [100, 2000] is a fixed point of the snapping. */
  lemma SnapDurationKeepsSteps(ms: int)
    requires 100 <= ms <= 2000 && ms % 100 == 0
    ensures SnapDuration(ms as real) == ms
  {
  }

  /** Snapping twice is snapping once. */
  lemma SnapDurationIdempotent(value: real)
    ensures SnapDuration(SnapDuration(value) as real) == SnapDuration(value)
  {
    SnapDurationKeepsSteps(SnapDuration(value));
  }

  /** Thumb position k of the duration slider when it declares `steps`
      discrete values between the endpoints 100 and 2000: the range is cut
      into steps + 1 equal intervals. */
  function DurationSliderPosition(steps: nat, k: nat): (v: real)
    requires k <= steps + 1
    ensures 100.0 <= v <= 2000.0
  {
    var d := (steps + 1) as real;
    var x := (k * 1900) as real;
    QuotientAtMost(x, d, 1900.0);
    100.0 + x / d
  }

  lemma QuotientAtMost(x: real, d: real, c: real)
    requires 0.0 <= x <= c * d && d > 0.0
    ensures 0.0 <= x / d <= c
  {
    var q := x / d;
    assert q * d == x;
  }

  /** With `steps = 19`, as the duration slider declares, the positions are
      95 ms apart: the second position, 195, reports 100 like the first, and
      the third, 290, reports 200. */
  lemma DurationSliderAsWritten()
    ensures DurationSliderPosition(19, 1) == 195.0 && DurationSliderPosition(19, 2) == 290.0
    ensures DurationSliderPosition(19, 20) == 2000.0
    ensures SnapDuration(DurationSliderPosition(19, 0)) == SnapDuration(DurationSliderPosition(19, 1)) == 100
    ensures SnapDuration(DurationSliderPosition(19, 2)) == 200
  {
  }

  /** With `steps = 18` the 20 positions are exactly 100, 200, ..., 2000,
      and each reports itself. */
  lemma DurationSliderCorrected(k: nat)
    requires k <= 19
    ensures DurationSliderPosition(18, k) == (100 + 100 * k) as real
    ensures SnapDuration(DurationSliderPosition(18, k)) == 100 + 100 * k
  {
    assert ((100 * k) as real) * 19.0 == (k * 1900) as real;
    SnapDurationKeepsSteps(100 + 100 * k);
  }
}
