/** The user settings of the detector, kept in a key-value store: the
    sensitivity level (1 to 5) that selects an RMS threshold, and the
    minimum snore duration in milliseconds. */
module Preferences {
  import opened Numeric

  const KeySensitivityLevel := "sensitivity_level"
  const KeyMinDurationMs := "min_duration_ms"

  const DefaultSensitivityLevel := 3
  const DefaultMinDurationMs := 500

  /** RMS threshold per sensitivity level: a lower level is more sensitive. */
  const SensitivityThresholds: map<int, real> :=
    map[1 := 400.0, 2 := 600.0, 3 := 800.0, 4 := 1000.0, 5 := 1200.0]

  /** A stored integer, or the default when the key is absent. */
  function GetOrDefault(prefs: map<string, int>, key: string, default: int): (r: int)
    ensures key !in prefs ==> r == default
    ensures key in prefs ==> r == prefs[key]
  {
    if key in prefs then prefs[key] else default
  }

  /** getRMSThreshold for a given stored level: the table entry, and for a
      level outside the table the entry of the default level. The table is
      the closed form 200 * level + 200 on 1..5. */
  function RmsThresholdFor(level: int): (t: real)
    ensures 1 <= level <= 5 ==> t == 200.0 * (level as real) + 200.0
    ensures !(1 <= level <= 5) ==> t == 800.0
    ensures 400.0 <= t <= 1200.0
  {
    if level in SensitivityThresholds then SensitivityThresholds[level]
    else SensitivityThresholds[DefaultSensitivityLevel]
  }

  /** A less sensitive (higher) level never has a lower threshold, and within
      the table the thresholds strictly increase. */
  lemma ThresholdsIncrease(a: int, b: int)
    requires 1 <= a < b <= 5
    ensures RmsThresholdFor(a) < RmsThresholdFor(b)
  {
  }

  class PreferencesManager {
    /** The preference file: key to stored value. */
    var prefs: map<string, int>

    constructor (stored: map<string, int>)
      ensures prefs == stored
    {
      prefs := stored;
    }

    /** The `sensitivityLevel` getter. */
    function SensitivityLevel(): int
      reads this
    {
      GetOrDefault(prefs, KeySensitivityLevel, DefaultSensitivityLevel)
    }

    /** The `sensitivityLevel` setter: stores the value clamped to 1..5. */
    method SetSensitivityLevel(value: int)
      modifies this
      ensures prefs == old(prefs)[KeySensitivityLevel := CoerceIn(value, 1, 5)]
      ensures 1 <= SensitivityLevel() <= 5
      ensures 1 <= value <= 5 ==> SensitivityLevel() == value
      ensures MinDurationMs() == old(MinDurationMs())
    {
      prefs := prefs[KeySensitivityLevel := CoerceIn(value, 1, 5)];
    }

    /** getRMSThreshold: never fails, falls back to the level-3 threshold. */
    function RmsThreshold(): (t: real)
      reads this
      ensures 400.0 <= t <= 1200.0
    {
      RmsThresholdFor(SensitivityLevel())
    }

    /** The `minDurationMs` getter. */
    function MinDurationMs(): int
      reads this
    {
      GetOrDefault(prefs, KeyMinDurationMs, DefaultMinDurationMs)
    }

    /** The `minDurationMs` setter: stores the value as given. */
    method SetMinDurationMs(value: int)
      modifies this
      ensures prefs == old(prefs)[KeyMinDurationMs := value]
      ensures MinDurationMs() == value
      ensures SensitivityLevel() == old(SensitivityLevel())
    {
      prefs := prefs[KeyMinDurationMs := value];
    }
  }

  /** With nothing stored the level reads 3, the threshold 800 and the
      minimum duration 500 ms. */
  lemma EmptyStoreDefaults(p: PreferencesManager)
    requires p.prefs == map[]
    ensures p.SensitivityLevel() == 3
    ensures p.RmsThreshold() == 800.0
    ensures p.MinDurationMs() == 500
  {
  }
}
