# SmartSleep snore detection, modelled in Dafny

SmartSleep is an Android app that listens through the microphone during
the night and detects snoring. When it detects a snore it vibrates the phone
and counts the event. Each audio frame of 16-bit PCM samples goes through
the same steps:

- The app computes the frame's loudness (RMS) and its zero-crossing rate
  (ZCR).
- A small state machine in the foreground service uses these to decide
  whether the user is snoring. A snore counts when a loud, low-frequency
  signal lasts longer than a configured minimum duration.
- An event vibrates the phone and pauses detection for 5000 ms, so that the
  vibration cannot trigger itself.

Around the state machine sit several smaller pieces, each modelled in this
project:

- the settings store, which maps a sensitivity level to an RMS threshold;
- the session counter, which keeps the event count and the largest
  amplitude in a key-value store;
- the live screen state, which keeps the last 100 amplitude points;
- the display rules for durations, slider positions and sleep quality.

The model takes each source file in its own form:

- The service, the settings store, the session counter and the live screen
  state become classes whose methods update their fields in place. Each
  method is proved against a pure function of the old state:
  - `SnoreDetection.Next` for one frame of detection;
  - `Sessions.AfterEvent` for one counted event;
  - `Home.Slide` for one graph point.
- The two metric loops become methods over arrays. Their loop invariants tie
  them to the recursive functions `AudioMetrics.SumSq` and
  `AudioMetrics.Crossings`.
- The display rules become pure functions.

Run-level lemmas then prove what the detector guarantees across many frames:

- consecutive events are at least 5000 ms apart;
- an event fires if and only if an unbroken run of snore-like frames has
  lasted longer than the minimum duration;
- the graph window always holds exactly the most recent 100 points.

Modelling conventions:

- Kotlin `Long` and `Int` are Dafny `int`.
- `Float` and `Double` are `real`.
- A `SharedPreferences` file is a `map` from key to value.
- `System.currentTimeMillis()` is a parameter `now`, read once per frame.
- The settings the service reads for a frame travel with the frame
  (`SnoreDetection.FrameInput`).
- An audio frame always has 1024 samples (`AudioRecorder.kt` reads
  fixed-size buffers), so the precondition `n >= 2` of the ZCR excludes no
  frame the app produces.

## Model

| member | source | states |
|---|---|---|
| Numeric.CoerceIn | app/src/main/java/com/jinbo/smartsleep/data/PreferencesManager.kt:43 | `coerceIn`: the result lies in the range, equals the value inside it and the nearer bound outside it |
| Numeric.TruncateToInt | app/src/main/java/com/jinbo/smartsleep/ui/screens/settings/SettingComponents.kt:107 | `Float.toInt()` rounds toward zero: floor bounds for non-negative input, ceiling bounds for negative input |
| AudioMetrics.SumSq | app/src/main/java/com/jinbo/smartsleep/audio/AudioUtils.kt:14-17 | the accumulated sum of squares is never negative |
| AudioMetrics.SumSqBounded | app/src/main/java/com/jinbo/smartsleep/audio/AudioUtils.kt:15-17 | each square of a 16-bit sample is at most 2^30, so each product `sample * sample` fits in an `Int`; the sum of n squares is at most n·2^30, which for a 1024-sample frame is 2^40 and is exact in the `Double` accumulator |
| AudioMetrics.SumOfSquares | app/src/main/java/com/jinbo/smartsleep/audio/AudioUtils.kt:13-19 | the loop of calculateRMS returns exactly the sum of squares of the whole frame |
| AudioMetrics.RmsAtLeastIff | app/src/main/java/com/jinbo/smartsleep/audio/AudioUtils.kt:13-19 | for a threshold t >= 0, rms >= t holds if and only if sumSq >= t²·n, so the check needs no square root |
| AudioMetrics.SilentFrameRms | app/src/main/java/com/jinbo/smartsleep/audio/AudioUtils.kt:13-19 | an all-zero frame has RMS 0 |
| AudioMetrics.SumSqScaled | app/src/main/java/com/jinbo/smartsleep/audio/AudioUtils.kt:14-17 | multiplying every sample by k multiplies the sum of squares by k² |
| AudioMetrics.Crossings | app/src/main/java/com/jinbo/smartsleep/audio/AudioUtils.kt:55-60 | a frame of n >= 1 samples has at most n-1 crossings |
| AudioMetrics.OneSignClassNoCrossings | app/src/main/java/com/jinbo/smartsleep/audio/AudioUtils.kt:55-60 | a frame that is all >= 0 (zero included) or all < 0 has no crossings |
| AudioMetrics.AlternatingCrossesEverywhere | app/src/main/java/com/jinbo/smartsleep/audio/AudioUtils.kt:55-60 | a frame whose sign class changes at every step has the full n-1 crossings |
| AudioMetrics.Zcr | app/src/main/java/com/jinbo/smartsleep/audio/AudioUtils.kt:54-62 | for n >= 2 the rate lies in [0, 1] |
| AudioMetrics.CalculateZcr | app/src/main/java/com/jinbo/smartsleep/audio/AudioUtils.kt:54-62 | the loop of calculateZCR returns exactly crossings / (n-1) and lies in [0, 1] |
| Preferences.GetOrDefault | app/src/main/java/com/jinbo/smartsleep/data/PreferencesManager.kt:40-60 | a getter returns the stored value, or the default when the key is absent |
| Preferences.RmsThresholdFor | app/src/main/java/com/jinbo/smartsleep/data/PreferencesManager.kt:28-51 | levels 1..5 map to 400, 600, 800, 1000, 1200, and any other level maps to the level-3 value 800, so the lookup never fails |
| Preferences.ThresholdsIncrease | app/src/main/java/com/jinbo/smartsleep/data/PreferencesManager.kt:28-34 | the threshold strictly increases with the level |
| Preferences.PreferencesManager.SensitivityLevel | app/src/main/java/com/jinbo/smartsleep/data/PreferencesManager.kt:41 | the `sensitivityLevel` getter: the stored level, or 3 when none is stored; characterised by `EmptyStoreDefaults` and the setter's contract |
| Preferences.PreferencesManager.SetSensitivityLevel | app/src/main/java/com/jinbo/smartsleep/data/PreferencesManager.kt:40-44 | stores the value clamped to 1..5; the getter then reads a level in 1..5, the value itself when it was in range; the minimum duration is unchanged |
| Preferences.PreferencesManager.RmsThreshold | app/src/main/java/com/jinbo/smartsleep/data/PreferencesManager.kt:49-51 | getRMSThreshold always lies in [400, 1200] |
| Preferences.PreferencesManager.MinDurationMs | app/src/main/java/com/jinbo/smartsleep/data/PreferencesManager.kt:57 | the `minDurationMs` getter: the stored value, or 500 when none is stored; characterised by `EmptyStoreDefaults` and the setter's contract |
| Preferences.PreferencesManager.SetMinDurationMs | app/src/main/java/com/jinbo/smartsleep/data/PreferencesManager.kt:56-60 | stores the value unclamped; the getter reads it back; the sensitivity level is unchanged |
| Preferences.EmptyStoreDefaults | app/src/main/java/com/jinbo/smartsleep/data/PreferencesManager.kt:24-57 | with nothing stored the level reads 3, the threshold 800 and the minimum duration 500 ms |
| Sessions.SessionOf | app/src/main/java/com/jinbo/smartsleep/data/SessionManager.kt:37-44 | getLastSession reads every absent field as 0 |
| Sessions.SessionManager.LastSession | app/src/main/java/com/jinbo/smartsleep/data/SessionManager.kt:37-44 | getLastSession: `SessionOf` of the stored map; `StartSession`, `StopSession` and `AddEvent` state their effect through it |
| Sessions.SessionManager.EventCount | app/src/main/java/com/jinbo/smartsleep/data/SessionManager.kt:33-35 | getEventCount is the event count of getLastSession |
| Sessions.AfterEvent | app/src/main/java/com/jinbo/smartsleep/data/SessionManager.kt:23-31 | one event adds exactly 1 to the count; the new maximum is at least the old maximum and the amplitude, and is one of the two; the times are unchanged |
| Sessions.AfterEventsAccumulates | app/src/main/java/com/jinbo/smartsleep/data/SessionManager.kt:23-31 | k events add k to the count; the maximum bounds every amplitude, never decreases, and is the old maximum or one of the amplitudes |
| Sessions.StartedThenEvents | app/src/main/java/com/jinbo/smartsleep/data/SessionManager.kt:9-31 | startSession followed by events a1..ak gives count k and maximum max(0, a1, ..., ak) |
| Sessions.SessionManager.StartSession | app/src/main/java/com/jinbo/smartsleep/data/SessionManager.kt:9-15 | writes start time now, count 0 and maximum 0, and leaves the end time as it was |
| Sessions.SessionManager.StopSession | app/src/main/java/com/jinbo/smartsleep/data/SessionManager.kt:17-21 | writes only the end time; count, maximum and start time are unchanged |
| Sessions.SessionManager.AddEvent | app/src/main/java/com/jinbo/smartsleep/data/SessionManager.kt:23-31 | the read-modify-write has the effect of AfterEvent on the session; every other key is unchanged |
| Sessions.ThreeEventSession | app/src/main/java/com/jinbo/smartsleep/data/SessionManager.kt:9-31 | a session with events of amplitude 900, 1100 and 950 ends with count 3 and maximum 1100 |
| SnoreDetection.Next | app/src/main/java/com/jinbo/smartsleep/service/SnoreDetectionService.kt:147-239 | a frame during the cooldown clears tracking; a non-candidate frame clears tracking; the first candidate frame starts tracking at now; a candidate frame below the duration keeps the start; an event clears tracking, resets the start time to 0 and pauses until now+5000; the pause never moves back; the sample clock advances exactly when a sample is taken |
| SnoreDetection.SampleOf | app/src/main/java/com/jinbo/smartsleep/service/SnoreDetectionService.kt:179-193 | the sample a frame appends, if any; characterised by `SampleProperties` |
| SnoreDetection.SampleProperties | app/src/main/java/com/jinbo/smartsleep/service/SnoreDetectionService.kt:177-199 | a sample is appended exactly when the frame is outside the cooldown and 100 ms or more after the last sample; it is stamped now - sessionStartTime; its snore flag is rms >= threshold and does not depend on the ZCR |
| SnoreDetection.EventsSpacedByCooldown | app/src/main/java/com/jinbo/smartsleep/service/SnoreDetectionService.kt:149-267 | over any sequence of frames no event fires before the initial pause ends, consecutive events are at least 5000 ms apart, and the pause ends 5000 ms after the last event |
| SnoreDetection.TrackingHasWitness | app/src/main/java/com/jinbo/smartsleep/service/SnoreDetectionService.kt:219-238 | while tracking, the start time is the time of an earlier frame from which every frame was a candidate outside the cooldown |
| SnoreDetection.EventNeedsSustainedSnore | app/src/main/java/com/jinbo/smartsleep/service/SnoreDetectionService.kt:219-232 | an event requires an earlier frame more than minDurationMs before it, from which every frame up to the event was a candidate outside the cooldown |
| SnoreDetection.SustainedRunFires | app/src/main/java/com/jinbo/smartsleep/service/SnoreDetectionService.kt:219-232 | the converse: starting untracked, if every frame is a candidate outside the cooldown and the last comes more than minDurationMs after the first, an event has fired |
| SnoreDetection.SustainedRunTracked | app/src/main/java/com/jinbo/smartsleep/service/SnoreDetectionService.kt:219-226 | while such a run has not fired, it is tracked with the first frame's time as its start |
| SnoreDetection.SteadySnoreScenario | app/src/main/java/com/jinbo/smartsleep/service/SnoreDetectionService.kt:164-239 | frames of RMS 900 and ZCR 0.05 every 100 ms from time 0 (threshold 800, minimum 500 ms) start tracking at 0 and fire one event at 600, which pauses detection until 5600 |
| SnoreDetection.SpeechBurstResetsTracking | app/src/main/java/com/jinbo/smartsleep/service/SnoreDetectionService.kt:219-238 | a single frame of ZCR 0.3 at 300 ms in such a run clears tracking |
| SnoreDetection.SpeechBurstRestarts | app/src/main/java/com/jinbo/smartsleep/service/SnoreDetectionService.kt:219-226 | after the burst, tracking restarts at 400 ms and holds that start with no event through 700 ms |
| SnoreDetection.SpeechBurstKeepsTracking | app/src/main/java/com/jinbo/smartsleep/service/SnoreDetectionService.kt:219-226 | after the burst, tracking restarts at 400 ms and no event fires up to and including 900 ms |
| SnoreDetection.SpeechBurstScenario | app/src/main/java/com/jinbo/smartsleep/service/SnoreDetectionService.kt:219-232 | with the burst, the only event fires at 1000 ms, the first frame more than 500 ms after the restart |
| SnoreDetection.CandidateFromFrame | app/src/main/java/com/jinbo/smartsleep/service/SnoreDetectionService.kt:201-219 | for a real frame the candidate test is decided in integers: sumSq >= threshold²·n and 100·crossings < 15·(n-1) |
| SnoreDetection.SnoreDetectionService.constructor | app/src/main/java/com/jinbo/smartsleep/service/SnoreDetectionService.kt:68-78 | the service starts not tracking, not paused, with no samples, session id 0 and not running |
| SnoreDetection.SnoreDetectionService.OnStartCommand | app/src/main/java/com/jinbo/smartsleep/service/SnoreDetectionService.kt:94-113 | a stop request answers not sticky; otherwise the first start records the session start time and starts a session, writing only the start time, event count and maximum amplitude keys; the detection state is not touched |
| SnoreDetection.SnoreDetectionService.OnAudioData | app/src/main/java/com/jinbo/smartsleep/service/SnoreDetectionService.kt:147-159 | the new detection state is Next of the old one; an event fires exactly when Fires holds; a paused frame broadcasts 0 and otherwise the RMS is broadcast; the samples grow by SampleOf; a flush is requested when an append reaches 50 samples; an event updates the session by AfterEvent; every session key other than the event count and the maximum amplitude is unchanged |
| SnoreDetection.SnoreDetectionService.ProcessAudioData | app/src/main/java/com/jinbo/smartsleep/service/SnoreDetectionService.kt:164-239 | outside the cooldown: the same contract as OnAudioData, broadcasting the RMS |
| SnoreDetection.SnoreDetectionService.ResetSnoreTracking | app/src/main/java/com/jinbo/smartsleep/service/SnoreDetectionService.kt:241-244 | clears the tracking flag and start time, and nothing else |
| SnoreDetection.SnoreDetectionService.RecordSnoreEvent | app/src/main/java/com/jinbo/smartsleep/service/SnoreDetectionService.kt:246-255 | adds one event to the session and returns the new count, one more than before; every session key other than the event count and the maximum amplitude is unchanged |
| SnoreDetection.SnoreDetectionService.TriggerVibration | app/src/main/java/com/jinbo/smartsleep/service/SnoreDetectionService.kt:257-267 | pauses detection until now + 5000 |
| SnoreDetection.SnoreDetectionService.FlushAmplitudeSamples | app/src/main/java/com/jinbo/smartsleep/service/SnoreDetectionService.kt:320-333 | the write is launched if and only if the buffer is non-empty and the session id is positive |
| SnoreDetection.SnoreDetectionService.OnDestroy | app/src/main/java/com/jinbo/smartsleep/service/SnoreDetectionService.kt:350-377 | requests a final flush, stops, clears tracking, sets the pause to 0 and writes the session end time; the session start time and every other session key are unchanged |
| Home.Slide | app/src/main/java/com/jinbo/smartsleep/viewmodel/HomeViewModel.kt:45-50 | the list update of addAmplitudePoint: append, then drop the oldest point past 100; characterised by `SlideKeepsLast` and `SlideAllKeepsLast` |
| Home.SlideKeepsLast | app/src/main/java/com/jinbo/smartsleep/viewmodel/HomeViewModel.kt:44-51 | on a window of at most 100 points, one addition keeps the last 100 of the old points plus the new one, so the length stays at most 100 |
| Home.SlideAllKeepsLast | app/src/main/java/com/jinbo/smartsleep/viewmodel/HomeViewModel.kt:44-51 | from a window of at most 100 points, any sequence of additions leaves exactly the last 100 of all points, in arrival order |
| Home.SlideAllFromEmpty | app/src/main/java/com/jinbo/smartsleep/viewmodel/HomeViewModel.kt:44-51 | after k additions from empty, the history is the last min(k, 100) points in arrival order |
| Home.HomeViewModel.constructor | app/src/main/java/com/jinbo/smartsleep/viewmodel/HomeViewModel.kt:140-145 | the state starts at the MonitoringUiState defaults |
| Home.HomeViewModel.UpdateMonitoringState | app/src/main/java/com/jinbo/smartsleep/viewmodel/HomeViewModel.kt:26-28 | changes only isMonitoring |
| Home.HomeViewModel.UpdateSnoreCount | app/src/main/java/com/jinbo/smartsleep/viewmodel/HomeViewModel.kt:30-32 | changes only snoreCount |
| Home.HomeViewModel.UpdateAmplitudeData | app/src/main/java/com/jinbo/smartsleep/viewmodel/HomeViewModel.kt:34-36 | changes only amplitudeHistory |
| Home.HomeViewModel.UpdateMaxAmplitude | app/src/main/java/com/jinbo/smartsleep/viewmodel/HomeViewModel.kt:38-42 | the maximum becomes max(old, a): it never decreases, bounds a, and is one of the two; nothing else changes |
| Home.HomeViewModel.AddAmplitudePoint | app/src/main/java/com/jinbo/smartsleep/viewmodel/HomeViewModel.kt:44-57 | the history slides by Slide and stays within 100 points; the maximum rises to the point's amplitude only when that is larger; the flag and the count are unchanged |
| Home.HomeViewModel.InitializeSession | app/src/main/java/com/jinbo/smartsleep/viewmodel/HomeViewModel.kt:89-98 | the count becomes the stored session's event count and the maximum becomes 0; nothing else changes |
| Home.HomeViewModel.ResetData | app/src/main/java/com/jinbo/smartsleep/viewmodel/HomeViewModel.kt:59-61 | restores the defaults: not monitoring, count 0, maximum 0, empty history |
| Statistics.TruncDiv | app/src/main/java/com/jinbo/smartsleep/ui/screens/statistics/StatisticsComponents.kt:126 | Long division truncates toward zero |
| Statistics.TruncRem | app/src/main/java/com/jinbo/smartsleep/ui/screens/statistics/StatisticsComponents.kt:127 | the Long remainder takes the dividend's sign, and quotient·60 + remainder is the total |
| Statistics.FormatDuration | app/src/main/java/com/jinbo/smartsleep/ui/screens/statistics/StatisticsComponents.kt:125-134 | "Hh Mm" when both parts are positive, "Hh" for a whole number of hours, "Mm" under an hour (including "0m"), and only the truncated remainder for a negative total |
| Statistics.FormatDurationRoundTrip | app/src/main/java/com/jinbo/smartsleep/ui/screens/statistics/StatisticsComponents.kt:125-134 | for every total of 0 or more minutes the label reads back as that total, so the label determines it |
| Statistics.NegativeTotalShowsRemainder | app/src/main/java/com/jinbo/smartsleep/ui/screens/statistics/StatisticsComponents.kt:125-134 | -65 minutes is shown as "-5m" |
| Statistics.RecentSessions | app/src/main/java/com/jinbo/smartsleep/ui/screens/statistics/StatisticsComponents.kt:349 | at most 10 sessions; a prefix of the list in its order; the whole list when it has 10 or fewer |
| Settings.SensitivityLabel | app/src/main/java/com/jinbo/smartsleep/ui/screens/settings/SettingComponents.kt:123-132 | getSensitivityLabel: a name per level 1..5 and "Medium" otherwise; characterised by `SensitivityLabelsDistinct` and `OtherLevelsReadAsDefault` |
| Settings.SensitivityLabelsDistinct | app/src/main/java/com/jinbo/smartsleep/ui/screens/settings/SettingComponents.kt:123-132 | levels 1..5 have five different labels |
| Settings.OtherLevelsReadAsDefault | app/src/main/java/com/jinbo/smartsleep/ui/screens/settings/SettingComponents.kt:123-132 | any other level reads "Medium", the label of level 3 |
| Settings.SnapSensitivity | app/src/main/java/com/jinbo/smartsleep/ui/screens/settings/SettingComponents.kt:107 | the sensitivity slider reports a level in 1..5, the whole part of the thumb value when that is in range |
| Settings.SnapSensitivityKeepsLevels | app/src/main/java/com/jinbo/smartsleep/ui/screens/settings/SettingComponents.kt:107 | every level 1..5 is reported as itself |
| Settings.SnapDuration | app/src/main/java/com/jinbo/smartsleep/ui/screens/settings/SettingComponents.kt:165-168 | the duration slider reports a multiple of 100 in [100, 2000]; in range it is the value rounded down to 100 ms; below 100 it is 100 and from 2000 up it is 2000 |
| Settings.SnapDurationKeepsSteps | app/src/main/java/com/jinbo/smartsleep/ui/screens/settings/SettingComponents.kt:165-168 | every multiple of 100 in [100, 2000] snaps to itself |
| Settings.SnapDurationIdempotent | app/src/main/java/com/jinbo/smartsleep/ui/screens/settings/SettingComponents.kt:165-168 | snapping twice is snapping once |
| Settings.DurationSliderPosition | app/src/main/java/com/jinbo/smartsleep/ui/screens/settings/SettingComponents.kt:165-171 | position k of a slider over 100..2000 with `steps` values between the endpoints lies in [100, 2000] |
| Settings.DurationSliderAsWritten | app/src/main/java/com/jinbo/smartsleep/ui/screens/settings/SettingComponents.kt:165-171 | with `steps = 19` the positions are 95 ms apart: 195 reports 100 like the first position, 290 reports 200, and the last of 21 positions is 2000 |
| Settings.DurationSliderCorrected | app/src/main/java/com/jinbo/smartsleep/ui/screens/settings/SettingComponents.kt:165-171 | with `steps = 18` the 20 positions are exactly 100, 200, ..., 2000 and each reports itself |
| History.SnoreRate | app/src/main/java/com/jinbo/smartsleep/ui/screens/HistoryScreen.kt:258-262 | without a positive duration the rate is 0; otherwise rate·duration is the count |
| History.QualityOf | app/src/main/java/com/jinbo/smartsleep/ui/screens/HistoryScreen.kt:263-268 | the rating `when`: below 1, 3 and 5 snores per minute, or more; characterised by `QualityByCounts` |
| History.SessionQuality | app/src/main/java/com/jinbo/smartsleep/ui/screens/SessionDetailScreen.kt:217-240 | the rating of a session from its count and duration, as both screens compute it; characterised by `QualityByCounts`, `NoDurationIsExcellent` and `MoreSnoresNeverRateBetter` |
| History.RateBelowIff | app/src/main/java/com/jinbo/smartsleep/ui/screens/HistoryScreen.kt:258-268 | for a positive duration, rate < k holds exactly when count < k·duration |
| History.QualityByCounts | app/src/main/java/com/jinbo/smartsleep/ui/screens/HistoryScreen.kt:258-268 | for a positive duration d: Excellent iff count < d, Good iff d <= count < 3d, Fair iff 3d <= count < 5d, Poor iff count >= 5d |
| History.NoDurationIsExcellent | app/src/main/java/com/jinbo/smartsleep/ui/screens/HistoryScreen.kt:258-264 | a session without a positive duration is Excellent whatever its count |
| History.MoreSnoresNeverRateBetter | app/src/main/java/com/jinbo/smartsleep/ui/screens/HistoryScreen.kt:258-268 | for the same duration, more snores never give a better rating |

The session-detail screen (`SessionDetailScreen.kt`, lines 217-240)
repeats the rate and the rating rule of the history list. Both screens are
modelled by `History.SessionQuality`.

`currentSessionId` starts at 0 (`SnoreDetectionService.kt`, line 74) and
no code assigns it. Every method of `SnoreDetectionService` keeps it
unchanged, and `FlushAmplitudeSamples` launches nothing while it is 0. So
in the code as written, a flush is requested but never launched, and the
sample buffer is never cleared.

## Left out

- Android plumbing in the service has no logic to state, so it is not
  modelled:
  - the notification channel and foreground notification;
  - the wake lock;
  - the `LocalBroadcastManager` intents, which are modelled only as the
    amplitude in `FrameResult`;
  - the `Vibrator` waveform;
  - starting and stopping `AudioRecorder` and `AudioManager`.
- `saveAudioRecording` (the clip around an event) is not modelled. It is
  coroutine-launched I/O against `AudioManager` and the database.
- The body of `flushAmplitudeSamples` is not modelled: the database insert
  and the `amplitudeSamples.clear()` run asynchronously on an I/O
  dispatcher. Only the guard deciding whether the write is launched is
  modelled.
- SnoreDetection.SnoreDetectionService.OnDestroy: `stopSession` runs in a
  coroutine in the code. The model applies it synchronously, before the
  method returns.
- `AudioUtils.calculateBandEnergy` is not modelled. It is a floating-point
  DFT, and the detection path never calls it.
- AudioMetrics.RmsAtLeastIff: RMS is modelled exactly, as a non-negative
  real whose square times n is the sum of squares. The rounding of
  `Double` arithmetic and `sqrt` is not modelled. Neither are the
  rounding of `Float` amplitudes, NaN or -0.0.
- AudioMetrics.Zcr: frames of fewer than two samples are excluded by
  precondition. For an empty frame the loop does not run and the code
  returns 0.0 / -1, which is -0.0. For a one-sample frame it returns
  0.0 / 0, which is NaN. AudioRecorder never delivers such frames.
- AudioMetrics.IsRmsOf: the RMS of an empty frame is excluded. The code
  returns the square root of 0.0 / 0 there, which is NaN.
- AudioMetrics.SumSqScaled: scaling is stated for the sum of squares. The
  consequence that the RMS scales by |k| is not stated as a lemma, because
  its real-number proof is not settled reliably by the solver.
- Overflow of `Int` and `Long` is not modelled (counts, times and
  durations are unbounded integers). Each `sample * sample` product is
  proved to fit in an `Int`. The sum of a 1024-sample frame, at most
  2^40, is exact in the `Double` accumulator.
- Sessions.SessionManager: a preference key holding a value of the wrong
  type (a `ClassCastException` in the code) is excluded by the `Valid`
  invariant. Only SessionManager writes these keys.
- The Room database is not modelled: `SessionRepository`, the DAOs and
  the entities. Neither is any Compose UI beyond the display rules above.
- Home.HomeViewModel.InitializeSession: the read runs in a coroutine in the
  code. The model performs it synchronously.
- What the code does, and the model with it:
  - The code keeps a tracking flag, a start time and a pause timestamp;
    it has no separate state value.
  - It has no start-up grace period.
  - It resets the detection state on destroy only, not at session start.
  - Ending a session requests a flush without waiting for it.

## Findings

| source | as written | input that shows it | evidently intended | confidence | as-written member | corrected member |
|---|---|---|---|---|---|---|
| app/src/main/java/com/jinbo/smartsleep/ui/screens/settings/SettingComponents.kt:170-171 | `steps = 19` over `100f..2000f`, which gives 21 thumb positions 95 ms apart, reading `steps` as the values between the endpoints (as the sensitivity slider's comment on line 110 does) | the second position, 195, snaps to 100 like the first; 290 snaps to 200; only 100 and 2000 are multiples of 100 | 20 positions 100, 200, ..., 2000, as the comment on line 171 lists, which is `steps = 18` | medium; not executed | Settings.DurationSliderAsWritten | Settings.DurationSliderCorrected |
