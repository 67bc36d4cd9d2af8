/** The per-frame snore-detection state machine of the background service.
    Each audio frame is one step: a cooldown gate, a throttled amplitude
    sample, and a classification by RMS energy, zero-crossing rate and a
    duration debounce that fires a snore event and starts a cooldown. */
module SnoreDetection {
  import opened Wrappers
  import AudioMetrics
  import Preferences
  import Sessions

  /** A frame is low-frequency (snore-like) when its ZCR is below this. */
  const ZcrThreshold: real := 0.15
  /** Detection pause after an event: the 4000 ms vibration pattern plus a
      1000 ms buffer. */
  const VibrationCooldownMs: int := 5000
  /** At most one amplitude sample per this many milliseconds. */
  const SampleIntervalMs: int := 100
  /** A flush of the sample buffer is requested from this many samples on. */
  const FlushBatchSize: int := 50

  /** What one frame brings to the state machine: the time of the frame, its
      RMS and ZCR, and the settings read for it. */
  datatype FrameInput = FrameInput(now: int, rms: real, zcr: real, rmsThreshold: real, minDurationMs: int)

  /** The detection fields of the service. */
  datatype Detection = Detection(
    isTrackingSnore: bool,
    consecutiveSnoreStartTime: int,
    detectionPausedUntil: int,
    lastSampleTime: int)

  /** One stored amplitude sample; the timestamp is relative to the session
      start. */
  datatype AmplitudeSample = AmplitudeSample(sessionId: int, timestamp: int, amplitude: real, isSnore: bool)

  /** What a frame produced besides the new state: the amplitude broadcast to
      the graph, whether a snore event fired, and whether a flush of the
      sample buffer was requested and actually launched. */
  datatype FrameResult = FrameResult(broadcastAmplitude: real, fired: bool, flushRequested: bool, flushLaunched: bool)

  /** The state of a freshly created service. */
  const Initial := Detection(false, 0, 0, 0)

  predicate Paused(d: Detection, now: int)
  {
    now < d.detectionPausedUntil
  }

  /** Loud enough and low-frequency enough to be a snore. */
  predicate SnoreCandidate(f: FrameInput)
  {
    f.rms >= f.rmsThreshold && f.zcr < ZcrThreshold
  }

  predicate SampleDue(d: Detection, now: int)
  {
    now - d.lastSampleTime >= SampleIntervalMs
  }

  /** A snore event fires: the frame is outside the cooldown, is a candidate,
      and continues a tracked run that has lasted strictly longer than the
      minimum duration. */
  predicate Fires(d: Detection, f: FrameInput)
  {
    !Paused(d, f.now) && SnoreCandidate(f) && d.isTrackingSnore
    && f.now - d.consecutiveSnoreStartTime > f.minDurationMs
  }

  function ResetTracking(d: Detection): Detection
  {
    d.(isTrackingSnore := false, consecutiveSnoreStartTime := 0)
  }

  /** The detection state after one frame. */
  function Next(d: Detection, f: FrameInput): (r: Detection)
    // during the cooldown the frame is not classified and tracking is cleared
    ensures Paused(d, f.now) ==> r == ResetTracking(d)
    // a frame that is too quiet or too noisy clears tracking
    ensures !SnoreCandidate(f) ==> !r.isTrackingSnore && r.consecutiveSnoreStartTime == 0
    // the first candidate frame starts tracking at its own time
    ensures !Paused(d, f.now) && SnoreCandidate(f) && !d.isTrackingSnore ==>
      r.isTrackingSnore && r.consecutiveSnoreStartTime == f.now
    // a candidate frame that does not yet reach the duration keeps the start
    ensures !Paused(d, f.now) && SnoreCandidate(f) && d.isTrackingSnore && !Fires(d, f) ==>
      r.isTrackingSnore && r.consecutiveSnoreStartTime == d.consecutiveSnoreStartTime
    // an event clears tracking and pauses detection for the cooldown
    ensures Fires(d, f) ==>
      !r.isTrackingSnore && r.consecutiveSnoreStartTime == 0 && r.detectionPausedUntil == f.now + VibrationCooldownMs
    ensures !Fires(d, f) ==> r.detectionPausedUntil == d.detectionPausedUntil
    // the pause never moves back
    ensures r.detectionPausedUntil >= d.detectionPausedUntil
    // the sampling clock advances exactly when a sample is taken
    ensures r.lastSampleTime == if !Paused(d, f.now) && SampleDue(d, f.now) then f.now else d.lastSampleTime
  {
    if Paused(d, f.now) then ResetTracking(d)
    else
      var sampled := if SampleDue(d, f.now) then d.(lastSampleTime := f.now) else d;
      if !SnoreCandidate(f) then ResetTracking(sampled)
      else if !sampled.isTrackingSnore then
        sampled.(isTrackingSnore := true, consecutiveSnoreStartTime := f.now)
      else if f.now - sampled.consecutiveSnoreStartTime > f.minDurationMs then
        ResetTracking(sampled).(detectionPausedUntil := f.now + VibrationCooldownMs)
      else sampled
  }

  /** The amplitude sample a frame appends, if any. */
  function SampleOf(d: Detection, f: FrameInput, sessionId: int, sessionStartTime: int): Option<AmplitudeSample>
  {
    if !Paused(d, f.now) && SampleDue(d, f.now) then
      Some(AmplitudeSample(sessionId, f.now - sessionStartTime, f.rms, f.rms >= f.rmsThreshold))
    else None
  }

  function SampleSeq(o: Option<AmplitudeSample>): seq<AmplitudeSample>
  {
    if o.Some? then [o.value] else []
  }

  /** A sample is appended only outside the cooldown and at least 100 ms
      after the previous one; it is stamped relative to the session start
      and its snore flag depends on the RMS threshold only, never on ZCR. */
  lemma SampleProperties(d: Detection, f: FrameInput, zcr: real, sessionId: int, sessionStartTime: int)
    ensures var o := SampleOf(d, f, sessionId, sessionStartTime);
      && (o.Some? <==> !Paused(d, f.now) && f.now - d.lastSampleTime >= 100)
      && (o.Some? ==> o.value.timestamp == f.now - sessionStartTime && o.value.amplitude == f.rms
                      && (o.value.isSnore <==> f.rms >= f.rmsThreshold))
      && o == SampleOf(d, f.(zcr := zcr), sessionId, sessionStartTime)
  {
  }

  /** The state after a sequence of frames. */
  function Run(d: Detection, fs: seq<FrameInput>): Detection
  {
    if fs == [] then d else Next(Run(d, fs[..|fs| - 1]), fs[|fs| - 1])
  }

  /** The times of the frames at which a snore event fired. */
  function EventTimes(d: Detection, fs: seq<FrameInput>): seq<int>
  {
    if fs == [] then []
    else
      var p, f := fs[..|fs| - 1], fs[|fs| - 1];
      EventTimes(d, p) + (if Fires(Run(d, p), f) then [f.now] else [])
  }

  /** The cooldown holds over any sequence of frames: no event fires before
      the initial pause ends, consecutive events are at least 5000 ms apart,
      and after the last event detection stays paused until 5000 ms after
      it. */
  lemma {:induction false} EventsSpacedByCooldown(d: Detection, fs: seq<FrameInput>)
    ensures var ts := EventTimes(d, fs);
      && (forall i :: 0 <= i < |ts| ==> ts[i] >= d.detectionPausedUntil)
      && (forall i :: 0 < i < |ts| ==> ts[i] >= ts[i - 1] + VibrationCooldownMs)
      && Run(d, fs).detectionPausedUntil >= d.detectionPausedUntil
      && (|ts| > 0 ==> Run(d, fs).detectionPausedUntil == ts[|ts| - 1] + VibrationCooldownMs)
  {
    if fs != [] {
      var p, f := fs[..|fs| - 1], fs[|fs| - 1];
      EventsSpacedByCooldown(d, p);
      var before := Run(d, p);
      var ts0 := EventTimes(d, p);
      if Fires(before, f) {
        assert EventTimes(d, fs) == ts0 + [f.now];
        assert f.now >= before.detectionPausedUntil;
      } else {
        assert EventTimes(d, fs) == ts0;
      }
    }
  }

  /** From frame j on, every frame was a snore candidate arriving outside the
      cooldown. */
  ghost predicate SustainedFrom(d: Detection, fs: seq<FrameInput>, j: int)
  {
    forall k :: 0 <= j <= k < |fs| ==> SnoreCandidate(fs[k]) && !Paused(Run(d, fs[..k]), fs[k].now)
  }

  /** While tracking, the start time is the time of an earlier frame from
      which every frame has been a candidate outside the cooldown. */
  lemma {:induction false} TrackingHasWitness(d: Detection, fs: seq<FrameInput>)
    requires !d.isTrackingSnore
    requires Run(d, fs).isTrackingSnore
    ensures exists j :: 0 <= j < |fs| && fs[j].now == Run(d, fs).consecutiveSnoreStartTime && SustainedFrom(d, fs, j)
  {
    var p, f := fs[..|fs| - 1], fs[|fs| - 1];
    var before := Run(d, p);
    assert !Paused(before, f.now) && SnoreCandidate(f);
    if !before.isTrackingSnore {
      var j := |fs| - 1;
      assert fs[..j] == p;
      assert SustainedFrom(d, fs, j);
    } else {
      TrackingHasWitness(d, p);
      var j :| 0 <= j < |p| && p[j].now == before.consecutiveSnoreStartTime && SustainedFrom(d, p, j);
      forall k | j <= k < |fs|
        ensures SnoreCandidate(fs[k]) && !Paused(Run(d, fs[..k]), fs[k].now)
      {
        if k < |p| {
          assert fs[..k] == p[..k];
          assert fs[k] == p[k];
        } else {
          assert fs[..k] == p;
        }
      }
      assert fs[j] == p[j];
    }
  }

  /** A snore event needs a sustained run: some earlier frame, more than the
      minimum duration before the event, from which every frame up to and
      including the triggering one was a candidate outside the cooldown. */
  lemma EventNeedsSustainedSnore(d: Detection, fs: seq<FrameInput>, f: FrameInput)
    requires !d.isTrackingSnore
    requires Fires(Run(d, fs), f)
    ensures exists j :: 0 <= j < |fs| && f.now - fs[j].now > f.minDurationMs && SustainedFrom(d, fs + [f], j)
  {
    TrackingHasWitness(d, fs);
    var j :| 0 <= j < |fs| && fs[j].now == Run(d, fs).consecutiveSnoreStartTime && SustainedFrom(d, fs, j);
    var all := fs + [f];
    forall k | j <= k < |all|
      ensures SnoreCandidate(all[k]) && !Paused(Run(d, all[..k]), all[k].now)
    {
      if k < |fs| {
        assert all[..k] == fs[..k];
      } else {
        assert all[..k] == fs;
      }
    }
  }

  /** A sustained run stays sustained on every prefix of the frames. */
  lemma SustainedPrefix(d: Detection, fs: seq<FrameInput>, j: int, m: nat)
    requires SustainedFrom(d, fs, j) && m <= |fs|
    ensures SustainedFrom(d, fs[..m], j)
  {
    forall k | 0 <= j <= k < m
      ensures SnoreCandidate(fs[..m][k]) && !Paused(Run(d, fs[..m][..k]), fs[..m][k].now)
    {
      assert fs[..m][..k] == fs[..k];
    }
  }

  /** While a sustained run from the first frame has not fired, it is tracked
      with the first frame's time as its start. */
  lemma {:induction false} SustainedRunTracked(d: Detection, fs: seq<FrameInput>)
    requires |fs| >= 1 && !d.isTrackingSnore && SustainedFrom(d, fs, 0)
    requires EventTimes(d, fs) == []
    ensures Run(d, fs).isTrackingSnore && Run(d, fs).consecutiveSnoreStartTime == fs[0].now
  {
    var p, f := fs[..|fs| - 1], fs[|fs| - 1];
    assert fs[..|fs| - 1] == p;
    assert SnoreCandidate(f) && !Paused(Run(d, p), f.now);
    if |fs| == 1 {
      assert p == [];
    } else {
      SustainedPrefix(d, fs, 0, |fs| - 1);
      assert EventTimes(d, p) == [];
      SustainedRunTracked(d, p);
      assert p[0] == fs[0];
      assert !Fires(Run(d, p), f);
    }
  }

  /** The converse of EventNeedsSustainedSnore: when every frame from the
      first on is a candidate outside the cooldown, and the last frame comes
      more than the minimum duration after the first, an event has fired. */
  lemma SustainedRunFires(d: Detection, fs: seq<FrameInput>)
    requires |fs| >= 2 && !d.isTrackingSnore && SustainedFrom(d, fs, 0)
    requires fs[|fs| - 1].now - fs[0].now > fs[|fs| - 1].minDurationMs
    ensures |EventTimes(d, fs)| > 0
  {
    var p, f := fs[..|fs| - 1], fs[|fs| - 1];
    assert fs[..|fs| - 1] == p;
    if EventTimes(d, p) == [] {
      SustainedPrefix(d, fs, 0, |fs| - 1);
      SustainedRunTracked(d, p);
      assert p[0] == fs[0];
      assert SnoreCandidate(f) && !Paused(Run(d, p), f.now);
      assert Fires(Run(d, p), f);
    }
  }

  /** One more frame: the run and the event times extend by that frame. */
  lemma RunStep(d: Detection, fs: seq<FrameInput>, k: nat)
    requires k < |fs|
    ensures Run(d, fs[..k + 1]) == Next(Run(d, fs[..k]), fs[k])
    ensures EventTimes(d, fs[..k + 1]) ==
      EventTimes(d, fs[..k]) + (if Fires(Run(d, fs[..k]), fs[k]) then [fs[k].now] else [])
  {
    assert fs[..k + 1][..k] == fs[..k];
  }

  /** Frames of RMS 900 and ZCR 0.05 every 100 ms from time 0, threshold 800
      and minimum duration 500: tracking starts at 0, nothing fires up to
      500 ms, the event fires at 600 ms and pauses detection until 5600. */
  lemma SteadySnoreScenario()
    ensures var fs := seq(7, i => FrameInput(100 * i, 900.0, 0.05, 800.0, 500));
      && Run(Initial, fs[..1]) == Detection(true, 0, 0, 0)
      && EventTimes(Initial, fs) == [600]
      && Run(Initial, fs).detectionPausedUntil == 5600
  {
    var fs := seq(7, i => FrameInput(100 * i, 900.0, 0.05, 800.0, 500));
    RunStep(Initial, fs, 0);
    assert Run(Initial, fs[..1]) == Detection(true, 0, 0, 0);
    RunStep(Initial, fs, 1);
    assert Run(Initial, fs[..2]) == Detection(true, 0, 0, 100);
    RunStep(Initial, fs, 2);
    assert Run(Initial, fs[..3]) == Detection(true, 0, 0, 200);
    RunStep(Initial, fs, 3);
    assert Run(Initial, fs[..4]) == Detection(true, 0, 0, 300);
    RunStep(Initial, fs, 4);
    assert Run(Initial, fs[..5]) == Detection(true, 0, 0, 400);
    RunStep(Initial, fs, 5);
    assert Run(Initial, fs[..6]) == Detection(true, 0, 0, 500);
    assert EventTimes(Initial, fs[..6]) == [];
    RunStep(Initial, fs, 6);
    assert fs[..7] == fs;
  }

  /** Frames of RMS 900 every 100 ms from time 0, ZCR 0.05 except for a
      speech burst of ZCR 0.3 at 300 ms; threshold 800, minimum duration 500. */
  function SpeechBurstFrames(): seq<FrameInput>
  {
    seq(11, i => FrameInput(100 * i, 900.0, if i == 3 then 0.3 else 0.05, 800.0, 500))
  }

  lemma SpeechBurstResetsTracking()
    ensures Run(Initial, SpeechBurstFrames()[..5]) == Detection(true, 400, 0, 400)
    ensures EventTimes(Initial, SpeechBurstFrames()[..5]) == []
  {
    var fs := SpeechBurstFrames();
    RunStep(Initial, fs, 0);
    assert Run(Initial, fs[..1]) == Detection(true, 0, 0, 0);
    RunStep(Initial, fs, 1);
    assert Run(Initial, fs[..2]) == Detection(true, 0, 0, 100);
    RunStep(Initial, fs, 2);
    assert Run(Initial, fs[..3]) == Detection(true, 0, 0, 200);
    assert EventTimes(Initial, fs[..3]) == [];
    RunStep(Initial, fs, 3);
    assert Run(Initial, fs[..4]) == Detection(false, 0, 0, 300);
    RunStep(Initial, fs, 4);
  }

  /** After the burst, the restarted run is tracked through 700 ms. */
  lemma SpeechBurstRestarts()
    ensures Run(Initial, SpeechBurstFrames()[..8]) == Detection(true, 400, 0, 700)
    ensures EventTimes(Initial, SpeechBurstFrames()[..8]) == []
  {
    var fs := SpeechBurstFrames();
    SpeechBurstResetsTracking();
    RunStep(Initial, fs, 5);
    assert Run(Initial, fs[..6]) == Detection(true, 400, 0, 500);
    RunStep(Initial, fs, 6);
    assert Run(Initial, fs[..7]) == Detection(true, 400, 0, 600);
    RunStep(Initial, fs, 7);
  }

  /** After the burst, tracking restarts at 400 ms and nothing fires up to
      and including the frame at 900 ms. */
  lemma SpeechBurstKeepsTracking()
    ensures Run(Initial, SpeechBurstFrames()[..10]) == Detection(true, 400, 0, 900)
    ensures EventTimes(Initial, SpeechBurstFrames()[..10]) == []
  {
    var fs := SpeechBurstFrames();
    SpeechBurstRestarts();
    RunStep(Initial, fs, 8);
    assert Run(Initial, fs[..9]) == Detection(true, 400, 0, 800);
    RunStep(Initial, fs, 9);
  }

  /** After the speech burst tracking restarts at 400 ms, so the event only
      fires at 1000 ms, the first frame more than 500 ms after the restart. */
  lemma SpeechBurstScenario()
    ensures EventTimes(Initial, SpeechBurstFrames()) == [1000]
  {
    var fs := SpeechBurstFrames();
    SpeechBurstKeepsTracking();
    RunStep(Initial, fs, 10);
    assert fs[..11] == fs;
  }

  /** The RMS and ZCR of an actual 16-bit frame decide the candidate test in
      integers: loud enough iff the sum of squares reaches threshold^2 * n,
      low-frequency iff 100 * crossings < 15 * (n - 1). */
  lemma CandidateFromFrame(s: seq<AudioMetrics.Short>, rms: real, now: int, threshold: real, minDurationMs: int)
    requires |s| >= 2 && AudioMetrics.IsRmsOf(rms, s) && threshold >= 0.0
    ensures SnoreCandidate(FrameInput(now, rms, AudioMetrics.Zcr(s), threshold, minDurationMs)) <==>
      && AudioMetrics.SumSq(s) as real >= threshold * threshold * (|s| as real)
      && 100 * AudioMetrics.Crossings(s) < 15 * (|s| - 1)
  {
    AudioMetrics.RmsAtLeastIff(rms, s, threshold);
    var c, n := AudioMetrics.Crossings(s) as real, (|s| - 1) as real;
    RatioBelow(c, n);
  }

  lemma RatioBelow(c: real, n: real)
    requires n > 0.0
    ensures c / n < 0.15 <==> 100.0 * c < 15.0 * n
  {
    var q := c / n;
    assert q * n == c;
    if q < 0.15 {
      assert q * n < 0.15 * n;
    } else {
      assert q * n >= 0.15 * n;
    }
  }

  class SnoreDetectionService {
    var consecutiveSnoreStartTime: int
    var isTrackingSnore: bool
    var detectionPausedUntil: int
    var currentSessionId: int
    var sessionStartTime: int
    var amplitudeSamples: seq<AmplitudeSample>
    var lastSampleTime: int
    var isServiceRunning: bool
    const sessionManager: Sessions.SessionManager
    const preferencesManager: Preferences.PreferencesManager

    ghost predicate Valid()
      reads this, sessionManager
    {
      sessionManager.Valid()
    }

    /** The detection fields as one value. */
    function State(): Detection
      reads this
    {
      Detection(isTrackingSnore, consecutiveSnoreStartTime, detectionPausedUntil, lastSampleTime)
    }

    /** A frame together with the settings the service reads for it. */
    function InputOf(now: int, rms: real, zcr: real): FrameInput
      reads this, preferencesManager
    {
      FrameInput(now, rms, zcr, preferencesManager.RmsThreshold(), preferencesManager.MinDurationMs())
    }

    /** onCreate: the service starts idle, with no samples and session id 0. */
    constructor (sessions: Sessions.SessionManager, prefs: Preferences.PreferencesManager)
      requires sessions.Valid()
      ensures Valid()
      ensures sessionManager == sessions && preferencesManager == prefs
      ensures State() == Initial
      ensures amplitudeSamples == [] && currentSessionId == 0 && sessionStartTime == 0 && !isServiceRunning
    {
      sessionManager := sessions;
      preferencesManager := prefs;
      consecutiveSnoreStartTime := 0;
      isTrackingSnore := false;
      detectionPausedUntil := 0;
      currentSessionId := 0;
      sessionStartTime := 0;
      amplitudeSamples := [];
      lastSampleTime := 0;
      isServiceRunning := false;
    }

    /** onStartCommand: a stop request answers "not sticky" (the platform then
        destroys the service); otherwise the first start records the session
        start time and starts a session. */
    method OnStartCommand(stopRequested: bool, now: int) returns (sticky: bool)
      requires Valid()
      modifies this, sessionManager
      ensures Valid()
      ensures sticky == !stopRequested
      ensures if !stopRequested && !old(isServiceRunning) then
          && sessionStartTime == now && isServiceRunning
          && sessionManager.LastSession() == old(sessionManager.LastSession()).(startTime := now, eventCount := 0, maxAmplitude := 0.0)
          && sessionManager.prefs == old(sessionManager.prefs)[Sessions.KeyStartTime := Sessions.LongValue(now)][Sessions.KeyEventCount := Sessions.IntValue(0)][Sessions.KeyMaxAmplitude := Sessions.FloatValue(0.0)]
        else
          && sessionStartTime == old(sessionStartTime) && isServiceRunning == old(isServiceRunning)
          && sessionManager.prefs == old(sessionManager.prefs)
      ensures State() == old(State()) && amplitudeSamples == old(amplitudeSamples)
      ensures currentSessionId == old(currentSessionId)
    {
      if stopRequested {
        return false;
      }
      if !isServiceRunning {
        sessionStartTime := now;
        sessionManager.StartSession(now);
        isServiceRunning := true;
      }
      return true;
    }

    /** onAudioData: the cooldown gate in front of processAudioData. */
    method OnAudioData(now: int, rms: real, zcr: real) returns (result: FrameResult)
      requires Valid()
      modifies this, sessionManager
      ensures Valid()
      ensures State() == Next(old(State()), InputOf(now, rms, zcr))
      ensures result.fired == Fires(old(State()), InputOf(now, rms, zcr))
      ensures result.broadcastAmplitude == if Paused(old(State()), now) then 0.0 else rms
      ensures amplitudeSamples == old(amplitudeSamples) + SampleSeq(SampleOf(old(State()), InputOf(now, rms, zcr), currentSessionId, sessionStartTime))
      ensures result.flushRequested == (|amplitudeSamples| > |old(amplitudeSamples)| && |amplitudeSamples| >= FlushBatchSize)
      ensures result.flushLaunched == (result.flushRequested && currentSessionId > 0)
      ensures sessionManager.LastSession() ==
        if result.fired then Sessions.AfterEvent(old(sessionManager.LastSession()), rms) else old(sessionManager.LastSession())
      ensures forall k :: k != Sessions.KeyEventCount && k != Sessions.KeyMaxAmplitude ==>
        (k in sessionManager.prefs <==> k in old(sessionManager.prefs))
        && (k in sessionManager.prefs ==> sessionManager.prefs[k] == old(sessionManager.prefs)[k])
      ensures !result.fired ==> sessionManager.prefs == old(sessionManager.prefs)
      ensures currentSessionId == old(currentSessionId) && sessionStartTime == old(sessionStartTime)
      ensures isServiceRunning == old(isServiceRunning)
    {
      if now < detectionPausedUntil {
        ResetSnoreTracking();
        return FrameResult(0.0, false, false, false);
      }
      result := ProcessAudioData(now, rms, zcr);
    }

    /** processAudioData: takes a sample when due, then classifies the frame. */
    method ProcessAudioData(now: int, rms: real, zcr: real) returns (result: FrameResult)
      requires Valid()
      requires !Paused(State(), now)
      modifies this, sessionManager
      ensures Valid()
      ensures State() == Next(old(State()), InputOf(now, rms, zcr))
      ensures result.fired == Fires(old(State()), InputOf(now, rms, zcr))
      ensures result.broadcastAmplitude == rms
      ensures amplitudeSamples == old(amplitudeSamples) + SampleSeq(SampleOf(old(State()), InputOf(now, rms, zcr), currentSessionId, sessionStartTime))
      ensures result.flushRequested == (|amplitudeSamples| > |old(amplitudeSamples)| && |amplitudeSamples| >= FlushBatchSize)
      ensures result.flushLaunched == (result.flushRequested && currentSessionId > 0)
      ensures sessionManager.LastSession() ==
        if result.fired then Sessions.AfterEvent(old(sessionManager.LastSession()), rms) else old(sessionManager.LastSession())
      ensures forall k :: k != Sessions.KeyEventCount && k != Sessions.KeyMaxAmplitude ==>
        (k in sessionManager.prefs <==> k in old(sessionManager.prefs))
        && (k in sessionManager.prefs ==> sessionManager.prefs[k] == old(sessionManager.prefs)[k])
      ensures !result.fired ==> sessionManager.prefs == old(sessionManager.prefs)
      ensures currentSessionId == old(currentSessionId) && sessionStartTime == old(sessionStartTime)
      ensures isServiceRunning == old(isServiceRunning)
    {
      var rmsThreshold := preferencesManager.RmsThreshold();
      var minDurationMs := preferencesManager.MinDurationMs();
      var flushRequested, flushLaunched := false, false;

      if now - lastSampleTime >= SampleIntervalMs {
        lastSampleTime := now;
        var relativeTime := now - sessionStartTime;
        var isSnore := rms >= rmsThreshold;
        amplitudeSamples := amplitudeSamples + [AmplitudeSample(currentSessionId, relativeTime, rms, isSnore)];
        if |amplitudeSamples| >= FlushBatchSize {
          flushRequested := true;
          flushLaunched := FlushAmplitudeSamples();
        }
      }

      var fired := false;
      if rms < rmsThreshold {
        ResetSnoreTracking();
      } else if zcr < ZcrThreshold {
        if !isTrackingSnore {
          isTrackingSnore := true;
          consecutiveSnoreStartTime := now;
        } else {
          var duration := now - consecutiveSnoreStartTime;
          if duration > minDurationMs {
            TriggerVibration(now);
            var _ := RecordSnoreEvent(rms);
            ResetSnoreTracking();
            fired := true;
          }
        }
      } else {
        ResetSnoreTracking();
      }
      result := FrameResult(rms, fired, flushRequested, flushLaunched);
    }

    method ResetSnoreTracking()
      modifies this`isTrackingSnore, this`consecutiveSnoreStartTime
      ensures State() == ResetTracking(old(State()))
    {
      isTrackingSnore := false;
      consecutiveSnoreStartTime := 0;
    }

    /** recordSnoreEvent: adds the event to the session and returns the new
        count that is broadcast to the screen. */
    method RecordSnoreEvent(intensity: real) returns (count: int)
      requires sessionManager.Valid()
      modifies sessionManager
      ensures sessionManager.Valid()
      ensures sessionManager.LastSession() == Sessions.AfterEvent(old(sessionManager.LastSession()), intensity)
      ensures forall k :: k != Sessions.KeyEventCount && k != Sessions.KeyMaxAmplitude ==>
        (k in sessionManager.prefs <==> k in old(sessionManager.prefs))
        && (k in sessionManager.prefs ==> sessionManager.prefs[k] == old(sessionManager.prefs)[k])
      ensures count == old(sessionManager.EventCount()) + 1
    {
      sessionManager.AddEvent(intensity);
      count := sessionManager.EventCount();
    }

    /** triggerVibration, as far as detection is concerned: pauses detection
        for the vibration pattern plus a buffer. */
    method TriggerVibration(now: int)
      modifies this`detectionPausedUntil
      ensures detectionPausedUntil == now + VibrationCooldownMs
    {
      detectionPausedUntil := now + VibrationCooldownMs;
    }

    /** flushAmplitudeSamples: the guard that decides whether the write is
        launched. The write itself, and the clearing of the buffer after it,
        run asynchronously and are not part of this model. */
    method FlushAmplitudeSamples() returns (launched: bool)
      ensures launched <==> |amplitudeSamples| > 0 && currentSessionId > 0
    {
      if |amplitudeSamples| == 0 || currentSessionId <= 0 {
        return false;
      }
      return true;
    }

    /** onDestroy: requests a final flush, stops, clears tracking, lifts the
        cooldown and ends the session at `now`. */
    method OnDestroy(now: int) returns (flushLaunched: bool)
      requires Valid()
      modifies this, sessionManager
      ensures Valid()
      ensures State() == old(State()).(isTrackingSnore := false, consecutiveSnoreStartTime := 0, detectionPausedUntil := 0)
      ensures !isServiceRunning
      ensures flushLaunched <==> |amplitudeSamples| > 0 && currentSessionId > 0
      ensures amplitudeSamples == old(amplitudeSamples) && currentSessionId == old(currentSessionId)
      ensures sessionStartTime == old(sessionStartTime)
      ensures sessionManager.LastSession() == old(sessionManager.LastSession()).(endTime := now)
      ensures sessionManager.prefs == old(sessionManager.prefs)[Sessions.KeyEndTime := Sessions.LongValue(now)]
    {
      flushLaunched := FlushAmplitudeSamples();
      isServiceRunning := false;
      ResetSnoreTracking();
      detectionPausedUntil := 0;
      sessionManager.StopSession(now);
    }
  }
}
