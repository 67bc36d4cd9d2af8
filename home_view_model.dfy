/** The live monitoring screen state: whether monitoring is on, the snore
    count, the largest amplitude seen, and a sliding window of the most
    recent amplitude points for the graph. */
module Home {
  import Sessions

  /** A point of the live graph: wall-clock time and amplitude. */
  datatype AmplitudePoint = AmplitudePoint(time: int, amplitude: real)

  datatype MonitoringUiState = MonitoringUiState(
    isMonitoring: bool,
    snoreCount: int,
    maxAmplitude: real,
    amplitudeHistory: seq<AmplitudePoint>)

  /** The defaults of MonitoringUiState. */
  const DefaultUiState := MonitoringUiState(false, 0, 0.0, [])

  /** The graph keeps this many points. */
  const HistoryLimit := 100

  /** The last n elements of s, or all of s when it is shorter. */
  function LastN<T>(s: seq<T>, n: nat): (r: seq<T>)
    ensures |r| == if |s| <= n then |s| else n
  {
    if |s| <= n then s else s[|s| - n..]
  }

  /** The list update of addAmplitudePoint: append, then drop the oldest
      point if the list has grown past the limit. */
  function Slide(history: seq<AmplitudePoint>, point: AmplitudePoint): seq<AmplitudePoint>
  {
    var list := history + [point];
    if |list| > HistoryLimit then list[1..] else list
  }

  /** On a window within the limit, one update keeps exactly the last 100
      points of the history followed by the new point. */
  lemma SlideKeepsLast(history: seq<AmplitudePoint>, point: AmplitudePoint)
    requires |history| <= HistoryLimit
    ensures Slide(history, point) == LastN(history + [point], HistoryLimit)
    ensures |Slide(history, point)| <= HistoryLimit
  {
  }

  /** The window after the given points arrive, in order. */
  function SlideAll(history: seq<AmplitudePoint>, points: seq<AmplitudePoint>): seq<AmplitudePoint>
    decreases |points|
  {
    if points == [] then history else SlideAll(Slide(history, points[0]), points[1..])
  }

  lemma LastNOfLastN<T>(a: seq<T>, b: seq<T>, n: nat)
    ensures LastN(LastN(a, n) + b, n) == LastN(a + b, n)
  {
    var x, y := LastN(LastN(a, n) + b, n), LastN(a + b, n);
    assert |x| == |y|;
    forall i | 0 <= i < |x|
      ensures x[i] == y[i]
    {
      var l := LastN(a, n);
      var j := |l + b| - |x| + i;
      assert x[i] == (l + b)[j];
      assert y[i] == (a + b)[|a + b| - |y| + i];
      if j < |l| {
        assert l[j] == a[|a| - |l| + j];
      }
    }
  }

  /** Starting from a window within the limit, after any number of
      additions the window is exactly the last min(k, 100) points of
      everything seen, in arrival order. */
  lemma {:induction false} SlideAllKeepsLast(history: seq<AmplitudePoint>, points: seq<AmplitudePoint>)
    requires |history| <= HistoryLimit
    ensures SlideAll(history, points) == LastN(history + points, HistoryLimit)
    decreases |points|
  {
    if points == [] {
      assert history + points == history;
    } else {
      var p, rest := points[0], points[1..];
      var next := Slide(history, p);
      SlideKeepsLast(history, p);
      SlideAllKeepsLast(next, rest);
      LastNOfLastN(history + [p], rest, HistoryLimit);
      assert history + [p] + rest == history + points;
      calc {
        SlideAll(history, points);
        SlideAll(next, rest);
        LastN(next + rest, HistoryLimit);
        LastN(LastN(history + [p], HistoryLimit) + rest, HistoryLimit);
        LastN(history + [p] + rest, HistoryLimit);
      }
    }
  }

  /** From an empty graph: the window is the last min(k, 100) points. */
  lemma SlideAllFromEmpty(points: seq<AmplitudePoint>)
    ensures SlideAll([], points) == LastN(points, HistoryLimit)
  {
    SlideAllKeepsLast([], points);
    assert [] + points == points;
  }

  class HomeViewModel {
    var uiState: MonitoringUiState

    constructor ()
      ensures uiState == DefaultUiState
    {
      uiState := DefaultUiState;
    }

    method UpdateMonitoringState(isMonitoring: bool)
      modifies this
      ensures uiState == old(uiState).(isMonitoring := isMonitoring)
    {
      uiState := uiState.(isMonitoring := isMonitoring);
    }

    method UpdateSnoreCount(count: int)
      modifies this
      ensures uiState == old(uiState).(snoreCount := count)
    {
      uiState := uiState.(snoreCount := count);
    }

    method UpdateAmplitudeData(amplitudes: seq<AmplitudePoint>)
      modifies this
      ensures uiState == old(uiState).(amplitudeHistory := amplitudes)
    {
      uiState := uiState.(amplitudeHistory := amplitudes);
    }

    /** updateMaxAmplitude: the maximum never goes down. */
    method UpdateMaxAmplitude(amplitude: real)
      modifies this
      ensures uiState == old(uiState).(maxAmplitude := uiState.maxAmplitude)
      ensures uiState.maxAmplitude >= old(uiState.maxAmplitude) && uiState.maxAmplitude >= amplitude
      ensures uiState.maxAmplitude == old(uiState.maxAmplitude) || uiState.maxAmplitude == amplitude
    {
      var m := if uiState.maxAmplitude >= amplitude then uiState.maxAmplitude else amplitude;
      uiState := uiState.(maxAmplitude := m);
    }

    /** addAmplitudePoint: slides the window and raises the maximum to the
        point's amplitude if it is larger. */
    method AddAmplitudePoint(point: AmplitudePoint)
      modifies this
      ensures uiState.amplitudeHistory == Slide(old(uiState.amplitudeHistory), point)
      ensures |old(uiState.amplitudeHistory)| <= HistoryLimit ==> |uiState.amplitudeHistory| <= HistoryLimit
      ensures uiState.maxAmplitude == if point.amplitude > old(uiState.maxAmplitude) then point.amplitude else old(uiState.maxAmplitude)
      ensures uiState.maxAmplitude >= old(uiState.maxAmplitude)
      ensures uiState.isMonitoring == old(uiState.isMonitoring) && uiState.snoreCount == old(uiState.snoreCount)
    {
      var currentList := uiState.amplitudeHistory;
      currentList := currentList + [point];
      if |currentList| > HistoryLimit {
        currentList := currentList[1..];
      }
      uiState := uiState.(amplitudeHistory := currentList);
      if point.amplitude > uiState.maxAmplitude {
        uiState := uiState.(maxAmplitude := point.amplitude);
      }
    }

    /** initializeSession: the count is taken from the stored session and the
        maximum starts again from 0. */
    method InitializeSession(sessions: Sessions.SessionManager)
      modifies this
      ensures uiState == old(uiState).(snoreCount := sessions.EventCount(), maxAmplitude := 0.0)
      ensures uiState.snoreCount == sessions.LastSession().eventCount
    {
      var count := sessions.EventCount();
      uiState := uiState.(snoreCount := count, maxAmplitude := 0.0);
    }

    /** resetData: back to the defaults. */
    method ResetData()
      modifies this
      ensures uiState == DefaultUiState
      ensures !uiState.isMonitoring && uiState.snoreCount == 0 && uiState.maxAmplitude == 0.0 && uiState.amplitudeHistory == []
    {
      uiState := DefaultUiState;
    }
  }
}
