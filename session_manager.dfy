/** The running accumulator of the current monitoring session, kept in a
    key-value store: start and end time, the number of snore events and the
    largest event amplitude. */
module Sessions {

  const KeyStartTime := "start_time"
  const KeyEndTime := "end_time"
  const KeyEventCount := "event_count"
  const KeyMaxAmplitude := "max_amplitude"

  /** A stored value, tagged with the store's type. */
  datatype PrefValue = LongValue(l: int) | IntValue(i: int) | FloatValue(f: real)

  /** What getLastSession returns. */
  datatype SessionData = SessionData(startTime: int, endTime: int, eventCount: int, maxAmplitude: real)

  function GetLong(prefs: map<string, PrefValue>, key: string, default: int): int
  {
    if key in prefs && prefs[key].LongValue? then prefs[key].l else default
  }

  function GetInt(prefs: map<string, PrefValue>, key: string, default: int): int
  {
    if key in prefs && prefs[key].IntValue? then prefs[key].i else default
  }

  function GetFloat(prefs: map<string, PrefValue>, key: string, default: real): real
  {
    if key in prefs && prefs[key].FloatValue? then prefs[key].f else default
  }

  /** Each key of the session holds a value of the type its writer uses. */
  ghost predicate WellTyped(prefs: map<string, PrefValue>)
  {
    && (KeyStartTime in prefs ==> prefs[KeyStartTime].LongValue?)
    && (KeyEndTime in prefs ==> prefs[KeyEndTime].LongValue?)
    && (KeyEventCount in prefs ==> prefs[KeyEventCount].IntValue?)
    && (KeyMaxAmplitude in prefs ==> prefs[KeyMaxAmplitude].FloatValue?)
  }

  /** The session read back from the store; absent fields read as 0. */
  function SessionOf(prefs: map<string, PrefValue>): (d: SessionData)
    ensures KeyEventCount !in prefs ==> d.eventCount == 0
    ensures KeyMaxAmplitude !in prefs ==> d.maxAmplitude == 0.0
    ensures KeyStartTime !in prefs ==> d.startTime == 0
    ensures KeyEndTime !in prefs ==> d.endTime == 0
  {
    SessionData(
      GetLong(prefs, KeyStartTime, 0),
      GetLong(prefs, KeyEndTime, 0),
      GetInt(prefs, KeyEventCount, 0),
      GetFloat(prefs, KeyMaxAmplitude, 0.0))
  }

  /** The effect of one addEvent on the session: one more event, and the
      maximum amplitude becomes the larger of the old maximum and the new
      amplitude. */
  function AfterEvent(d: SessionData, amplitude: real): (r: SessionData)
    ensures r.eventCount == d.eventCount + 1
    ensures r.maxAmplitude >= d.maxAmplitude && r.maxAmplitude >= amplitude
    ensures r.maxAmplitude == d.maxAmplitude || r.maxAmplitude == amplitude
    ensures r.startTime == d.startTime && r.endTime == d.endTime
  {
    d.(eventCount := d.eventCount + 1,
       maxAmplitude := if amplitude > d.maxAmplitude then amplitude else d.maxAmplitude)
  }

  /** The session after the events with the given amplitudes, in order. */
  function AfterEvents(d: SessionData, amplitudes: seq<real>): SessionData
    decreases |amplitudes|
  {
    if amplitudes == [] then d else AfterEvents(AfterEvent(d, amplitudes[0]), amplitudes[1..])
  }

  /** k events add k to the count; the maximum is the largest of the old
      maximum and the amplitudes; the times are untouched. */
  lemma {:induction false} AfterEventsAccumulates(d: SessionData, amplitudes: seq<real>)
    decreases |amplitudes|
    ensures var r := AfterEvents(d, amplitudes);
      && r.eventCount == d.eventCount + |amplitudes|
      && r.maxAmplitude >= d.maxAmplitude
      && (forall i :: 0 <= i < |amplitudes| ==> amplitudes[i] <= r.maxAmplitude)
      && (r.maxAmplitude == d.maxAmplitude || r.maxAmplitude in amplitudes)
      && r.startTime == d.startTime && r.endTime == d.endTime
  {
    if amplitudes != [] {
      var d' := AfterEvent(d, amplitudes[0]);
      var rest := amplitudes[1..];
      AfterEventsAccumulates(d', rest);
      var r := AfterEvents(d', rest);
      assert AfterEvents(d, amplitudes) == r;
      forall i | 0 <= i < |amplitudes|
        ensures amplitudes[i] <= r.maxAmplitude
      {
        if i > 0 { assert amplitudes[i] == rest[i - 1]; }
      }
      if r.maxAmplitude != d'.maxAmplitude {
        assert r.maxAmplitude in rest;
      }
    }
  }

  /** A session started at `now` and then given k events has count k and
      maximum max(0, a1, ..., ak). */
  lemma StartedThenEvents(d: SessionData, now: int, amplitudes: seq<real>)
    ensures var r := AfterEvents(d.(startTime := now, eventCount := 0, maxAmplitude := 0.0), amplitudes);
      && r.eventCount == |amplitudes|
      && r.startTime == now
      && r.maxAmplitude >= 0.0
      && (forall i :: 0 <= i < |amplitudes| ==> amplitudes[i] <= r.maxAmplitude)
      && (r.maxAmplitude == 0.0 || r.maxAmplitude in amplitudes)
  {
    AfterEventsAccumulates(d.(startTime := now, eventCount := 0, maxAmplitude := 0.0), amplitudes);
  }

  class SessionManager {
    /** The preference file: key to stored value. */
    var prefs: map<string, PrefValue>

    ghost predicate Valid()
      reads this
    {
      WellTyped(prefs)
    }

    constructor (stored: map<string, PrefValue>)
      requires WellTyped(stored)
      ensures Valid() && prefs == stored
    {
      prefs := stored;
    }

    /** getLastSession. */
    function LastSession(): SessionData
      reads this
    {
      SessionOf(prefs)
    }

    /** getEventCount. */
    function EventCount(): (n: int)
      reads this
      ensures n == LastSession().eventCount
    {
      GetInt(prefs, KeyEventCount, 0)
    }

    /** startSession: start time now, no events, maximum 0; the end time of
        the previous session stays in the store. */
    method StartSession(now: int)
      requires Valid()
      modifies this
      ensures Valid()
      ensures prefs == old(prefs)[KeyStartTime := LongValue(now)][KeyEventCount := IntValue(0)][KeyMaxAmplitude := FloatValue(0.0)]
      ensures LastSession() == old(LastSession()).(startTime := now, eventCount := 0, maxAmplitude := 0.0)
    {
      prefs := prefs[KeyStartTime := LongValue(now)][KeyEventCount := IntValue(0)][KeyMaxAmplitude := FloatValue(0.0)];
    }

    /** stopSession: writes only the end time. */
    method StopSession(now: int)
      requires Valid()
      modifies this
      ensures Valid()
      ensures prefs == old(prefs)[KeyEndTime := LongValue(now)]
      ensures LastSession() == old(LastSession()).(endTime := now)
    {
      prefs := prefs[KeyEndTime := LongValue(now)];
    }

    /** addEvent: reads the count and maximum and writes them back updated. */
    method AddEvent(amplitude: real)
      requires Valid()
      modifies this
      ensures Valid()
      ensures LastSession() == AfterEvent(old(LastSession()), amplitude)
      ensures forall k :: k != KeyEventCount && k != KeyMaxAmplitude ==>
        (k in prefs <==> k in old(prefs)) && (k in prefs ==> prefs[k] == old(prefs)[k])
    {
      var currentCount := GetInt(prefs, KeyEventCount, 0);
      var currentMax := GetFloat(prefs, KeyMaxAmplitude, 0.0);
      prefs := prefs[KeyEventCount := IntValue(currentCount + 1)]
                    [KeyMaxAmplitude := FloatValue(if amplitude > currentMax then amplitude else currentMax)];
    }
  }

  /** Starting a session, recording events of amplitude 900, 1100 and 950
      and stopping gives 3 events with maximum 1100. */
  lemma ThreeEventSession(d: SessionData, start: int, stop: int)
    ensures AfterEvents(d.(startTime := start, eventCount := 0, maxAmplitude := 0.0), [900.0, 1100.0, 950.0]).(endTime := stop)
      == SessionData(start, stop, 3, 1100.0)
  {
    var amplitudes := [900.0, 1100.0, 950.0];
    assert amplitudes[1..] == [1100.0, 950.0];
    assert amplitudes[1..][1..] == [950.0];
    assert amplitudes[1..][1..][1..] == [];
  }
}
