/** Formatting on the statistics screen: the total-duration label and the
    list of recent sessions. */
module Statistics {
  import opened Wrappers

  predicate IsDigit(c: char) { '0' <= c <= '9' }

  predicate AllDigits(s: string) { forall i :: 0 <= i < |s| ==> IsDigit(s[i]) }

  function DigitChar(d: int): (c: char)
    requires 0 <= d < 10
    ensures IsDigit(c) && c as int - '0' as int == d
  {
    ('0' as int + d) as char
  }

  /** Decimal rendering of a natural number, without leading zeros. */
  function NatToString(n: nat): (s: string)
    ensures |s| >= 1 && AllDigits(s)
    decreases n
  {
    if n < 10 then [DigitChar(n)] else NatToString(n / 10) + [DigitChar(n % 10)]
  }

  /** Decimal rendering of a signed Long, as a string template prints it. */
  function LongToString(n: int): (s: string)
    ensures n >= 0 ==> s == NatToString(n)
    ensures n < 0 ==> |s| >= 2 && s[0] == '-'
  {
    if n < 0 then "-" + NatToString(-n) else NatToString(n)
  }

  /** Long division, which truncates toward zero. */
  function TruncDiv(a: int, b: int): (q: int)
    requires b > 0
    ensures a >= 0 ==> q == a / b
    ensures a < 0 ==> q <= 0 && q * b >= a > (q - 1) * b
  {
    if a >= 0 then a / b else -((-a) / b)
  }

  /** Long remainder, which takes the sign of the dividend. */
  function TruncRem(a: int, b: int): (r: int)
    requires b > 0
    ensures a >= 0 ==> r == a % b
    ensures a < 0 ==> -b < r <= 0
    ensures a == TruncDiv(a, b) * b + r
  {
    a - TruncDiv(a, b) * b
  }

  /** formatDuration: hours and minutes, the minutes omitted when zero and
      the hours omitted when there are none. A negative total prints only
      its truncated remainder, since its hour count is never positive. */
  function FormatDuration(totalMinutes: int): (s: string)
    ensures totalMinutes >= 120 && totalMinutes % 60 != 0 ==>
      s == NatToString(totalMinutes / 60) + "h " + NatToString(totalMinutes % 60) + "m"
    ensures 60 <= totalMinutes < 120 && totalMinutes % 60 != 0 ==> s == "1h " + NatToString(totalMinutes - 60) + "m"
    ensures totalMinutes >= 60 && totalMinutes % 60 == 0 ==> s == NatToString(totalMinutes / 60) + "h"
    ensures 0 <= totalMinutes < 60 ==> s == NatToString(totalMinutes) + "m"
    ensures totalMinutes < 0 ==> s == LongToString(TruncRem(totalMinutes, 60)) + "m"
  {
    var hours := TruncDiv(totalMinutes, 60);
    var minutes := TruncRem(totalMinutes, 60);
    if hours > 0 && minutes > 0 then
      LongToString(hours) + "h " + LongToString(minutes) + "m"
    else if hours > 0 then
      LongToString(hours) + "h"
    else
      LongToString(minutes) + "m"
  }

  /** Value of a non-empty string of decimal digits. */
  function DigitsValue(s: string): (n: nat)
    requires |s| >= 1 && AllDigits(s)
    decreases |s|
  {
    var d := s[|s| - 1] as int - '0' as int;
    if |s| == 1 then d else 10 * DigitsValue(s[..|s| - 1]) + d
  }

  function ParseNat(s: string): Option<nat>
  {
    if |s| >= 1 && AllDigits(s) then Some(DigitsValue(s)) else None
  }

  lemma {:induction false} ParseNatToString(n: nat)
    ensures ParseNat(NatToString(n)) == Some(n)
    decreases n
  {
    var s := NatToString(n);
    if n >= 10 {
      ParseNatToString(n / 10);
      assert s[..|s| - 1] == NatToString(n / 10);
    }
  }

  /** Index of the first occurrence of c in s, or |s| when there is none. */
  function IndexOf(s: string, c: char): (k: nat)
    ensures k <= |s|
    ensures k < |s| ==> s[k] == c
    ensures forall i :: 0 <= i < k ==> s[i] != c
  {
    if |s| == 0 then 0 else if s[0] == c then 0 else 1 + IndexOf(s[1..], c)
  }

  /** Hours and minutes put back together, when both parts parsed. */
  function Combine(hours: Option<nat>, minutes: Option<nat>): Option<int>
  {
    if hours.Some? && minutes.Some? then Some(60 * hours.value + minutes.value) else None
  }

  function AsInt(n: Option<nat>): Option<int>
  {
    if n.Some? then Some(n.value) else None
  }

  /** Reads back the part of an "Hh Mm" or "Mm" label before its final 'm'. */
  function ParseMinutesLabel(body: string): Option<int>
  {
    var k := IndexOf(body, ' ');
    if k == |body| then AsInt(ParseNat(body))
    else if k >= 1 && body[k - 1] == 'h' then Combine(ParseNat(body[..k - 1]), ParseNat(body[k + 1..]))
    else None
  }

  /** Reads back a label of the forms "Hh Mm", "Hh" and "Mm". */
  function ParseDuration(s: string): Option<int>
  {
    if |s| == 0 then None
    else if s[|s| - 1] == 'h' then
      var hours := ParseNat(s[..|s| - 1]);
      if hours.Some? then Some(60 * hours.value) else None
    else if s[|s| - 1] == 'm' then ParseMinutesLabel(s[..|s| - 1])
    else None
  }

  lemma DigitsHaveNoSpace(s: string)
    requires AllDigits(s)
    ensures IndexOf(s, ' ') == |s|
  {
  }

  lemma ParseMinutesLabelSplit(hs: string, ms: string, body: string)
    requires |body| == |hs| + 2 + |ms| && IndexOf(body, ' ') == |hs| + 1 && body[|hs|] == 'h'
    requires body[..|hs|] == hs && body[|hs| + 2..] == ms
    ensures ParseMinutesLabel(body) == Combine(ParseNat(hs), ParseNat(ms))
  {
  }

  lemma ParseHoursMinutesDigits(hs: string, ms: string)
    requires |hs| >= 1 && AllDigits(hs) && |ms| >= 1 && AllDigits(ms)
    ensures ParseDuration(hs + "h " + ms + "m") == Combine(ParseNat(hs), ParseNat(ms))
  {
    var s := hs + "h " + ms + "m";
    var body := hs + "h " + ms;
    assert s[..|s| - 1] == body;
    assert body[|hs| + 1] == ' ';
    assert forall i :: 0 <= i < |hs| ==> body[i] == hs[i];
    assert body[|hs|] == 'h';
    assert IndexOf(body, ' ') == |hs| + 1;
    assert body[..|hs|] == hs;
    assert body[|hs| + 2..] == ms;
    ParseMinutesLabelSplit(hs, ms, body);
    assert s[|s| - 1] == 'm';
    ParseDurationOfMinutesLabel(s);
  }

  lemma ParseDurationOfMinutesLabel(s: string)
    requires |s| >= 1 && s[|s| - 1] == 'm'
    ensures ParseDuration(s) == ParseMinutesLabel(s[..|s| - 1])
  {
  }

  lemma ParseHoursMinutes(h: nat, m: nat)
    ensures ParseDuration(NatToString(h) + "h " + NatToString(m) + "m") == Some(60 * h + m)
  {
    ParseNatToString(h);
    ParseNatToString(m);
    ParseHoursMinutesDigits(NatToString(h), NatToString(m));
  }

  lemma ParseHours(h: nat)
    ensures ParseDuration(NatToString(h) + "h") == Some(60 * h)
  {
    var hs := NatToString(h);
    ParseNatToString(h);
    assert (hs + "h")[..|hs|] == hs;
  }

  lemma ParseMinutes(m: nat)
    ensures ParseDuration(NatToString(m) + "m") == Some(m)
  {
    var ms := NatToString(m);
    ParseNatToString(m);
    assert (ms + "m")[..|ms|] == ms;
    DigitsHaveNoSpace(ms);
  }

  /** Every duration label of a non-negative total reads back as that total. */
  lemma FormatDurationRoundTrip(totalMinutes: nat)
    ensures ParseDuration(FormatDuration(totalMinutes)) == Some(totalMinutes)
  {
    var h, m := totalMinutes / 60, totalMinutes % 60;
    if h > 0 && m > 0 {
      assert FormatDuration(totalMinutes) == NatToString(h) + "h " + NatToString(m) + "m";
      ParseHoursMinutes(h, m);
    } else if h > 0 {
      assert FormatDuration(totalMinutes) == NatToString(h) + "h";
      ParseHours(h);
    } else {
      assert FormatDuration(totalMinutes) == NatToString(m) + "m";
      ParseMinutes(m);
    }
  }

  /** A concrete negative total: Long arithmetic gives -1 hours and -5
      minutes, so only the minutes are shown. */
  lemma NegativeTotalShowsRemainder()
    ensures FormatDuration(-65) == "-5m"
  {
    assert TruncRem(-65, 60) == -5;
    assert NatToString(5) == "5";
  }

  /** The recent-sessions list shows at most the first ten sessions. */
  function RecentSessions<T>(sessions: seq<T>): (r: seq<T>)
    ensures |r| <= 10
    ensures r <= sessions
    ensures |sessions| <= 10 ==> r == sessions
    ensures |sessions| > 10 ==> |r| == 10
  {
    if |sessions| <= 10 then sessions else sessions[..10]
  }
}
