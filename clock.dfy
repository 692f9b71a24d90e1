/** Times of day, and Python's `datetime.datetime.strptime(s, "%H:%M")`,
    which every variant of the parser falls back on. */
module Clock {
  import opened Wrappers
  import opened Text

  /** A `datetime.time` reduced to the hour and minute the logs record. */
  datatype Time = Time(hour: nat, minute: nat)

  predicate Valid(t: Time) { t.hour < 24 && t.minute < 60 }

  /** The text "H:MM", "HH:MM", "H:M" or "HH:M" of a time, choosing with
      `zeroHour` and `zeroMinute` whether a one-digit field is zero-padded. */
  function ClockText(h: nat, m: nat, zeroHour: bool, zeroMinute: bool): (s: string)
    requires h < 24 && m < 60
    ensures 3 <= |s| <= 5 && NoSpace(s) && !AllDigits(s)
    ensures s[|Padded(h, zeroHour)|] == ':'
  {
    var hs, ms := Padded(h, zeroHour), Padded(m, zeroMinute);
    var s := hs + [':'] + ms;
    assert forall i :: 0 <= i < |s| ==> IsDigit(s[i]) || s[i] == ':' by {
      forall i | 0 <= i < |s| ensures IsDigit(s[i]) || s[i] == ':' {
        if i < |hs| { assert s[i] == hs[i]; }
        else if i > |hs| { assert s[i] == ms[i - |hs| - 1]; }
      }
    }
    assert !IsDigit(s[|hs|]);
    s
  }

  /** Length that alternative k of the hour pattern `2[0-3]|[0-1]\d|\d`
      (tried in that order) matches at the start of s. */
  function HourAlternative(s: string, k: nat): Option<nat>
  {
    if k == 0 then
      (if 2 <= |s| && s[0] == '2' && '0' <= s[1] <= '3' then Some(2) else None)
    else if k == 1 then
      (if 2 <= |s| && (s[0] == '0' || s[0] == '1') && IsDigit(s[1]) then Some(2) else None)
    else
      (if 1 <= |s| && IsDigit(s[0]) then Some(1) else None)
  }

  /** Length the minute pattern `[0-5]\d|\d` matches at position p, 0 when
      neither alternative matches. */
  function MinuteLength(s: string, p: nat): (n: nat)
    ensures n <= 2 && (n == 0 || p + n <= |s|)
  {
    if p + 2 <= |s| && '0' <= s[p] <= '5' && IsDigit(s[p + 1]) then 2
    else if p < |s| && IsDigit(s[p]) then 1
    else 0
  }

  /** A well-formed hour field: one or two digits with a value below 24. */
  predicate HourField(s: string) { (|s| == 1 || |s| == 2) && AllDigits(s) && Value(s) < 24 }

  /** A well-formed minute field: one or two digits with a value below 60. */
  predicate MinuteField(s: string) { (|s| == 1 || |s| == 2) && AllDigits(s) && Value(s) < 60 }

  /** The regex `(hour):(minute)` matched at the start of s, trying the hour
      alternatives from k on and backtracking to the next one when the rest
      fails: the lengths of the hour and minute fields. */
  function MatchFrom(s: string, k: nat): (r: Option<(nat, nat)>)
    ensures r.Some? ==>
      var (n, m) := r.value;
      n + 1 + m <= |s| && s[n] == ':' && HourField(s[..n]) && MinuteField(s[n + 1..n + 1 + m])
    decreases 3 - k
  {
    if k >= 3 then None
    else match HourAlternative(s, k)
      case Some(n) =>
        var m := MinuteLength(s, n + 1);
        if n < |s| && s[n] == ':' && 0 < m then
          MatchedFields(s, k, n, m);
          Some((n, m))
        else MatchFrom(s, k + 1)
      case None => MatchFrom(s, k + 1)
  }

  lemma MatchedFields(s: string, k: nat, n: nat, m: nat)
    requires HourAlternative(s, k) == Some(n) && n < |s| && s[n] == ':'
    requires m == MinuteLength(s, n + 1) && 0 < m
    ensures HourField(s[..n]) && MinuteField(s[n + 1..n + 1 + m])
  {
    if n == 2 { ValueOfTwo(s[..2]); } else { ValueOfOne(s[..1]); }
    var ms := s[n + 1..n + 1 + m];
    if m == 2 { ValueOfTwo(ms); } else { ValueOfOne(ms); }
  }

  /** `datetime.datetime.strptime(s, "%H:%M").time()`; None where Python
      raises ValueError, including "unconverted data remains" when the
      pattern matches only a prefix of s. */
  function Strptime(s: string): (r: Option<Time>)
    ensures r.Some? ==> Valid(r.value)
  {
    match MatchFrom(s, 0)
      case None => None
      case Some((n, m)) =>
        if n + 1 + m == |s| then
          assert s[n + 1..] == s[n + 1..n + 1 + m];
          Some(Time(Value(s[..n]), Value(s[n + 1..])))
        else None
  }

  /** Every 24-hour time, padded or not, is read back by `strptime`. */
  lemma StrptimeReadsClockText(h: nat, m: nat, zeroHour: bool, zeroMinute: bool)
    requires h < 24 && m < 60
    ensures Strptime(ClockText(h, m, zeroHour, zeroMinute)) == Some(Time(h, m))
  {
    var hs, ms := Padded(h, zeroHour), Padded(m, zeroMinute);
    StrptimeOfFields(ClockText(h, m, zeroHour, zeroMinute), hs, ms);
  }

  /** An hour field, ':' and a minute field are read as that time. */
  lemma {:induction false} StrptimeOfFields(s: string, hs: string, ms: string)
    requires s == hs + [':'] + ms && HourField(hs) && MinuteField(ms)
    ensures Strptime(s) == Some(Time(Value(hs), Value(ms)))
  {
    var n := |hs|;
    assert s[..n] == hs && s[n] == ':' && s[n + 1..] == ms;
    HourMatches(s, hs);
    MinuteMatches(s, n + 1, ms);
    if n == 2 {
      assert MatchFrom(s, 0) == Some((n, |ms|)) by {
        if HourAlternative(s, 0).None? {
          assert MatchFrom(s, 0) == MatchFrom(s, 1);
        }
      }
    } else {
      assert MatchFrom(s, 0) == MatchFrom(s, 1) == MatchFrom(s, 2);
    }
  }

  /** The hour alternatives that match an hour field followed by ':': a
      two-digit field matches the first or the second, a one-digit field
      only the third. */
  lemma {:induction false} HourMatches(s: string, hs: string)
    requires HourField(hs) && |hs| < |s| && s[..|hs|] == hs && s[|hs|] == ':'
    ensures |hs| == 2 ==> HourAlternative(s, 0) == Some(2) || (HourAlternative(s, 0).None? && HourAlternative(s, 1) == Some(2))
    ensures |hs| == 1 ==> HourAlternative(s, 0).None? && HourAlternative(s, 1).None? && HourAlternative(s, 2) == Some(1)
  {
    if |hs| == 2 {
      ValueOfTwo(hs);
      assert s[0] == hs[0] && s[1] == hs[1];
    } else {
      assert s[0] == hs[0];
    }
  }

  /** The minute pattern takes the whole minute field when it ends the text. */
  lemma {:induction false} MinuteMatches(s: string, p: nat, ms: string)
    requires MinuteField(ms) && p + |ms| == |s| && s[p..] == ms
    ensures MinuteLength(s, p) == |ms|
  {
    assert s[p] == ms[0];
    if |ms| == 2 {
      ValueOfTwo(ms);
      assert s[p + 1] == ms[1];
    }
  }

  /** `strptime` accepts nothing but those texts: no seconds, no other
      separator, no surrounding or trailing characters. */
  lemma StrptimeOnlyClockText(s: string)
    requires Strptime(s).Some?
    ensures var t := Strptime(s).value;
      exists zh: bool, zm: bool :: s == ClockText(t.hour, t.minute, zh, zm)
  {
    var hs, ms := StrptimeParts(s);
    FieldsAreClockText(hs, ms);
  }

  /** What `strptime` accepted is an hour field, ':' and a minute field,
      and the time is their values. */
  lemma StrptimeParts(s: string) returns (hs: string, ms: string)
    requires Strptime(s).Some?
    ensures s == hs + [':'] + ms && HourField(hs) && MinuteField(ms)
    ensures Strptime(s) == Some(Time(Value(hs), Value(ms)))
  {
    var r := MatchFrom(s, 0);
    var n, m := r.value.0, r.value.1;
    assert n + 1 + m == |s|;
    hs, ms := s[..n], s[n + 1..];
    ColonSplit(s, n);
  }

  /** A text cut around the ':' at position n. */
  lemma ColonSplit(s: string, n: nat)
    requires n < |s| && s[n] == ':'
    ensures s == s[..n] + [':'] + s[n + 1..]
  {
  }

  /** An hour field and a minute field joined by ':' are the clock text of
      their values, padded as they are. */
  lemma {:induction false} FieldsAreClockText(hs: string, ms: string)
    requires HourField(hs) && MinuteField(ms)
    ensures hs + [':'] + ms == ClockText(Value(hs), Value(ms), |hs| == 2, |ms| == 2)
  {
    PaddedOfDigits(hs);
    PaddedOfDigits(ms);
  }

  /** A text of digits alone has no ':' and is refused. */
  lemma StrptimeNeedsColon(s: string)
    requires AllDigits(s)
    ensures Strptime(s).None?
  {
    assert forall i :: 0 <= i < |s| ==> s[i] != ':';
  }
}
