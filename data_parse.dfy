/** The token parsers of babyplot_data.py: `parse_time`, `_parse_breast_token`,
    `_parse_diaper_token` and the pumped/formula regex of `parse_records`. */
module DataParse {
  import opened Wrappers
  import opened Text
  import opened Clock
  import opened Lex

  // ---------------------------------------------------------------- parse_time

  /** `parse_time(s)`: falsy input gives None; after stripping, one or two
      digits are a bare hour read as half past it (and a value over 23 is
      refused without trying "%H:%M"); anything else goes to `strptime`. */
  function ParseTime(s: Option<string>): (r: Option<Time>)
    ensures r.Some? ==> Valid(r.value)
    ensures s.None? || AllSpace(s.value) ==> r.None?
  {
    if s.None? || s.value == [] then None
    else
      var t := Strip(s.value);
      if t == [] then None
      else if |t| <= 2 && AllDigits(t) then
        (if Value(t) <= 23 then Some(Time(Value(t), 30)) else None)
      else Strptime(t)
  }

  /** A bare one- or two-digit hour: below 24 it means half past that hour,
      from 24 to 99 it is refused. Surrounding whitespace does not matter. */
  lemma ParseTimeBareHour(w1: string, s: string, w2: string)
    requires AllSpace(w1) && AllSpace(w2)
    requires 1 <= |s| <= 2 && AllDigits(s)
    ensures ParseTime(Some(w1 + s + w2)) ==
            if Value(s) < 24 then Some(Time(Value(s), 30)) else None
  {
    StripPadded(w1, s, w2);
  }

  /** Every "H:MM" style time with hour 0-23 and minute 0-59, padded or not,
      comes back unchanged. */
  lemma ParseTimeClock(h: nat, m: nat, zeroHour: bool, zeroMinute: bool)
    requires h < 24 && m < 60
    ensures ParseTime(Some(ClockText(h, m, zeroHour, zeroMinute))) == Some(Time(h, m))
  {
    ParseTimeOfNonDigits(ClockText(h, m, zeroHour, zeroMinute));
    StrptimeReadsClockText(h, m, zeroHour, zeroMinute);
  }

  /** A token without whitespace that is not all digits goes to `strptime`. */
  lemma ParseTimeOfNonDigits(s: string)
    requires s != [] && NoSpace(s) && !AllDigits(s)
    ensures ParseTime(Some(s)) == Strptime(s)
  {
    StripNoSpace(s);
  }

  /** Nothing else is accepted: a result is either a bare hour at :30 or a
      clock text, once the surrounding whitespace is stripped. */
  lemma ParseTimeOnly(s: string)
    requires ParseTime(Some(s)).Some?
    ensures var t := ParseTime(Some(s)).value;
      || (t.minute == 30 && exists z: bool :: Strip(s) == Padded(t.hour, z))
      || (exists zh: bool, zm: bool :: Strip(s) == ClockText(t.hour, t.minute, zh, zm))
  {
    var t := Strip(s);
    if |t| <= 2 && AllDigits(t) {
      PaddedOfDigits(t);
    } else {
      StrptimeOnlyClockText(t);
    }
  }

  // ------------------------------------------- the time prefix of a token

  /** Greedy length of `\d{1,2}(?::\d{2})?` at the start of s; 0 when s does
      not start with a digit. */
  function StrictTimeLength(s: string): (n: nat)
    ensures n <= |s|
    ensures n == 0 <==> s == [] || !IsDigit(s[0])
  {
    var a := DigitRun(s, 0, 2);
    if a == 0 then 0
    else if a + 3 <= |s| && s[a] == ':' && IsDigit(s[a + 1]) && IsDigit(s[a + 2]) then a + 3
    else a
  }

  /** `re.match(r"^(\d{1,2}(?::\d{2})?)(.*)$", s)`: its two groups, or None.
      The time group is greedy; giving some of it back cannot help `$`,
      because it only moves digits and ':' into the second group, whose
      `.*` still stops at the same first newline. */
  function SplitTimePrefix(s: string): (r: Option<(string, string)>)
    ensures s == [] || !IsDigit(s[0]) ==> r.None?
    ensures r.Some? ==>
      var (g, rest) := r.value;
      g != [] && IsDigit(g[0]) && '\n' !in rest &&
      (s == g + rest || s == g + rest + ['\n'])
  {
    var n := StrictTimeLength(s);
    if n == 0 then None
    else
      var q := LineEnd(s, n);
      if EndOfLine(s, q) then
        assert s == s[..n] + s[n..q] + s[q..];
        Some((s[..n], s[n..q]))
      else None
  }

  // ----------------------------------------------------- _parse_breast_token

  /** What `_parse_breast_token` returns: (time, total minutes, note). */
  datatype BreastParse = BreastParse(time: Option<Time>, total: Option<nat>, note: Option<string>)

  /** `re.findall(r"[LR]?(\d{1,3})", s)`: the digit groups from left to
      right, each the longest run of at most three digits, an `L` or `R`
      in front being skipped. */
  function DurationGroups(s: string): (groups: seq<string>)
    ensures forall i :: 0 <= i < |groups| ==> 1 <= |groups[i]| <= 3 && AllDigits(groups[i])
    decreases |s|
  {
    if s == [] then []
    else if (s[0] == 'L' || s[0] == 'R') && 1 < |s| && IsDigit(s[1]) then
      var n := DigitRun(s, 1, 3);
      [s[1..1 + n]] + DurationGroups(s[1 + n..])
    else if IsDigit(s[0]) then
      var n := DigitRun(s, 0, 3);
      [s[..n]] + DurationGroups(s[n..])
    else DurationGroups(s[1..])
  }

  /** `findall` finds no group exactly when the text holds no digit. */
  lemma {:induction false} NoGroupsIffNoDigit(s: string)
    ensures DurationGroups(s) == [] <==> NoDigit(s)
    decreases |s|
  {
    if s == [] {
    } else if (s[0] == 'L' || s[0] == 'R') && 1 < |s| && IsDigit(s[1]) {
      assert !NoDigit(s);
    } else if IsDigit(s[0]) {
      assert !NoDigit(s);
    } else {
      NoGroupsIffNoDigit(s[1..]);
      assert NoDigit(s) <==> NoDigit(s[1..]) by {
        if NoDigit(s[1..]) {
          forall i | 0 <= i < |s| ensures !IsDigit(s[i]) {
            if i > 0 { assert s[i] == s[1..][i - 1]; }
          }
        }
      }
    }
  }

  /** `sum(int(p) for p in parts)`. */
  function SumValues(groups: seq<string>): nat
    requires forall i :: 0 <= i < |groups| ==> AllDigits(groups[i])
  {
    if groups == [] then 0 else Value(groups[0]) + SumValues(groups[1..])
  }

  /** `_parse_breast_token(token)`. The surrounding `try` around the sum can
      never fire: every group is a digit string. */
  function ParseBreastToken(token: string): (r: BreastParse)
    ensures r.time.Some? ==> Valid(r.time.value)
    ensures r.total.None? || r.note.None?
    ensures r.note.Some? ==> r.note.value != [] && NoDigit(r.note.value)
  {
    var s := Strip(token);
    if s == [] then BreastParse(None, None, None)
    else match SplitTimePrefix(s)
      case None => BreastParse(None, None, None)
      case Some((g, rest0)) =>
        var t := ParseTime(Some(g));
        var rest := Strip(rest0);
        if rest == [] then BreastParse(t, None, None)
        else
          var parts := DurationGroups(rest);
          if parts != [] then BreastParse(t, Some(SumValues(parts)), None)
          else
            NoGroupsIffNoDigit(rest);
            BreastParse(t, None, Some(rest))
  }

  /** A token that does not start with a digit once stripped gives
      (None, None, None). */
  lemma BreastTokenNeedsDigit(token: string)
    requires Strip(token) == [] || !IsDigit(Strip(token)[0])
    ensures ParseBreastToken(token) == BreastParse(None, None, None)
  {
  }

  // ----------------------------------------------------- _parse_diaper_token

  /** What `_parse_diaper_token` returns: (time, note). */
  datatype DiaperParse = DiaperParse(time: Option<Time>, note: Option<string>)

  /** `_parse_diaper_token(token)`: the same time prefix, the stripped
      remainder as note. */
  function ParseDiaperToken(token: string): (r: DiaperParse)
    ensures r.time.Some? ==> Valid(r.time.value)
    ensures r.note.Some? ==> Trimmed(r.note.value)
  {
    var s := Strip(token);
    if s == [] then DiaperParse(None, None)
    else match SplitTimePrefix(s)
      case None => DiaperParse(None, None)
      case Some((g, rest)) => DiaperParse(ParseTime(Some(g)), DiaperNote(rest))
  }

  /** Non-empty, with no whitespace at either end. */
  predicate Trimmed(s: string)
  {
    s != [] && !IsSpace(s[0]) && !IsSpace(s[|s| - 1])
  }

  /** The stripped remainder, when anything is left of it. */
  function DiaperNote(rest: string): (n: Option<string>)
    ensures n.Some? ==> Trimmed(n.value)
    ensures n.None? <==> AllSpace(rest)
  {
    var note := Strip(rest);
    if note != [] then Some(note) else None
  }

  /** A token that does not start with a digit once stripped gives (None, None). */
  lemma DiaperTokenNeedsDigit(token: string)
    requires Strip(token) == [] || !IsDigit(Strip(token)[0])
    ensures ParseDiaperToken(token) == DiaperParse(None, None)
  {
  }

  /** A time prefix "H:MM" or "HH:MM" followed by `L`, the left minutes,
      `R` and the right minutes: the time is what `parse_time` makes of the
      prefix, the total is the sum of the two sides, and there is no note. */
  lemma {:induction false} BreastTokenLeftRight(token: string, g: string, left: string, right: string)
    requires token == g + ['L'] + left + ['R'] + right
    requires 4 <= |g| <= 5 && StrictTimeGroup(g)
    requires 1 <= |left| <= 3 && AllDigits(left) && 1 <= |right| <= 3 && AllDigits(right)
    ensures var r := ParseBreastToken(token);
      r.time == ParseTime(Some(g)) && r.total.Some? && r.total.value == Value(left) + Value(right) && r.note.None?
  {
    var rest := ['L'] + left + ['R'] + right;
    assert rest != [] && NoSpace(rest) && DurationGroups(rest) != []
      && SumValues(DurationGroups(rest)) == Value(left) + Value(right) by {
      SidesLeftRight(left, right);
    }
    assert token == g + rest;
    BreastTokenSum(token, g, rest);
  }

  /** A time group followed by a rest without whitespace in which `findall`
      finds groups: the total is their sum. */
  lemma {:induction false} BreastTokenSum(token: string, g: string, rest: string)
    requires token == g + rest
    requires 4 <= |g| <= 5 && StrictTimeGroup(g) && rest != [] && NoSpace(rest)
    requires DurationGroups(rest) != []
    ensures ParseBreastToken(token)
         == BreastParse(ParseTime(Some(g)), Some(SumValues(DurationGroups(rest))), None)
  {
    TokenAfterTimeGroup(g, rest);
    BreastFromParts(token, g, rest);
  }

  /** "L<left>R<right>" holds no whitespace, and `findall` reads its two
      sides. */
  lemma {:induction false} SidesLeftRight(left: string, right: string)
    requires 1 <= |left| <= 3 && AllDigits(left) && 1 <= |right| <= 3 && AllDigits(right)
    ensures NoSpace(['L'] + left + ['R'] + right)
    ensures DurationGroups(['L'] + left + ['R'] + right) == [left, right]
    ensures SumValues([left, right]) == Value(left) + Value(right)
  {
    var tail := ['R'] + right;
    var rest := ['L'] + left + tail;
    assert rest == ['L'] + left + ['R'] + right;
    SideNoSpace('L', left);
    SideNoSpace('R', right);
    NoSpaceConcat(['L'] + left, tail);
    OneSide('R', right, []);
    assert ['R'] + right + [] == tail;
    assert DurationGroups(tail) == [right];
    OneSide('L', left, tail);
    assert DurationGroups(rest) == [left] + [right];
    assert SumValues([left, right]) == Value(left) + Value(right) by {
      assert [left, right][1..] == [right];
      assert SumValues([right]) == Value(right) + SumValues([]);
    }
  }

  /** A side letter followed by digits has no whitespace. */
  lemma SideNoSpace(c: char, d: string)
    requires (c == 'L' || c == 'R') && AllDigits(d)
    ensures NoSpace([c] + d)
  {
    assert forall i :: 1 <= i < |[c] + d| ==> ([c] + d)[i] == d[i - 1];
  }

  /** `findall` reads one side, a letter and one to three digits, before a
      text that does not start with a digit. */
  lemma {:induction false} OneSide(c: char, d: string, tail: string)
    requires (c == 'L' || c == 'R') && 1 <= |d| <= 3 && AllDigits(d)
    requires tail == [] || !IsDigit(tail[0])
    ensures DurationGroups([c] + d + tail) == [d] + DurationGroups(tail)
  {
    var s := [c] + d + tail;
    assert s[1..1 + |d|] == d && s[1 + |d|..] == tail;
    DigitRunIs(s, 1, |d|, 3);
  }

  /** A time prefix followed by a note without digits or whitespace: the
      note is kept and there is no total. */
  lemma BreastTokenNote(g: string, note: string)
    requires 4 <= |g| <= 5 && StrictTimeGroup(g)
    requires note != [] && NoSpace(note) && NoDigit(note)
    ensures ParseBreastToken(g + note) == BreastParse(ParseTime(Some(g)), None, Some(note))
  {
    TokenAfterTimeGroup(g, note);
    BreastFromParts(g + note, g, note);
    NoGroupsIffNoDigit(note);
  }

  /** A time prefix followed by an optional note without whitespace: the
      note is kept when there is one. */
  lemma DiaperTokenNote(g: string, note: string)
    requires 4 <= |g| <= 5 && StrictTimeGroup(g) && NoSpace(note)
    ensures ParseDiaperToken(g + note)
         == DiaperParse(ParseTime(Some(g)), if note == [] then None else Some(note))
  {
    TokenAfterTimeGroup(g, note);
    DiaperFromParts(g + note, g, note);
  }

  /** `_parse_breast_token` on a stripped token, given its two groups. */
  lemma BreastFromParts(s: string, g: string, rest: string)
    requires s != [] && Strip(s) == s && SplitTimePrefix(s) == Some((g, rest)) && Strip(rest) == rest
    ensures ParseBreastToken(s) ==
      if rest == [] then BreastParse(ParseTime(Some(g)), None, None)
      else if DurationGroups(rest) != [] then
        BreastParse(ParseTime(Some(g)), Some(SumValues(DurationGroups(rest))), None)
      else BreastParse(ParseTime(Some(g)), None, Some(rest))
  {
  }

  /** `_parse_diaper_token` on a stripped token, given its two groups. */
  lemma DiaperFromParts(s: string, g: string, note: string)
    requires s != [] && Strip(s) == s && SplitTimePrefix(s) == Some((g, note)) && Strip(note) == note
    ensures ParseDiaperToken(s) == DiaperParse(ParseTime(Some(g)), if note == [] then None else Some(note))
  {
  }

  /** How a token made of a time prefix with its `:MM` part and a rest
      without whitespace is taken apart. */
  lemma TokenAfterTimeGroup(g: string, rest: string)
    requires 4 <= |g| <= 5 && StrictTimeGroup(g) && NoSpace(rest)
    ensures Strip(g + rest) == g + rest
    ensures SplitTimePrefix(g + rest) == Some((g, rest))
    ensures Strip(rest) == rest
  {
    assert NoSpace(g) by {
      forall i | 0 <= i < |g| ensures !IsSpace(g[i]) {
        if i < |g| - 3 { assert g[i] == g[..|g| - 3][i]; }
        else if i > |g| - 3 { assert g[i] == g[|g| - 2..][i - |g| + 2]; }
      }
    }
    NoSpaceConcat(g, rest);
    StripNoSpace(g + rest);
    StripNoSpace(rest);
    PrefixOfTimeGroup(g, rest);
  }

  /** A clock time with a two-digit minute is a full time group. */
  lemma ClockTextIsTimeGroup(h: nat, m: nat, zeroHour: bool)
    requires h < 24 && m < 60
    ensures var ct := ClockText(h, m, zeroHour, true);
      4 <= |ct| <= 5 && StrictTimeGroup(ct)
  {
    var hs, ms := Padded(h, zeroHour), Padded(m, true);
    var ct := ClockText(h, m, zeroHour, true);
    assert ct[..|ct| - 3] == hs && ct[|ct| - 2..] == ms;
  }

  /** The time prefix of a time group with its `:MM` part, followed by text
      without whitespace, is that time group. */
  lemma PrefixOfTimeGroup(g: string, rest: string)
    requires 4 <= |g| <= 5 && StrictTimeGroup(g) && NoSpace(rest)
    ensures SplitTimePrefix(g + rest) == Some((g, rest))
  {
    var s := g + rest;
    var d := |g| - 3;
    assert s[..d] == g[..d] && s[d] == ':' && IsDigit(s[d + 1]) && IsDigit(s[d + 2]);
    DigitRunIs(s, 0, d, 2);
    assert s[..|g|] == g && s[|g|..] == rest;
    NoNewline(rest);
    LineEndNoNewline(s, |g|);
  }

  // ------------------------------------------------ the pumped/formula regex

  /** The strings the first group of `^(\d{1,2}(?::\d{2})?)-?(\d{1,4})$`
      can match: one or two digits, optionally followed by ':' and two digits. */
  predicate StrictTimeGroup(g: string)
  {
    || (1 <= |g| <= 2 && AllDigits(g))
    || (4 <= |g| <= 5 && AllDigits(g[..|g| - 3]) && g[|g| - 3] == ':' && AllDigits(g[|g| - 2..]))
  }

  /** The `:MM` part after d hour digits: with it before without it. */
  function WithMinutes(s: string, d: nat): (ns: seq<nat>)
    requires 1 <= d <= 2 && d <= |s| && AllDigits(s[..d])
    ensures forall i :: 0 <= i < |ns| ==> 1 <= ns[i] <= |s| && StrictTimeGroup(s[..ns[i]])
  {
    if d + 3 <= |s| && s[d] == ':' && IsDigit(s[d + 1]) && IsDigit(s[d + 2]) then
      MinutesGroup(s, d);
      [d + 3, d]
    else [d]
  }

  /** d hour digits, the colon and two minute digits form a time group. */
  lemma MinutesGroup(s: string, d: nat)
    requires 1 <= d <= 2 && d + 3 <= |s| && AllDigits(s[..d])
    requires s[d] == ':' && IsDigit(s[d + 1]) && IsDigit(s[d + 2])
    ensures StrictTimeGroup(s[..d + 3]) && StrictTimeGroup(s[..d])
  {
    var g := s[..d + 3];
    assert g[..|g| - 3] == s[..d];
    assert g[|g| - 2..] == s[d + 1..d + 3];
  }

  /** The lengths the first group can take at the start of s, in the order
      the regex tries them: two hour digits before one, and for each the
      `:MM` part before none. */
  function TimeGroupChoices(s: string): (ns: seq<nat>)
    ensures forall i :: 0 <= i < |ns| ==> 1 <= ns[i] <= |s| && StrictTimeGroup(s[..ns[i]])
  {
    if s == [] || !IsDigit(s[0]) then []
    else
      var two := if 2 <= |s| && IsDigit(s[1]) then WithMinutes(s, 2) else [];
      var one := WithMinutes(s, 1);
      assert forall i :: 0 <= i < |two + one| ==> (two + one)[i] in two || (two + one)[i] in one;
      two + one
  }

  /** Where `$` has to be reached by the amount: the end, or before a final newline. */
  function AmountEnd(s: string): (e: nat)
    ensures e <= |s| && EndOfLine(s, e)
  {
    if s != [] && s[|s| - 1] == '\n' then |s| - 1 else |s|
  }

  /** `(\d{1,4})$` at position p. The greedy `\d{1,4}` gives back digits
      until `$` holds, and `$` holds only at `AmountEnd` (a digit cannot sit
      where a final newline is), so it succeeds exactly when s[p..AmountEnd(s)]
      is one to four digits. */
  predicate AmountFits(s: string, p: nat)
  {
    var e := AmountEnd(s);
    p < e && e - p <= 4 && AllDigits(s[p..e])
  }

  /** `-?` (with the hyphen before without) followed by the amount, after a
      first group of length n: where the amount starts. */
  function AmountAfter(s: string, n: nat): (r: Option<nat>)
    ensures r.Some? ==> AmountFits(s, r.value) && (r.value == n || (r.value == n + 1 && s[n] == '-'))
  {
    if n < |s| && s[n] == '-' && AmountFits(s, n + 1) then Some(n + 1)
    else if AmountFits(s, n) then Some(n)
    else None
  }

  /** The first choice of first group for which the rest of the regex
      matches: its length and where the amount starts. */
  function FirstFit(s: string, ns: seq<nat>): (r: Option<(nat, nat)>)
    ensures r.Some? ==> r.value.0 in ns && AmountAfter(s, r.value.0) == Some(r.value.1)
  {
    if ns == [] then None
    else match AmountAfter(s, ns[0])
      case Some(p) => Some((ns[0], p))
      case None => FirstFit(s, ns[1..])
  }

  /** The four ways a whole token can be laid out around a time group g and
      an amount a: `g a`, `g-a`, each optionally with one final newline. */
  predicate VolumeShape(s: string, g: string, a: string)
  {
    || s == g + a || s == g + "-" + a
    || s == g + a + "\n" || s == g + "-" + a + "\n"
  }

  /** `re.match(r"^(\d{1,2}(?::\d{2})?)-?(\d{1,4})$", token)`: the time group
      and the amount group, or None. A match covers the whole token. */
  function VolumeMatch(s: string): (r: Option<(string, string)>)
    ensures r.Some? ==>
      StrictTimeGroup(r.value.0) && 1 <= |r.value.1| <= 4 &&
      AllDigits(r.value.1) && VolumeShape(s, r.value.0, r.value.1)
  {
    match FirstFit(s, TimeGroupChoices(s))
      case None => None
      case Some((n, p)) =>
        var e := AmountEnd(s);
        VolumeSplit(s, n, p, e);
        Some((s[..n], s[p..e]))
  }

  /** The pieces FirstFit found lay the token out as a VolumeShape. */
  lemma VolumeSplit(s: string, n: nat, p: nat, e: nat)
    requires n <= |s| && e == AmountEnd(s) && AmountFits(s, p)
    requires p == n || (p == n + 1 && s[n] == '-')
    ensures p <= e && VolumeShape(s, s[..n], s[p..e])
  {
    var g, a := s[..n], s[p..e];
    if e == |s| {
      if p == n { assert s == g + a; } else { assert s == g + "-" + a; }
    } else {
      assert s[e..] == "\n";
      if p == n { assert s == g + a + "\n"; } else { assert s == g + "-" + a + "\n"; }
    }
  }

  /** Every token of that shape matches (the regex is complete for it). */
  lemma VolumeMatchComplete(g: string, hyphen: string, a: string)
    requires StrictTimeGroup(g) && (hyphen == [] || hyphen == ['-']) && 1 <= |a| <= 4 && AllDigits(a)
    ensures VolumeMatch(g + hyphen + a).Some?
  {
    var s := g + hyphen + a;
    assert s == g + (hyphen + a);
    TimeGroupInChoices(g, hyphen + a);
    AmountAfterGroup(g, hyphen, a);
    FirstFitFinds(s, TimeGroupChoices(s), |g|);
  }

  /** After the whole time group, `-?(\d{1,4})$` matches the rest. */
  lemma AmountAfterGroup(g: string, hyphen: string, a: string)
    requires (hyphen == [] || hyphen == ['-']) && 1 <= |a| <= 4 && AllDigits(a)
    ensures AmountAfter(g + hyphen + a, |g|).Some?
  {
    var s := g + hyphen + a;
    var n := |g|;
    assert AmountEnd(s) == |s|;
    if hyphen == ['-'] {
      assert s[n] == '-' && s[n + 1..|s|] == a;
    } else {
      assert s[n..|s|] == a;
    }
  }

  /** The length of a time group is among the lengths the regex tries,
      whatever follows it. */
  lemma TimeGroupInChoices(g: string, rest: string)
    requires StrictTimeGroup(g)
    ensures |g| in TimeGroupChoices(g + rest)
  {
    var s := g + rest;
    assert s[..|g|] == g;
    if |g| <= 2 {
      assert IsDigit(s[0]);
    }
    if |g| == 2 {
      assert IsDigit(s[1]);
    } else if |g| == 4 {
      assert g[..1][0] == s[0] && s[1] == ':' && g[2..][0] == s[2] && g[2..][1] == s[3];
    } else if |g| == 5 {
      assert g[..2][1] == s[1] && s[2] == ':' && g[3..][0] == s[3] && g[3..][1] == s[4];
    }
  }

  lemma {:induction false} FirstFitFinds(s: string, ns: seq<nat>, n: nat)
    requires n in ns && AmountAfter(s, n).Some?
    ensures FirstFit(s, ns).Some?
  {
    if ns[0] != n {
      FirstFitFinds(s, ns[1..], n);
    }
  }

  /** The pumped/formula token rule of `parse_records`: the time group must
      parse; the amount is `int` of its one to four digits, zero included. */
  function ParseVolumeToken(token: string): (r: Option<(Time, nat)>)
    ensures r.Some? ==> Valid(r.value.0) && r.value.1 < 10000
    ensures r.Some? ==> VolumeMatch(token).Some?
  {
    match VolumeMatch(token)
      case None => None
      case Some((g, a)) =>
        match ParseTime(Some(g))
          case None => None
          case Some(t) =>
            ValueBelowFourDigits(a);
            Some((t, Value(a)))
  }

  /** A pumped or formula token is kept exactly when the whole-token pattern
      matches and its time group parses; the amount is then `int` of the
      amount group, zero included. */
  lemma VolumeTokenAccepted(token: string)
    ensures var m := VolumeMatch(token);
      ParseVolumeToken(token).Some? <==> m.Some? && ParseTime(Some(m.value.0)).Some?
    ensures var m := VolumeMatch(token);
      ParseVolumeToken(token).Some? ==>
        ParseVolumeToken(token).value == (ParseTime(Some(m.value.0)).value, Value(m.value.1))
  {
  }

  /** The regex tries the whole time group first when a hyphen follows it or
      when it carries its `:MM` part. */
  lemma {:induction false} TimeGroupFirstChoice(g: string, rest: string)
    requires StrictTimeGroup(g) && (4 <= |g| || (rest != [] && rest[0] == '-'))
    ensures TimeGroupChoices(g + rest) != [] && TimeGroupChoices(g + rest)[0] == |g|
  {
    var s := g + rest;
    assert s[..|g|] == g;
    if |g| == 5 {
      assert g[..2][0] == s[0] && g[..2][1] == s[1] && s[2] == ':' && g[3..][0] == s[3] && g[3..][1] == s[4];
    } else if |g| == 4 {
      assert g[..1][0] == s[0] && s[1] == ':' && g[2..][0] == s[2] && g[2..][1] == s[3];
    } else if |g| == 2 {
      assert IsDigit(s[0]) && IsDigit(s[1]) && s[2] == '-';
    } else {
      assert IsDigit(s[0]) && s[1] == '-';
    }
  }

  /** Round trip: a time group followed by a hyphen and the amount, or a
      time group with its `:MM` part followed directly by the amount, is
      matched as exactly those two groups. */
  lemma {:induction false} VolumeMatchRoundTrip(g: string, hyphen: string, a: string)
    requires StrictTimeGroup(g) && (hyphen == [] || hyphen == ['-']) && 1 <= |a| <= 4 && AllDigits(a)
    requires hyphen == ['-'] || 4 <= |g|
    ensures VolumeMatch(g + hyphen + a) == Some((g, a))
  {
    var s := g + hyphen + a;
    var p := |g| + |hyphen|;
    assert s == g + (hyphen + a);
    TimeGroupFirstChoice(g, hyphen + a);
    AmountAfterExactly(g, hyphen, a);
    VolumeMatchAt(s, |g|, p);
    ThreeParts(g, hyphen, a);
  }

  /** The first and the last of three strings laid end to end. */
  lemma ThreeParts(g: string, h: string, a: string)
    ensures (g + h + a)[..|g|] == g && (g + h + a)[|g| + |h|..|g + h + a|] == a
  {
  }

  /** After the whole time group, the amount starts right after the hyphen
      when there is one, and the `$` is at the end. */
  lemma {:induction false} AmountAfterExactly(g: string, hyphen: string, a: string)
    requires (hyphen == [] || hyphen == ['-']) && 1 <= |a| <= 4 && AllDigits(a)
    ensures AmountAfter(g + hyphen + a, |g|) == Some(|g| + |hyphen|)
    ensures AmountEnd(g + hyphen + a) == |g + hyphen + a|
  {
    var s := g + hyphen + a;
    AmountAfterGroup(g, hyphen, a);
    assert s[|s| - 1] == a[|a| - 1];
    if hyphen == [] {
      assert s[|g|] == a[0];
    }
  }

  /** When the first length the regex tries fits, the match is made of it. */
  lemma VolumeMatchAt(s: string, n: nat, p: nat)
    requires TimeGroupChoices(s) != [] && TimeGroupChoices(s)[0] == n
    requires AmountAfter(s, n) == Some(p)
    ensures n <= p <= AmountEnd(s) && VolumeMatch(s) == Some((s[..n], s[p..AmountEnd(s)]))
  {
  }

  /** A clock time with a two-digit minute, an optional hyphen and one to
      four digits is read as that time and `int` of the digits. */
  lemma VolumeTokenClock(h: nat, m: nat, zeroHour: bool, hyphen: string, a: string)
    requires h < 24 && m < 60 && (hyphen == [] || hyphen == ['-']) && 1 <= |a| <= 4 && AllDigits(a)
    ensures ParseVolumeToken(ClockText(h, m, zeroHour, true) + hyphen + a) == Some((Time(h, m), Value(a)))
  {
    var g := ClockText(h, m, zeroHour, true);
    ClockTextIsTimeGroup(h, m, zeroHour);
    VolumeMatchRoundTrip(g, hyphen, a);
    ParseTimeClock(h, m, zeroHour, true);
  }

  /** Four digits, no hyphen: the greedy hour takes two of them and the
      amount the other two, so "1234" is 12:30 with amount 34 and "0800"
      is 08:30 with amount 0. */
  lemma {:induction false} VolumeTokenDigits(s: string)
    requires |s| == 4 && AllDigits(s)
    ensures ParseVolumeToken(s) == if Value(s[..2]) < 24 then Some((Time(Value(s[..2]), 30), Value(s[2..]))) else None
  {
    assert TimeGroupChoices(s) == [2, 1];
    assert AmountEnd(s) == 4;
    assert AllDigits(s[2..4]);
    assert AmountAfter(s, 2) == Some(2);
    VolumeMatchAt(s, 2, 2);
    assert s[2..AmountEnd(s)] == s[2..];
    assert s[..2] == [] + s[..2] + [];
    ParseTimeBareHour([], s[..2], []);
    ValueBelowFourDigits(s[2..]);
  }

  /** A volume token with anything after its digits is rejected. */
  lemma VolumeTokenTrailingText()
    ensures ParseVolumeToken("09:00-60a") == None
  {
    var s := "09:00-60a";
    assert TimeGroupChoices(s) == [5, 2, 1];
    assert AmountEnd(s) == |s|;
    assert !IsDigit(s[8]);
    assert AmountAfter(s, 5) == None by { assert !AllDigits(s[6..9]); assert !AllDigits(s[5..9]); }
    assert AmountAfter(s, 2) == None by { assert !AllDigits(s[2..9]) || 4 < 9 - 2; }
    assert AmountAfter(s, 1) == None;
  }
}
