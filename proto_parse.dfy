/** The token parsers of main.py, the earliest prototype. Its `parse_time`
    has the same text as babyplot.py's and is `PlotParse.ParseTime` here.
    Its `parse_breast_entry` uses the babyplot.py pattern without the rest
    group and has no result at all when the pattern does not match. The
    volume and diaper rules are the ones written inline in `main()`. */
module ProtoParse {
  import opened Wrappers
  import opened Text
  import opened Clock
  import opened Lex
  import PlotParse

  // ------------------------------------------------------- parse_breast_entry

  /** The `UnboundLocalError` raised by `return breast_time, breast_length`
      when the pattern did not match, so neither local was ever bound. */
  datatype Unbound = Unbound

  /** What `parse_breast_entry` returns: (time, length). */
  datatype BreastReading = BreastReading(time: Option<Time>, length: Option<nat>)

  /** `parse_breast_entry(s)`: `re.match` of
      `(\d{1,2}:?\d{0,2})([LR]\d{1,2})?([LR]\d{1,2})?` on the stripped
      text. Without an end anchor, what follows the side parts is ignored.
      The groups are those of the babyplot.py pattern, whose extra `(.*)`
      always matches without changing the choices before it. */
  function ParseBreastEntry(s: string): (r: Result<BreastReading, Unbound>)
    ensures r.Err? <==> Strip(s) == [] || !IsDigit(Strip(s)[0])
    ensures r.Ok? && r.value.time.Some? ==> Valid(r.value.time.value)
  {
    var t := Strip(s);
    match PlotParse.MatchBreast(t)
      case None => Err(Unbound)
      case Some(m) =>
        PlotParse.MatchBreastSides(t);
        Ok(BreastReading(PlotParse.ParseTime(m.time), PlotParse.SidesLength(m.sides)))
  }

  /** The later babyplot.py version agrees on the time and the length of
      every token the prototype reads, and gives (None, None, None) where
      the prototype raises. */
  lemma {:induction false} BreastEntryAsLater(s: string)
    ensures var r, e := ParseBreastEntry(s), PlotParse.ParseBreastEntry(s);
      if r.Ok? then r.value.time == e.time && r.value.length == e.length
      else e == PlotParse.BreastEntry(None, None, None)
  {
  }

  /** A time group g read whole from a token g + v without whitespace: the
      time is what `parse_time` makes of g, the length comes from the side
      groups of v. */
  lemma {:induction false} BreastEntryOfParts(g: string, v: string)
    requires g != [] && LooseTimeLength(g + v) == |g| && NoSpace(g + v)
    ensures PlotParse.SidesWellFormed(PlotParse.MatchSides(v))
    ensures var r := ParseBreastEntry(g + v);
      && r.Ok? && r.value.time == PlotParse.ParseTime(g)
      && r.value.length == PlotParse.SidesLength(PlotParse.MatchSides(v))
  {
    PlotParse.BreastEntryOfParts(g, v);
    BreastEntryAsLater(g + v);
  }

  /** `hh:mm` and two side parts: the time and the sum of both sides as
      the length ("8:20L10R10" is 08:20 and 20 minutes), whatever follows. */
  lemma {:induction false} BreastEntryTwoSides(hs: string, ms: string, c1: char, d1: string, c2: char, d2: string, rest: string)
    requires HourField(hs) && MinuteField(ms)
    requires (c1 == 'L' || c1 == 'R') && 1 <= |d1| <= 2 && AllDigits(d1)
    requires (c2 == 'L' || c2 == 'R') && 1 <= |d2| <= 2 && AllDigits(d2)
    requires NoSpace(rest) && (|d2| == 2 || rest == [] || !IsDigit(rest[0]))
    ensures var r := ParseBreastEntry((hs + [':'] + ms) + (([c1] + d1) + ([c2] + d2) + rest));
      && r.Ok? && r.value.time == Some(Time(Value(hs), Value(ms)))
      && r.value.length.Some? && r.value.length.value == Value(d1) + Value(d2)
  {
    var g := hs + [':'] + ms;
    var v := ([c1] + d1) + ([c2] + d2) + rest;
    PlotParse.TwoSidesNoSpace(g, c1, d1, c2, d2, rest);
    PlotParse.LooseClockText(g + v, hs, ms, v);
    TwoSidesLength(c1, d1, c2, d2, rest);
    BreastEntryOfParts(g, v);
    PlotParse.ParseTimeFields(hs, ms);
  }

  /** Two side parts give the sum of their digits as the length. */
  lemma {:induction false} TwoSidesLength(c1: char, d1: string, c2: char, d2: string, rest: string)
    requires (c1 == 'L' || c1 == 'R') && 1 <= |d1| <= 2 && AllDigits(d1)
    requires (c2 == 'L' || c2 == 'R') && 1 <= |d2| <= 2 && AllDigits(d2)
    requires NoSpace(rest) && (|d2| == 2 || rest == [] || !IsDigit(rest[0]))
    ensures var sides := PlotParse.MatchSides(([c1] + d1) + ([c2] + d2) + rest);
      && PlotParse.SidesWellFormed(sides) && PlotParse.SidesLength(sides).Some?
      && PlotParse.SidesLength(sides).value == Value(d1) + Value(d2)
  {
    NoNewline(rest);
    PlotParse.MatchSidesTwo(c1, d1, c2, d2, rest);
    PlotParse.SideValueOf(c1, d1);
    PlotParse.SideValueOf(c2, d2);
  }

  /** `hh:mm` with no side part after it: the time, and no length. */
  lemma {:induction false} BreastEntryNoSide(hs: string, ms: string, rest: string)
    requires HourField(hs) && MinuteField(ms) && NoSpace(rest)
    requires rest == [] || (!IsDigit(rest[0]) && rest[0] != 'L' && rest[0] != 'R')
    ensures ParseBreastEntry((hs + [':'] + ms) + rest) == Ok(BreastReading(Some(Time(Value(hs), Value(ms))), None))
  {
    PlotParse.BreastEntryNoSide(hs, ms, rest);
    BreastEntryAsLater((hs + [':'] + ms) + rest);
  }

  /** A token of one to four digits: half past its value when that is below
      24 ("9" is 09:30, although the doc-comment says 09:00), no time
      otherwise, and no length. */
  lemma {:induction false} BreastEntryDigits(d: string)
    requires 1 <= |d| <= 4 && AllDigits(d)
    ensures ParseBreastEntry(d) == Ok(BreastReading(if Value(d) < 24 then Some(Time(Value(d), 30)) else None, None))
  {
    PlotParse.BreastEntryDigits(d);
    BreastEntryAsLater(d);
  }

  /** A token that does not start with a digit raises, such as "○". */
  lemma BreastEntryUnboundExample()
    ensures ParseBreastEntry("○") == Err(Unbound)
  {
    assert !IsSpace('○');
    StripNoSpace("○");
  }

  // ------------------------------------------------- volume tokens in main()

  /** The groups of a match of `(\d{1,2}:?\d{0,2})-(\d{1,3})`. */
  datatype VolumeGroups = VolumeGroups(time: string, amount: string)

  /** The volume pattern matches at the start of t with the time group
      t[..e]: a time group, the hyphen and at least one digit. */
  predicate VolumeAt(t: string, e: nat)
  {
    e + 1 < |t| && LooseTime(t[..e]) && t[e] == '-' && IsDigit(t[e + 1])
  }

  /** `re.match(r'(\d{1,2}:?\d{0,2})-(\d{1,3})', t)`. The time group is
      taken greedily; backtracking could only end it earlier, before a digit
      or ':', where no hyphen can follow (`VolumeGroupsForced`). The amount
      takes up to three digits and anything after them is ignored. */
  function MatchVolume(t: string): (m: Option<VolumeGroups>)
    ensures m.Some? ==>
      var n, k := |m.value.time|, |m.value.amount|;
      && VolumeAt(t, n) && 1 <= k <= 3 && n + 1 + k <= |t|
      && m.value.time == t[..n] && m.value.amount == t[n + 1..n + 1 + k] && AllDigits(m.value.amount)
      && (k == 3 || n + 1 + k == |t| || !IsDigit(t[n + 1 + k]))
  {
    var n := LooseTimeLength(t);
    if n == 0 || n + 1 >= |t| || t[n] != '-' || !IsDigit(t[n + 1]) then None
    else
      var k := DigitRun(t, n + 1, 3);
      VolumeShape(t, n, k);
      Some(VolumeGroups(t[..n], t[n + 1..n + 1 + k]))
  }

  /** What the greedy time group, the hyphen and the greedy amount cover. */
  lemma {:induction false} VolumeShape(t: string, n: nat, k: nat)
    requires n == LooseTimeLength(t) && n != 0 && n + 1 < |t| && t[n] == '-' && IsDigit(t[n + 1])
    requires k == DigitRun(t, n + 1, 3)
    ensures VolumeAt(t, n) && 1 <= k <= 3 && n + 1 + k <= |t| && AllDigits(t[n + 1..n + 1 + k])
    ensures k == 3 || n + 1 + k == |t| || !IsDigit(t[n + 1 + k])
  {
    LooseTimeLengthMatches(t);
  }

  /** t splits into a greedy time group of length n, the hyphen and k
      digits that end the amount. */
  predicate VolumeCut(t: string, n: nat, k: nat)
  {
    && n != 0 && LooseTimeLength(t) == n && n + 1 + k <= |t| && t[n] == '-'
    && 1 <= k <= 3 && AllDigits(t[n + 1..n + 1 + k])
    && (k == 3 || n + 1 + k == |t| || !IsDigit(t[n + 1 + k]))
  }

  /** A greedy time group of length n, the hyphen and k digits that end
      the amount: the groups are t[..n] and those digits. */
  lemma {:induction false} VolumeOfParts(t: string, n: nat, k: nat)
    requires VolumeCut(t, n, k)
    ensures MatchVolume(t) == Some(VolumeGroups(t[..n], t[n + 1..n + 1 + k]))
  {
    assert IsDigit(t[n + 1]) by {
      assert t[n + 1] == t[n + 1..n + 1 + k][0];
    }
    DigitRunIs(t, n + 1, k, 3);
  }

  /** Every way the pattern can match is the one found: the match exists
      and its time group ends where that way's does. */
  lemma {:induction false} VolumeGroupsForced(t: string, e: nat)
    requires VolumeAt(t, e)
    ensures MatchVolume(t).Some? && |MatchVolume(t).value.time| == e
  {
    LooseTimeStop(t, e);
  }

  /** The pattern fails exactly when there is no way to match it. */
  lemma {:induction false} MatchVolumeNone(t: string)
    ensures MatchVolume(t).None? <==> forall e: nat :: !VolumeAt(t, e)
  {
    if exists e: nat :: VolumeAt(t, e) {
      var e: nat :| VolumeAt(t, e);
      VolumeGroupsForced(t, e);
    }
  }

  /** A reading of a pumped or formula token: (time, amount). */
  datatype VolumeReading = VolumeReading(time: Time, amount: nat)

  /** The pumped and formula rule: the pattern on the stripped token, then
      `parse_time` of the time group and `int` of the amount; the token
      counts only when the time parses. */
  function ParseVolumeToken(token: string): (r: Option<VolumeReading>)
    ensures r.Some? ==> Valid(r.value.time) && r.value.amount < 1000
    ensures r.Some? ==> MatchVolume(Strip(token)).Some?
  {
    var m := MatchVolume(Strip(token));
    if m.None? then None else ReadVolume(m.value)
  }

  /** A pumped or formula token is kept exactly when the pattern matches at
      the start of the stripped token and its time group parses; the amount
      is then `int` of the amount group. */
  lemma VolumeTokenAccepted(token: string)
    ensures var m := MatchVolume(Strip(token));
      ParseVolumeToken(token).Some? <==> m.Some? && PlotParse.ParseTime(m.value.time).Some?
    ensures var m := MatchVolume(Strip(token));
      ParseVolumeToken(token).Some? ==>
        ParseVolumeToken(token).value == VolumeReading(PlotParse.ParseTime(m.value.time).value, Value(m.value.amount))
  {
  }

  /** `parse_time` of the time group and `int` of the amount. */
  function ReadVolume(g: VolumeGroups): (r: Option<VolumeReading>)
    requires 1 <= |g.amount| <= 3 && AllDigits(g.amount)
    ensures r.Some? ==> Valid(r.value.time) && r.value.amount < 1000
  {
    var time := PlotParse.ParseTime(g.time);
    if time.None? then None
    else
      AmountBelow(g.amount);
      Some(VolumeReading(time.value, Value(g.amount)))
  }

  /** Three digits at most are below 1000. */
  lemma {:induction false} AmountBelow(a: string)
    requires 1 <= |a| <= 3 && AllDigits(a)
    ensures Value(a) < 1000
  {
    ValueBelow(a);
    assert Pow10(|a|) <= 1000 by {
      assert Pow10(1) == 10 && Pow10(2) == 100 && Pow10(3) == 1000;
    }
  }

  /** A token without whitespace whose greedy time group of length n parses,
      followed by the hyphen and k digits that end the amount, is read as
      that time and the value of those digits. */
  lemma {:induction false} VolumeTokenOfParts(t: string, n: nat, k: nat, time: Time)
    requires NoSpace(t) && VolumeCut(t, n, k)
    requires PlotParse.ParseTime(t[..n]) == Some(time)
    ensures var r := ParseVolumeToken(t);
      r.Some? && r.value.time == time && r.value.amount == Value(t[n + 1..n + 1 + k])
  {
    VolumeOfParts(t, n, k);
    assert MatchVolume(Strip(t)) == Some(VolumeGroups(t[..n], t[n + 1..n + 1 + k]));
  }

  /** The hyphen is mandatory: a token without one is never a volume. */
  lemma {:induction false} VolumeNeedsHyphen(t: string)
    requires '-' !in t
    ensures ParseVolumeToken(t) == None
  {
    StripInside(t);
    assert '-' !in Strip(t);
  }

  /** Every character of the stripped text is a character of the text. */
  lemma {:induction false} StripInside(s: string)
    ensures forall c :: c in Strip(s) ==> c in s
  {
    var r := Strip(s);
    var a := TrimStart(s);
    assert forall c :: c in a ==> c in s by {
      assert a == s[|s| - |a|..];
    }
    assert forall c :: c in TrimEnd(a) ==> c in a by {
      assert TrimEnd(a) == a[..|TrimEnd(a)|];
    }
  }

  // ------------------------------------------- urine and stool tokens in main()

  /** The urine and stool rule is `parse_time` of the whole token, so a
      token that parses ends in a digit: "13:00△" and "09:30×" are dropped. */
  lemma {:induction false} TimeTokenEndsInDigit(t: string)
    requires NoSpace(t) && PlotParse.ParseTime(t).Some?
    ensures t != [] && IsDigit(t[|t| - 1])
  {
    StripNoSpace(t);
    if !AllDigits(t) {
      var hs, ms := StrptimeParts(t);
      assert t[|t| - 1] == ms[|ms| - 1];
    }
  }
}
