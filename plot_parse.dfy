/** The older token parsers kept in babyplot.py: `parse_time`,
    `parse_breast_entry` and `parse_diaper_entry`. They differ from those of
    babyplot_data.py: any all-digit text is a bare hour, the time group is
    the looser `\d{1,2}:?\d{0,2}`, and nothing is anchored at the end. */
module PlotParse {
  import opened Wrappers
  import opened Text
  import opened Clock
  import opened Lex

  // ---------------------------------------------------------------- parse_time

  /** `parse_time(s)`: after stripping, an empty text is refused; an
      all-digit text whose value is below 24 is half past that hour; any
      other text, all-digit ones included, goes to `strptime`. */
  function ParseTime(s: string): (r: Option<Time>)
    ensures r.Some? ==> Valid(r.value)
    ensures AllSpace(s) ==> r.None?
  {
    var t := Strip(s);
    if t == [] then None
    else if AllDigits(t) && Value(t) < 24 then Some(Time(Value(t), 30))
    else Strptime(t)
  }

  /** An all-digit text of any length, once stripped: half past its value
      when that is below 24, refused otherwise. */
  lemma ParseTimeDigits(w1: string, s: string, w2: string)
    requires AllSpace(w1) && AllSpace(w2) && s != [] && AllDigits(s)
    ensures ParseTime(w1 + s + w2) == if Value(s) < 24 then Some(Time(Value(s), 30)) else None
  {
    StripPadded(w1, s, w2);
    StrptimeNeedsColon(s);
  }

  /** "007", with any surrounding whitespace, is 07:30: the value of any
      all-digit text counts, leading zeros and all. */
  lemma ParseTimeLeadingZeros(w1: string, w2: string)
    requires AllSpace(w1) && AllSpace(w2)
    ensures ParseTime(w1 + "007" + w2) == Some(Time(7, 30))
  {
    var s := "007";
    assert Value(s) == 7 by {
      ValueOfThree(s);
      assert DigitValue(s[0]) == 0 && DigitValue(s[1]) == 0 && DigitValue(s[2]) == 7;
    }
    ParseTimeDigits(w1, s, w2);
  }

  /** "123", with any surrounding whitespace, is refused: 123 is no hour,
      and `strptime` wants a ':'. */
  lemma ParseTimeThreeDigits(w1: string, w2: string)
    requires AllSpace(w1) && AllSpace(w2)
    ensures ParseTime(w1 + "123" + w2).None?
  {
    var s := "123";
    assert Value(s) == 123 by {
      ValueOfThree(s);
    }
    ParseTimeDigits(w1, s, w2);
  }

  /** A text that is not all digits is accepted only as a whole "H:M" match
      of `strptime`, surrounding whitespace aside. */
  lemma ParseTimeNotDigits(s: string)
    requires !AllDigits(Strip(s))
    ensures ParseTime(s) == Strptime(Strip(s))
  {
  }

  /** An hour field, ':' and a minute field are read as that time. */
  lemma ParseTimeFields(hs: string, ms: string)
    requires HourField(hs) && MinuteField(ms)
    ensures ParseTime(hs + [':'] + ms) == Some(Time(Value(hs), Value(ms)))
  {
    var g := hs + [':'] + ms;
    assert g != [] && NoSpace(g) && !AllDigits(g) by {
      FieldsNoSpace(hs, ms);
      assert !IsDigit(g[|hs|]);
    }
    ParseTimeOfNonDigits(g);
    StrptimeOfFields(g, hs, ms);
  }

  /** A token without whitespace that is not all digits goes to `strptime`. */
  lemma ParseTimeOfNonDigits(s: string)
    requires s != [] && NoSpace(s) && !AllDigits(s)
    ensures ParseTime(s) == Strptime(s)
  {
    StripNoSpace(s);
  }

  /** A clock text holds no whitespace. */
  lemma FieldsNoSpace(hs: string, ms: string)
    requires AllDigits(hs) && AllDigits(ms)
    ensures NoSpace(hs + [':'] + ms)
  {
    var g := hs + [':'] + ms;
    forall i | 0 <= i < |g| ensures !IsSpace(g[i]) {
      if i < |hs| { assert g[i] == hs[i]; }
      else if i > |hs| { assert g[i] == ms[i - |hs| - 1]; }
    }
  }

  // ------------------------------------------------------ parse_breast_entry

  /** What `parse_breast_entry` returns: (time, length in minutes, note). */
  datatype BreastEntry = BreastEntry(time: Option<Time>, length: Option<nat>, note: Option<string>)

  /** `m.group(k).strip()` as the note, or None when it is empty. */
  function NoteOf(rest: string): Option<string>
  {
    var note := Strip(rest);
    if note == [] then None else Some(note)
  }

  /** The groups of a match of
      `(\d{1,2}:?\d{0,2})([LR]\d{1,2})?([LR]\d{1,2})?(.*)`: the time group
      and the groups matched after it. */
  datatype BreastGroups = BreastGroups(time: string, sides: SideGroups)

  /** The two optional side parts and the rest `.*`. */
  datatype SideGroups = SideGroups(first: Option<string>, second: Option<string>, rest: string)

  /** A side part: `L` or `R` and one or two digits. */
  predicate SideGroup(x: string)
  {
    2 <= |x| <= 3 && (x[0] == 'L' || x[0] == 'R') && AllDigits(x[1..])
  }

  /** Each side group present is a side part, and the second is present
      only when the first is. */
  predicate SidesWellFormed(g: SideGroups)
  {
    && (g.first.Some? ==> SideGroup(g.first.value))
    && (g.second.Some? ==> g.first.Some? && SideGroup(g.second.value))
  }

  /** `re.match` of the breast pattern at the start of t. Once the time
      group matches, the rest always matches, so the greedy first choice is
      the match: the longest time group, then the side parts and the rest
      after it. */
  function MatchBreast(t: string): (m: Option<BreastGroups>)
    ensures m.None? <==> t == [] || !IsDigit(t[0])
  {
    var n := LooseTimeLength(t);
    if n == 0 then None else Some(BreastGroups(t[..n], MatchSides(t[n..])))
  }

  /** `([LR]\d{1,2})?([LR]\d{1,2})?(.*)` at the start of v: each side part
      taken when it is there (the second is tried where the first would
      have been, so it is absent when the first is), and `.*` up to the
      first newline. */
  function MatchSides(v: string): SideGroups
  {
    var a := SideLength(v, 0);
    var b := SideLength(v, a);
    SideGroups(if a == 0 then None else Some(v[..a]),
               if b == 0 then None else Some(v[a..a + b]),
               v[a + b..LineEnd(v, a + b)])
  }

  /** The side groups of a match are side parts, and the second is there
      only when the first is. */
  lemma MatchSidesWellFormed(v: string)
    ensures SidesWellFormed(MatchSides(v))
  {
    SideGroupAt(v, 0);
    assert v[0..SideLength(v, 0)] == v[..SideLength(v, 0)];
    SideGroupAt(v, SideLength(v, 0));
  }

  /** The side groups of a breast match are well formed. */
  lemma MatchBreastSides(t: string)
    requires MatchBreast(t).Some?
    ensures SidesWellFormed(MatchBreast(t).value.sides)
  {
    MatchSidesWellFormed(t[LooseTimeLength(t)..]);
  }

  /** What `SideLength` measures is a side part. */
  lemma SideGroupAt(t: string, p: nat)
    requires p <= |t|
    ensures SideLength(t, p) != 0 ==> SideGroup(t[p..p + SideLength(t, p)])
  {
    var a := SideLength(t, p);
    if a != 0 {
      assert t[p..p + a][1..] == t[p + 1..p + a];
    }
  }

  /** `int(group[1:])` of a side part. */
  function SideValue(x: string): nat
    requires SideGroup(x)
  {
    Value(x[1..])
  }

  /** The length: the sum of both sides when the second is there, the
      first side alone when only it is, else None. */
  function SidesLength(g: SideGroups): Option<nat>
    requires SidesWellFormed(g)
  {
    if g.second.Some? then Some(SideValue(g.first.value) + SideValue(g.second.value))
    else if g.first.Some? then Some(SideValue(g.first.value))
    else None
  }

  /** `parse_breast_entry(s)`: the match on the stripped text, the time
      group through `parse_time`, the length from the side parts and the
      stripped rest as note. */
  function ParseBreastEntry(s: string): (r: BreastEntry)
    ensures r.time.Some? ==> Valid(r.time.value)
  {
    var t := Strip(s);
    match MatchBreast(t)
      case None => BreastEntry(None, None, None)
      case Some(m) =>
        MatchBreastSides(t);
        BreastEntry(ParseTime(m.time), SidesLength(m.sides), NoteOf(m.sides.rest))
  }

  /** A token that does not start with a digit once stripped gives
      (None, None, None). */
  lemma BreastEntryNeedsDigit(s: string)
    requires Strip(s) == [] || !IsDigit(Strip(s)[0])
    ensures ParseBreastEntry(s) == BreastEntry(None, None, None)
  {
  }

  /** A time group g read whole from a token g + v without whitespace: the
      time is what `parse_time` makes of g, the length and the note come
      from the side groups of v. */
  lemma {:induction false} BreastEntryOfParts(g: string, v: string)
    requires g != [] && LooseTimeLength(g + v) == |g| && NoSpace(g + v)
    ensures SidesWellFormed(MatchSides(v))
    ensures ParseBreastEntry(g + v)
         == BreastEntry(ParseTime(g), SidesLength(MatchSides(v)), NoteOf(MatchSides(v).rest))
  {
    var t := g + v;
    StripNoSpace(t);
    assert t[..|g|] == g && t[|g|..] == v;
    MatchSidesWellFormed(v);
  }

  /** Two side parts, the second not followed by a digit it could have
      taken, and a rest without newline. */
  lemma {:induction false} MatchSidesTwo(c1: char, d1: string, c2: char, d2: string, rest: string)
    requires (c1 == 'L' || c1 == 'R') && 1 <= |d1| <= 2 && AllDigits(d1)
    requires (c2 == 'L' || c2 == 'R') && 1 <= |d2| <= 2 && AllDigits(d2)
    requires (|d2| == 2 || rest == [] || !IsDigit(rest[0])) && '\n' !in rest
    ensures MatchSides(([c1] + d1) + ([c2] + d2) + rest) == SideGroups(Some([c1] + d1), Some([c2] + d2), rest)
  {
    var p1, p2 := [c1] + d1, [c2] + d2;
    var v := p1 + p2 + rest;
    assert v == [] + p1 + (p2 + rest);
    SideAfter(v, [], c1, d1, p2 + rest);
    SideAfter(v, p1, c2, d2, rest);
    var a, b := |p1|, |p2|;
    assert v[..a] == p1 && v[a..a + b] == p2 && v[a + b..] == rest;
    MatchSidesCuts(v, a, b);
  }

  /** The side groups of v, once the lengths of its side parts are known
      and no newline follows them. */
  lemma MatchSidesCuts(v: string, a: nat, b: nat)
    requires a + b <= |v| && SideLength(v, 0) == a && SideLength(v, a) == b
    requires '\n' !in v[a + b..]
    ensures MatchSides(v) == SideGroups(if a == 0 then None else Some(v[..a]),
                                        if b == 0 then None else Some(v[a..a + b]),
                                        v[a + b..])
  {
    LineEndNoNewline(v, a + b);
    assert v[a + b..LineEnd(v, a + b)] == v[a + b..];
  }

  /** One side part, not followed by a digit it could have taken nor by a
      second side letter, and a rest without newline. */
  lemma {:induction false} MatchSidesOne(c: char, d: string, rest: string)
    requires (c == 'L' || c == 'R') && 1 <= |d| <= 2 && AllDigits(d)
    requires |d| == 2 || rest == [] || !IsDigit(rest[0])
    requires rest == [] || (rest[0] != 'L' && rest[0] != 'R')
    requires '\n' !in rest
    ensures MatchSides(([c] + d) + rest) == SideGroups(Some([c] + d), None, rest)
  {
    var p := [c] + d;
    var v := p + rest;
    assert v == [] + p + rest;
    SideAfter(v, [], c, d, rest);
    if |p| < |v| {
      assert v[|p|] == rest[0];
    }
    assert v[..|p|] == p && v[|p|..] == rest;
    LineEndNoNewline(v, |p|);
  }

  /** No side part: a rest that does not start with a side letter and has
      no newline is the rest group. */
  lemma MatchSidesNone(rest: string)
    requires rest == [] || (rest[0] != 'L' && rest[0] != 'R')
    requires '\n' !in rest
    ensures MatchSides(rest) == SideGroups(None, None, rest)
  {
    LineEndNoNewline(rest, 0);
    assert rest[0..|rest|] == rest;
  }

  /** `hh:mm` and two side parts: the time, the sum of both sides as the
      length and the stripped rest as note ("8:20L10R10" is 08:20 and 20
      minutes, with no note). */
  lemma {:induction false} BreastEntryTwoSides(hs: string, ms: string, c1: char, d1: string, c2: char, d2: string, note: string)
    requires HourField(hs) && MinuteField(ms)
    requires (c1 == 'L' || c1 == 'R') && 1 <= |d1| <= 2 && AllDigits(d1)
    requires (c2 == 'L' || c2 == 'R') && 1 <= |d2| <= 2 && AllDigits(d2)
    requires NoSpace(note) && (|d2| == 2 || note == [] || !IsDigit(note[0]))
    ensures var e := ParseBreastEntry((hs + [':'] + ms) + (([c1] + d1) + ([c2] + d2) + note));
      && e.time == Some(Time(Value(hs), Value(ms)))
      && e.length.Some? && e.length.value == Value(d1) + Value(d2)
      && e.note == if note == [] then None else Some(note)
  {
    var g, p1, p2 := hs + [':'] + ms, [c1] + d1, [c2] + d2;
    var v := p1 + p2 + note;
    TwoSidesNoSpace(g, c1, d1, c2, d2, note);
    LooseClockText(g + v, hs, ms, v);
    NoNewline(note);
    MatchSidesTwo(c1, d1, c2, d2, note);
    BreastEntryOfParts(g, v);
    SideValueOf(c1, d1);
    SideValueOf(c2, d2);
    ParseTimeFields(hs, ms);
    NoteOfNoSpace(note);
  }

  /** A clock text, two side parts and a note hold no whitespace when the
      note holds none. */
  lemma {:induction false} TwoSidesNoSpace(g: string, c1: char, d1: string, c2: char, d2: string, note: string)
    requires NoSpace(g) && AllDigits(d1) && AllDigits(d2)
    requires (c1 == 'L' || c1 == 'R') && (c2 == 'L' || c2 == 'R') && NoSpace(note)
    ensures NoSpace(g + (([c1] + d1) + ([c2] + d2) + note))
  {
    var p1, p2 := [c1] + d1, [c2] + d2;
    SidePartNoSpace(c1, d1);
    SidePartNoSpace(c2, d2);
    NoSpaceConcat(p1, p2);
    NoSpaceConcat(p1 + p2, note);
    NoSpaceConcat(g, p1 + p2 + note);
  }

  /** `hh:mm` and one side part: that side alone is the length, and what
      follows is the note ("8:20L100" is 08:20, 10 minutes and note "0"). */
  lemma {:induction false} BreastEntryOneSide(hs: string, ms: string, c: char, d: string, note: string)
    requires HourField(hs) && MinuteField(ms)
    requires (c == 'L' || c == 'R') && 1 <= |d| <= 2 && AllDigits(d)
    requires NoSpace(note) && (|d| == 2 || note == [] || !IsDigit(note[0]))
    requires note == [] || (note[0] != 'L' && note[0] != 'R')
    ensures var e := ParseBreastEntry((hs + [':'] + ms) + (([c] + d) + note));
      && e.time == Some(Time(Value(hs), Value(ms)))
      && e.length == Some(Value(d))
      && e.note == if note == [] then None else Some(note)
  {
    var g, p := hs + [':'] + ms, [c] + d;
    var v := p + note;
    SidePartNoSpace(c, d);
    NoSpaceConcat(p, note);
    NoSpaceConcat(g, v);
    LooseClockText(g + v, hs, ms, v);
    NoNewline(note);
    MatchSidesOne(c, d, note);
    BreastEntryOfParts(g, v);
    SideValueOf(c, d);
    ParseTimeFields(hs, ms);
    NoteOfNoSpace(note);
  }

  /** `hh:mm` and a note that does not start with a digit or a side letter:
      no length, and the note is kept. */
  lemma {:induction false} BreastEntryNoSide(hs: string, ms: string, note: string)
    requires HourField(hs) && MinuteField(ms) && NoSpace(note)
    requires note == [] || (!IsDigit(note[0]) && note[0] != 'L' && note[0] != 'R')
    ensures ParseBreastEntry((hs + [':'] + ms) + note)
         == BreastEntry(Some(Time(Value(hs), Value(ms))), None, if note == [] then None else Some(note))
  {
    var g := hs + [':'] + ms;
    FieldsNoSpace(hs, ms);
    NoSpaceConcat(g, note);
    LooseClockText(g + note, hs, ms, note);
    NoNewline(note);
    MatchSidesNone(note);
    BreastEntryOfParts(g, note);
    ParseTimeFields(hs, ms);
    NoteOfNoSpace(note);
  }

  /** A token of one to four digits is all time group: half past its value
      when that is below 24 ("9" is 09:30, although the doc-comment says
      09:00), no time at all otherwise ("0800"), and neither length nor
      note. */
  lemma {:induction false} BreastEntryDigits(d: string)
    requires 1 <= |d| <= 4 && AllDigits(d)
    ensures ParseBreastEntry(d)
         == BreastEntry(if Value(d) < 24 then Some(Time(Value(d), 30)) else None, None, None)
  {
    assert d + [] == d && [] + d + [] == d;
    LooseDigits(d);
    assert NoSpace(d);
    MatchSidesNone([]);
    BreastEntryOfParts(d, []);
    ParseTimeDigits([], d, []);
  }

  /** The second side group needs the first: it is tried where the first
      would have been. */
  lemma BreastEntrySecondNeedsFirst(t: string)
    requires MatchBreast(t).Some? && MatchBreast(t).value.sides.first.None?
    ensures MatchBreast(t).value.sides.second.None?
  {
    MatchBreastSides(t);
  }

  // ------------------------------------------------------- parse_diaper_entry

  /** What `parse_diaper_entry` returns: (time, note). */
  datatype DiaperEntry = DiaperEntry(time: Option<Time>, note: Option<string>)

  /** `parse_diaper_entry(s)`: `re.match(r'(\d{1,2}:?\d{0,2})(.*)', s)` on
      the stripped text; the time group greedy, the note what `.*` takes
      up to the first newline, stripped, or None when empty. */
  function ParseDiaperEntry(s: string): (r: DiaperEntry)
    ensures r.time.Some? ==> Valid(r.time.value)
  {
    MatchDiaperEntry(Strip(s))
  }

  /** The match of `parse_diaper_entry` on the stripped text t. */
  function MatchDiaperEntry(t: string): (r: DiaperEntry)
    ensures r.time.Some? ==> Valid(r.time.value)
  {
    var n := LooseTimeLength(t);
    if n == 0 then DiaperEntry(None, None)
    else DiaperEntry(ParseTime(t[..n]), NoteOf(t[n..LineEnd(t, n)]))
  }

  /** A token that does not start with a digit once stripped gives (None, None). */
  lemma DiaperEntryNeedsDigit(s: string)
    requires Strip(s) == [] || !IsDigit(Strip(s)[0])
    ensures ParseDiaperEntry(s) == DiaperEntry(None, None)
  {
  }

  /** A time group g read whole from a token g + v without whitespace: the
      time is what `parse_time` makes of g and v is the note. */
  lemma {:induction false} DiaperEntryOfParts(g: string, v: string)
    requires g != [] && LooseTimeLength(g + v) == |g| && NoSpace(g + v)
    ensures ParseDiaperEntry(g + v) == DiaperEntry(ParseTime(g), NoteOf(v))
  {
    var t := g + v;
    StripNoSpace(t);
    NoNewline(t);
    assert t[..|g|] == g && t[|g|..] == v;
    LineEndNoNewline(t, |g|);
  }

  /** `hh:mm` and a note that does not start with a digit: the time and the
      note ("09:00△" is 09:00 and "△", "10:30" is 10:30 and no note). */
  lemma {:induction false} DiaperEntryClock(hs: string, ms: string, note: string)
    requires HourField(hs) && MinuteField(ms) && NoSpace(note)
    requires note == [] || !IsDigit(note[0])
    ensures ParseDiaperEntry((hs + [':'] + ms) + note)
         == DiaperEntry(Some(Time(Value(hs), Value(ms))), if note == [] then None else Some(note))
  {
    var g := hs + [':'] + ms;
    FieldsNoSpace(hs, ms);
    NoSpaceConcat(g, note);
    LooseClockText(g + note, hs, ms, note);
    DiaperEntryOfParts(g, note);
    ParseTimeFields(hs, ms);
    NoteOfNoSpace(note);
  }

  /** A token of one to four digits: half past its value when that is below
      24, no time otherwise, and no note. */
  lemma {:induction false} DiaperEntryDigits(d: string)
    requires 1 <= |d| <= 4 && AllDigits(d)
    ensures ParseDiaperEntry(d)
         == DiaperEntry(if Value(d) < 24 then Some(Time(Value(d), 30)) else None, None)
  {
    assert d + [] == d && [] + d + [] == d;
    LooseDigits(d);
    assert NoSpace(d);
    DiaperEntryOfParts(d, []);
    ParseTimeDigits([], d, []);
    assert Strip([]) == [];
  }

  // ------------------------------------------------- reading whole tokens

  /** The time group takes a whole clock text when no digit follows it. */
  lemma {:induction false} LooseClockText(s: string, hs: string, ms: string, x: string)
    requires s == hs + [':'] + ms + x
    requires HourField(hs) && MinuteField(ms) && (x == [] || !IsDigit(x[0]))
    ensures LooseTimeLength(s) == |hs| + 1 + |ms|
  {
    var h := |hs|;
    assert s[0..h] == hs && s[h] == ':';
    DigitRunIs(s, 0, h, 2);
    assert s[h + 1..h + 1 + |ms|] == ms;
    if h + 1 + |ms| < |s| {
      assert s[h + 1 + |ms|] == x[0];
    }
    DigitRunIs(s, h + 1, |ms|, 2);
  }

  /** The time group takes a whole text of one to four digits. */
  lemma {:induction false} LooseDigits(d: string)
    requires 1 <= |d| <= 4 && AllDigits(d)
    ensures LooseTimeLength(d) == |d|
  {
    var a := if |d| < 2 then |d| else 2;
    assert AllDigits(d[0..a]);
    DigitRunIs(d, 0, a, 2);
    assert AllDigits(d[a..|d|]);
    DigitRunIs(d, a, |d| - a, 2);
  }

  /** A side letter and one or two digits at p, with no digit after a
      single one: the side part is read there. */
  lemma {:induction false} SideAt(s: string, p: nat, c: char, d: string)
    requires (c == 'L' || c == 'R') && 1 <= |d| <= 2 && AllDigits(d)
    requires p + 1 + |d| <= |s| && s[p] == c && s[p + 1..p + 1 + |d|] == d
    requires |d| == 2 || p + 1 + |d| == |s| || !IsDigit(s[p + 1 + |d|])
    ensures SideLength(s, p) == 1 + |d|
  {
    DigitRunIs(s, p + 1, |d|, 2);
  }

  /** A side part after u, followed by y that does not go on with a digit
      the part could have taken: it is read whole. */
  lemma {:induction false} SideAfter(s: string, u: string, c: char, d: string, y: string)
    requires s == u + ([c] + d) + y
    requires (c == 'L' || c == 'R') && 1 <= |d| <= 2 && AllDigits(d)
    requires |d| == 2 || y == [] || !IsDigit(y[0])
    ensures SideLength(s, |u|) == 1 + |d|
  {
    var p := |u|;
    assert s[p] == c;
    assert s[p + 1..p + 1 + |d|] == d;
    if p + 1 + |d| < |s| {
      assert s[p + 1 + |d|] == y[0];
    }
    SideAt(s, p, c, d);
  }

  /** The value of a side part is that of its digits. */
  lemma SideValueOf(c: char, d: string)
    requires (c == 'L' || c == 'R') && 1 <= |d| <= 2 && AllDigits(d)
    ensures SideGroup([c] + d) && SideValue([c] + d) == Value(d)
  {
    assert ([c] + d)[1..] == d;
    assert forall i :: 1 <= i < |[c] + d| ==> ([c] + d)[i] == d[i - 1];
  }

  /** A side part holds no whitespace. */
  lemma {:induction false} SidePartNoSpace(c: char, d: string)
    requires (c == 'L' || c == 'R') && AllDigits(d)
    ensures NoSpace([c] + d)
  {
    assert forall i :: 1 <= i < |[c] + d| ==> ([c] + d)[i] == d[i - 1];
  }

  /** The note of a rest without whitespace: the rest itself, or None. */
  lemma NoteOfNoSpace(rest: string)
    requires NoSpace(rest)
    ensures NoteOf(rest) == if rest == [] then None else Some(rest)
  {
    StripNoSpace(rest);
  }
}
