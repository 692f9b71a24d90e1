# Baby feeding and diaper log: verified model of the notation parsers

The repository plots a baby's daily care log. The log is a table with one
row per day. Each row has one free-text cell per category: direct
breastfeeding, pumped milk, formula, urine, stool and weight. Cells are
written in a terse shorthand: `08:00L15R20` is a feeding at 08:00 with 15
minutes on the left and 20 on the right, `09:00-60` is 60 ml at 09:00,
`13:00△` is a diaper change at 13:00 with a note. This project models the
part of the repository that has real grammar. It covers the time and
category parsers, the loops that turn cells into timestamped event lists,
and the per-date counts and totals. Each Python function becomes a Dafny
function, method or lemma. The project proves what those functions accept,
what they reject and what the reductions preserve.

The repository holds three variants of the parsers. They are modelled
separately and deliberately not reconciled:

- **babyplot_data.py**, the current module, is modelled by `DataParse`
  (`parse_time`, `_parse_breast_token`, `_parse_diaper_token` and the
  inline pumped/formula pattern) and `DataRecords` (`parse_records`: the
  row and token loops and the count table).
- **babyplot.py** is modelled by `PlotParse` (`parse_time`,
  `parse_breast_entry`, `parse_diaper_entry`) and `PlotTotals` (the date
  union at lines 97-102 and the daily totals at lines 147-154, lifted out
  of `plot_with_matplotlib`).
- **main.py**, the earliest prototype, is modelled by `ProtoParse`
  (`parse_breast_entry` and the inline volume rule) and `ProtoRecords`
  (the row and token loops of `main()`). Its `parse_time` has the same text
  as babyplot.py's, so `PlotParse.ParseTime` models both.

Shared modules:

- `Wrappers` defines `Option` and `Result`.
- `Text` models `str.isdigit`, `int`, `strip` and `split`.
- `Clock` models `strptime(s, "%H:%M")` as a hand-written backtracking
  matcher.
- `Lex` holds greedy regex fragments shared by babyplot.py and main.py.
- `Tally` holds dates, the sorted union of dates and per-date sums.
- `Cells` holds the order-preserving list builders used by the loops.

The variants differ in ways the model states rather than hides:

| | babyplot_data.py | babyplot.py | main.py |
|---|---|---|---|
| bare hour | 1-2 digits, 0-23, else refused without `strptime` | any all-digit text below 24 (`"007"` is 07:30) | as babyplot.py |
| time group | `\d{1,2}(?::\d{2})?` | `\d{1,2}:?\d{0,2}` | `\d{1,2}:?\d{0,2}` |
| breast length | sum of every `[LR]?\d{1,3}` group of the rest | first two `[LR]\d{1,2}` parts | first two `[LR]\d{1,2}` parts |
| breast note | the rest when it holds no digit | the stripped rest after the parts | none |
| non-digit breast token | (None, None, None) | (None, None, None) | raises `UnboundLocalError` |
| volume | whole-token match, hyphen optional, 1-4 digits | not present | prefix match, hyphen required, 1-3 digits, suffix ignored |
| diaper | time prefix plus note | time prefix plus note | `parse_time` of the whole token, no note |

Greedy matching is modelled character by character. For example,
`DataParse.VolumeTokenDigits` shows that the pumped pattern reads `"1234"`
as 12:30 with amount 34. `PlotParse.BreastEntryDigits` shows that the
babyplot.py time group takes all of `"0800"`, which `parse_time` then
refuses.

Some consequences of the code that a reader might not expect:

- In babyplot_data.py the volume hyphen is optional (`-?`), so `"09:0060"`
  is 09:00 and 60 ml.
- In main.py the hyphen is mandatory, but the amount is only matched as a
  prefix: `"12:30-100a"` is kept with 100 ml.
- The doc comments of both `parse_breast_entry` functions say `'9'` gives
  09:00. The code gives 09:30 (`PlotParse.BreastEntryDigits`,
  `ProtoParse.BreastEntryDigits`).
- The comment above `parse_time` in babyplot.py and main.py speaks of
  15:30. The code gives half past the hour that was read.

Dates are integers: only equality and order are used. A `datetime.time` is
a pair (hour, minute). It is always truthy in Python 3.5 and later, so an
`if t:` in the source is a test of `t is not None`.

## Model

| member | source | states |
|---|---|---|
| Text.Strip | babyplot_data.py:53 | the result is what is left once the surrounding `isspace` characters are removed: empty exactly when the text is all whitespace, otherwise starting and ending in a non-space |
| Text.StripPadded | babyplot_data.py:53 | stripping any whitespace padding off a text whose ends are not whitespace gives back exactly that text |
| Text.Split | babyplot_data.py:139 | `split()` yields only nonempty words without whitespace |
| Text.SplitJoin | babyplot_data.py:139 | `split()` undoes joining whitespace-free words with spaces, so a cell's tokens are its words in order |
| Text.PaddedOfDigits | babyplot_data.py:63 | every one- or two-digit string is the padded text of its value |
| Clock.Strptime | babyplot_data.py:63 | `strptime(s, "%H:%M")` only ever yields a valid time (hour below 24, minute below 60) |
| Clock.StrptimeReadsClockText | babyplot_data.py:62-65 | every time, with or without zero padding of either field, is read back unchanged |
| Clock.StrptimeOnlyClockText | babyplot_data.py:62-65 | conversely, whatever `strptime` accepts is the clock text of the time it returns: no seconds, no other separator, no extra characters |
| Clock.StrptimeParts | babyplot_data.py:63 | an accepted text is an hour field, ':' and a minute field, and the time is their values |
| Clock.StrptimeOfFields | babyplot_data.py:63 | an hour field, ':' and a minute field are read as their values |
| Clock.StrptimeNeedsColon | babyplot.py:43-46 | a text of digits alone is refused by `strptime` |
| Clock.FieldsAreClockText | babyplot_data.py:63 | an hour field and a minute field joined by ':' are the clock text of their values |
| Lex.DigitRun | main.py:100 | a greedy `\d{0,max}` takes a run of digits, stopping at the cap, the end or a non-digit |
| Lex.DigitRunIs | main.py:100 | a digit run that ends at the cap, the end or a non-digit is exactly what the greedy run takes |
| Lex.LineEnd | babyplot.py:57 | `.*` runs up to the first newline, which it does not take |
| Lex.LooseTimeLength | babyplot.py:57 | the greedy time group `\d{1,2}:?\d{0,2}` is empty exactly when the text does not start with a digit |
| Lex.LooseTimeLengthMatches | babyplot.py:57 | what the greedy time group takes is a match of the time pattern |
| Lex.LooseTimeStop | main.py:59 | any match of the time pattern followed by the end or by a character that is neither a digit nor ':' ends where the greedy match ends, so backtracking finds nothing else |
| Lex.SideLength | babyplot.py:57 | a side part `[LR]\d{1,2}` is a side letter and one or two digits |
| Tally.Insert | babyplot_data.py:190 | inserting into an increasing list keeps it increasing and adds exactly that date |
| Tally.SortedUnion | babyplot_data.py:190 | `sorted(set(ds))` is strictly increasing and holds exactly the dates of `ds` |
| Tally.SortedUnionUnique | babyplot.py:102 | any increasing list with exactly the dates of `ds` is `sorted(set(ds))` |
| Tally.IncreasingUnique | babyplot.py:102 | two increasing lists with the same dates are equal |
| Tally.CountOnZero | babyplot_data.py:192-196 | a date's count is zero exactly when the date does not occur |
| Tally.SumOnAbsent | babyplot.py:150-152 | a date that no entry has sums to 0 |
| Tally.SumAllOnes | babyplot_data.py:192 | counting each occurrence once gives the number of occurrences |
| Tally.SumOverSnoc | babyplot.py:149-154 | one more entry adds its quantity to the one date of an increasing date list it falls on, and to no other |
| Tally.SumOverAll | babyplot.py:149-154 | conservation: the per-date sums over an increasing list holding every entry's date add up to the sum of all entries |
| Tally.CountOverAll | babyplot_data.py:190-197 | the per-date counts over an increasing list holding every date add up to the number of dates |
| Tally.TotalConcat | babyplot.py:150-152 | a sum over two runs is the sum of their sums |
| Tally.PermSplit | babyplot.py:150-152 | of two lists holding the same elements as often, the last element of one sits in the other and the rests hold the same elements |
| Tally.TotalPerm | babyplot.py:150-152 | a sum does not depend on the order of the elements |
| Tally.SumOnTotal | babyplot.py:150-152 | the sum on a date adds up what each entry adds to that date |
| Tally.SumOnPerm | babyplot.py:150-152 | the sum on a date does not depend on the order of the entries |
| Cells.KeepStep | babyplot_data.py:139-142 | one more token appends its value, if it is kept, at the end |
| Cells.KeepConcat | babyplot_data.py:139-142 | the values kept from two runs of tokens are those of the first run followed by those of the second |
| Cells.KeepFrom | babyplot_data.py:139-142 | a value is kept exactly when some token gives it |
| Cells.FirstSome | main.py:87-137 | the first failing row gives a failure exactly when some row fails, and then what one of them raises |
| Cells.FirstPrefix | main.py:87-137 | a failing row among the first n rows decides what the whole table raises |
| Cells.FirstStep | main.py:87-137 | one more row decides only when no row before it fails |
| Cells.ConcatAppend | babyplot_data.py:129-182 | the lists of two runs of rows come one after the other |
| Cells.ConcatFrom | babyplot_data.py:129-182 | a value is in the joined lists exactly when it is in some row's list |
| Cells.ConcatPerm | babyplot_data.py:129-182 | the rows in another order give lists holding the same values as often |
| DataParse.ParseTime | babyplot_data.py:45-65 | any result is a valid time; missing, empty or whitespace-only input gives None |
| DataParse.ParseTimeBareHour | babyplot_data.py:56-61 | one or two digits, with any padding, are half past that hour when below 24 and refused from 24 to 99 |
| DataParse.ParseTimeClock | babyplot_data.py:62-65 | every `H:MM` style time with hour 0-23 and minute 0-59, padded or not, round-trips |
| DataParse.ParseTimeOfNonDigits | babyplot_data.py:62-65 | a token that is not all digits is decided by `strptime` alone |
| DataParse.ParseTimeOnly | babyplot_data.py:51-65 | nothing else is accepted: a result is a bare hour at :30 or the clock text of the result |
| DataParse.StrictTimeLength | babyplot_data.py:77 | the greedy time prefix is empty exactly when the token does not start with a digit |
| DataParse.SplitTimePrefix | babyplot_data.py:77-79 | the match has no result when the token does not start with a digit; otherwise the groups are a digit-led time group and a newline-free rest that rebuild the token |
| DataParse.PrefixOfTimeGroup | babyplot_data.py:77 | a full time group followed by text without whitespace is taken as the time group |
| DataParse.DurationGroups | babyplot_data.py:87 | `findall` yields digit groups of one to three digits |
| DataParse.NoGroupsIffNoDigit | babyplot_data.py:85-94 | `findall` finds no group exactly when the rest holds no digit, which is when the rest becomes the note |
| DataParse.OneSide | babyplot_data.py:87 | `findall` reads a side letter and up to three digits as one group before text not starting with a digit |
| DataParse.SidesLeftRight | babyplot_data.py:87-90 | `L<left>R<right>` yields the two groups, and their sum is left plus right |
| DataParse.ParseBreastToken | babyplot_data.py:68-95 | the time is valid; total and note are never both present; a note is nonempty and digit-free |
| DataParse.BreastTokenNeedsDigit | babyplot_data.py:73-79 | a token that does not start with a digit once stripped gives (None, None, None) |
| DataParse.BreastFromParts | babyplot_data.py:80-95 | unfolds the definition, for use by the lemmas on whole tokens: given the two groups: an empty rest gives neither total nor note, a rest with groups gives their sum, any other rest is the note |
| DataParse.BreastTokenLeftRight | babyplot_data.py:77-95 | `HH:MM L<l> R<r>` gives `parse_time` of the prefix, total l + r and no note (`"08:00L15R20"` is 08:00, 35) |
| DataParse.BreastTokenSum | babyplot_data.py:85-92 | a time group followed by a rest in which `findall` finds groups gives their sum as total |
| DataParse.BreastTokenNote | babyplot_data.py:93-94 | a digit-free rest is kept as the note, with no total |
| DataParse.ParseDiaperToken | babyplot_data.py:98-111 | the time is valid; a note is nonempty with no whitespace at either end |
| DataParse.DiaperNote | babyplot_data.py:110 | the note is absent exactly when the rest is all whitespace |
| DataParse.DiaperTokenNeedsDigit | babyplot_data.py:103-108 | a token not starting with a digit gives (None, None) |
| DataParse.DiaperFromParts | babyplot_data.py:109-111 | unfolds the definition, for use by the lemmas on whole tokens: given the two groups, the time is `parse_time` of the first and the note the second, None when empty |
| DataParse.DiaperTokenNote | babyplot_data.py:106-111 | a time group and a whitespace-free note give that time and note (`"13:00△"` is 13:00 and "△", `"16:00"` has no note) |
| DataParse.TimeGroupChoices | babyplot_data.py:147 | every length the volume pattern tries for its first group is a prefix matching `\d{1,2}(?::\d{2})?` |
| DataParse.AmountAfter | babyplot_data.py:147 | `-?(\d{1,4})$` after the first group starts the amount right after it or after one hyphen |
| DataParse.VolumeMatch | babyplot_data.py:147 | a match covers the whole token: a time group, an optional hyphen and one to four digits, with at most a final newline |
| DataParse.VolumeMatchComplete | babyplot_data.py:147 | every token of that shape matches |
| DataParse.VolumeMatchRoundTrip | babyplot_data.py:147-151 | a time group with a hyphen, or a full `HH:MM` directly followed by the amount, is matched as exactly those two groups |
| DataParse.ParseVolumeToken | babyplot_data.py:147-155 | a kept token is a full match with a valid time and an amount below 10000 |
| DataParse.VolumeTokenAccepted | babyplot_data.py:147-155 | unfolds the definition: a token is kept exactly when the whole-token pattern matches and its time group parses, and the amount is `int` of the amount group |
| DataParse.VolumeTokenClock | babyplot_data.py:147-155 | a clock time with two-digit minutes, an optional hyphen and one to four digits is that time and that amount, zero included |
| DataParse.VolumeTokenDigits | babyplot_data.py:147-151 | four digits split greedily as a two-digit hour and a two-digit amount (`"1234"` is 12:30 with 34) |
| DataParse.VolumeTokenTrailingText | babyplot_data.py:147-148 | `"09:00-60a"` is rejected, not truncated |
| DataRecords.Accept | babyplot_data.py:138-182 | a kept token's event carries the row's date, a valid time and the detail kind of its category |
| DataRecords.ScanCell | babyplot_data.py:139-142 | the token loop of one cell builds exactly the kept events of its tokens, in order |
| DataRecords.BuildCounts | babyplot_data.py:191-197 | the count loop builds one count record per date, in the order of the dates |
| DataRecords.ParseRecords | babyplot_data.py:114-207 | `parse_records` returns the column lists, the weight list and the count table of the rows; without a date column every row is skipped and all lists are empty |
| DataRecords.CellEventsStep | babyplot_data.py:139-142 | one more token appends its event, if kept, last |
| DataRecords.ColumnEventsStep | babyplot_data.py:129-142 | one more row appends its cell's events after those of the rows before |
| DataRecords.WeightRecordsStep | babyplot_data.py:185-186 | one more row appends its weight, when present, last |
| DataRecords.CellEventsConcat | babyplot_data.py:139-142 | token order: the events of two runs of tokens come one after the other |
| DataRecords.CellEventsRejected | babyplot_data.py:140-142 | a rejected token leaves the events as they were without it |
| DataRecords.CellEventsAccepted | babyplot_data.py:140-142 | an accepted token puts its event between those of the tokens around it |
| DataRecords.CellEventsRepeated | babyplot_data.py:139-142 | identical accepted tokens each give an event, without deduplication |
| DataRecords.CellEventsFrom | babyplot_data.py:139-142 | an event is in a cell's list exactly when some token of the cell is accepted as it |
| DataRecords.ColumnEventsConcat | babyplot_data.py:129-182 | row order: the events of two runs of rows come one after the other |
| DataRecords.ColumnEventsFrom | babyplot_data.py:129-182 | an event is in a column exactly when it is in some row's cell list |
| DataRecords.ColumnEventsDated | babyplot_data.py:131-142 | every event carries the date of some row and its category's detail kind |
| DataRecords.EventDatesHas | babyplot_data.py:190 | a date is among the events' dates exactly when some event has it |
| DataRecords.CountDatesHas | babyplot_data.py:190 | the count table's candidate dates are exactly the dates of all events of the five lists |
| DataRecords.CountOnEvents | babyplot_data.py:192 | counting a date's occurrences counts the events on that date |
| DataRecords.CountOfIn | babyplot_data.py:192-197 | each count of a record is that category's occurrences of the record's date |
| DataRecords.CountTableDates | babyplot_data.py:190-197 | the count table's dates ascend without duplicates and are exactly the dates with some event (weight plays no part) |
| DataRecords.CountsExact | babyplot_data.py:191-197 | each count is the number of that category's events on the record's date |
| DataRecords.CountsZero | babyplot_data.py:192-197 | a count is zero exactly when that category has no event on the date; such zeros are written out |
| DataRecords.ColumnSumTable | babyplot_data.py:191-197 | a column total of the count table is the sum of per-date counts over its dates |
| DataRecords.ColumnTotal | babyplot_data.py:190-197 | each count column adds up to the length of its category's list |
| DataRecords.CountOnTotal | babyplot_data.py:192-196 | counting a date adds up what each event adds to it |
| DataRecords.EventsOfRecords | babyplot_data.py:129-182 | each event list of the records is its category's column of events |
| DataRecords.CountTableShuffle | babyplot_data.py:129-197 | the rows in another order give event lists holding the same events as often and the same count table, dates and counts alike |
| DataRecords.CountTableOfShuffle | babyplot_data.py:190-197 | event lists holding the same events as often give the same count table |
| DataRecords.CountShuffleOn | babyplot_data.py:192-196 | event lists holding the same events as often count the same on every date |
| PlotParse.ParseTime | babyplot.py:33-47 | any result is a valid time; empty or whitespace-only input gives None |
| PlotParse.ParseTimeDigits | babyplot.py:38-41 | any all-digit text, of any length and with any padding, is half past its value when below 24 and refused otherwise (main.py:40-43 has the same text) |
| PlotParse.ParseTimeLeadingZeros | babyplot.py:38-41 | `"007"` is 07:30 |
| PlotParse.ParseTimeThreeDigits | babyplot.py:38-47 | `"123"` falls through to `strptime` and is refused |
| PlotParse.ParseTimeNotDigits | babyplot.py:42-47 | unfolds the definition: a text that is not all digits is accepted only as a whole `%H:%M` match, padding aside (likewise main.py:44-49) |
| PlotParse.ParseTimeFields | babyplot.py:43-44 | an hour field, ':' and a minute field are read as their values |
| PlotParse.ParseTimeOfNonDigits | babyplot.py:43-46 | a whitespace-free token that is not all digits is decided by `strptime` |
| PlotParse.MatchBreast | babyplot.py:57-58 | the breast pattern fails exactly when the text does not start with a digit |
| PlotParse.MatchSidesWellFormed | babyplot.py:57 | the side groups are side parts, and the second is present only when the first is |
| PlotParse.MatchBreastSides | babyplot.py:57 | the side groups of a breast match are well formed |
| PlotParse.BreastEntrySecondNeedsFirst | babyplot.py:57-63 | with no first side part there is no second |
| PlotParse.SideGroupAt | babyplot.py:57 | what the side matcher measures is a side part |
| PlotParse.MatchSidesCuts | babyplot.py:57 | the side groups are the cuts made by the two greedy side parts, and the rest follows them |
| PlotParse.MatchSidesTwo | babyplot.py:57 | two side parts are both taken, and the rest follows |
| PlotParse.MatchSidesOne | babyplot.py:57 | one side part not followed by another side letter is the first group alone |
| PlotParse.MatchSidesNone | babyplot.py:57 | a rest not starting with a side letter is all rest |
| PlotParse.ParseBreastEntry | babyplot.py:49-68 | any time returned is valid |
| PlotParse.BreastEntryNeedsDigit | babyplot.py:56-68 | a token not starting with a digit gives (None, None, None) |
| PlotParse.BreastEntryOfParts | babyplot.py:57-67 | the time is `parse_time` of the time group, the length comes from the side parts and the note is the stripped rest |
| PlotParse.BreastEntryTwoSides | babyplot.py:53-67 | `hh:mm` and two side parts give the time and the sum of both sides (`"8:20L10R10"` is 08:20, 20, None) |
| PlotParse.BreastEntryOneSide | babyplot.py:57-66 | one side part is the length and what follows is the note (`"8:20L100"` is length 10, note "0") |
| PlotParse.BreastEntryNoSide | babyplot.py:57-66 | no side part: no length, and the rest is the note |
| PlotParse.BreastEntryDigits | babyplot.py:54-67 | one to four digits are all time group: half past their value when below 24, no time otherwise (`"9"` is 09:30, `"0800"` has no time) |
| PlotParse.SideValueOf | babyplot.py:61-63 | `int(group[1:])` of a side part is the value of its digits |
| PlotParse.NoteOfNoSpace | babyplot.py:66 | the note of a whitespace-free rest is the rest, or None when it is empty |
| PlotParse.LooseClockText | babyplot.py:57 | the time group takes a whole clock text when no digit follows |
| PlotParse.LooseDigits | babyplot.py:57 | the time group takes a whole text of one to four digits |
| PlotParse.SideAt | babyplot.py:57 | a side letter and one or two digits not followed by a further digit are read as a side part |
| PlotParse.ParseDiaperEntry | babyplot.py:70-83 | any time returned is valid |
| PlotParse.MatchDiaperEntry | babyplot.py:78-82 | any time read from the stripped text is valid |
| PlotParse.DiaperEntryNeedsDigit | babyplot.py:77-83 | a token not starting with a digit gives (None, None) |
| PlotParse.DiaperEntryOfParts | babyplot.py:78-82 | the time is `parse_time` of the time group, the note the rest |
| PlotParse.DiaperEntryClock | babyplot.py:73-82 | `"09:00△"` is 09:00 and "△"; `"10:30"` is 10:30 and no note |
| PlotParse.DiaperEntryDigits | babyplot.py:78-82 | one to four digits: half past their value when below 24, else no time; no note |
| Tally.Dates | babyplot.py:98-101 | the date column of a frame, row by row (shared by every date column of the model) |
| PlotTotals.FrameDates | babyplot.py:98 | the five date columns, in loop order |
| PlotTotals.Flatten | babyplot.py:102 | the union holds exactly the dates of the frames |
| PlotTotals.FlattenNonEmpty | babyplot.py:99-102 | skipping empty frames does not change the union |
| PlotTotals.CollectDates | babyplot.py:97-102 | `all_dates` is strictly increasing and holds exactly the dates of the frames |
| PlotTotals.AmountEntries | babyplot.py:150-151 | each row of a volume frame contributes its amount on its date |
| PlotTotals.LengthEntries | babyplot.py:152 | each breast row contributes its length on its date, a missing length 0 |
| PlotTotals.FeedingTotals | babyplot.py:147-153 | one feeding total per date |
| PlotTotals.DirectTotals | babyplot.py:148-154 | one direct total per date |
| PlotTotals.VolumeGuard | babyplot.py:150-151 | the `if not ... .empty else 0` guard agrees with the sum |
| PlotTotals.BreastGuard | babyplot.py:152 | the guard agrees with the sum for the breast frame |
| PlotTotals.DayTotals | babyplot.py:150-152 | one date's totals are the sums on that date, 0 where the frame has no row on it |
| PlotTotals.TotalsAsWritten | babyplot.py:147-154 | its ensures follow its body; the content is in DailyTotalsAsWritten and TotalsKeyErrorExample: as written, the totals raise KeyError exactly when there is a date and the pumped, formula or breast frame is empty; otherwise they are the intended totals |
| PlotTotals.DailyTotalsAsWritten | babyplot.py:147-154 | the loop as written computes the totals or raises the KeyError |
| PlotTotals.TotalsAsWrittenAgree | babyplot.py:147-154 | unfolds the definition: with no empty frame, the code as written gives the intended totals |
| PlotTotals.TotalsKeyErrorExample | babyplot.py:150 | a log with one feeding and no pumped milk raises on its only date |
| PlotTotals.DailyTotals | babyplot.py:147-154 | the intended loop: one total per date, in date order, each the sums on that date |
| PlotTotals.TotalsZeroFill | babyplot.py:150-152 | a date on which a frame has no row gets 0 from it |
| PlotTotals.ColumnsOverDates | babyplot.py:147-154 | each totals column adds up to the per-date sums over the dates |
| PlotTotals.TotalsConserve | babyplot.py:147-154 | over the collected dates, the pumped and formula columns add up to all ml of their frames and the breast column to all recorded minutes |
| PlotTotals.DatesPerm | babyplot.py:98-101 | a frame's rows in another order have the same dates |
| PlotTotals.DatesShuffle | babyplot.py:97-102 | frames with their rows in another order give the same `all_dates` |
| PlotTotals.AmountTotal | babyplot.py:150-151 | the ml on a date add up what each volume row adds to it |
| PlotTotals.LengthTotal | babyplot.py:152 | the minutes on a date add up what each breast row adds to them, a missing length adding 0 |
| PlotTotals.TotalsShuffle | babyplot.py:97-154 | frames with their rows in another order give the same dates and the same pumped, formula and breast totals on each |
| ProtoParse.ParseBreastEntry | main.py:51-68 | it raises exactly when the stripped token is empty or does not start with a digit; any time returned is valid |
| ProtoParse.BreastEntryAsLater | main.py:51-68 | where the prototype returns, babyplot.py's version gives the same time and length; where it raises, babyplot.py's gives (None, None, None) |
| ProtoParse.BreastEntryOfParts | main.py:59-67 | the time is `parse_time` of the time group and the length comes from the side parts |
| ProtoParse.BreastEntryTwoSides | main.py:55-63 | `"8:20L10R10"` style gives the time and the sum of both sides, whatever follows |
| ProtoParse.TwoSidesLength | main.py:62-63 | two side parts give the sum of their digits |
| ProtoParse.BreastEntryNoSide | main.py:64-67 | with no side part the length is None |
| ProtoParse.BreastEntryDigits | main.py:56-67 | one to four digits: half past their value when below 24, else no time (`"9"` is 09:30) |
| ProtoParse.BreastEntryUnboundExample | main.py:58-68 | `"○"` raises |
| ProtoParse.MatchVolume | main.py:100 | a match is a greedy time group, a hyphen and one to three digits, with whatever follows ignored |
| ProtoParse.VolumeShape | main.py:100 | the greedy time group, the hyphen and the greedy amount make a match |
| ProtoParse.VolumeOfParts | main.py:100 | the groups are the greedy time group and the amount digits |
| ProtoParse.VolumeGroupsForced | main.py:100 | every way the pattern can match gives the one found |
| ProtoParse.MatchVolumeNone | main.py:100-101 | the pattern fails exactly when no way of matching exists |
| ProtoParse.ParseVolumeToken | main.py:100-106 | a kept token matches at the start once stripped, has a valid time and an amount below 1000 |
| ProtoParse.ReadVolume | main.py:102-104 | `parse_time` of the time group and `int` of the amount |
| ProtoParse.VolumeTokenAccepted | main.py:100-106 | unfolds the definition: a token is kept exactly when the prefix pattern matches and its time group parses, the amount being `int` of the amount group |
| ProtoParse.VolumeTokenOfParts | main.py:100-106 | a token is read as its time and the value of the up to three digits after the hyphen, whatever follows (`"12:30-100a"` and `"10:00-1000"` give 100) |
| ProtoParse.VolumeNeedsHyphen | main.py:100 | a token without a hyphen is never a volume |
| ProtoParse.AmountBelow | main.py:103 | an amount of at most three digits is below 1000 |
| ProtoParse.TimeTokenEndsInDigit | main.py:121-137 | a urine or stool token that parses ends in a digit, so `"13:00△"` and `"09:30×"` are dropped |
| ProtoRecords.Accept | main.py:87-137 | a token raises exactly when it is a breast token not starting with a digit; a kept record carries the row's date, a valid time and its list's detail kind |
| ProtoRecords.ScanCell | main.py:88-94 | one cell's loop raises exactly when one of its tokens does, else builds the records of its tokens in order |
| ProtoRecords.FirstMissing | main.py:88-130 | the first of the five columns, in reading order, that the table lacks; none exactly when all five are there |
| ProtoRecords.ScanColumn | main.py:88-95 | one column block raises `AttributeError` when the table lacks the column, `UnboundLocalError` when a token raises, else builds that cell's records |
| ProtoRecords.ScanRow | main.py:87-137 | one row ends with the failure of its first failing column block, else builds its five lists |
| ProtoRecords.Run | main.py:87-137 | the row loop yields the lists of all rows, or what the first failing row raises |
| ProtoRecords.ListsStep | main.py:87-137 | one more row's records follow those of the rows before it |
| ProtoRecords.ListsColumns | main.py:87-137 | each list is its column's records, row after row |
| ProtoRecords.CellRaisingFrom | main.py:90-91 | a cell raises exactly when one of its tokens does |
| ProtoRecords.OnlyBreastRaises | main.py:87-137 | a row raises exactly when its breast cell does |
| ProtoRecords.BreastTokenRaises | main.py:89-91 | a breast token raises exactly when it does not start with a digit |
| ProtoRecords.BreastCellRaises | main.py:88-91 | a breast cell raises exactly when one of its tokens does not start with a digit |
| ProtoRecords.CellFailureExactly | main.py:88-137 | a column block raises `AttributeError` exactly on a missing column, else `UnboundLocalError` exactly for a breast cell with a token not starting with a digit |
| ProtoRecords.RowFailureExactly | main.py:87-137 | a row raises the `UnboundLocalError` of its breast cell when that column is there and one of its tokens does not start with a digit, else the `AttributeError` of the first missing column, else nothing |
| ProtoRecords.RaisesExactly | main.py:87-137 | `main()` raises exactly when the table has rows and lacks one of the five columns, or some breast token of some row does not start with a digit; with all five columns the error is `UnboundLocalError` |
| ProtoRecords.MissingColumnRaises | main.py:87-137 | a table with rows that lacks a column fails on its first row: `UnboundLocalError` when that row's breast cell raises first, else the `AttributeError` of the first missing column |
| ProtoRecords.CellEventsFrom | main.py:88-94 | a record is in a cell's list exactly when some token of the cell appends it |
| ProtoRecords.ColumnEventsFrom | main.py:87-137 | a record is in a list exactly when it is in some row's cell list |
| ProtoRecords.ColumnEventsDated | main.py:93 | every record carries some row's date, a valid time and its list's detail kind |
| ProtoRecords.ColumnEventsConcat | main.py:87-137 | row order: two runs of rows give their records one after the other |
| ProtoRecords.CellEventsAround | main.py:90-94 | token order: a dropped token changes nothing, a kept one puts its record between those of the tokens around it |

## Left out

- File loading (`load_raw_df`, `load_data`), `pd.read_csv`/`pd.read_excel` and `pd.to_datetime`. The model takes an already-parsed row sequence with integer dates.
- Pandas cell conversion. A missing cell is `None`. A present cell is taken to be its text, so `str()` of a numeric cell (`9.0` for a column pandas read as floats) is not modelled.
- Plotting, argparse, the `main` wiring and every `print`.
- The plotly reduction at babyplot.py:301-328. It takes its dates from seven frames, count and weight included (babyplot.py:302-306), and guards every sum against an empty frame (babyplot.py:311, 316 and 322), so it never raises the KeyError of the Findings row. It gives the intended totals of PlotTotals.DailyTotals over a larger date set, not those of PlotTotals.TotalsAsWritten. It is not modelled separately.
- The commented-out block at the end of main.py, which is dead code.
- Weight values. They are carried as opaque `real` payloads, with no arithmetic.
- Unicode digits: `isdigit`, `\d` and `int` accept non-ASCII digits in Python; the model uses ASCII digits only. Whitespace is Python's `isspace` set, including the Unicode spaces.
- The `babyparse` module that babyplot.py imports is not part of this model. babyplot.py's own copies of its parsers, at lines 33-83, are the ones modelled here.
- DataRecords.ParseRecords: a table without a `date` column is modelled by one flag for the whole table, since `getattr(row, 'date')` fails for every row or for none.
- ProtoRecords.Run: main.py's row loop does not check for a `date` column, because `load_data` raises without one (main.py:29-30). So rows always carry a date. The five category columns are modelled as a set on the table, and a missing one raises.
- ProtoRecords.Run: the output of `print(rec)` is not modelled; the exception also ends `main()` before any plot.
- ProtoParse.VolumeTokenOfParts: the main.py volume rule is stated over a token and the positions of its groups, not over a clock text, a hyphen and digits laid end to end; the concatenated form made the proof too costly.

## Findings

| source | as written | input that shows it | evidently intended | confidence | as-written member | corrected member |
|---|---|---|---|---|---|---|
| babyplot.py:150-152 | `pumped_df[pumped_df['date'] == date]` indexes `'date'` on a frame built from an empty record list, which has no columns, and raises KeyError | breast row on date 1, no pumped, formula or other rows | an empty frame contributes 0, as the date collection at babyplot.py:99 already allows for and as the guarded plotly sums at babyplot.py:311, 316 and 322 do | medium, not executed | PlotTotals.TotalsAsWritten, PlotTotals.TotalsKeyErrorExample | PlotTotals.DailyTotals, PlotTotals.TotalsConserve |
| main.py:58-68 | when the pattern does not match, `return breast_time, breast_length` reads two locals that were never assigned and raises UnboundLocalError, ending `main()` | a breast cell holding `○` | a token that is not a time is skipped, as the later babyplot.py:68 version does by returning (None, None, None) | high, not executed | ProtoParse.ParseBreastEntry, ProtoParse.BreastEntryUnboundExample, ProtoRecords.RaisesExactly | PlotParse.ParseBreastEntry, PlotParse.BreastEntryNeedsDigit, ProtoParse.BreastEntryAsLater |
