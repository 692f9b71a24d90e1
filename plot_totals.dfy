/** The per-day reduction inside `plot_with_matplotlib` of babyplot.py: the
    sorted union of the dates of the five event frames, and for each of
    those dates the pumped, formula and direct-breastfeeding totals.

    A frame is the list of its rows. The frames come from record lists, so
    an empty frame has no columns at all: `"date" in d.columns` holds
    exactly when the frame has rows, and indexing `d['date']` on an empty
    frame raises KeyError. */
module PlotTotals {
  import opened Wrappers
  import opened Tally

  /** A row of the breast frame: its date and its length in minutes, NaN
      (None) when the token gave no length. */
  datatype BreastRow = BreastRow(date: Date, length: Option<nat>)

  /** A row of the pumped or the formula frame: its date and amount in ml. */
  datatype VolumeRow = VolumeRow(date: Date, amount: nat)

  /** `[date, pumped_total, formula_total]` of `feeding_totals`. */
  datatype FeedingTotal = FeedingTotal(date: Date, pumped: nat, formula: nat)

  /** `[date, breast_total]` of `direct_totals`. */
  datatype DirectTotal = DirectTotal(date: Date, breast: nat)

  /** The KeyError raised by `df['date']` on a frame without columns. */
  datatype TotalsError = MissingDateColumn

  // ------------------------------------------------------------- the dates

  /** The `date` field of a breast row and of a volume row. */
  function BreastDate(r: BreastRow): Date { r.date }

  function VolumeDate(r: VolumeRow): Date { r.date }

  /** The `date` columns of the five frames, in the order of the loop. */
  function FrameDates(breast: seq<BreastRow>, pumped: seq<VolumeRow>, formula: seq<VolumeRow>,
                      urine: seq<Date>, stool: seq<Date>): (fs: seq<seq<Date>>)
    ensures |fs| == 5
  {
    [Dates(BreastDate, breast), Dates(VolumeDate, pumped), Dates(VolumeDate, formula), urine, stool]
  }

  /** All the lists one after the other. */
  function Flatten(fs: seq<seq<Date>>): (ds: seq<Date>)
    ensures forall d :: d in ds <==> exists k :: 0 <= k < |fs| && d in fs[k]
  {
    if fs == [] then []
    else
      var ds := Flatten(fs[..|fs| - 1]) + fs[|fs| - 1];
      assert forall k :: 0 <= k < |fs| - 1 ==> fs[..|fs| - 1][k] == fs[k];
      ds
  }

  /** The lists that are not empty: the frames that pass the
      `not d.empty and "date" in d.columns` test. */
  function NonEmpty(fs: seq<seq<Date>>): seq<seq<Date>>
  {
    if fs == [] then []
    else NonEmpty(fs[..|fs| - 1]) + (if fs[|fs| - 1] == [] then [] else [fs[|fs| - 1]])
  }

  /** Leaving out the empty lists changes nothing in the union. */
  lemma {:induction false} FlattenNonEmpty(fs: seq<seq<Date>>)
    ensures Flatten(NonEmpty(fs)) == Flatten(fs)
  {
    if fs != [] {
      var init, last := fs[..|fs| - 1], fs[|fs| - 1];
      FlattenNonEmpty(init);
      assert fs[..|fs| - 1] == init;
      if last == [] {
        assert NonEmpty(fs) == NonEmpty(init);
        assert Flatten(fs) == Flatten(init) + [];
      } else {
        var ne := NonEmpty(init) + [last];
        assert NonEmpty(fs) == ne;
        assert ne[..|ne| - 1] == NonEmpty(init);
        assert Flatten(ne) == Flatten(NonEmpty(init)) + last;
      }
    }
  }

  /** Lines 97-102: `date_sets` collects `set(d["date"])` of every frame
      with rows, and `all_dates` is `sorted(set().union(*date_sets))`, or
      `[]` when no frame has rows. The result is every date of every frame,
      each once, in ascending order. */
  method CollectDates(frames: seq<seq<Date>>) returns (allDates: seq<Date>)
    ensures allDates == SortedUnion(Flatten(frames))
    ensures Increasing(allDates)
    ensures forall d :: d in allDates <==> exists k :: 0 <= k < |frames| && d in frames[k]
  {
    var dateSets: seq<seq<Date>> := [];
    for k := 0 to |frames|
      invariant dateSets == NonEmpty(frames[..k])
    {
      assert frames[..k + 1][..k] == frames[..k];
      if frames[k] != [] {
        dateSets := dateSets + [frames[k]];
      }
    }
    assert frames[..|frames|] == frames;
    FlattenNonEmpty(frames);
    if dateSets != [] {
      allDates := SortedUnion(Flatten(dateSets));
    } else {
      allDates := [];
    }
  }

  // ------------------------------------------------------------ the totals

  /** The amounts of a volume frame as per-date quantities. */
  function AmountEntries(rows: seq<VolumeRow>): (es: seq<Entry>)
    ensures |es| == |rows| && forall i :: 0 <= i < |rows| ==> es[i] == Entry(rows[i].date, rows[i].amount)
  {
    seq(|rows|, i requires 0 <= i < |rows| => Entry(rows[i].date, rows[i].amount))
  }

  /** The lengths of the breast frame as per-date quantities; `sum()`
      skips NaN, so a missing length adds 0. */
  function LengthEntries(rows: seq<BreastRow>): (es: seq<Entry>)
    ensures |es| == |rows|
    ensures forall i :: 0 <= i < |rows| ==>
      es[i] == Entry(rows[i].date, if rows[i].length.Some? then rows[i].length.value else 0)
  {
    seq(|rows|, i requires 0 <= i < |rows| =>
      Entry(rows[i].date, if rows[i].length.Some? then rows[i].length.value else 0))
  }

  /** The totals of each date: the pumped and formula amounts on it, 0 when
      there are none. */
  function FeedingTotals(pumped: seq<VolumeRow>, formula: seq<VolumeRow>, dates: seq<Date>): (ts: seq<FeedingTotal>)
    ensures |ts| == |dates|
  {
    seq(|dates|, i requires 0 <= i < |dates| =>
      FeedingTotal(dates[i], SumOn(AmountEntries(pumped), dates[i]), SumOn(AmountEntries(formula), dates[i])))
  }

  /** The breastfeeding minutes of each date, 0 when there are none. */
  function DirectTotals(breast: seq<BreastRow>, dates: seq<Date>): (ts: seq<DirectTotal>)
    ensures |ts| == |dates|
  {
    seq(|dates|, i requires 0 <= i < |dates| => DirectTotal(dates[i], SumOn(LengthEntries(breast), dates[i])))
  }

  /** `df[df['date'] == date]` is empty: no row on that date. */
  predicate NoneOnVolume(rows: seq<VolumeRow>, d: Date)
  {
    forall i :: 0 <= i < |rows| ==> rows[i].date != d
  }

  predicate NoneOnBreast(rows: seq<BreastRow>, d: Date)
  {
    forall i :: 0 <= i < |rows| ==> rows[i].date != d
  }

  /** The `... if not ....empty else 0` guard gives what the sum gives:
      with no row on the date the sum is 0 anyway. */
  lemma VolumeGuard(rows: seq<VolumeRow>, d: Date)
    requires NoneOnVolume(rows, d)
    ensures SumOn(AmountEntries(rows), d) == 0
  {
    assert Dates(EntryDate, AmountEntries(rows)) == Dates(VolumeDate, rows);
    SumOnAbsent(AmountEntries(rows), d);
  }

  lemma BreastGuard(rows: seq<BreastRow>, d: Date)
    requires NoneOnBreast(rows, d)
    ensures SumOn(LengthEntries(rows), d) == 0
  {
    assert Dates(EntryDate, LengthEntries(rows)) == Dates(BreastDate, rows);
    SumOnAbsent(LengthEntries(rows), d);
  }

  /** The reduction of lines 147-154 as written: as soon as there is a
      date, an empty pumped, formula or breast frame raises KeyError. */
  function TotalsAsWritten(breast: seq<BreastRow>, pumped: seq<VolumeRow>, formula: seq<VolumeRow>, dates: seq<Date>)
    : (r: Result<(seq<FeedingTotal>, seq<DirectTotal>), TotalsError>)
    ensures r.Err? <==> dates != [] && (pumped == [] || formula == [] || breast == [])
    ensures r.Ok? ==> r.value == (FeedingTotals(pumped, formula, dates), DirectTotals(breast, dates))
  {
    if dates != [] && (pumped == [] || formula == [] || breast == []) then Err(MissingDateColumn)
    else Ok((FeedingTotals(pumped, formula, dates), DirectTotals(breast, dates)))
  }

  /** Lines 147-154 as written: the loop over `all_dates`, each total the
      sum on that date or 0 when the filtered frame is empty, and KeyError
      from `pumped_df['date']`, `formula_df['date']` or `breast_df['date']`
      on a frame without columns. */
  method DailyTotalsAsWritten(breast: seq<BreastRow>, pumped: seq<VolumeRow>, formula: seq<VolumeRow>, allDates: seq<Date>)
    returns (r: Result<(seq<FeedingTotal>, seq<DirectTotal>), TotalsError>)
    ensures r == TotalsAsWritten(breast, pumped, formula, allDates)
  {
    var feeding: seq<FeedingTotal> := [];
    var direct: seq<DirectTotal> := [];
    for i := 0 to |allDates|
      invariant feeding == FeedingTotals(pumped, formula, allDates[..i])
      invariant direct == DirectTotals(breast, allDates[..i])
      invariant i > 0 ==> pumped != [] && formula != [] && breast != []
    {
      var date := allDates[i];
      if pumped == [] || formula == [] || breast == [] {
        return Err(MissingDateColumn);
      }
      var p, f, b := DayTotals(breast, pumped, formula, date);
      feeding := feeding + [FeedingTotal(date, p, f)];
      direct := direct + [DirectTotal(date, b)];
    }
    assert allDates[..|allDates|] == allDates;
    r := Ok((feeding, direct));
  }

  /** The body of the loop for one date: each total is the sum over the
      rows of that date, or 0 when the filter leaves no row. */
  method DayTotals(breast: seq<BreastRow>, pumped: seq<VolumeRow>, formula: seq<VolumeRow>, date: Date)
    returns (p: nat, f: nat, b: nat)
    ensures p == SumOn(AmountEntries(pumped), date)
    ensures f == SumOn(AmountEntries(formula), date)
    ensures b == SumOn(LengthEntries(breast), date)
  {
    if NoneOnVolume(pumped, date) {
      VolumeGuard(pumped, date);
      p := 0;
    } else {
      p := SumOn(AmountEntries(pumped), date);
    }
    if NoneOnVolume(formula, date) {
      VolumeGuard(formula, date);
      f := 0;
    } else {
      f := SumOn(AmountEntries(formula), date);
    }
    if NoneOnBreast(breast, date) {
      BreastGuard(breast, date);
      b := 0;
    } else {
      b := SumOn(LengthEntries(breast), date);
    }
  }

  /** The reduction as evidently intended: an empty frame has no rows on
      any date and contributes 0, as the date collection above already
      allows for. One total per date, in the order of the dates. */
  method DailyTotals(breast: seq<BreastRow>, pumped: seq<VolumeRow>, formula: seq<VolumeRow>, allDates: seq<Date>)
    returns (feeding: seq<FeedingTotal>, direct: seq<DirectTotal>)
    ensures feeding == FeedingTotals(pumped, formula, allDates)
    ensures direct == DirectTotals(breast, allDates)
  {
    feeding, direct := [], [];
    for i := 0 to |allDates|
      invariant feeding == FeedingTotals(pumped, formula, allDates[..i])
      invariant direct == DirectTotals(breast, allDates[..i])
    {
      var date := allDates[i];
      var p, f, b := DayTotals(breast, pumped, formula, date);
      feeding := feeding + [FeedingTotal(date, p, f)];
      direct := direct + [DirectTotal(date, b)];
    }
    assert allDates[..|allDates|] == allDates;
  }

  /** Where the frames are not empty, the code as written computes the
      intended totals. */
  lemma TotalsAsWrittenAgree(breast: seq<BreastRow>, pumped: seq<VolumeRow>, formula: seq<VolumeRow>, dates: seq<Date>)
    requires pumped != [] && formula != [] && breast != []
    ensures TotalsAsWritten(breast, pumped, formula, dates) == Ok((FeedingTotals(pumped, formula, dates), DirectTotals(breast, dates)))
  {
  }

  /** The failure: a log with breastfeeding but no pumped milk. Its only
      date is the breast row's, and `pumped_df['date']` raises before any
      total is made. */
  lemma TotalsKeyErrorExample()
    ensures var breast := [BreastRow(1, Some(15))];
      var dates := SortedUnion(Flatten(FrameDates(breast, [], [], [], [])));
      && dates == [1]
      && TotalsAsWritten(breast, [], [], dates) == Err(MissingDateColumn)
  {
    var breast := [BreastRow(1, Some(15))];
    var fs := FrameDates(breast, [], [], [], []);
    assert Dates(BreastDate, breast) == [1] && Dates(VolumeDate, []) == [];
    assert fs == [[1], [], [], [], []];
    var ds := Flatten(fs);
    assert 1 in fs[0];
    assert forall d :: d in [1] <==> d in ds;
    SortedUnionUnique(ds, [1]);
  }

  // ---------------------------------------------------- what the totals say

  /** A date on which a frame has no row gets 0 from it: the explicit
      zeros of the totals. */
  lemma TotalsZeroFill(breast: seq<BreastRow>, pumped: seq<VolumeRow>, formula: seq<VolumeRow>, dates: seq<Date>, i: nat)
    requires i < |dates|
    ensures NoneOnVolume(pumped, dates[i]) ==> FeedingTotals(pumped, formula, dates)[i].pumped == 0
    ensures NoneOnVolume(formula, dates[i]) ==> FeedingTotals(pumped, formula, dates)[i].formula == 0
    ensures NoneOnBreast(breast, dates[i]) ==> DirectTotals(breast, dates)[i].breast == 0
  {
    if NoneOnVolume(pumped, dates[i]) { VolumeGuard(pumped, dates[i]); }
    if NoneOnVolume(formula, dates[i]) { VolumeGuard(formula, dates[i]); }
    if NoneOnBreast(breast, dates[i]) { BreastGuard(breast, dates[i]); }
  }

  /** The pumped column of the feeding totals, added up. */
  function PumpedColumn(ts: seq<FeedingTotal>): nat
  {
    if ts == [] then 0 else ts[0].pumped + PumpedColumn(ts[1..])
  }

  /** The formula column of the feeding totals, added up. */
  function FormulaColumn(ts: seq<FeedingTotal>): nat
  {
    if ts == [] then 0 else ts[0].formula + FormulaColumn(ts[1..])
  }

  /** The breast column of the direct totals, added up. */
  function BreastColumn(ts: seq<DirectTotal>): nat
  {
    if ts == [] then 0 else ts[0].breast + BreastColumn(ts[1..])
  }

  /** Each column adds up to the per-date sums over the dates. */
  lemma {:induction false} ColumnsOverDates(breast: seq<BreastRow>, pumped: seq<VolumeRow>, formula: seq<VolumeRow>, dates: seq<Date>)
    ensures PumpedColumn(FeedingTotals(pumped, formula, dates)) == SumOver(AmountEntries(pumped), dates)
    ensures FormulaColumn(FeedingTotals(pumped, formula, dates)) == SumOver(AmountEntries(formula), dates)
    ensures BreastColumn(DirectTotals(breast, dates)) == SumOver(LengthEntries(breast), dates)
    decreases |dates|
  {
    if dates != [] {
      ColumnsOverDates(breast, pumped, formula, dates[1..]);
      assert FeedingTotals(pumped, formula, dates)[1..] == FeedingTotals(pumped, formula, dates[1..]);
      assert DirectTotals(breast, dates)[1..] == DirectTotals(breast, dates[1..]);
    }
  }

  /** Conservation over the collected dates: the pumped and formula columns
      add up to all the ml of their frames and the breast column to all the
      recorded minutes. Nothing is lost and nothing is counted twice. */
  lemma TotalsConserve(breast: seq<BreastRow>, pumped: seq<VolumeRow>, formula: seq<VolumeRow>, urine: seq<Date>, stool: seq<Date>)
    ensures var dates := SortedUnion(Flatten(FrameDates(breast, pumped, formula, urine, stool)));
      && PumpedColumn(FeedingTotals(pumped, formula, dates)) == SumAll(AmountEntries(pumped))
      && FormulaColumn(FeedingTotals(pumped, formula, dates)) == SumAll(AmountEntries(formula))
      && BreastColumn(DirectTotals(breast, dates)) == SumAll(LengthEntries(breast))
  {
    var fs := FrameDates(breast, pumped, formula, urine, stool);
    var dates := SortedUnion(Flatten(fs));
    ColumnsOverDates(breast, pumped, formula, dates);
    assert forall i :: 0 <= i < |breast| ==> breast[i].date in fs[0];
    assert forall i :: 0 <= i < |pumped| ==> pumped[i].date in fs[1];
    assert forall i :: 0 <= i < |formula| ==> formula[i].date in fs[2];
    SumOverAll(AmountEntries(pumped), dates);
    SumOverAll(AmountEntries(formula), dates);
    SumOverAll(LengthEntries(breast), dates);
  }

  // ------------------------------------------------------------- row order

  /** A frame's rows in another order have the same dates. */
  lemma DatesPerm<R>(date: R -> Date, rows1: seq<R>, rows2: seq<R>, d: Date)
    requires multiset(rows1) == multiset(rows2)
    ensures d in Dates(date, rows1) <==> d in Dates(date, rows2)
  {
    var ds1, ds2 := Dates(date, rows1), Dates(date, rows2);
    if d in ds1 {
      var i :| 0 <= i < |ds1| && ds1[i] == d;
      assert rows1[i] in multiset(rows2);
      var j :| 0 <= j < |rows2| && rows2[j] == rows1[i];
      assert ds2[j] == d;
    }
    if d in ds2 {
      var j :| 0 <= j < |ds2| && ds2[j] == d;
      assert rows2[j] in multiset(rows1);
      var i :| 0 <= i < |rows1| && rows1[i] == rows2[j];
      assert ds1[i] == d;
    }
  }

  /** The frames with their rows in another order give the same dates. */
  lemma DatesShuffle(breast1: seq<BreastRow>, pumped1: seq<VolumeRow>, formula1: seq<VolumeRow>, urine1: seq<Date>, stool1: seq<Date>,
                     breast2: seq<BreastRow>, pumped2: seq<VolumeRow>, formula2: seq<VolumeRow>, urine2: seq<Date>, stool2: seq<Date>)
    requires multiset(breast1) == multiset(breast2) && multiset(pumped1) == multiset(pumped2)
    requires multiset(formula1) == multiset(formula2) && multiset(urine1) == multiset(urine2)
    requires multiset(stool1) == multiset(stool2)
    ensures SortedUnion(Flatten(FrameDates(breast1, pumped1, formula1, urine1, stool1)))
         == SortedUnion(Flatten(FrameDates(breast2, pumped2, formula2, urine2, stool2)))
  {
    var fs1 := FrameDates(breast1, pumped1, formula1, urine1, stool1);
    var fs2 := FrameDates(breast2, pumped2, formula2, urine2, stool2);
    forall d ensures d in Flatten(fs1) <==> d in Flatten(fs2) {
      DatesPerm(BreastDate, breast1, breast2, d);
      DatesPerm(VolumeDate, pumped1, pumped2, d);
      DatesPerm(VolumeDate, formula1, formula2, d);
      assert d in urine1 <==> d in multiset(urine1);
      assert d in urine2 <==> d in multiset(urine2);
      assert d in stool1 <==> d in multiset(stool1);
      assert d in stool2 <==> d in multiset(stool2);
      assert d in Flatten(fs1) <==> d in fs1[0] || d in fs1[1] || d in fs1[2] || d in fs1[3] || d in fs1[4];
      assert d in Flatten(fs2) <==> d in fs2[0] || d in fs2[1] || d in fs2[2] || d in fs2[3] || d in fs2[4];
    }
    SortedUnionUnique(Flatten(fs2), SortedUnion(Flatten(fs1)));
  }

  /** What a volume row adds to date d. */
  function AmountOn(d: Date): VolumeRow -> nat
  {
    (r: VolumeRow) => if r.date == d then r.amount else 0
  }

  /** What a breast row adds to date d; a missing length adds 0. */
  function LengthOn(d: Date): BreastRow -> nat
  {
    (r: BreastRow) => if r.date == d && r.length.Some? then r.length.value else 0
  }

  /** The amount on a date adds up what each row adds to it. */
  lemma {:induction false} AmountTotal(rows: seq<VolumeRow>, d: Date)
    ensures SumOn(AmountEntries(rows), d) == Total(AmountOn(d), rows)
    decreases |rows|
  {
    if rows != [] {
      var init := rows[..|rows| - 1];
      assert AmountEntries(rows)[..|rows| - 1] == AmountEntries(init);
      AmountTotal(init, d);
    }
  }

  /** The minutes on a date add up what each row adds to them. */
  lemma {:induction false} LengthTotal(rows: seq<BreastRow>, d: Date)
    ensures SumOn(LengthEntries(rows), d) == Total(LengthOn(d), rows)
    decreases |rows|
  {
    if rows != [] {
      var init := rows[..|rows| - 1];
      assert LengthEntries(rows)[..|rows| - 1] == LengthEntries(init);
      LengthTotal(init, d);
    }
  }

  /** Order independence of the reduction: the frames with their rows in
      another order give the same dates and the same totals on each. */
  lemma TotalsShuffle(breast1: seq<BreastRow>, pumped1: seq<VolumeRow>, formula1: seq<VolumeRow>, urine1: seq<Date>, stool1: seq<Date>,
                      breast2: seq<BreastRow>, pumped2: seq<VolumeRow>, formula2: seq<VolumeRow>, urine2: seq<Date>, stool2: seq<Date>)
    requires multiset(breast1) == multiset(breast2) && multiset(pumped1) == multiset(pumped2)
    requires multiset(formula1) == multiset(formula2) && multiset(urine1) == multiset(urine2)
    requires multiset(stool1) == multiset(stool2)
    ensures var dates1 := SortedUnion(Flatten(FrameDates(breast1, pumped1, formula1, urine1, stool1)));
      var dates2 := SortedUnion(Flatten(FrameDates(breast2, pumped2, formula2, urine2, stool2)));
      && FeedingTotals(pumped1, formula1, dates1) == FeedingTotals(pumped2, formula2, dates2)
      && DirectTotals(breast1, dates1) == DirectTotals(breast2, dates2)
  {
    DatesShuffle(breast1, pumped1, formula1, urine1, stool1, breast2, pumped2, formula2, urine2, stool2);
    var dates := SortedUnion(Flatten(FrameDates(breast1, pumped1, formula1, urine1, stool1)));
    forall i | 0 <= i < |dates|
      ensures SumOn(AmountEntries(pumped1), dates[i]) == SumOn(AmountEntries(pumped2), dates[i])
      ensures SumOn(AmountEntries(formula1), dates[i]) == SumOn(AmountEntries(formula2), dates[i])
      ensures SumOn(LengthEntries(breast1), dates[i]) == SumOn(LengthEntries(breast2), dates[i])
    {
      var d := dates[i];
      AmountTotal(pumped1, d);
      AmountTotal(pumped2, d);
      TotalPerm(AmountOn(d), pumped1, pumped2);
      AmountTotal(formula1, d);
      AmountTotal(formula2, d);
      TotalPerm(AmountOn(d), formula1, formula2);
      LengthTotal(breast1, d);
      LengthTotal(breast2, d);
      TotalPerm(LengthOn(d), breast1, breast2);
    }
  }
}
