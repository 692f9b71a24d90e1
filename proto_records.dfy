/** The row and token loops of `main()` in main.py: the five record lists
    built from the log table before any plotting. A breast token the
    pattern does not match raises `UnboundLocalError` out of
    `parse_breast_entry`, which ends `main()`: no list survives. */
module ProtoRecords {
  import opened Wrappers
  import opened Text
  import opened Clock
  import opened Cells
  import opened ProtoParse
  import PlotParse
  import opened Tally

  /** One row of the log table (`df.itertuples()`); a cell is None where
      `pd.notna` is false. A cell of a column the table lacks is never
      read. */
  datatype Row = Row(
    date: Date,
    breast: Option<string>, pumped: Option<string>, formula: Option<string>,
    urine: Option<string>, stool: Option<string>)

  /** The five columns, in the order `main()` reads them. */
  datatype Category = Breast | Pumped | Formula | Urine | Stool

  /** The log table: the category columns it has and its rows. `load_data`
      refuses a file without a `date` column, so every row has a date; the
      five category columns are read without a check. */
  datatype Table = Table(columns: set<Category>, rows: seq<Row>)

  /** What ends `main()` before the lists are complete: the
      `UnboundLocalError` of a breast token, or the `AttributeError` of
      reading a column the table lacks. */
  datatype Failure = UnboundLocal | NoAttribute(column: Category)

  /** The first of the five columns, in reading order, the table lacks. */
  function FirstMissing(columns: set<Category>): (r: Option<Category>)
    ensures r.None? <==> {Breast, Pumped, Formula, Urine, Stool} <= columns
    ensures r.Some? ==> r.value !in columns
    ensures r.Some? && r.value != Breast ==> Breast in columns
  {
    if Breast !in columns then Some(Breast)
    else if Pumped !in columns then Some(Pumped)
    else if Formula !in columns then Some(Formula)
    else if Urine !in columns then Some(Urine)
    else if Stool !in columns then Some(Stool)
    else None
  }

  /** What a record holds besides its date and time: a feeding with the
      minutes of its sides, a volume in ml, or nothing for a diaper. */
  datatype Detail =
    | Feeding(length: Option<nat>)
    | Volume(amount: nat)
    | Diaper

  /** One record `{"date", "time", ...}` of a record list. */
  datatype Event = Event(date: Date, time: Time, detail: Detail)

  /** The five lists: breast, pumped, formula, urine and stool records. */
  datatype Records = Records(
    breast: seq<Event>, pumped: seq<Event>, formula: seq<Event>,
    urine: seq<Event>, stool: seq<Event>)

  /** The cell of a row in a category's column. */
  function Cell(r: Row, c: Category): Option<string>
  {
    match c
      case Breast => r.breast
      case Pumped => r.pumped
      case Formula => r.formula
      case Urine => r.urine
      case Stool => r.stool
  }

  /** The detail kind each category records. */
  predicate Fits(c: Category, detail: Detail)
  {
    match c
      case Breast => detail.Feeding?
      case Pumped => detail.Volume?
      case Formula => detail.Volume?
      case Urine => detail.Diaper?
      case Stool => detail.Diaper?
  }

  /** What one token of a category's cell on date d does: append a record
      (Ok(Some)), nothing (Ok(None)), or raise. A breast token is read by
      `parse_breast_entry` and kept when its time is set; a pumped or
      formula token by the volume pattern, kept when the time group
      parses; a urine or stool token is `parse_time` of the whole token.
      Only a breast token can raise, and exactly when its stripped text
      does not start with a digit. */
  function Accept(c: Category, d: Date, token: string): (r: Result<Option<Event>, Unbound>)
    ensures r.Err? <==> c == Breast && (Strip(token) == [] || !IsDigit(Strip(token)[0]))
    ensures r.Ok? && r.value.Some? ==>
      r.value.value.date == d && Valid(r.value.value.time) && Fits(c, r.value.value.detail)
  {
    match c
      case Breast =>
        (match ParseBreastEntry(token)
          case Err(u) => Err(u)
          case Ok(b) => Ok(if b.time.Some? then Some(Event(d, b.time.value, Feeding(b.length))) else None))
      case Pumped => Ok(AcceptVolume(d, token))
      case Formula => Ok(AcceptVolume(d, token))
      case Urine => Ok(AcceptDiaper(d, token))
      case Stool => Ok(AcceptDiaper(d, token))
  }

  function AcceptVolume(d: Date, token: string): (r: Option<Event>)
    ensures r.Some? ==> r.value.date == d && Valid(r.value.time) && r.value.detail.Volume?
  {
    match ParseVolumeToken(token)
      case None => None
      case Some(v) => Some(Event(d, v.time, Volume(v.amount)))
  }

  function AcceptDiaper(d: Date, token: string): (r: Option<Event>)
    ensures r.Some? ==> r.value.date == d && Valid(r.value.time) && r.value.detail.Diaper?
  {
    match PlotParse.ParseTime(token)
      case None => None
      case Some(t) => Some(Event(d, t, Diaper))
  }

  /** The record a token appends, if it does not raise. */
  function Appended(c: Category, d: Date): string -> Option<Event>
  {
    t => match Accept(c, d, t) case Ok(v) => v case Err(_) => None
  }

  /** The token itself when it raises. */
  function Raising(c: Category, d: Date): string -> Option<string>
  {
    t => if Accept(c, d, t).Err? then Some(t) else None
  }

  /** The records the tokens of one cell append, in token order. */
  function CellEvents(c: Category, d: Date, tokens: seq<string>): seq<Event>
  {
    Keep(Appended(c, d), tokens)
  }

  /** The tokens of one cell that raise, in token order. */
  function CellRaising(c: Category, d: Date, tokens: seq<string>): seq<string>
  {
    Keep(Raising(c, d), tokens)
  }

  /** The records of one row's five cells. */
  function RowLists(row: Row): Records
  {
    var d := row.date;
    Records(CellEvents(Breast, d, Tokens(Cell(row, Breast))), CellEvents(Pumped, d, Tokens(Cell(row, Pumped))),
            CellEvents(Formula, d, Tokens(Cell(row, Formula))), CellEvents(Urine, d, Tokens(Cell(row, Urine))),
            CellEvents(Stool, d, Tokens(Cell(row, Stool))))
  }

  /** Some token of the row raises. */
  predicate RowRaises(row: Row)
  {
    var d := row.date;
    || CellRaising(Breast, d, Tokens(row.breast)) != [] || CellRaising(Pumped, d, Tokens(row.pumped)) != []
    || CellRaising(Formula, d, Tokens(row.formula)) != [] || CellRaising(Urine, d, Tokens(row.urine)) != []
    || CellRaising(Stool, d, Tokens(row.stool)) != []
  }

  /** What reading one column of a row raises: `row.<column>` on a column
      the table lacks, or a token of its cell. */
  function CellFailure(columns: set<Category>, row: Row, c: Category): Option<Failure>
  {
    if c !in columns then Some(NoAttribute(c))
    else if CellRaising(c, row.date, Tokens(Cell(row, c))) != [] then Some(UnboundLocal)
    else None
  }

  /** What a row raises: the failure of its first failing column, in the
      order `main()` reads them. */
  function RowFailure(columns: set<Category>, row: Row): Option<Failure>
  {
    match CellFailure(columns, row, Breast)
      case Some(f) => Some(f)
      case None =>
        match CellFailure(columns, row, Pumped)
          case Some(f) => Some(f)
          case None =>
            match CellFailure(columns, row, Formula)
              case Some(f) => Some(f)
              case None =>
                match CellFailure(columns, row, Urine)
                  case Some(f) => Some(f)
                  case None => CellFailure(columns, row, Stool)
  }

  /** What a row raises, as a function of the row. */
  function RowCheck(columns: set<Category>): Row -> Option<Failure>
  {
    row => RowFailure(columns, row)
  }

  /** The failure when there is one, else the value. */
  function Outcome<T>(f: Option<Failure>, v: T): Result<T, Failure>
  {
    if f.Some? then Err(f.value) else Ok(v)
  }

  /** Each list of `a` followed by the same list of `b`. */
  function Join(a: Records, b: Records): Records
  {
    Records(a.breast + b.breast, a.pumped + b.pumped, a.formula + b.formula, a.urine + b.urine, a.stool + b.stool)
  }

  /** The five lists over the rows: each row's records after those of the
      rows before it. */
  function Lists(rows: seq<Row>): Records
  {
    if rows == [] then Records([], [], [], [], [])
    else Join(Lists(rows[..|rows| - 1]), RowLists(rows[|rows| - 1]))
  }

  /** What the loops of `main()` leave: the five lists, or what the first
      failing row raises. */
  function RecordsOf(table: Table): Result<Records, Failure>
  {
    Outcome(First(RowCheck(table.columns), table.rows), Lists(table.rows))
  }

  /** The token loop of one cell: `for token in str(cell).split()`, appending
      each kept record; a raising token ends the loop with the error. */
  method ScanCell(c: Category, d: Date, cell: Option<string>) returns (r: Result<seq<Event>, Unbound>)
    ensures r.Err? <==> CellRaising(c, d, Tokens(cell)) != []
    ensures r.Ok? ==> r.value == CellEvents(c, d, Tokens(cell))
  {
    var tokens := Tokens(cell);
    var evs := [];
    for i := 0 to |tokens|
      invariant evs == CellEvents(c, d, tokens[..i])
      invariant CellRaising(c, d, tokens[..i]) == []
    {
      var a := Accept(c, d, tokens[i]);
      if a.Err? {
        KeepFrom(Raising(c, d), tokens, tokens[i]);
        return Err(Unbound);
      }
      KeepStep(Appended(c, d), tokens, i);
      KeepStep(Raising(c, d), tokens, i);
      if a.value.Some? {
        evs := evs + [a.value.value];
      }
    }
    assert tokens[..|tokens|] == tokens;
    r := Ok(evs);
  }

  /** One column block of `main()`'s row loop: `row.<column>`, which
      raises on a column the table lacks, then the token loop of its cell. */
  method ScanColumn(columns: set<Category>, row: Row, c: Category) returns (r: Result<seq<Event>, Failure>)
    ensures r == Outcome(CellFailure(columns, row, c), CellEvents(c, row.date, Tokens(Cell(row, c))))
  {
    if c !in columns {
      return Err(NoAttribute(c));
    }
    var e := ScanCell(c, row.date, Cell(row, c));
    if e.Err? {
      return Err(UnboundLocal);
    }
    r := Ok(e.value);
  }

  /** One row of `main()`: its five column blocks in order; a missing
      column or the first raising token ends it. */
  method ScanRow(columns: set<Category>, row: Row) returns (r: Result<Records, Failure>)
    ensures r == Outcome(RowFailure(columns, row), RowLists(row))
  {
    var b := ScanColumn(columns, row, Breast);
    if b.Err? { return Err(b.error); }
    var p := ScanColumn(columns, row, Pumped);
    if p.Err? { return Err(p.error); }
    var f := ScanColumn(columns, row, Formula);
    if f.Err? { return Err(f.error); }
    var u := ScanColumn(columns, row, Urine);
    if u.Err? { return Err(u.error); }
    var s := ScanColumn(columns, row, Stool);
    if s.Err? { return Err(s.error); }
    r := Ok(Records(b.value, p.value, f.value, u.value, s.value));
  }

  /** The row loop of `main()`: each row's records appended to the lists;
      the first failing row ends it. */
  method Run(table: Table) returns (r: Result<Records, Failure>)
    ensures r == RecordsOf(table)
  {
    var rows := table.rows;
    var acc := Records([], [], [], [], []);
    for i := 0 to |rows|
      invariant acc == Lists(rows[..i])
      invariant First(RowCheck(table.columns), rows[..i]).None?
    {
      var res := ScanRow(table.columns, rows[i]);
      ListsStep(rows, i);
      FirstStep(RowCheck(table.columns), rows, i);
      if res.Err? {
        FirstPrefix(RowCheck(table.columns), rows, i + 1);
        return Err(res.error);
      }
      acc := Join(acc, res.value);
    }
    assert rows[..|rows|] == rows;
    r := Ok(acc);
  }

  /** One more row: its records follow those of the rows before it. */
  lemma ListsStep(rows: seq<Row>, i: nat)
    requires i < |rows|
    ensures Lists(rows[..i + 1]) == Join(Lists(rows[..i]), RowLists(rows[i]))
  {
    assert rows[..i + 1][..i] == rows[..i];
  }

  // ---------------------------------------------------------------------
  // The lists column by column, when main() raises, and where the records
  // come from.

  /** The records of a category over the rows, in row order. */
  function ColumnEvents(c: Category, rows: seq<Row>): seq<Event>
  {
    Concat(RowEvents(c), rows)
  }

  function RowEvents(c: Category): Row -> seq<Event>
  {
    (r: Row) => CellEvents(c, r.date, Tokens(Cell(r, c)))
  }

  /** The list of one category. */
  function EventsOf(r: Records, c: Category): seq<Event>
  {
    match c
      case Breast => r.breast
      case Pumped => r.pumped
      case Formula => r.formula
      case Urine => r.urine
      case Stool => r.stool
  }

  /** Each list of the records is the column's records, row after row. */
  lemma {:induction false} ListsColumns(rows: seq<Row>, c: Category)
    ensures EventsOf(Lists(rows), c) == ColumnEvents(c, rows)
    decreases |rows|
  {
    if rows != [] {
      var init, last := rows[..|rows| - 1], rows[|rows| - 1];
      ListsColumns(init, c);
      assert EventsOf(RowLists(last), c) == RowEvents(c)(last);
    }
  }

  /** A cell raises exactly when one of its tokens does. */
  lemma {:induction false} CellRaisingFrom(c: Category, d: Date, ts: seq<string>)
    ensures CellRaising(c, d, ts) != [] <==> exists i :: 0 <= i < |ts| && Accept(c, d, ts[i]).Err?
  {
    var f := Raising(c, d);
    if CellRaising(c, d, ts) != [] {
      KeepFrom(f, ts, CellRaising(c, d, ts)[0]);
    }
    if exists i :: 0 <= i < |ts| && Accept(c, d, ts[i]).Err? {
      var i :| 0 <= i < |ts| && Accept(c, d, ts[i]).Err?;
      KeepFrom(f, ts, ts[i]);
    }
  }

  /** Only breast cells raise: a row raises exactly when its breast cell does. */
  lemma {:induction false} OnlyBreastRaises(row: Row)
    ensures RowRaises(row) <==> CellRaising(Breast, row.date, Tokens(row.breast)) != []
  {
    CellRaisingFrom(Pumped, row.date, Tokens(row.pumped));
    CellRaisingFrom(Formula, row.date, Tokens(row.formula));
    CellRaisingFrom(Urine, row.date, Tokens(row.urine));
    CellRaisingFrom(Stool, row.date, Tokens(row.stool));
  }

  /** A breast token, which has no whitespace and is not empty, raises
      exactly when it does not start with a digit. */
  lemma {:induction false} BreastTokenRaises(d: Date, t: string)
    requires t != [] && NoSpace(t)
    ensures Accept(Breast, d, t).Err? <==> !IsDigit(t[0])
  {
    var r := Accept(Breast, d, t);
    assert Strip(t) == t by {
      StripNoSpace(t);
    }
    assert r.Err? <==> Strip(t) == [] || !IsDigit(Strip(t)[0]);
  }

  /** A breast cell raises exactly when one of its tokens does not start
      with a digit. */
  lemma {:induction false} BreastCellRaises(d: Date, ts: seq<string>)
    requires forall i :: 0 <= i < |ts| ==> ts[i] != [] && NoSpace(ts[i])
    ensures CellRaising(Breast, d, ts) != [] <==> exists i :: 0 <= i < |ts| && !IsDigit(ts[i][0])
  {
    CellRaisingFrom(Breast, d, ts);
    forall i | 0 <= i < |ts|
      ensures Accept(Breast, d, ts[i]).Err? <==> !IsDigit(ts[i][0])
    {
      BreastTokenRaises(d, ts[i]);
    }
  }

  /** Some breast token of the row does not start with a digit. */
  predicate BreastUnparsed(row: Row)
  {
    exists i :: 0 <= i < |Tokens(row.breast)| && !IsDigit(Tokens(row.breast)[i][0])
  }

  /** What one column block raises: the `AttributeError` of a missing
      column, else the `UnboundLocalError` of a breast cell with a token
      that does not start with a digit, else nothing. */
  lemma {:induction false} CellFailureExactly(columns: set<Category>, row: Row, c: Category)
    ensures CellFailure(columns, row, c) ==
      if c !in columns then Some(NoAttribute(c))
      else if c == Breast && BreastUnparsed(row) then Some(UnboundLocal)
      else None
  {
    var ts := Tokens(Cell(row, c));
    CellRaisingFrom(c, row.date, ts);
    if c == Breast {
      BreastCellRaises(row.date, ts);
    }
  }

  /** What a row raises: the `UnboundLocalError` of its breast cell when
      that column is there and a token of it does not start with a digit,
      else the `AttributeError` of the first missing column, else nothing. */
  lemma {:induction false} RowFailureExactly(columns: set<Category>, row: Row)
    ensures RowFailure(columns, row) ==
      if Breast in columns && BreastUnparsed(row) then Some(UnboundLocal)
      else if FirstMissing(columns).Some? then Some(NoAttribute(FirstMissing(columns).value))
      else None
  {
    CellFailureExactly(columns, row, Breast);
    CellFailureExactly(columns, row, Pumped);
    CellFailureExactly(columns, row, Formula);
    CellFailureExactly(columns, row, Urine);
    CellFailureExactly(columns, row, Stool);
  }

  /** `main()` raises exactly when the table has rows and lacks one of the
      five columns, or some breast token of some row does not start with a
      digit ("○" alone, say); with all five columns the error is the
      `UnboundLocalError`. Otherwise it builds the lists. */
  lemma {:induction false} RaisesExactly(table: Table)
    ensures RecordsOf(table).Err? <==>
      (table.rows != [] && FirstMissing(table.columns).Some?)
      || exists k :: 0 <= k < |table.rows| && BreastUnparsed(table.rows[k])
    ensures FirstMissing(table.columns).None? && RecordsOf(table).Err? ==> RecordsOf(table).error == UnboundLocal
  {
    var columns, rows := table.columns, table.rows;
    FirstSome(RowCheck(columns), rows);
    forall k | 0 <= k < |rows|
      ensures RowFailure(columns, rows[k]) ==
        if Breast in columns && BreastUnparsed(rows[k]) then Some(UnboundLocal)
        else if FirstMissing(columns).Some? then Some(NoAttribute(FirstMissing(columns).value))
        else None
    {
      RowFailureExactly(columns, rows[k]);
    }
    if rows != [] && FirstMissing(columns).Some? {
      assert RowFailure(columns, rows[0]).Some?;
    }
  }

  /** A table with rows that lacks a column fails on its first row: with the
      `UnboundLocalError` when its breast cell raises first, else with the
      `AttributeError` of the first missing column. */
  lemma {:induction false} MissingColumnRaises(table: Table)
    requires table.rows != [] && FirstMissing(table.columns).Some?
    ensures RecordsOf(table) ==
      Err(if Breast in table.columns && BreastUnparsed(table.rows[0]) then UnboundLocal
          else NoAttribute(FirstMissing(table.columns).value))
  {
    var columns, rows := table.columns, table.rows;
    RowFailureExactly(columns, rows[0]);
    FirstStep(RowCheck(columns), rows, 0);
    assert rows[..0] == [];
    FirstPrefix(RowCheck(columns), rows, 1);
  }

  /** A record is in a cell's list exactly when some token of the cell
      appends it. */
  lemma {:induction false} CellEventsFrom(c: Category, d: Date, ts: seq<string>, e: Event)
    ensures e in CellEvents(c, d, ts) <==> exists i :: 0 <= i < |ts| && Accept(c, d, ts[i]) == Ok(Some(e))
  {
    var f := Appended(c, d);
    KeepFrom(f, ts, e);
    if exists i :: 0 <= i < |ts| && f(ts[i]) == Some(e) {
      var i :| 0 <= i < |ts| && f(ts[i]) == Some(e);
      assert Accept(c, d, ts[i]) == Ok(Some(e));
    }
  }

  /** A record is in a list exactly when it is in the cell's list of some
      row; with `CellEventsFrom`, when some token of some row appends it. */
  lemma {:induction false} ColumnEventsFrom(c: Category, rows: seq<Row>, e: Event)
    ensures e in ColumnEvents(c, rows) <==>
      exists k :: 0 <= k < |rows| && e in CellEvents(c, rows[k].date, Tokens(Cell(rows[k], c)))
  {
    ConcatFrom(RowEvents(c), rows, e);
  }

  /** Every record carries the date of some row, a valid time and the
      detail kind of its list. */
  lemma {:induction false} ColumnEventsDated(c: Category, rows: seq<Row>, e: Event)
    requires e in ColumnEvents(c, rows)
    ensures (exists k :: 0 <= k < |rows| && e.date == rows[k].date) && Valid(e.time) && Fits(c, e.detail)
  {
    ColumnEventsFrom(c, rows, e);
    var k :| 0 <= k < |rows| && e in CellEvents(c, rows[k].date, Tokens(Cell(rows[k], c)));
    var ts := Tokens(Cell(rows[k], c));
    CellEventsFrom(c, rows[k].date, ts, e);
    var i :| 0 <= i < |ts| && Accept(c, rows[k].date, ts[i]) == Ok(Some(e));
  }

  /** Row order: the records of two runs of rows are those of the first
      followed by those of the second. */
  lemma {:induction false} ColumnEventsConcat(c: Category, rows1: seq<Row>, rows2: seq<Row>)
    ensures ColumnEvents(c, rows1 + rows2) == ColumnEvents(c, rows1) + ColumnEvents(c, rows2)
  {
    ConcatAppend(RowEvents(c), rows1, rows2);
  }

  /** Token order within a cell: a dropped token changes nothing, a kept
      one puts its record between those of the tokens around it. */
  lemma {:induction false} CellEventsAround(c: Category, d: Date, ts1: seq<string>, t: string, ts2: seq<string>)
    ensures CellEvents(c, d, ts1 + [t] + ts2) ==
      CellEvents(c, d, ts1) + (if Appended(c, d)(t).Some? then [Appended(c, d)(t).value] else []) + CellEvents(c, d, ts2)
  {
    var f := Appended(c, d);
    KeepConcat(f, ts1 + [t], ts2);
    KeepConcat(f, ts1, [t]);
    KeepOne(f, t);
  }
}
