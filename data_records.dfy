/** `parse_records` of babyplot_data.py: the row and token loops that turn a
    daily log table into five event lists and a weight list, and the count
    table built from the event lists. */
module DataRecords {
  import opened Wrappers
  import opened Text
  import opened Clock
  import opened Tally
  import opened DataParse
  import opened Cells

  /** One row of the log table. A cell is None where pandas holds a missing
      value (or the column is absent); the weight is carried as it is. */
  datatype Row = Row(
    date: Date,
    breast: Option<string>, pumped: Option<string>, formula: Option<string>,
    urine: Option<string>, stool: Option<string>,
    weight: Option<real>)

  /** The table: whether it has a `date` column, and its rows in order. */
  datatype Table = Table(hasDate: bool, rows: seq<Row>)

  /** The five event columns. */
  datatype Category = Breast | Pumped | Formula | Urine | Stool

  /** What an event records besides its date and time: a feeding with its
      total minutes and note, a volume in ml, or a diaper change with its note. */
  datatype Detail =
    | Feeding(length: Option<nat>, note: Option<string>)
    | Volume(amount: nat)
    | Diaper(note: Option<string>)

  /** One record of an event list. */
  datatype Event = Event(date: Date, time: Time, detail: Detail)

  /** One record of the weight list. */
  datatype WeightRecord = WeightRecord(date: Date, weight: real)

  /** One record of the count table. */
  datatype CountRecord = CountRecord(date: Date, breast: nat, pumped: nat, formula: nat, urine: nat, stool: nat)

  /** The seven lists `parse_records` returns. */
  datatype Records = Records(
    breast: seq<Event>, pumped: seq<Event>, formula: seq<Event>,
    urine: seq<Event>, stool: seq<Event>,
    count: seq<CountRecord>, weight: seq<WeightRecord>)

  /** The cell of a row in a category's column. */
  function Cell(r: Row, c: Category): Option<string>
  {
    match c
      case Breast => r.breast
      case Pumped => r.pumped
      case Formula => r.formula
      case Urine => r.urine
      case Stool => r.stool
  }

  /** The detail kind each category records. */
  predicate Fits(c: Category, detail: Detail)
  {
    match c
      case Breast => detail.Feeding?
      case Pumped => detail.Volume?
      case Formula => detail.Volume?
      case Urine => detail.Diaper?
      case Stool => detail.Diaper?
  }

  /** The acceptance rule of one token of a category's cell on date d: the
      event it appends, or None when it is dropped. A breast, urine or stool
      token is kept when its time parses (`if t:`; a `datetime.time` is
      always true); a pumped or formula token when the volume regex matches
      the whole token and its time parses. */
  function Accept(c: Category, d: Date, token: string): (r: Option<Event>)
    ensures r.Some? ==> r.value.date == d && Valid(r.value.time) && Fits(c, r.value.detail)
  {
    match c
      case Breast =>
        var p := ParseBreastToken(token);
        if p.time.Some? then Some(Event(d, p.time.value, Feeding(p.total, p.note))) else None
      case Pumped => AcceptVolume(d, token)
      case Formula => AcceptVolume(d, token)
      case Urine => AcceptDiaper(d, token)
      case Stool => AcceptDiaper(d, token)
  }

  function AcceptVolume(d: Date, token: string): (r: Option<Event>)
    ensures r.Some? ==> r.value.date == d && Valid(r.value.time) && r.value.detail.Volume?
  {
    match ParseVolumeToken(token)
      case None => None
      case Some((t, amount)) => Some(Event(d, t, Volume(amount)))
  }

  function AcceptDiaper(d: Date, token: string): (r: Option<Event>)
    ensures r.Some? ==> r.value.date == d && Valid(r.value.time) && r.value.detail.Diaper?
  {
    var p := ParseDiaperToken(token);
    if p.time.Some? then Some(Event(d, p.time.value, Diaper(p.note))) else None
  }

  /** The acceptance rule of a category on a date, as a function of the token. */
  function Acceptor(c: Category, d: Date): string -> Option<Event>
  {
    t => Accept(c, d, t)
  }

  /** The events the tokens of one cell append, in token order. */
  function CellEvents(c: Category, d: Date, tokens: seq<string>): seq<Event>
  {
    Keep(Acceptor(c, d), tokens)
  }

  /** The events of a category over the rows, in row order. */
  function ColumnEvents(c: Category, rows: seq<Row>): seq<Event>
  {
    Concat(RowEvents(c), rows)
  }

  /** The events of a category that one row's cell gives. */
  function RowEvents(c: Category): Row -> seq<Event>
  {
    (r: Row) => CellEvents(c, r.date, Tokens(Cell(r, c)))
  }

  /** The weight list: one record per row whose weight is present. */
  function WeightRecords(rows: seq<Row>): seq<WeightRecord>
  {
    if rows == [] then []
    else
      var r := rows[|rows| - 1];
      WeightRecords(rows[..|rows| - 1]) + (if r.weight.Some? then [WeightRecord(r.date, r.weight.value)] else [])
  }

  function EventDate(e: Event): Date { e.date }

  /** The count record of date d. */
  function CountOf(b: seq<Event>, p: seq<Event>, f: seq<Event>, u: seq<Event>, s: seq<Event>, d: Date): CountRecord
  {
    CountRecord(d, CountOn(Dates(EventDate, b), d), CountOn(Dates(EventDate, p), d), CountOn(Dates(EventDate, f), d),
                CountOn(Dates(EventDate, u), d), CountOn(Dates(EventDate, s), d))
  }

  /** The count records of a list of dates, in its order. */
  function CountTable(b: seq<Event>, p: seq<Event>, f: seq<Event>, u: seq<Event>, s: seq<Event>, xs: seq<Date>): (t: seq<CountRecord>)
    ensures |t| == |xs| && forall i :: 0 <= i < |xs| ==> t[i] == CountOf(b, p, f, u, s, xs[i])
  {
    if xs == [] then [] else CountTable(b, p, f, u, s, xs[..|xs| - 1]) + [CountOf(b, p, f, u, s, xs[|xs| - 1])]
  }

  /** The dates of the count table: the dates of the five event lists. */
  function CountDates(b: seq<Event>, p: seq<Event>, f: seq<Event>, u: seq<Event>, s: seq<Event>): seq<Date>
  {
    SortedUnion(Dates(EventDate, b) + Dates(EventDate, p) + Dates(EventDate, f) + Dates(EventDate, u) + Dates(EventDate, s))
  }

  /** The records `parse_records` returns for a table with a date column. */
  function RecordsOf(rows: seq<Row>): Records
  {
    var b, p, f := ColumnEvents(Breast, rows), ColumnEvents(Pumped, rows), ColumnEvents(Formula, rows);
    var u, s := ColumnEvents(Urine, rows), ColumnEvents(Stool, rows);
    Records(b, p, f, u, s, CountTable(b, p, f, u, s, CountDates(b, p, f, u, s)), WeightRecords(rows))
  }

  /** The token loop of one cell: `for token in str(cell).split()`, appending
      each accepted token's event. */
  method ScanCell(c: Category, d: Date, cell: Option<string>) returns (evs: seq<Event>)
    ensures evs == CellEvents(c, d, Tokens(cell))
  {
    var tokens := Tokens(cell);
    evs := [];
    for i := 0 to |tokens|
      invariant evs == CellEvents(c, d, tokens[..i])
    {
      var a := Accept(c, d, tokens[i]);
      CellEventsStep(c, d, tokens, i);
      if a.Some? {
        evs := evs + [a.value];
      }
    }
    assert tokens[..|tokens|] == tokens;
  }

  /** One more token: its event, if it is accepted, comes last. */
  lemma CellEventsStep(c: Category, d: Date, tokens: seq<string>, i: nat)
    requires i < |tokens|
    ensures var a := Accept(c, d, tokens[i]);
      CellEvents(c, d, tokens[..i + 1]) == CellEvents(c, d, tokens[..i]) + (if a.Some? then [a.value] else [])
  {
    KeepStep(Acceptor(c, d), tokens, i);
  }

  /** One more row: its cell's events come after those of the rows before. */
  lemma ColumnEventsStep(c: Category, rows: seq<Row>, i: nat)
    requires i < |rows|
    ensures ColumnEvents(c, rows[..i + 1]) == ColumnEvents(c, rows[..i]) + CellEvents(c, rows[i].date, Tokens(Cell(rows[i], c)))
  {
    ConcatStep(RowEvents(c), rows, i);
  }

  /** One more row: its weight, if present, comes last. */
  lemma WeightRecordsStep(rows: seq<Row>, i: nat)
    requires i < |rows|
    ensures WeightRecords(rows[..i + 1]) == WeightRecords(rows[..i]) + (if rows[i].weight.Some? then [WeightRecord(rows[i].date, rows[i].weight.value)] else [])
  {
    assert rows[..i + 1][..i] == rows[..i];
  }

  /** The count loop: `for d in sorted(all_dates)`, one record per date. */
  method BuildCounts(b: seq<Event>, p: seq<Event>, f: seq<Event>, u: seq<Event>, s: seq<Event>, dates: seq<Date>)
    returns (count: seq<CountRecord>)
    ensures count == CountTable(b, p, f, u, s, dates)
  {
    count := [];
    for j := 0 to |dates|
      invariant count == CountTable(b, p, f, u, s, dates[..j])
    {
      assert dates[..j + 1][..j] == dates[..j];
      count := count + [CountOf(b, p, f, u, s, dates[j])];
    }
    assert dates[..|dates|] == dates;
  }

  /** `parse_records(df)`. Without a date column every row is skipped (the
      `getattr(row, 'date')` of each row raises and the row is passed over). */
  method ParseRecords(table: Table) returns (r: Records)
    ensures table.hasDate ==> r == RecordsOf(table.rows)
    ensures !table.hasDate ==> r == Records([], [], [], [], [], [], [])
  {
    var rows := table.rows;
    var b, p, f, u, s: seq<Event> := [], [], [], [], [];
    var weight: seq<WeightRecord> := [];
    for i := 0 to |rows|
      invariant table.hasDate ==>
        && b == ColumnEvents(Breast, rows[..i]) && p == ColumnEvents(Pumped, rows[..i])
        && f == ColumnEvents(Formula, rows[..i]) && u == ColumnEvents(Urine, rows[..i])
        && s == ColumnEvents(Stool, rows[..i]) && weight == WeightRecords(rows[..i])
      invariant !table.hasDate ==> b == p == f == u == s == [] && weight == []
    {
      if !table.hasDate {
        continue;
      }
      var row := rows[i];
      var evs := ScanCell(Breast, row.date, Cell(row, Breast));
      ColumnEventsStep(Breast, rows, i);
      b := b + evs;
      evs := ScanCell(Pumped, row.date, Cell(row, Pumped));
      ColumnEventsStep(Pumped, rows, i);
      p := p + evs;
      evs := ScanCell(Formula, row.date, Cell(row, Formula));
      ColumnEventsStep(Formula, rows, i);
      f := f + evs;
      evs := ScanCell(Urine, row.date, Cell(row, Urine));
      ColumnEventsStep(Urine, rows, i);
      u := u + evs;
      evs := ScanCell(Stool, row.date, Cell(row, Stool));
      ColumnEventsStep(Stool, rows, i);
      s := s + evs;
      WeightRecordsStep(rows, i);
      if row.weight.Some? {
        weight := weight + [WeightRecord(row.date, row.weight.value)];
      }
    }
    assert rows[..|rows|] == rows;
    var count := BuildCounts(b, p, f, u, s, CountDates(b, p, f, u, s));
    r := Records(b, p, f, u, s, count, weight);
  }

  // ---------------------------------------------------------------------
  // Order: accepted events in token order within a cell, row order across
  // rows; rejected tokens change nothing; nothing is deduplicated.

  /** The events of a single token. */
  lemma CellEventsOne(c: Category, d: Date, t: string)
    ensures var a := Accept(c, d, t); CellEvents(c, d, [t]) == (if a.Some? then [a.value] else [])
  {
    KeepOne(Acceptor(c, d), t);
  }

  /** Token order: the events of two runs of tokens are those of the first
      run followed by those of the second. */
  lemma CellEventsConcat(c: Category, d: Date, ts1: seq<string>, ts2: seq<string>)
    ensures CellEvents(c, d, ts1 + ts2) == CellEvents(c, d, ts1) + CellEvents(c, d, ts2)
  {
    KeepConcat(Acceptor(c, d), ts1, ts2);
  }

  /** A rejected token leaves the events as they were without it. */
  lemma CellEventsRejected(c: Category, d: Date, ts1: seq<string>, t: string, ts2: seq<string>)
    requires Accept(c, d, t).None?
    ensures CellEvents(c, d, ts1 + [t] + ts2) == CellEvents(c, d, ts1 + ts2)
  {
    CellEventsConcat(c, d, ts1 + [t], ts2);
    CellEventsConcat(c, d, ts1, [t]);
    CellEventsConcat(c, d, ts1, ts2);
    CellEventsOne(c, d, t);
  }

  /** An accepted token puts its event between those of the tokens before
      and after it. */
  lemma CellEventsAccepted(c: Category, d: Date, ts1: seq<string>, t: string, ts2: seq<string>)
    requires Accept(c, d, t).Some?
    ensures CellEvents(c, d, ts1 + [t] + ts2) == CellEvents(c, d, ts1) + [Accept(c, d, t).value] + CellEvents(c, d, ts2)
  {
    CellEventsConcat(c, d, ts1 + [t], ts2);
    CellEventsConcat(c, d, ts1, [t]);
    CellEventsOne(c, d, t);
  }

  /** Identical accepted tokens give identical events, each kept. */
  lemma CellEventsRepeated(c: Category, d: Date, ts: seq<string>, t: string)
    requires Accept(c, d, t).Some?
    ensures CellEvents(c, d, ts + [t, t]) == CellEvents(c, d, ts) + [Accept(c, d, t).value, Accept(c, d, t).value]
  {
    CellEventsConcat(c, d, ts, [t, t]);
    CellEventsConcat(c, d, [t], [t]);
    assert [t] + [t] == [t, t];
    CellEventsOne(c, d, t);
  }

  /** An event is in a cell's list exactly when some token of the cell is
      accepted as that event. */
  lemma CellEventsFrom(c: Category, d: Date, ts: seq<string>, e: Event)
    ensures e in CellEvents(c, d, ts) <==> exists i :: 0 <= i < |ts| && Accept(c, d, ts[i]) == Some(e)
  {
    KeepFrom(Acceptor(c, d), ts, e);
    if exists i :: 0 <= i < |ts| && Acceptor(c, d)(ts[i]) == Some(e) {
      var i :| 0 <= i < |ts| && Acceptor(c, d)(ts[i]) == Some(e);
      assert Accept(c, d, ts[i]) == Some(e);
    }
  }

  /** Row order: the events of two runs of rows are those of the first run
      followed by those of the second. */
  lemma ColumnEventsConcat(c: Category, rows1: seq<Row>, rows2: seq<Row>)
    ensures ColumnEvents(c, rows1 + rows2) == ColumnEvents(c, rows1) + ColumnEvents(c, rows2)
  {
    ConcatAppend(RowEvents(c), rows1, rows2);
  }

  /** Every event of a column is an event of some row's cell, and every
      event of every row's cell is there; with `CellEventsFrom`, an event
      comes from an accepted token of some row and every accepted token of
      every row gives one. */
  lemma ColumnEventsFrom(c: Category, rows: seq<Row>, e: Event)
    ensures e in ColumnEvents(c, rows) <==>
      exists k :: 0 <= k < |rows| && e in CellEvents(c, rows[k].date, Tokens(Cell(rows[k], c)))
  {
    ConcatFrom(RowEvents(c), rows, e);
  }

  /** Every event of a column carries the date of some row and the detail
      kind of its category. */
  lemma ColumnEventsDated(c: Category, rows: seq<Row>, e: Event)
    requires e in ColumnEvents(c, rows)
    ensures (exists k :: 0 <= k < |rows| && e.date == rows[k].date) && Fits(c, e.detail)
  {
    ColumnEventsFrom(c, rows, e);
    var k :| 0 <= k < |rows| && e in CellEvents(c, rows[k].date, Tokens(Cell(rows[k], c)));
    var ts := Tokens(Cell(rows[k], c));
    CellEventsFrom(c, rows[k].date, ts, e);
    var i :| 0 <= i < |ts| && Accept(c, rows[k].date, ts[i]) == Some(e);
  }

  // ---------------------------------------------------------------------
  // The count table: one record per date that has an event, ascending and
  // without duplicates; each count is the number of that category's events
  // on the date, zero when there are none; each column adds up to the
  // length of its list.

  /** The list of one category among five lists. */
  function Pick(c: Category, b: seq<Event>, p: seq<Event>, f: seq<Event>, u: seq<Event>, s: seq<Event>): seq<Event>
  {
    match c
      case Breast => b
      case Pumped => p
      case Formula => f
      case Urine => u
      case Stool => s
  }

  /** The event list of a category in the records. */
  function EventsOf(r: Records, c: Category): seq<Event>
  {
    Pick(c, r.breast, r.pumped, r.formula, r.urine, r.stool)
  }

  /** The count of a category in a count record. */
  function CountIn(rec: CountRecord, c: Category): nat
  {
    match c
      case Breast => rec.breast
      case Pumped => rec.pumped
      case Formula => rec.formula
      case Urine => rec.urine
      case Stool => rec.stool
  }

  function RecordDate(rec: CountRecord): Date { rec.date }

  /** The events on date `d`, in order. */
  function OnDate(evs: seq<Event>, d: Date): seq<Event>
  {
    if evs == [] then []
    else OnDate(evs[..|evs| - 1], d) + (if evs[|evs| - 1].date == d then [evs[|evs| - 1]] else [])
  }

  /** The total of a category's count column. */
  function ColumnSum(t: seq<CountRecord>, c: Category): nat
  {
    if t == [] then 0 else CountIn(t[0], c) + ColumnSum(t[1..], c)
  }

  /** Counting a date's occurrences counts the events on it. */
  lemma {:induction false} CountOnEvents(evs: seq<Event>, d: Date)
    ensures CountOn(Dates(EventDate, evs), d) == |OnDate(evs, d)|
    decreases |evs|
  {
    if evs != [] {
      var init := evs[..|evs| - 1];
      var ds := Dates(EventDate, evs);
      assert ds[..|ds| - 1] == Dates(EventDate, init);
      assert Ones(ds)[..|ds| - 1] == Ones(Dates(EventDate, init));
      CountOnEvents(init, d);
    }
  }

  /** A date occurs among the dates of the events exactly when some event has it. */
  lemma EventDatesHas(evs: seq<Event>, d: Date)
    ensures d in Dates(EventDate, evs) <==> exists e :: e in evs && e.date == d
  {
    var ds := Dates(EventDate, evs);
    if d in ds {
      var i :| 0 <= i < |ds| && ds[i] == d;
      assert evs[i] in evs;
    }
    if exists e :: e in evs && e.date == d {
      var e :| e in evs && e.date == d;
      var i :| 0 <= i < |evs| && evs[i] == e;
      assert ds[i] == d;
    }
  }

  /** A category's count in the record of date `d`. */
  lemma CountOfIn(b: seq<Event>, p: seq<Event>, f: seq<Event>, u: seq<Event>, s: seq<Event>, d: Date, c: Category)
    ensures CountIn(CountOf(b, p, f, u, s, d), c) == CountOn(Dates(EventDate, Pick(c, b, p, f, u, s)), d)
  {
  }

  /** The dates of the records' count table are the dates of all their events. */
  lemma CountDatesHas(r: Records, d: Date)
    ensures d in CountDates(r.breast, r.pumped, r.formula, r.urine, r.stool) <==>
      exists c, e :: e in EventsOf(r, c) && e.date == d
  {
    var b, p, f, u, s := r.breast, r.pumped, r.formula, r.urine, r.stool;
    var all := Dates(EventDate, b) + Dates(EventDate, p) + Dates(EventDate, f) + Dates(EventDate, u) + Dates(EventDate, s);
    assert d in CountDates(b, p, f, u, s) <==> d in all;
    assert d in all <==> d in Dates(EventDate, b) || d in Dates(EventDate, p) || d in Dates(EventDate, f) || d in Dates(EventDate, u) || d in Dates(EventDate, s);
    EventDatesHas(b, d);
    EventDatesHas(p, d);
    EventDatesHas(f, d);
    EventDatesHas(u, d);
    EventDatesHas(s, d);
    if exists c, e :: e in EventsOf(r, c) && e.date == d {
      var c, e :| e in EventsOf(r, c) && e.date == d;
      match c
        case Breast =>
        case Pumped =>
        case Formula =>
        case Urine =>
        case Stool =>
    }
    if d in all {
      if d in Dates(EventDate, b) { assert EventsOf(r, Breast) == b; }
      else if d in Dates(EventDate, p) { assert EventsOf(r, Pumped) == p; }
      else if d in Dates(EventDate, f) { assert EventsOf(r, Formula) == f; }
      else if d in Dates(EventDate, u) { assert EventsOf(r, Urine) == u; }
      else { assert EventsOf(r, Stool) == s; }
    }
  }

  /** The count table parse_records builds: its dates ascend without
      duplicates, and they are exactly the dates on which some category has
      an event (the weight list plays no part). */
  lemma CountTableDates(rows: seq<Row>)
    ensures var r := RecordsOf(rows);
      && Increasing(Dates(RecordDate, r.count))
      && forall d :: d in Dates(RecordDate, r.count) <==> exists c, e :: e in EventsOf(r, c) && e.date == d
  {
    var r := RecordsOf(rows);
    var xs := CountDates(r.breast, r.pumped, r.formula, r.urine, r.stool);
    assert Dates(RecordDate, r.count) == xs;
    forall d ensures d in xs <==> exists c, e :: e in EventsOf(r, c) && e.date == d {
      CountDatesHas(r, d);
    }
  }

  /** Each count of the table is the number of that category's events on
      the record's date. */
  lemma CountsExact(rows: seq<Row>, i: nat, c: Category)
    requires i < |RecordsOf(rows).count|
    ensures var r := RecordsOf(rows); CountIn(r.count[i], c) == |OnDate(EventsOf(r, c), r.count[i].date)|
  {
    var r := RecordsOf(rows);
    var d := r.count[i].date;
    CountOfIn(r.breast, r.pumped, r.formula, r.urine, r.stool, d, c);
    CountOnEvents(EventsOf(r, c), d);
  }

  /** A count is zero exactly when that category has no event on the
      record's date; such zeros are written out. */
  lemma CountsZero(rows: seq<Row>, i: nat, c: Category)
    requires i < |RecordsOf(rows).count|
    ensures var r := RecordsOf(rows);
      CountIn(r.count[i], c) == 0 <==> forall e :: e in EventsOf(r, c) ==> e.date != r.count[i].date
  {
    var r := RecordsOf(rows);
    var d := r.count[i].date;
    CountOfIn(r.breast, r.pumped, r.formula, r.urine, r.stool, d, c);
    CountOnZero(Dates(EventDate, EventsOf(r, c)), d);
    EventDatesHas(EventsOf(r, c), d);
  }

  /** A column total of a count table is the per-date sum over its dates. */
  lemma {:induction false} ColumnSumTable(b: seq<Event>, p: seq<Event>, f: seq<Event>, u: seq<Event>, s: seq<Event>, xs: seq<Date>, c: Category)
    ensures ColumnSum(CountTable(b, p, f, u, s, xs), c) == SumOver(Ones(Dates(EventDate, Pick(c, b, p, f, u, s))), xs)
    decreases |xs|
  {
    if xs != [] {
      var t := CountTable(b, p, f, u, s, xs);
      assert t[1..] == CountTable(b, p, f, u, s, xs[1..]);
      CountOfIn(b, p, f, u, s, xs[0], c);
      ColumnSumTable(b, p, f, u, s, xs[1..], c);
    }
  }

  /** Each column of the count table adds up to the number of events of
      its category: no event is lost or counted twice. */
  lemma ColumnTotal(rows: seq<Row>, c: Category)
    ensures var r := RecordsOf(rows); ColumnSum(r.count, c) == |EventsOf(r, c)|
  {
    var r := RecordsOf(rows);
    var b, p, f, u, s := r.breast, r.pumped, r.formula, r.urine, r.stool;
    var xs := CountDates(b, p, f, u, s);
    var ds := Dates(EventDate, EventsOf(r, c));
    ColumnSumTable(b, p, f, u, s, xs, c);
    forall i | 0 <= i < |ds|
      ensures ds[i] in xs
    {
      assert EventsOf(r, c)[i] in EventsOf(r, c);
      CountDatesHas(r, ds[i]);
    }
    CountOverAll(ds, xs);
  }

  // ---------------------------------------------------------------------
  // Row order: the event lists of the rows in another order hold the same
  // events, and the count table is the same.

  /** What an event adds to the count of date d. */
  function OneOn(d: Date): Event -> nat
  {
    (e: Event) => if e.date == d then 1 else 0
  }

  /** Counting a date adds up what each event adds to it. */
  lemma {:induction false} CountOnTotal(evs: seq<Event>, d: Date)
    ensures CountOn(Dates(EventDate, evs), d) == Total(OneOn(d), evs)
    decreases |evs|
  {
    if evs != [] {
      var init := evs[..|evs| - 1];
      var ds := Dates(EventDate, evs);
      assert ds[..|ds| - 1] == Dates(EventDate, init);
      assert Ones(ds)[..|ds| - 1] == Ones(Dates(EventDate, init));
      CountOnTotal(init, d);
    }
  }

  /** The event list of a category in the records of the rows is its column. */
  lemma EventsOfRecords(rows: seq<Row>, c: Category)
    ensures EventsOf(RecordsOf(rows), c) == ColumnEvents(c, rows)
  {
    match c
      case Breast =>
      case Pumped =>
      case Formula =>
      case Urine =>
      case Stool =>
  }

  /** The counts of the rows in another order: each event list holds the
      same events as often, and the count table is the same record for
      record, dates and counts alike. */
  lemma CountTableShuffle(rows1: seq<Row>, rows2: seq<Row>)
    requires multiset(rows1) == multiset(rows2)
    ensures forall c :: multiset(EventsOf(RecordsOf(rows1), c)) == multiset(EventsOf(RecordsOf(rows2), c))
    ensures RecordsOf(rows1).count == RecordsOf(rows2).count
  {
    var r1, r2 := RecordsOf(rows1), RecordsOf(rows2);
    forall c ensures multiset(EventsOf(r1, c)) == multiset(EventsOf(r2, c)) {
      EventsOfRecords(rows1, c);
      EventsOfRecords(rows2, c);
      ConcatPerm(RowEvents(c), rows1, rows2);
    }
    CountTableOfShuffle(r1, r2);
  }

  /** Records whose event lists hold the same events as often have the
      same count table. */
  lemma CountTableOfShuffle(r1: Records, r2: Records)
    requires forall c :: multiset(EventsOf(r1, c)) == multiset(EventsOf(r2, c))
    ensures CountTable(r1.breast, r1.pumped, r1.formula, r1.urine, r1.stool,
                       CountDates(r1.breast, r1.pumped, r1.formula, r1.urine, r1.stool))
         == CountTable(r2.breast, r2.pumped, r2.formula, r2.urine, r2.stool,
                       CountDates(r2.breast, r2.pumped, r2.formula, r2.urine, r2.stool))
  {
    var xs1 := CountDates(r1.breast, r1.pumped, r1.formula, r1.urine, r1.stool);
    var xs2 := CountDates(r2.breast, r2.pumped, r2.formula, r2.urine, r2.stool);
    forall d ensures d in xs1 <==> d in xs2 {
      CountDatesHas(r1, d);
      CountDatesHas(r2, d);
      forall c, e ensures e in EventsOf(r1, c) <==> e in EventsOf(r2, c) {
        assert e in EventsOf(r1, c) <==> e in multiset(EventsOf(r1, c));
      }
    }
    IncreasingUnique(xs1, xs2);
    forall d ensures CountOf(r1.breast, r1.pumped, r1.formula, r1.urine, r1.stool, d)
                  == CountOf(r2.breast, r2.pumped, r2.formula, r2.urine, r2.stool, d) {
      CountShuffleOn(r1, r2, d);
    }
  }

  /** Events held as often count the same on every date. */
  lemma CountShuffleOn(r1: Records, r2: Records, d: Date)
    requires forall c :: multiset(EventsOf(r1, c)) == multiset(EventsOf(r2, c))
    ensures CountOf(r1.breast, r1.pumped, r1.formula, r1.urine, r1.stool, d)
         == CountOf(r2.breast, r2.pumped, r2.formula, r2.urine, r2.stool, d)
  {
    forall c ensures CountOn(Dates(EventDate, EventsOf(r1, c)), d) == CountOn(Dates(EventDate, EventsOf(r2, c)), d) {
      CountOnTotal(EventsOf(r1, c), d);
      CountOnTotal(EventsOf(r2, c), d);
      TotalPerm(OneOn(d), EventsOf(r1, c), EventsOf(r2, c));
    }
    assert EventsOf(r1, Breast) == r1.breast && EventsOf(r2, Breast) == r2.breast;
    assert EventsOf(r1, Pumped) == r1.pumped && EventsOf(r2, Pumped) == r2.pumped;
    assert EventsOf(r1, Formula) == r1.formula && EventsOf(r2, Formula) == r2.formula;
    assert EventsOf(r1, Urine) == r1.urine && EventsOf(r2, Urine) == r2.urine;
    assert EventsOf(r1, Stool) == r1.stool && EventsOf(r2, Stool) == r2.stool;
  }
}
