/** The runtime schema check: column lists from `DESCRIBE`, one sample row per table, and the
    report over the three warehouse tables, which goes on past a table that fails. */
module SchemaValidation {
  import opened Wrappers
  import opened Text
  import opened Status
  import opened TableSchemas
  import opened DatabaseConnections

  function ColumnsQuery(tableName: string): string
  {
    "DESCRIBE " + tableName
  }

  function SampleQuery(tableName: string, limit: int): string
  {
    "SELECT * FROM " + tableName + " LIMIT " + IntToString(limit)
  }

  /** What `str(e)` gives for the `KeyError` of a describe table without `col_name`. */
  const ColNameKeyError := "'col_name'"

  function ColumnsWarning(tableName: string, e: string): Message
  {
    Warning("Could not get columns for " + tableName + ": " + e)
  }

  function SampleWarning(tableName: string, e: string): Message
  {
    Warning("Could not get sample data for " + tableName + ": " + e)
  }

  /** `get_table_columns` on a given answer of `DESCRIBE`: the `col_name` values in row order
      when a non-empty table with that column came back, `None` otherwise; a warning exactly
      when the call raised, or the result had no data, or no `col_name` column. */
  function ColumnsOf(tableName: string, a: Answer): (r: (Option<seq<Cell>>, seq<Message>))
    ensures r.0.Some? <==>
              a.Returned? && a.result.data.Some? && !a.result.data.value.Empty() &&
              "col_name" in a.result.data.value.columns
    ensures r.0.Some? ==>
              |r.0.value| == |a.result.data.value.rows| > 0 &&
              forall i :: 0 <= i < |r.0.value| && "col_name" in a.result.data.value.rows[i] ==>
                r.0.value[i] == a.result.data.value.rows[i]["col_name"]
    ensures |r.1| <= 1 && forall i :: 0 <= i < |r.1| ==> r.1[i].Warning?
    ensures r.1 != [] <==>
              a.Raised? ||
              (a.Returned? && (a.result.data.None? ||
                (!a.result.data.value.Empty() && "col_name" !in a.result.data.value.columns)))
  {
    match a
    case NoResult => (None, [])
    case Raised(e) => (None, [ColumnsWarning(tableName, e)])
    case Returned(res) =>
      if res.data.None? then (None, [ColumnsWarning(tableName, NoneHasNoEmpty)])
      else if res.data.value.Empty() then (None, [])
      else
        match res.data.value.Column("col_name")
        case None => (None, [ColumnsWarning(tableName, ColNameKeyError)])
        case Some(names) => (Some(names), [])
  }

  /** The dictionary `get_sample_data` returns. */
  datatype Sample = Sample(columns: seq<string>, sampleData: map<string, Cell>, rowCount: nat)

  /** `get_sample_data` on a given answer of `SELECT * ... LIMIT`: the column labels, the first
      record and the number of rows of a non-empty table, `None` otherwise; a warning exactly
      when the call raised or the result had no data. */
  function SampleOf(tableName: string, a: Answer): (r: (Option<Sample>, seq<Message>))
    ensures r.0.Some? <==> a.Returned? && a.result.data.Some? && !a.result.data.value.Empty()
    ensures r.0.Some? ==>
              var f := a.result.data.value;
              r.0.value.columns == f.columns && r.0.value.rowCount == |f.rows| &&
              r.0.value.sampleData == f.rows[0]
    ensures |r.1| <= 1 && forall i :: 0 <= i < |r.1| ==> r.1[i].Warning?
    ensures r.1 != [] <==> a.Raised? || (a.Returned? && a.result.data.None?)
  {
    match a
    case NoResult => (None, [])
    case Raised(e) => (None, [SampleWarning(tableName, e)])
    case Returned(res) =>
      if res.data.None? then (None, [SampleWarning(tableName, NoneHasNoEmpty)])
      else if res.data.value.Empty() then (None, [])
      else (Some(Sample(res.data.value.columns, res.data.value.rows[0], |res.data.value.rows|)), [])
  }

  /** One entry of the `validate_all_tables` result. */
  datatype TableReport = TableReport(
    fullName: string,
    columns: Option<seq<Cell>>,
    columnCount: nat,
    sample: Option<Sample>,
    hasLoanAmnt: bool,
    hasBalance: bool)

  /** The dictionary built for one table from what was retrieved: the count is the number of
      columns found (0 when none were), and each flag holds exactly when columns were found
      and the field is among them. */
  function ReportFrom(fullName: string, columns: Option<seq<Cell>>, sample: Option<Sample>): (r: TableReport)
    ensures r.fullName == fullName && r.columns == columns && r.sample == sample
    ensures r.columnCount == if columns.Some? then |columns.value| else 0
    ensures r.hasLoanAmnt <==> columns.Some? && Str("loan_amnt") in columns.value
    ensures r.hasBalance <==> columns.Some? && Str("balance") in columns.value
  {
    if columns.Some? && |columns.value| > 0 then
      TableReport(fullName, columns, |columns.value|, sample,
                  Str("loan_amnt") in columns.value, Str("balance") in columns.value)
    else
      TableReport(fullName, columns, 0, sample, false, false)
  }

  /** The entry for one table, given the database's answers to its two statements. */
  function Report(tableName: string, answers: string -> Answer): TableReport
  {
    ReportFrom(tableName, ColumnsOf(tableName, answers(ColumnsQuery(tableName))).0,
               SampleOf(tableName, answers(SampleQuery(tableName, 1))).0)
  }

  /** The closing status of one table: a success naming the column count when columns were
      found, an error otherwise. */
  function Verdict(shortName: string, columns: Option<seq<Cell>>): (m: Message)
    ensures m.Success? <==> columns.Some? && |columns.value| > 0
    ensures m.Error? <==> !m.Success?
  {
    if columns.Some? && |columns.value| > 0 then
      Message.Success(Check + shortName + ": " + NatToString(|columns.value|) + " columns found")
    else
      Error(Cross + shortName + ": Could not retrieve columns")
  }

  /** The status messages of validating one table, in the order they are shown. */
  function TableMessages(tableName: string, answers: string -> Answer): seq<Message>
  {
    var cols := ColumnsOf(tableName, answers(ColumnsQuery(tableName)));
    cols.1 + SampleOf(tableName, answers(SampleQuery(tableName, 1))).1 +
    [Verdict(LastSegment(tableName, '.'), cols.0)]
  }

  /** `results[name.split('.')[-1]] = entry(name)` for each name in turn. */
  function KeyedByShortName<V>(tables: seq<string>, entry: string -> V): map<string, V>
    decreases |tables|
  {
    if tables == [] then map[]
    else
      var n := |tables| - 1;
      KeyedByShortName(tables[..n], entry)[LastSegment(tables[n], '.') := entry(tables[n])]
  }

  /** The pieces `piece(name)` for each name in turn, one after the other. */
  function ConcatMap<T>(tables: seq<string>, piece: string -> seq<T>): seq<T>
    decreases |tables|
  {
    if tables == [] then []
    else
      var n := |tables| - 1;
      ConcatMap(tables[..n], piece) + piece(tables[n])
  }

  /** The results map after validating `tables` in order. */
  function ReportsFor(answers: string -> Answer, tables: seq<string>): map<string, TableReport>
  {
    KeyedByShortName(tables, t => Report(t, answers))
  }

  /** The statements sent while validating `tables`: a describe, then a one-row sample. */
  function QueriesFor(tables: seq<string>): seq<string>
  {
    ConcatMap(tables, t => [ColumnsQuery(t), SampleQuery(t, 1)])
  }

  /** The status messages shown while validating `tables`. */
  function MessagesFor(answers: string -> Answer, tables: seq<string>): seq<Message>
  {
    ConcatMap(tables, t => TableMessages(t, answers))
  }

  /** Whether a table yields no column list. */
  function Failed(tableName: string, answers: string -> Answer): bool
  {
    ColumnsOf(tableName, answers(ColumnsQuery(tableName))).0.None?
  }

  /** How many of `tables` yield no column list: none exactly when every table yields one,
      all of them exactly when none does. */
  function FailedCount(answers: string -> Answer, tables: seq<string>): (n: nat)
    ensures n <= |tables|
    ensures n == 0 <==> forall k :: 0 <= k < |tables| ==> !Failed(tables[k], answers)
    ensures n == |tables| <==> forall k :: 0 <= k < |tables| ==> Failed(tables[k], answers)
    decreases |tables|
  {
    if tables == [] then 0
    else
      var n := |tables| - 1;
      FailedCount(answers, tables[..n]) + if Failed(tables[n], answers) then 1 else 0
  }

  /** The Python type name a `TypeError` message gives for a cell. */
  function TypeName(c: Cell): string
  {
    match c
    case Null => "NoneType"
    case Str(_) => "str"
    case Num(_) => "int"
  }

  /** The position of the first cell that is not a string, or `|cells|` when all are. */
  function FirstNonText(cells: seq<Cell>): (i: nat)
    ensures i <= |cells|
    ensures forall j :: 0 <= j < i ==> cells[j].Str?
    ensures i < |cells| ==> !cells[i].Str?
  {
    if cells == [] || !cells[0].Str? then 0 else 1 + FirstNonText(cells[1..])
  }

  /** `columns[:10]`. */
  function FirstTen(cells: seq<Cell>): seq<Cell>
  {
    if |cells| <= 10 then cells else cells[..10]
  }

  /** The summary line `', '.join(columns[:10])`, shown after a table's success message,
      raises `TypeError` exactly when one of the first ten column names is not a string;
      the result is the exception's text. */
  function ListingError(columns: Option<seq<Cell>>): (e: Option<string>)
    ensures e.Some? <==>
              columns.Some? && |columns.value| > 0 &&
              exists j :: 0 <= j < |columns.value| && j < 10 && !columns.value[j].Str?
  {
    if columns.None? || |columns.value| == 0 then None
    else
      var shown := FirstTen(columns.value);
      var i := FirstNonText(shown);
      if i == |shown| then
        assert forall j :: 0 <= j < |columns.value| && j < 10 ==> columns.value[j] == shown[j];
        None
      else
        assert columns.value[i] == shown[i];
        Some("sequence item " + NatToString(i) + ": expected str instance, " + TypeName(shown[i]) + " found")
  }

  /** The exception, if any, of a table's summary line. */
  function ListingFailure(tableName: string, answers: string -> Answer): Option<string>
  {
    ListingError(Report(tableName, answers).columns)
  }

  /** Validating the table gets past its summary line. */
  predicate Listed(tableName: string, answers: string -> Answer)
  {
    ListingFailure(tableName, answers).None?
  }

  /** Every table of `tables` gets past its summary line. */
  predicate AllListed(answers: string -> Answer, tables: seq<string>)
    decreases |tables|
  {
    tables == [] ||
    (AllListed(answers, tables[..|tables| - 1]) && Listed(tables[|tables| - 1], answers))
  }

  lemma {:induction false} AllListedEach(answers: string -> Answer, tables: seq<string>)
    ensures AllListed(answers, tables) <==> forall k :: 0 <= k < |tables| ==> Listed(tables[k], answers)
    decreases |tables|
  {
    if tables != [] {
      var n := |tables| - 1;
      AllListedEach(answers, tables[..n]);
      assert forall k :: 0 <= k < n ==> tables[..n][k] == tables[k];
    }
  }

  /** A prefix of listed tables is listed. */
  lemma {:induction false} AllListedPrefix(answers: string -> Answer, tables: seq<string>, k: nat)
    requires k <= |tables|
    requires AllListed(answers, tables)
    ensures AllListed(answers, tables[..k])
    decreases |tables|
  {
    if k < |tables| {
      var n := |tables| - 1;
      AllListedPrefix(answers, tables[..n], k);
      assert tables[..n][..k] == tables[..k];
    } else {
      assert tables[..k] == tables;
    }
  }

  /** Validating one more table appends its statements and messages, stores its entry and
      adds its summary line to those that must not raise. */
  lemma PrefixStep(answers: string -> Answer, tables: seq<string>, i: nat, sent: seq<string>, shown: seq<Message>)
    requires i < |tables|
    ensures sent + QueriesFor(tables[..i + 1]) ==
            sent + QueriesFor(tables[..i]) + [ColumnsQuery(tables[i]), SampleQuery(tables[i], 1)]
    ensures shown + MessagesFor(answers, tables[..i + 1]) ==
            shown + MessagesFor(answers, tables[..i]) + TableMessages(tables[i], answers)
    ensures ReportsFor(answers, tables[..i + 1]) ==
            ReportsFor(answers, tables[..i])[LastSegment(tables[i], '.') := Report(tables[i], answers)]
    ensures AllListed(answers, tables[..i + 1]) <==> AllListed(answers, tables[..i]) && Listed(tables[i], answers)
  {
    assert tables[..i + 1][..i] == tables[..i];
  }

  /** `tables[k]` is the first table whose summary line raises. */
  predicate StopsAt(answers: string -> Answer, tables: seq<string>, k: int)
  {
    0 <= k < |tables| && AllListed(answers, tables[..k]) && !Listed(tables[k], answers)
  }

  /** The three tables `validate_all_tables` checks, in order. */
  const ValidatedTables := [HistoricalLoans.QualifiedName(), RawTransactions.QualifiedName(), RefAccounting.QualifiedName()]

  /** The short names of `tables`. */
  function ShortNames(tables: seq<string>): set<string>
    decreases |tables|
  {
    if tables == [] then {} else ShortNames(tables[..|tables| - 1]) + {LastSegment(tables[|tables| - 1], '.')}
  }

  /** The map is keyed by exactly the short names of the tables. */
  lemma {:induction false} KeyedKeys<V>(tables: seq<string>, entry: string -> V)
    ensures KeyedByShortName(tables, entry).Keys == ShortNames(tables)
    decreases |tables|
  {
    if tables != [] {
      KeyedKeys(tables[..|tables| - 1], entry);
    }
  }

  /** A short name belongs to the set exactly when some table has it. */
  lemma {:induction false} ShortNamesMembers(tables: seq<string>, k: string)
    ensures k in ShortNames(tables) <==> exists i :: 0 <= i < |tables| && LastSegment(tables[i], '.') == k
    decreases |tables|
  {
    if tables != [] {
      var n := |tables| - 1;
      ShortNamesMembers(tables[..n], k);
      if exists i :: 0 <= i < |tables| && LastSegment(tables[i], '.') == k {
        var i :| 0 <= i < |tables| && LastSegment(tables[i], '.') == k;
        if i < n {
          assert LastSegment(tables[..n][i], '.') == k;
        }
      }
      if exists i :: 0 <= i < n && LastSegment(tables[..n][i], '.') == k {
        var i :| 0 <= i < n && LastSegment(tables[..n][i], '.') == k;
        assert LastSegment(tables[i], '.') == k;
      }
    }
  }

  /** A name whose short name no later name shares keeps its own entry, whatever the
      entries of the names before or after it are. */
  lemma {:induction false} KeyedEntry<V>(tables: seq<string>, entry: string -> V, i: int)
    requires 0 <= i < |tables|
    requires forall j :: i < j < |tables| ==> LastSegment(tables[j], '.') != LastSegment(tables[i], '.')
    ensures LastSegment(tables[i], '.') in KeyedByShortName(tables, entry)
    ensures KeyedByShortName(tables, entry)[LastSegment(tables[i], '.')] == entry(tables[i])
    decreases |tables|
  {
    var n := |tables| - 1;
    if i < n {
      assert forall j :: i < j < n ==> tables[..n][j] == tables[j];
      KeyedEntry(tables[..n], entry, i);
      assert tables[..n][i] == tables[i];
    }
  }

  /** The short names of the three validated tables. */
  lemma ValidatedShortNames()
    ensures |ValidatedTables| == 3
    ensures LastSegment(ValidatedTables[0], '.') == "historical_loans"
    ensures LastSegment(ValidatedTables[1], '.') == "raw_transactions"
    ensures LastSegment(ValidatedTables[2], '.') == "ref_accounting"
  {
    assert ValidatedTables[0] == HistoricalLoans.QualifiedName();
    assert ValidatedTables[1] == RawTransactions.QualifiedName();
    assert ValidatedTables[2] == RefAccounting.QualifiedName();
  }

  /** `validate_all_tables` returns exactly `historical_loans`, `raw_transactions` and
      `ref_accounting`, whatever the database answers. */
  lemma ValidatedTablesKeys(answers: string -> Answer)
    ensures ReportsFor(answers, ValidatedTables).Keys == {"historical_loans", "raw_transactions", "ref_accounting"}
  {
    var ts := ValidatedTables;
    ValidatedShortNames();
    KeyedKeys(ts, t => Report(t, answers));
    var one, two := ts[..1], ts[..2];
    assert two[..1] == one && one[..0] == [];
    assert ShortNames(one) == {"historical_loans"};
    assert ShortNames(two) == {"historical_loans", "raw_transactions"};
    assert ShortNames(ts) == ShortNames(two) + {"ref_accounting"};
  }

  /** Each of the three entries is its own table's report, so a table that fails leaves the
      other two entries as they would otherwise be. */
  lemma ValidatedTablesEntries(answers: string -> Answer, t: TableRef)
    ensures t.ShortName() in ReportsFor(answers, ValidatedTables)
    ensures ReportsFor(answers, ValidatedTables)[t.ShortName()] == Report(t.QualifiedName(), answers)
  {
    var ts := ValidatedTables;
    var entry := (s: string) => Report(s, answers);
    ValidatedShortNames();
    var i := match t case HistoricalLoans => 0 case RawTransactions => 1 case RefAccounting => 2;
    assert ts[i] == t.QualifiedName();
    KeyedEntry(ts, entry, i);
  }

  lemma {:induction false} ErrorCountAppend(a: seq<Message>, b: seq<Message>)
    ensures ErrorCount(a + b) == ErrorCount(a) + ErrorCount(b)
    decreases |a|
  {
    if a == [] {
      assert a + b == b;
    } else {
      assert (a + b)[0] == a[0];
      assert (a + b)[1..] == a[1..] + b;
      ErrorCountAppend(a[1..], b);
    }
  }

  /** A log made only of warnings holds no error. */
  lemma {:induction false} WarningsCountNoError(ms: seq<Message>)
    requires forall i :: 0 <= i < |ms| ==> ms[i].Warning?
    ensures ErrorCount(ms) == 0
    decreases |ms|
  {
    if ms != [] {
      assert forall i :: 0 <= i < |ms[1..]| ==> ms[1..][i] == ms[i + 1];
      WarningsCountNoError(ms[1..]);
    }
  }

  /** Validating one table shows one error exactly when it yields no column list. */
  lemma TableMessagesErrors(tableName: string, answers: string -> Answer)
    ensures ErrorCount(TableMessages(tableName, answers)) == if Failed(tableName, answers) then 1 else 0
  {
    var cols := ColumnsOf(tableName, answers(ColumnsQuery(tableName)));
    var sample := SampleOf(tableName, answers(SampleQuery(tableName, 1)));
    var v := Verdict(LastSegment(tableName, '.'), cols.0);
    WarningsCountNoError(cols.1);
    WarningsCountNoError(sample.1);
    assert ErrorCount([v]) == if cols.0.None? then 1 else 0 by {
      assert [v][1..] == [];
    }
    ErrorCountAppend(cols.1, sample.1);
    ErrorCountAppend(cols.1 + sample.1, [v]);
  }

  /** Every table that yields no column list is reported by exactly one error, and no other
      error is shown. */
  lemma {:induction false} ErrorsAreFailedTables(answers: string -> Answer, tables: seq<string>)
    ensures ErrorCount(MessagesFor(answers, tables)) == FailedCount(answers, tables)
    decreases |tables|
  {
    if tables != [] {
      var n := |tables| - 1;
      ErrorsAreFailedTables(answers, tables[..n]);
      TableMessagesErrors(tables[n], answers);
      ErrorCountAppend(MessagesFor(answers, tables[..n]), TableMessages(tables[n], answers));
    }
  }

  class SchemaValidator {
    const db: Backend

    constructor (db: Backend)
      ensures this.db == db
    {
      this.db := db;
    }

    /** `get_table_columns`: one `DESCRIBE`, settled as `ColumnsOf` says. */
    method GetTableColumns(tableName: string) returns (columns: Option<seq<Cell>>)
      modifies db`received, db.ui
      ensures db.received == old(db.received) + [ColumnsQuery(tableName)]
      ensures columns == ColumnsOf(tableName, db.answers(ColumnsQuery(tableName))).0
      ensures db.ui.messages == old(db.ui.messages) + ColumnsOf(tableName, db.answers(ColumnsQuery(tableName))).1
    {
      var a := db.ExecuteQuery(ColumnsQuery(tableName));
      columns := None;
      match a {
        case NoResult =>
        case Raised(e) =>
          db.ui.Emit(ColumnsWarning(tableName, e));
        case Returned(res) =>
          if res.data.None? {
            db.ui.Emit(ColumnsWarning(tableName, NoneHasNoEmpty));
          } else if !res.data.value.Empty() {
            var names := res.data.value.Column("col_name");
            if names.None? {
              db.ui.Emit(ColumnsWarning(tableName, ColNameKeyError));
            } else {
              columns := names;
            }
          }
      }
    }

    /** `validate_column_exists`: true exactly when a column list came back and holds the
        name. */
    method ValidateColumnExists(tableName: string, columnName: string) returns (exists_: bool)
      modifies db`received, db.ui
      ensures db.received == old(db.received) + [ColumnsQuery(tableName)]
      ensures var cs := ColumnsOf(tableName, db.answers(ColumnsQuery(tableName))).0;
              exists_ <==> cs.Some? && |cs.value| > 0 && Str(columnName) in cs.value
      ensures db.ui.messages == old(db.ui.messages) + ColumnsOf(tableName, db.answers(ColumnsQuery(tableName))).1
    {
      var columns := GetTableColumns(tableName);
      if columns.Some? && |columns.value| > 0 {
        return Str(columnName) in columns.value;
      }
      return false;
    }

    /** `get_sample_data(table_name, limit)`: one `SELECT * ... LIMIT`, settled as `SampleOf`
        says. */
    method GetSampleData(tableName: string, limit: int) returns (sample: Option<Sample>)
      modifies db`received, db.ui
      ensures db.received == old(db.received) + [SampleQuery(tableName, limit)]
      ensures sample == SampleOf(tableName, db.answers(SampleQuery(tableName, limit))).0
      ensures db.ui.messages == old(db.ui.messages) + SampleOf(tableName, db.answers(SampleQuery(tableName, limit))).1
    {
      var a := db.ExecuteQuery(SampleQuery(tableName, limit));
      sample := None;
      match a {
        case NoResult =>
        case Raised(e) =>
          db.ui.Emit(SampleWarning(tableName, e));
        case Returned(res) =>
          if res.data.None? {
            db.ui.Emit(SampleWarning(tableName, NoneHasNoEmpty));
          } else if !res.data.value.Empty() {
            var f := res.data.value;
            sample := Some(Sample(f.columns, f.rows[0], |f.rows|));
          }
      }
    }

    /** One round of the `validate_all_tables` loop: look the table up, build its entry, show
        its verdict, and then the summary line, which may raise. */
    method ValidateTable(tableName: string) returns (round: Result<TableReport>)
      modifies db`received, db.ui
      ensures db.received == old(db.received) + [ColumnsQuery(tableName), SampleQuery(tableName, 1)]
      ensures round.Success? <==> Listed(tableName, db.answers)
      ensures round.Success? ==> round.value == Report(tableName, db.answers)
      ensures round.Failure? ==> Some(round.error) == ListingFailure(tableName, db.answers)
      ensures db.ui.messages == old(db.ui.messages) + TableMessages(tableName, db.answers)
    {
      ghost var sent := db.received;
      ghost var shown := db.ui.messages;
      var columns := GetTableColumns(tableName);
      ghost var columnMessages := db.ui.messages[|shown|..];
      var sample := GetSampleData(tableName, 1);
      ghost var sampleMessages := db.ui.messages[|shown| + |columnMessages|..];
      var report := ReportFrom(tableName, columns, sample);
      ShowVerdict(LastSegment(tableName, '.'), columns);
      assert sent + [ColumnsQuery(tableName)] + [SampleQuery(tableName, 1)] ==
             sent + [ColumnsQuery(tableName), SampleQuery(tableName, 1)];
      assert db.ui.messages == shown + (columnMessages + sampleMessages + [Verdict(LastSegment(tableName, '.'), columns)]);
      var failure := ListingError(columns);
      if failure.Some? {
        round := Failure(failure.value);
      } else {
        round := Result.Success(report);
      }
    }

    /** The `st.success` or `st.error` that closes a table's round. */
    method ShowVerdict(shortName: string, columns: Option<seq<Cell>>)
      modifies db.ui
      ensures db.ui.messages == old(db.ui.messages) + [Verdict(shortName, columns)]
    {
      if columns.Some? && |columns.value| > 0 {
        db.ui.Emit(Message.Success(Check + shortName + ": " + NatToString(|columns.value|) + " columns found"));
      } else {
        db.ui.Emit(Error(Cross + shortName + ": Could not retrieve columns"));
      }
    }

    /** The loop of `validate_all_tables` over a list of tables: every table is looked up in
        turn, a failed lookup included, and its entry is stored under its short name. The
        `TypeError` of a table's summary line ends the whole call, dictionary and all, after
        that table's messages. */
    method ValidateTables(tables: seq<string>) returns (r: Result<map<string, TableReport>>, ghost stop: nat)
      modifies db`received, db.ui
      ensures r.Success? <==> AllListed(db.answers, tables)
      ensures r.Success? ==>
                r.value == ReportsFor(db.answers, tables) &&
                db.received == old(db.received) + QueriesFor(tables) &&
                db.ui.messages == old(db.ui.messages) + MessagesFor(db.answers, tables)
      ensures r.Failure? ==>
                StopsAt(db.answers, tables, stop) &&
                Some(r.error) == ListingFailure(tables[stop], db.answers) &&
                db.received == old(db.received) + QueriesFor(tables[..stop + 1]) &&
                db.ui.messages == old(db.ui.messages) + MessagesFor(db.answers, tables[..stop + 1])
    {
      stop := 0;
      var results := map[];
      for i := 0 to |tables|
        invariant AllListed(db.answers, tables[..i])
        invariant results == ReportsFor(db.answers, tables[..i])
        invariant db.received == old(db.received) + QueriesFor(tables[..i])
        invariant db.ui.messages == old(db.ui.messages) + MessagesFor(db.answers, tables[..i])
      {
        var table := tables[i];
        var round := ValidateTable(table);
        PrefixStep(db.answers, tables, i, old(db.received), old(db.ui.messages));
        if round.Failure? {
          assert StopsAt(db.answers, tables, i);
          assert !AllListed(db.answers, tables) by {
            if AllListed(db.answers, tables) {
              AllListedPrefix(db.answers, tables, i + 1);
            }
          }
          return Failure(round.error), i;
        }
        results := results[LastSegment(table, '.') := round.value];
      }
      assert tables[..|tables|] == tables;
      r := Result.Success(results);
    }

    /** `validate_all_tables`: the three warehouse tables, keyed by their short names. */
    method ValidateAllTables() returns (r: Result<map<string, TableReport>>, ghost stop: nat)
      modifies db`received, db.ui
      ensures r.Success? <==> AllListed(db.answers, ValidatedTables)
      ensures r.Success? ==>
                r.value == ReportsFor(db.answers, ValidatedTables) &&
                r.value.Keys == {"historical_loans", "raw_transactions", "ref_accounting"} &&
                db.received == old(db.received) + QueriesFor(ValidatedTables) &&
                db.ui.messages == old(db.ui.messages) + MessagesFor(db.answers, ValidatedTables)
      ensures r.Failure? ==>
                StopsAt(db.answers, ValidatedTables, stop) &&
                Some(r.error) == ListingFailure(ValidatedTables[stop], db.answers) &&
                db.received == old(db.received) + QueriesFor(ValidatedTables[..stop + 1]) &&
                db.ui.messages == old(db.ui.messages) + MessagesFor(db.answers, ValidatedTables[..stop + 1])
    {
      r, stop := ValidateTables(ValidatedTables);
      ValidatedTablesKeys(db.answers);
    }
  }
}
