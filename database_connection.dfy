/** The Databricks SQL connection: the warehouse-id guard, query execution with its result
    metadata, the connection probe and the table lookup. The SQL driver is an oracle: it
    either refuses the connection or answers each statement with a table or an exception. */
module DatabaseConnections {
  import opened Wrappers
  import opened Text
  import opened Status

  /** A cell of a result table. Floating-point values are not modelled. */
  datatype Cell = Null | Str(text: string) | Num(value: int)

  /** A pandas DataFrame: its column labels in order, and one record (name to cell) per row. */
  datatype Frame = Frame(columns: seq<string>, rows: seq<map<string, Cell>>)
  {
    /** `df.empty`: the frame has no rows or no columns. */
    predicate Empty()
    {
      |rows| == 0 || |columns| == 0
    }

    /** `df[name].tolist()`: the name's cell in every row, or `None` where pandas raises
        `KeyError` because there is no such column. */
    function Column(name: string): (r: Option<seq<Cell>>)
      ensures r.Some? <==> name in columns
      ensures r.Some? ==> |r.value| == |rows|
      ensures r.Some? ==> forall i :: 0 <= i < |rows| && name in rows[i] ==> r.value[i] == rows[i][name]
    {
      if name in columns then
        Some(seq(|rows|, i requires 0 <= i < |rows| => if name in rows[i] then rows[i][name] else Null))
      else
        None
    }
  }

  /** The `metadata` dictionary of a query result. */
  datatype Metadata = Metadata(rowCount: nat, columnCount: nat, columns: seq<string>)

  /** The `{'data': ..., 'metadata': ...}` dictionary `execute_query` returns. The data is
      optional because the callers test `result['data'] is not None`. */
  datatype QueryResult = QueryResult(data: Option<Frame>, metadata: Metadata)

  /** What a call of `execute_query` gives its caller: a result, `None`, or an exception. */
  datatype Answer = Returned(result: QueryResult) | NoResult | Raised(message: string)

  /** The metadata record built from a result table. */
  function Describe(f: Frame): (m: Metadata)
    ensures m.rowCount == |f.rows|
    ensures |f.rows| > 0 ==> m.columnCount == |f.columns| && m.columns == f.columns
    ensures |f.rows| == 0 ==> m.columnCount == 0 && m.columns == []
    ensures m.columnCount == |m.columns|
  {
    Metadata(|f.rows|, if f.Empty() then 0 else |f.columns|, if f.Empty() then [] else f.columns)
  }

  /** The answer a caller sees from an `Optional` result. */
  function AnswerOf(r: Option<QueryResult>): Answer
  {
    if r.Some? then Returned(r.value) else NoResult
  }

  const MissingWarehouseId := "DATABRICKS_WAREHOUSE_ID environment variable not set"
  const TestQuery := "SELECT 1 as test"

  /** What `str(e)` gives for the `AttributeError` of reading `.empty` on `None`. */
  const NoneHasNoEmpty := "'NoneType' object has no attribute 'empty'"

  function HttpPath(warehouseId: string): string
  {
    "/sql/1.0/warehouses/" + warehouseId
  }

  function DescribeTable(tableName: string): string
  {
    "DESCRIBE TABLE " + tableName
  }

  /** `test_connection` on a given answer of `SELECT 1 as test`: true exactly when a table
      with some rows and columns came back. */
  function ProbeResult(a: Answer): (ok: bool)
    ensures ok <==> a.Returned? && a.result.data.Some? && !a.result.data.value.Empty()
  {
    match a
    case Returned(res) => res.data.Some? && !res.data.value.Empty()
    case NoResult => false
    case Raised(_) => false
  }

  /** The status messages of `test_connection`: one error when the call raised (also when
      reading `.empty` on missing data raises), none otherwise. */
  function ProbeMessages(a: Answer): (ms: seq<Message>)
    ensures |ms| <= 1
    ensures ms != [] <==> a.Raised? || (a.Returned? && a.result.data.None?)
    ensures forall i :: 0 <= i < |ms| ==> ms[i].Error?
  {
    match a
    case Raised(e) => [Error("Connection test failed: " + e)]
    case Returned(res) => if res.data.None? then [Error("Connection test failed: " + NoneHasNoEmpty)] else []
    case NoResult => []
  }

  /** The dictionary `get_table_info` returns. */
  datatype TableInfo = TableInfo(tableName: string, columns: seq<map<string, Cell>>, columnCount: nat)

  /** `get_table_info` on a given answer of `DESCRIBE TABLE`: the table name unchanged with one
      record per describe row, or `None`; a warning only when the call raised. */
  function TableInfoOf(tableName: string, a: Answer): (r: (Option<TableInfo>, seq<Message>))
    ensures r.0.Some? <==> a.Returned? && a.result.data.Some? && !a.result.data.value.Empty()
    ensures r.0.Some? ==> r.0.value.tableName == tableName && r.0.value.columns == a.result.data.value.rows
    ensures r.0.Some? ==> r.0.value.columnCount == |a.result.data.value.rows| > 0
    ensures |r.1| <= 1 && forall i :: 0 <= i < |r.1| ==> r.1[i].Warning?
    ensures r.1 != [] <==> a.Raised? || (a.Returned? && a.result.data.None?)
  {
    match a
    case Raised(e) => (None, [Warning("Could not get table info for " + tableName + ": " + e)])
    case NoResult => (None, [])
    case Returned(res) =>
      if res.data.None? then (None, [Warning("Could not get table info for " + tableName + ": " + NoneHasNoEmpty)])
      else if res.data.value.Empty() then (None, [])
      else (Some(TableInfo(tableName, res.data.value.rows, |res.data.value.rows|)), [])
  }

  /** A `None` result gives `None` and no warning at all. */
  lemma TableInfoOfNoResult(tableName: string)
    ensures TableInfoOf(tableName, NoResult) == (None, [])
  {
  }

  /** The SQL driver behind `sql.connect` and the cursor: whether it refuses a connection,
      and what it answers for each statement. It records every connection made (by its HTTP
      path) and every statement executed. */
  class Driver {
    const connectError: Option<string>
    const responses: string -> Result<Frame>
    var connections: seq<string>
    var executed: seq<string>

    constructor (connectError: Option<string>, responses: string -> Result<Frame>)
      ensures this.connectError == connectError && this.responses == responses
      ensures connections == [] && executed == []
    {
      this.connectError := connectError;
      this.responses := responses;
      connections := [];
      executed := [];
    }

    /** `sql.connect(...)`. */
    method Connect(httpPath: string) returns (r: Result<()>)
      modifies this`connections
      ensures connections == old(connections) + [httpPath]
      ensures r.Failure? <==> connectError.Some?
      ensures r.Failure? ==> r.error == connectError.value
    {
      connections := connections + [httpPath];
      if connectError.Some? {
        return Failure(connectError.value);
      }
      return Result.Success(());
    }

    /** `cursor.execute(query)` followed by `fetchall_arrow().to_pandas()`. */
    method Execute(query: string) returns (r: Result<Frame>)
      modifies this`executed
      ensures executed == old(executed) + [query]
      ensures r == responses(query)
    {
      executed := executed + [query];
      r := responses(query);
    }
  }

  class DatabaseConnection {
    /** `os.getenv('DATABRICKS_WAREHOUSE_ID')`, read once at construction. */
    const warehouseId: Option<string>
    const driver: Driver
    const ui: Ui
    /** How many times `st.cache_resource.clear()` was called. */
    var cacheClears: nat

    constructor (warehouseId: Option<string>, driver: Driver, ui: Ui)
      ensures this.warehouseId == warehouseId && this.driver == driver && this.ui == ui
      ensures cacheClears == 0
    {
      this.warehouseId := warehouseId;
      this.driver := driver;
      this.ui := ui;
      cacheClears := 0;
    }

    /** The warehouse id is unset or the empty string. */
    predicate MissingWarehouse()
    {
      warehouseId.None? || warehouseId.value == ""
    }

    /** Why connecting fails, if it does: a missing warehouse id is reported before the
        driver is ever asked. */
    function ConnectFailure(): (e: Option<string>)
      ensures MissingWarehouse() ==> e == Some(MissingWarehouseId)
      ensures !MissingWarehouse() ==> e == driver.connectError
    {
      if MissingWarehouse() then Some(MissingWarehouseId) else driver.connectError
    }

    /** `execute_query(query)` in terms of the driver: `None` when connecting fails or the
        statement raises, otherwise the table with its metadata. */
    function QueryOutcome(query: string): (r: Option<QueryResult>)
      ensures r.None? <==> ConnectFailure().Some? || driver.responses(query).Failure?
      ensures r.Some? ==> r.value.data == Some(driver.responses(query).value)
      ensures r.Some? ==> r.value.metadata == Describe(r.value.data.value)
    {
      if ConnectFailure().Some? then None
      else if driver.responses(query).Failure? then None
      else
        var f := driver.responses(query).value;
        Some(QueryResult(Some(f), Describe(f)))
    }

    /** The status messages of `execute_query(query)`: the connection error followed by the
        execution error when connecting fails, the execution error alone when the statement
        raises, nothing on success. */
    function QueryMessages(query: string): (ms: seq<Message>)
      ensures QueryOutcome(query).Some? <==> ms == []
      ensures forall i :: 0 <= i < |ms| ==> ms[i].Error?
      ensures ConnectFailure().None? ==> |ms| <= 1
    {
      if ConnectFailure().Some? then
        [Error(Cross + "Database connection failed: " + ConnectFailure().value),
         Error(Cross + "Query execution failed: " + ConnectFailure().value)]
      else if driver.responses(query).Failure? then
        [Error(Cross + "Query execution failed: " + driver.responses(query).error)]
      else
        []
    }

    /** `get_connection`: refuses an unset or empty warehouse id without contacting the
        driver; on any failure it reports the error, clears the resource cache and passes the
        same exception on. */
    method GetConnection() returns (r: Result<()>)
      modifies this`cacheClears, ui, driver`connections
      ensures r.Failure? <==> ConnectFailure().Some?
      ensures r.Failure? ==> r.error == ConnectFailure().value
      ensures r.Failure? ==> ui.messages == old(ui.messages) + [Error(Cross + "Database connection failed: " + r.error)]
      ensures r.Failure? ==> cacheClears == old(cacheClears) + 1
      ensures r.Success? ==> ui.messages == old(ui.messages) && cacheClears == old(cacheClears)
      ensures MissingWarehouse() ==> driver.connections == old(driver.connections)
      ensures !MissingWarehouse() ==> driver.connections == old(driver.connections) + [HttpPath(warehouseId.value)]
    {
      if MissingWarehouse() {
        r := Failure(MissingWarehouseId);
      } else {
        r := driver.Connect(HttpPath(warehouseId.value));
      }
      if r.Failure? {
        ui.Emit(Error(Cross + "Database connection failed: " + r.error));
        cacheClears := cacheClears + 1;
      }
    }

    /** `execute_query`: never raises; the result and the messages are those the driver's
        answer determines. */
    method ExecuteQuery(query: string) returns (r: Option<QueryResult>)
      modifies this`cacheClears, ui, driver`connections, driver`executed
      ensures r == QueryOutcome(query)
      ensures ui.messages == old(ui.messages) + QueryMessages(query)
      ensures ConnectFailure().Some? ==> driver.executed == old(driver.executed)
      ensures ConnectFailure().None? ==> driver.executed == old(driver.executed) + [query]
    {
      var connection := GetConnection();
      if connection.Failure? {
        ui.Emit(Error(Cross + "Query execution failed: " + connection.error));
        return None;
      }
      var table := driver.Execute(query);
      if table.Failure? {
        ui.Emit(Error(Cross + "Query execution failed: " + table.error));
        return None;
      }
      var f := table.value;
      r := Some(QueryResult(Some(f), Describe(f)));
    }

    /** `test_connection`: runs the probe statement and reports whether rows came back. The
        handler for an exception is never reached, since `execute_query` raises nothing. */
    method TestConnection() returns (ok: bool)
      modifies this`cacheClears, ui, driver`connections, driver`executed
      ensures ok == ProbeResult(AnswerOf(QueryOutcome(TestQuery)))
      ensures ui.messages == old(ui.messages) + QueryMessages(TestQuery)
    {
      var result := ExecuteQuery(TestQuery);
      ok := result.Some? && !result.value.data.value.Empty();
    }

    /** `get_table_info`: describes the table; on a `None` or empty result it returns `None`
        and adds no warning of its own. */
    method GetTableInfo(tableName: string) returns (r: Option<TableInfo>)
      modifies this`cacheClears, ui, driver`connections, driver`executed
      ensures r == TableInfoOf(tableName, AnswerOf(QueryOutcome(DescribeTable(tableName)))).0
      ensures ui.messages == old(ui.messages) + QueryMessages(DescribeTable(tableName))
      ensures WarningCount(ui.messages) == WarningCount(old(ui.messages))
    {
      var result := ExecuteQuery(DescribeTable(tableName));
      ErrorsAddNoWarning(old(ui.messages), QueryMessages(DescribeTable(tableName)));
      if result.Some? && !result.value.data.value.Empty() {
        var f := result.value.data.value;
        return Some(TableInfo(tableName, f.rows, |f.rows|));
      }
      return None;
    }
  }

  /** `execute_query` catches every exception of the connection: the answer a `Backend`
      standing for a real connection gives is a table exactly when connecting and the
      statement both succeed, nothing otherwise, and never an exception. */
  lemma ConnectionNeverRaises(dc: DatabaseConnection, query: string)
    ensures !AnswerOf(dc.QueryOutcome(query)).Raised?
    ensures AnswerOf(dc.QueryOutcome(query)).Returned? <==>
              dc.ConnectFailure().None? && dc.driver.responses(query).Success?
    ensures AnswerOf(dc.QueryOutcome(query)).Returned? ==>
              AnswerOf(dc.QueryOutcome(query)).result.data == Some(dc.driver.responses(query).value)
  {
  }

  /** The facades' view of `db`: each statement gets whatever answer the connection (or a
      test double replacing its `execute_query`) gives. It records the statements it receives. */
  class Backend {
    const answers: string -> Answer
    const ui: Ui
    var received: seq<string>

    constructor (answers: string -> Answer, ui: Ui)
      ensures this.answers == answers && this.ui == ui && received == []
    {
      this.answers := answers;
      this.ui := ui;
      received := [];
    }

    /** `db.execute_query(query)`. */
    method ExecuteQuery(query: string) returns (a: Answer)
      modifies this`received
      ensures received == old(received) + [query]
      ensures a == answers(query)
    {
      received := received + [query];
      a := answers(query);
    }

    /** `db.test_connection()`, on the answer to the probe statement. */
    method TestConnection() returns (ok: bool)
      modifies this`received, ui
      ensures received == old(received) + [TestQuery]
      ensures ok == ProbeResult(answers(TestQuery))
      ensures ui.messages == old(ui.messages) + ProbeMessages(answers(TestQuery))
    {
      var a := ExecuteQuery(TestQuery);
      var ms := ProbeMessages(a);
      if ms != [] {
        ui.Emit(ms[0]);
        assert ms == [ms[0]];
      }
      ok := ProbeResult(a);
    }
  }

  /** Appending error messages adds no warning. */
  lemma {:induction false} ErrorsAddNoWarning(before: seq<Message>, added: seq<Message>)
    requires forall i :: 0 <= i < |added| ==> added[i].Error?
    ensures WarningCount(before + added) == WarningCount(before)
    decreases |before|
  {
    if before == [] {
      NoWarningIn(added);
      assert before + added == added;
    } else {
      assert (before + added)[1..] == before[1..] + added;
      ErrorsAddNoWarning(before[1..], added);
    }
  }

  lemma {:induction false} NoWarningIn(ms: seq<Message>)
    requires forall i :: 0 <= i < |ms| ==> ms[i].Error?
    ensures WarningCount(ms) == 0
    decreases |ms|
  {
    if ms != [] {
      NoWarningIn(ms[1..]);
    }
  }
}
