/**
 The whole request flow of `main` (main.go:32-224) as one function from the request
 parameters and the driver's answers to the output envelope.
 */
module Executor {
  import opened Wrappers
  import opened Strings
  import opened Values
  import opened Params
  import opened Statements

  /** The answer of `sql.Open` or `db.Ping`. */
  datatype Step = Passed | Failed(reason: string)

  /** The answer of `db.Query`: an error, or a cursor with its columns and scan steps. */
  datatype QueryOutcome =
    | QueryFailed(reason: string)
    | Opened(columns: Result<seq<string>, string>, rows: seq<ScanOutcome>)

  /** The answer of `db.Exec`: an error, or a result whose `RowsAffected` may itself fail. */
  datatype ExecOutcome =
    | ExecFailed(reason: string)
    | Executed(rowsAffected: Result<int, string>)

  /**
   The database as the program sees it. `query` and `exec` receive exactly the text
   and arguments the program sends, so what the driver is asked is part of the model.
   */
  datatype Driver = Driver(
    open: Step,
    ping: Step,
    query: (string, seq<Value>) -> QueryOutcome,
    exec: string -> ExecOutcome)

  /** The `result` payloads: the row list, `{"rows_affected": n}`, or the string "OK". */
  datatype Json = Rows(rows: seq<Row>) | RowsAffected(count: int) | Ok

  /** The `Output` envelope of main.go:20-23; an empty `error` is an absent one. */
  datatype Output = Output(result: Option<Json>, error: string)

  function Fail(message: string): Output {
    Output(None, message)
  }

  function Succeed(j: Json): Output {
    Output(Some(j), "")
  }

  /** Exactly one of `result` and `error` is present. */
  predicate ExactlyOne(o: Output) {
    o.result.Some? <==> o.error == ""
  }

  const ConnectPrefix := "failed to connect: "
  const PingPrefix := "failed to ping db: "
  const ExecutionPrefix := "execution error: "
  const ColumnsPrefix := "columns error: "

  /** Reading a cursor (main.go:181-214): its columns, then every row in order. */
  function FromCursor(columns: Result<seq<string>, string>, rows: seq<ScanOutcome>): (o: Output)
    ensures ExactlyOne(o)
    ensures o.result.Some? <==>
      columns.Success? && forall i :: 0 <= i < |rows| ==> ScansCleanly(columns.value, rows[i])
    ensures o.result.Some? ==> o.result.value.Rows? && |o.result.value.rows| == |rows|
    ensures o.result.Some? ==> forall i :: 0 <= i < |rows| ==>
              ScansCleanly(columns.value, rows[i])
              && o.result.value.rows[i] == RowMap(columns.value, rows[i].values)
    ensures columns.Failure? ==> o == Fail(ColumnsPrefix + columns.error)
    ensures columns.Success? && o.result.None? ==>
              exists k :: FirstFailure(columns.value, rows, k)
                          && o.error == ScanError(columns.value, rows[k])
  {
    match columns
    case Failure(e) => Fail(ColumnsPrefix + e)
    case Success(cols) =>
      match CollectRows(cols, rows)
      case Failure(e) =>
        assert HasPrefix(e, "scan error: ");
        Fail(e)
      case Success(maps) => Succeed(Rows(maps))
  }

  /** The row path of a query whose error is checked (main.go:176-214). */
  function ReadRows(outcome: QueryOutcome): (o: Output)
    ensures ExactlyOne(o)
    ensures outcome.QueryFailed? ==> o == Fail(ExecutionPrefix + outcome.reason)
  {
    match outcome
    case QueryFailed(e) => Fail(ExecutionPrefix + e)
    case Opened(columns, rows) => FromCursor(columns, rows)
  }

  /**
   The command path (main.go:172, 176-179, 216-221): the affected-row count, which
   is 0 when the driver cannot report it; only a failed `Exec` is an error.
   */
  function ReportCommand(outcome: ExecOutcome): (o: Output)
    ensures ExactlyOne(o)
    ensures o.result.Some? <==> outcome.Executed?
    ensures outcome.ExecFailed? ==> o == Fail(ExecutionPrefix + outcome.reason)
    ensures outcome.Executed? && outcome.rowsAffected.Failure? ==> o == Succeed(RowsAffected(0))
    ensures outcome.Executed? && outcome.rowsAffected.Success? ==>
      o == Succeed(RowsAffected(outcome.rowsAffected.value))
  {
    match outcome
    case ExecFailed(e) => Fail(ExecutionPrefix + e)
    case Executed(affected) => Succeed(RowsAffected(affected.GetOr(0)))
  }

  /**
   The driver call and the result envelope (main.go:108-224). With `shadowed` set,
   as main.go is written, a failed `db.Query` of a stored procedure or function is
   lost: `err` there is a new variable declared by `:=` at main.go:116 and
   main.go:136, so the check at main.go:176 sees no error, `rows` stays nil and the
   envelope is "OK" (main.go:222-223).
   */
  function Execute(m: Mode, st: Statement, db: Driver, shadowed: bool): (o: Output)
    ensures ExactlyOne(o)
  {
    if st.expectsRows then
      var outcome := db.query(st.text, st.args);
      if shadowed && IsRoutine(m) && outcome.QueryFailed? then Succeed(Ok) else ReadRows(outcome)
    else
      ReportCommand(db.exec(st.text))
  }

  /** The configuration after extraction and the connection check, if that check passes. */
  function Configure(ps: seq<Param>, scanPort: string -> Option<int>): Result<Config, string> {
    Validate(Extract(ps, scanPort))
  }

  /** The flow of `main`, with or without the error shadowing. */
  function Flow(
    ps: seq<Param>,
    scanPort: string -> Option<int>,
    decode: string -> Result<seq<Value>, string>,
    db: Driver,
    shadowed: bool): (o: Output)
    ensures ExactlyOne(o)
  {
    match Configure(ps, scanPort)
    case Failure(e) => Fail(e)
    case Success(c) =>
      if db.open.Failed? then Fail(ConnectPrefix + db.open.reason)
      else if db.ping.Failed? then Fail(PingPrefix + db.ping.reason)
      else
        match Build(c, decode)
        case Failure(e) => Fail(e)
        case Success(st) => Execute(ModeOf(c.dataType), st, db, shadowed)
  }

  /** `main` as written. Every run ends with exactly one of a result and an error. */
  function Run(
    ps: seq<Param>,
    scanPort: string -> Option<int>,
    decode: string -> Result<seq<Value>, string>,
    db: Driver): (o: Output)
    ensures ExactlyOne(o)
  {
    Flow(ps, scanPort, decode, db, true)
  }

  /** `main` with the procedure and function `db.Query` errors reported. */
  function RunIntended(
    ps: seq<Param>,
    scanPort: string -> Option<int>,
    decode: string -> Result<seq<Value>, string>,
    db: Driver): (o: Output)
    ensures ExactlyOne(o)
    ensures o.result != Some(Ok)
  {
    Flow(ps, scanPort, decode, db, false)
  }

  /** The connection is open and answered the ping. */
  predicate Connected(ps: seq<Param>, scanPort: string -> Option<int>, db: Driver) {
    Configure(ps, scanPort).Success? && db.open == Passed && db.ping == Passed
  }

  /**
   A missing host, user name or database name gives exactly that error, and the
   driver is never consulted: the output is the same whatever the database would say.
   */
  lemma RunRequiresConnectionFields(
    ps: seq<Param>,
    scanPort: string -> Option<int>,
    decode: string -> Result<seq<Value>, string>,
    db: Driver)
    requires var c := Extract(ps, scanPort); c.host == "" || c.username == "" || c.dbname == ""
    ensures Run(ps, scanPort, decode, db) == Fail(MissingConnectionError)
  {
  }

  /**
   Connection errors come before every mode-specific check: a failed open or ping is
   reported even when the object name, the query or the parameters are missing or bad.
   */
  lemma RunConnectionFirst(
    ps: seq<Param>,
    scanPort: string -> Option<int>,
    decode: string -> Result<seq<Value>, string>,
    db: Driver)
    requires Configure(ps, scanPort).Success?
    ensures db.open.Failed? ==> Run(ps, scanPort, decode, db) == Fail(ConnectPrefix + db.open.reason)
    ensures db.open == Passed && db.ping.Failed? ==>
      Run(ps, scanPort, decode, db) == Fail(PingPrefix + db.ping.reason)
  {
  }

  /**
   Table mode (main.go:103-109): an empty object name is an error; otherwise the
   driver is asked for `SELECT * FROM <name>` with no arguments, and its rows are read.
   */
  lemma RunTable(
    ps: seq<Param>,
    scanPort: string -> Option<int>,
    decode: string -> Result<seq<Value>, string>,
    db: Driver)
    requires Connected(ps, scanPort, db)
    requires ModeOf(Configure(ps, scanPort).value.dataType) == Table
    ensures var name := Configure(ps, scanPort).value.objectName;
      && (name == "" ==> Run(ps, scanPort, decode, db) == Fail(TableNameError))
      && (name != "" ==>
            Run(ps, scanPort, decode, db) == ReadRows(db.query("SELECT * FROM " + name, [])))
  {
  }

  /**
   Routine modes (main.go:111-150): the object name is checked first, then the
   parameters are decoded, and only then is the driver called, with one placeholder
   per argument and the arguments in order. A failed call is reported as "OK".
   */
  lemma RunRoutine(
    ps: seq<Param>,
    scanPort: string -> Option<int>,
    decode: string -> Result<seq<Value>, string>,
    db: Driver)
    requires Connected(ps, scanPort, db)
    requires IsRoutine(ModeOf(Configure(ps, scanPort).value.dataType))
    ensures var c := Configure(ps, scanPort).value;
      var m := ModeOf(c.dataType);
      var parsed := ParseArgs(c.parameters, decode);
      var prefix := if m == StoredProcedure then "CALL " else "SELECT * FROM ";
      && (c.objectName == "" ==>
            Run(ps, scanPort, decode, db)
            == Fail(if m == StoredProcedure then ProcedureNameError else FunctionNameError))
      && (c.objectName != "" && parsed.Failure? ==>
            Run(ps, scanPort, decode, db) == Fail(InvalidParametersPrefix + parsed.error))
      && (c.objectName != "" && parsed.Success? ==>
            var outcome := db.query(CallText(prefix, c.objectName, |parsed.value|), parsed.value);
            Run(ps, scanPort, decode, db)
            == if outcome.QueryFailed? then Succeed(Ok) else ReadRows(outcome))
  {
  }

  /**
   `parseArgs` end to end (main.go:113-127, 133-148, 227-236): when no request entry
   sets `parameters`, a routine is called with no placeholders and no arguments, and
   the JSON decoder is never consulted: the output is the same whatever it answers.
   */
  lemma RunRoutineWithoutParameters(
    ps: seq<Param>,
    scanPort: string -> Option<int>,
    decode: string -> Result<seq<Value>, string>,
    db: Driver)
    requires Connected(ps, scanPort, db)
    requires IsRoutine(ModeOf(Configure(ps, scanPort).value.dataType))
    requires Configure(ps, scanPort).value.objectName != ""
    requires forall i :: 0 <= i < |ps| ==> !Assigns(ps[i], Parameters, scanPort)
    ensures var c := Configure(ps, scanPort).value;
      var prefix := if ModeOf(c.dataType) == StoredProcedure then "CALL " else "SELECT * FROM ";
      var outcome := db.query(CallText(prefix, c.objectName, 0), []);
      Run(ps, scanPort, decode, db) == if outcome.QueryFailed? then Succeed(Ok) else ReadRows(outcome)
  {
    ExtractUnassigned(ps, Parameters, scanPort);
    assert Configure(ps, scanPort).value.parameters == "";
    RunRoutine(ps, scanPort, decode, db);
  }

  /**
   Raw-query mode, and every unknown `data_type` (main.go:152-173): an empty query is
   an error; otherwise the text goes, without arguments, to `db.Query` when the
   classifier says it produces rows and to `db.Exec` when it does not.
   */
  lemma RunRaw(
    ps: seq<Param>,
    scanPort: string -> Option<int>,
    decode: string -> Result<seq<Value>, string>,
    db: Driver)
    requires Connected(ps, scanPort, db)
    requires ModeOf(Configure(ps, scanPort).value.dataType) == RawQuery
    ensures var q := Configure(ps, scanPort).value.query;
      && (q == "" ==> Run(ps, scanPort, decode, db) == Fail(QueryError))
      && (q != "" && IsRowProducing(q) ==>
            Run(ps, scanPort, decode, db) == ReadRows(db.query(q, [])))
      && (q != "" && !IsRowProducing(q) ==>
            Run(ps, scanPort, decode, db) == ReportCommand(db.exec(q)))
  {
    var c := Configure(ps, scanPort).value;
    assert Run(ps, scanPort, decode, db) == match Build(c, decode)
      case Failure(e) => Fail(e)
      case Success(st) => Execute(RawQuery, st, db, true);
    if c.query == "" {
      assert Build(c, decode) == Failure(QueryError);
    } else {
      var st := Statement(c.query, [], IsRowProducing(c.query));
      assert Build(c, decode) == Success(st);
      assert Run(ps, scanPort, decode, db) == Execute(RawQuery, st, db, true);
    }
  }

  /** A cursor with no rows gives an empty list, never a missing result. */
  lemma NoRowsIsEmptyList(columns: seq<string>)
    ensures FromCursor(Success(columns), []) == Succeed(Rows([]))
  {
  }

  /**
   "OK" is answered exactly when a stored procedure or function call failed: every
   other successful run reports rows or an affected-row count.
   */
  lemma RunOkOnlyWhenCallFailed(
    ps: seq<Param>,
    scanPort: string -> Option<int>,
    decode: string -> Result<seq<Value>, string>,
    db: Driver)
    ensures Run(ps, scanPort, decode, db) == Succeed(Ok) <==>
      && Connected(ps, scanPort, db)
      && var c := Configure(ps, scanPort).value;
         && IsRoutine(ModeOf(c.dataType))
         && Build(c, decode).Success?
         && db.query(Build(c, decode).value.text, Build(c, decode).value.args).QueryFailed?
  {
    if Connected(ps, scanPort, db) {
      var c := Configure(ps, scanPort).value;
      if Build(c, decode).Success? && !IsRoutine(ModeOf(c.dataType)) {
        assert Execute(ModeOf(c.dataType), Build(c, decode).value, db, true).result != Some(Ok);
      }
    }
  }

  /**
   The corrected flow differs from the program only where the program swallows a
   failed routine call: there the program answers "OK" and the correction reports
   the driver's error.
   */
  lemma RunIntendedDiffersOnlyOnCallFailure(
    ps: seq<Param>,
    scanPort: string -> Option<int>,
    decode: string -> Result<seq<Value>, string>,
    db: Driver)
    ensures Run(ps, scanPort, decode, db) != RunIntended(ps, scanPort, decode, db) ==>
      && Run(ps, scanPort, decode, db) == Succeed(Ok)
      && HasPrefix(RunIntended(ps, scanPort, decode, db).error, ExecutionPrefix)
  {
  }
}
