/**
 The statement builder (main.go:102-174, 227-236): the lower-cased `data_type` picks a
 mode, and each mode turns the configuration into SQL text, bound arguments and the
 choice between the row path (`db.Query`) and the command path (`db.Exec`).
 */
module Statements {
  import opened Wrappers
  import opened Strings
  import opened Values
  import opened Params

  /** The cases of the `switch dataType` at main.go:102. */
  datatype Mode = Table | StoredProcedure | StoredFunction | RawQuery

  /** The `data_type` text that names each mode. */
  function ModeName(m: Mode): string {
    match m
    case Table => "table"
    case StoredProcedure => "stored_procedure"
    case StoredFunction => "stored_function"
    case RawQuery => "query"
  }

  /** The dispatch: exact names select their mode, anything else is a raw query. */
  function ModeOf(dataType: string): (m: Mode)
    ensures m != RawQuery ==> ModeName(m) == dataType
  {
    if dataType == "table" then Table
    else if dataType == "stored_procedure" then StoredProcedure
    else if dataType == "stored_function" then StoredFunction
    else RawQuery
  }

  /** Naming a mode and dispatching on the name gives the mode back. */
  lemma ModeOfName(m: Mode)
    ensures ModeOf(ModeName(m)) == m
  {
  }

  /** A statement ready for the driver. */
  datatype Statement = Statement(text: string, args: seq<Value>, expectsRows: bool)

  /**
   `parseArgs` (main.go:227-236): an empty text is the empty argument list; anything
   else is handed to the JSON decoder `decode`, whose error comes back unchanged.
   */
  function ParseArgs(paramStr: string, decode: string -> Result<seq<Value>, string>)
    : (r: Result<seq<Value>, string>)
    ensures paramStr == "" ==> r == Success([])
    ensures paramStr != "" ==> r == decode(paramStr)
  {
    if paramStr == "" then Success([]) else decode(paramStr)
  }

  /** The positional placeholder for argument number `k` (counting from 1). */
  function Placeholder(k: nat): string {
    "$" + Decimal(k)
  }

  /** The placeholders of main.go:122-125: one per argument, `$1` up to `$n`. */
  function Placeholders(n: nat): (r: seq<string>)
    ensures |r| == n
    ensures forall i :: 0 <= i < n ==> r[i] == Placeholder(i + 1)
    decreases n
  {
    if n == 0 then [] else Placeholders(n - 1) + [Placeholder(n)]
  }

  /** The number a placeholder refers to. */
  function PlaceholderNumber(ph: string): nat
    requires |ph| >= 1 && AllDigits(ph[1..])
  {
    ParseDecimal(ph[1..])
  }

  /**
   The `i`-th placeholder is `$` followed by digits naming argument `i + 1`, so the
   driver binds the arguments in their given order, and no two placeholders coincide.
   */
  lemma {:induction false} PlaceholderBindsInOrder(n: nat, i: nat)
    requires i < n
    ensures var ph := Placeholders(n)[i];
      && |ph| >= 2 && ph[0] == '$' && AllDigits(ph[1..])
      && PlaceholderNumber(ph) == i + 1
    ensures forall j :: 0 <= j < n && j != i ==> Placeholders(n)[j] != Placeholders(n)[i]
  {
    var ph := Placeholders(n)[i];
    assert ph[1..] == Decimal(i + 1);
    ParseDecimalOfDecimal(i + 1);
    forall j | 0 <= j < n && j != i
      ensures Placeholders(n)[j] != ph
    {
      if Placeholders(n)[j] == ph {
        assert Placeholders(n)[j][1..] == Decimal(j + 1);
        DecimalInjective(i + 1, j + 1);
      }
    }
  }

  /** The comma-separated placeholder list, `$1,$2,...,$n`, empty for no arguments. */
  function PlaceholderList(n: nat): string {
    Join(Placeholders(n), ",")
  }

  /** Splitting the placeholder list at its commas gives back one placeholder per argument. */
  lemma PlaceholderListSplits(n: nat)
    requires n >= 1
    ensures Split(PlaceholderList(n), ',') == Placeholders(n)
  {
    var phs := Placeholders(n);
    forall i | 0 <= i < n
      ensures ',' !in phs[i]
    {
      assert phs[i] == "$" + Decimal(i + 1);
      assert AllDigits(Decimal(i + 1));
    }
    SplitJoin(phs, ',');
  }

  /** No arguments, no placeholders: `CALL p()` and `SELECT * FROM f()`. */
  lemma PlaceholderListEmpty()
    ensures PlaceholderList(0) == ""
  {
  }

  /** The routine call text of main.go:127 and main.go:148. */
  function CallText(prefix: string, objectName: string, n: nat): string {
    prefix + objectName + "(" + PlaceholderList(n) + ")"
  }

  /** The raw-query classifier of main.go:159-167. */
  predicate IsRowProducing(query: string) {
    var cmd := ToUpper(TrimSpace(query));
    || HasPrefix(cmd, "SELECT")
    || HasPrefix(cmd, "WITH")
    || HasPrefix(cmd, "SHOW")
    || HasPrefix(cmd, "EXPLAIN")
    || HasPrefix(cmd, "CALL")
  }

  /** `text` starts with one of the five row keywords, in any mixture of cases. */
  predicate StartsWithRowKeyword(text: string) {
    || StartsWithIgnoringCase(text, "SELECT")
    || StartsWithIgnoringCase(text, "WITH")
    || StartsWithIgnoringCase(text, "SHOW")
    || StartsWithIgnoringCase(text, "EXPLAIN")
    || StartsWithIgnoringCase(text, "CALL")
  }

  /**
   The classifier is a pure prefix test: the trimmed text starts with one of the
   five keywords in any case. Nothing after the keyword is looked at.
   */
  lemma RowProducingIffKeyword(query: string)
    ensures IsRowProducing(query) <==> StartsWithRowKeyword(TrimSpace(query))
  {
    var t := TrimSpace(query);
    RowKeywordsUpperFixed();
    UpperPrefixIffStarts(t, "SELECT");
    UpperPrefixIffStarts(t, "WITH");
    UpperPrefixIffStarts(t, "SHOW");
    UpperPrefixIffStarts(t, "EXPLAIN");
    UpperPrefixIffStarts(t, "CALL");
  }

  /** The five keywords are written in upper-case letters. */
  lemma RowKeywordsUpperFixed()
    ensures UpperFixed("SELECT") && UpperFixed("WITH") && UpperFixed("SHOW")
    ensures UpperFixed("EXPLAIN") && UpperFixed("CALL")
    ensures UpperLetters("SELECT") && UpperLetters("WITH") && UpperLetters("SHOW")
    ensures UpperLetters("EXPLAIN") && UpperLetters("CALL")
  {
  }

  /** White space around the text does not change its class. */
  lemma RowProducingIgnoresPadding(a: string, query: string, b: string)
    requires AllSpace(a) && AllSpace(b)
    ensures IsRowProducing(a + TrimSpace(query) + b) == IsRowProducing(query)
  {
    TrimSpacePadded(a, TrimSpace(query), b);
  }

  const TableNameError := "object_name is required for table"
  const ProcedureNameError := "object_name is required for stored_procedure"
  const FunctionNameError := "object_name is required for stored_function"
  const QueryError := "query is required"
  const InvalidParametersPrefix := "invalid parameters: "

  /** The routine modes: stored procedures and stored functions. */
  predicate IsRoutine(m: Mode) {
    m == StoredProcedure || m == StoredFunction
  }

  /**
   The statement for a routine call, checking the object name before the arguments
   (main.go:111-127 and main.go:131-148).
   */
  function BuildCall(m: Mode, c: Config, decode: string -> Result<seq<Value>, string>)
    : (r: Result<Statement, string>)
    requires IsRoutine(m)
  {
    if c.objectName == "" then
      Failure(if m == StoredProcedure then ProcedureNameError else FunctionNameError)
    else
      match ParseArgs(c.parameters, decode)
      case Failure(e) => Failure(InvalidParametersPrefix + e)
      case Success(args) =>
        var prefix := if m == StoredProcedure then "CALL " else "SELECT * FROM ";
        Success(Statement(CallText(prefix, c.objectName, |args|), args, true))
  }

  /** The `switch dataType` of main.go:102-174, up to the driver call. */
  function Build(c: Config, decode: string -> Result<seq<Value>, string>)
    : (r: Result<Statement, string>)
    ensures r.Failure? <==>
      || (ModeOf(c.dataType) == RawQuery && c.query == "")
      || (ModeOf(c.dataType) != RawQuery && c.objectName == "")
      || (IsRoutine(ModeOf(c.dataType)) && ParseArgs(c.parameters, decode).Failure?)
    ensures r.Success? && ModeOf(c.dataType) != RawQuery ==> r.value.expectsRows
    ensures r.Success? && !IsRoutine(ModeOf(c.dataType)) ==> r.value.args == []
    ensures r.Success? && IsRoutine(ModeOf(c.dataType)) ==>
      r.value.args == ParseArgs(c.parameters, decode).value
  {
    match ModeOf(c.dataType)
    case Table =>
      if c.objectName == "" then Failure(TableNameError)
      else Success(Statement("SELECT * FROM " + c.objectName, [], true))
    case StoredProcedure => BuildCall(StoredProcedure, c, decode)
    case StoredFunction => BuildCall(StoredFunction, c, decode)
    case RawQuery =>
      if c.query == "" then Failure(QueryError)
      else Success(Statement(c.query, [], IsRowProducing(c.query)))
  }

  /**
   Only the first word is looked at: a text whose first character is not a case
   variant of S, W, E or C is a command. So `INSERT ... RETURNING`, `UPDATE` and
   `DELETE` statements all take the command path and their returned rows are not read.
   */
  lemma CommandByFirstLetter(query: string)
    requires |TrimSpace(query)| > 0
    requires UpperChar(TrimSpace(query)[0]) !in {'S', 'W', 'E', 'C'}
    ensures !IsRowProducing(query)
  {
    var cmd := ToUpper(TrimSpace(query));
    PrefixStartsWithFirst(cmd, "SELECT");
    PrefixStartsWithFirst(cmd, "WITH");
    PrefixStartsWithFirst(cmd, "SHOW");
    PrefixStartsWithFirst(cmd, "EXPLAIN");
    PrefixStartsWithFirst(cmd, "CALL");
  }

  /** A text with a given prefix starts with the prefix's first character. */
  lemma PrefixStartsWithFirst(s: string, prefix: string)
    requires |s| > 0 && |prefix| > 0
    ensures HasPrefix(s, prefix) ==> s[0] == prefix[0]
  {
    if HasPrefix(s, prefix) {
      assert s[..|prefix|][0] == s[0];
    }
  }

  /**
   A text that begins with one of the five keywords in any case is a query, whatever
   follows it: `selectx`, `Show...` and `call_log_cleanup` are all sent to `db.Query`.
   */
  lemma KeywordStartIsQuery(query: string)
    requires StartsWithRowKeyword(query)
    ensures IsRowProducing(query)
  {
    RowKeywordsUpperFixed();
    if StartsWithIgnoringCase(query, "SELECT") {
      StartsSurvivesTrim(query, "SELECT");
    } else if StartsWithIgnoringCase(query, "WITH") {
      StartsSurvivesTrim(query, "WITH");
    } else if StartsWithIgnoringCase(query, "SHOW") {
      StartsSurvivesTrim(query, "SHOW");
    } else if StartsWithIgnoringCase(query, "EXPLAIN") {
      StartsSurvivesTrim(query, "EXPLAIN");
    } else {
      StartsSurvivesTrim(query, "CALL");
    }
    RowProducingIffKeyword(query);
  }

  /** Two calls as the driver receives them: two arguments, and none. */
  lemma CallTextExamples()
    ensures CallText("CALL ", "do_thing", 2) == "CALL do_thing($1,$2)"
    ensures CallText("SELECT * FROM ", "f", 0) == "SELECT * FROM f()"
  {
    assert Decimal(1) == "1";
    assert Decimal(2) == "2";
    assert Placeholder(1) == "$1";
    assert Placeholder(2) == "$2";
    assert Placeholders(1) == ["$1"];
    assert Placeholders(2) == ["$1", "$2"];
    assert Join(["$1", "$2"], ",") == "$1,$2";
  }
}
