/**
 Driver values and the result normaliser: a cursor's scanned rows become a list of
 column-name to value maps, with raw byte values turned into strings.
 */
module Values {
  import opened Wrappers
  import opened Strings

  type byte = x: int | 0 <= x < 256

  /**
   A value as the driver or the JSON decoder delivers it. Go strings are byte
   sequences, so `Str` carries bytes too; `Other` stands for every remaining native
   type (floating point, timestamps, decoded composites), which is passed on untouched.
   */
  datatype Value =
    | Null
    | Bool(b: bool)
    | Int(i: int)
    | Str(text: seq<byte>)
    | Bytes(bytes: seq<byte>)
    | Other(kind: string)

  /** One output row: column name to value. */
  type Row = map<string, Value>

  /** What one `rows.Next()` / `rows.Scan` step produced. */
  datatype ScanOutcome = Scanned(values: seq<Value>) | ScanFailed(reason: string)

  /** The value stored in the output for a scanned cell (main.go:203-210). */
  function NormalizeCell(v: Value): (r: Value)
    ensures !r.Bytes?
    ensures v.Bytes? ==> r == Str(v.bytes)
    ensures !v.Bytes? ==> r == v
  {
    match v
    case Bytes(b) => Str(b)
    case _ => v
  }

  /** Column `i` is the last one carrying its name, so its value is the one kept. */
  predicate LastOccurrence(columns: seq<string>, i: int)
    requires 0 <= i < |columns|
  {
    forall j :: i < j < |columns| ==> columns[j] != columns[i]
  }

  /**
   The map built for one row (main.go:201-211): every column name is a key, and the
   value under a name is the normalised value of the LAST column with that name.
   */
  function RowMap(columns: seq<string>, values: seq<Value>): (m: Row)
    requires |values| == |columns|
    ensures forall k :: k in m <==> k in columns
    ensures forall i :: 0 <= i < |columns| && LastOccurrence(columns, i) ==>
              m[columns[i]] == NormalizeCell(values[i])
    ensures forall k :: k in m ==> !m[k].Bytes?
    decreases |columns|
  {
    if |columns| == 0 then map[]
    else
      var n := |columns| - 1;
      var m := RowMap(columns[..n], values[..n]);
      RowMapStep(columns, values, m);
      m[columns[n] := NormalizeCell(values[n])]
  }

  /** The inductive step of `RowMap`: adding the last column keeps the earlier winners. */
  lemma RowMapStep(columns: seq<string>, values: seq<Value>, m: Row)
    requires |values| == |columns| > 0
    requires forall k :: k in m <==> k in columns[..|columns| - 1]
    requires forall i :: 0 <= i < |columns| - 1 && LastOccurrence(columns[..|columns| - 1], i) ==>
               m[columns[i]] == NormalizeCell(values[i])
    ensures var n := |columns| - 1;
      var m' := m[columns[n] := NormalizeCell(values[n])];
      && (forall k :: k in m' <==> k in columns)
      && (forall i :: 0 <= i < |columns| && LastOccurrence(columns, i) ==>
            m'[columns[i]] == NormalizeCell(values[i]))
  {
    var n := |columns| - 1;
    assert columns == columns[..n] + [columns[n]];
    forall i | 0 <= i < n && LastOccurrence(columns, i)
      ensures LastOccurrence(columns[..n], i) && columns[i] != columns[n]
    {
    }
  }

  /** A scan step that yields one value per column. */
  predicate ScansCleanly(columns: seq<string>, outcome: ScanOutcome) {
    outcome.Scanned? && |outcome.values| == |columns|
  }

  /**
   The error reported for a failed scan step (main.go:196-198). A row whose value
   count differs from the column count is refused by database/sql's `Scan` with
   its own message.
   */
  function ScanError(columns: seq<string>, outcome: ScanOutcome): (e: string)
    requires !ScansCleanly(columns, outcome)
    ensures HasPrefix(e, "scan error: ")
    ensures outcome.ScanFailed? ==> e == "scan error: " + outcome.reason
  {
    match outcome
    case ScanFailed(reason) => "scan error: " + reason
    case Scanned(values) =>
      "scan error: sql: expected " + Decimal(|values|) + " destination arguments in Scan, not "
      + Decimal(|columns|)
  }

  /**
   The rows loop (main.go:189-213): every row is turned into its map in order, and
   the first failed scan aborts the whole result with that row's error.
   */
  function CollectRows(columns: seq<string>, rows: seq<ScanOutcome>): (r: Result<seq<Row>, string>)
    ensures r.Success? <==> forall i :: 0 <= i < |rows| ==> ScansCleanly(columns, rows[i])
    ensures r.Success? ==> |r.value| == |rows|
    ensures r.Success? ==> forall i :: 0 <= i < |rows| ==>
              ScansCleanly(columns, rows[i]) && r.value[i] == RowMap(columns, rows[i].values)
    ensures r.Failure? ==>
              exists k :: FirstFailure(columns, rows, k) && r.error == ScanError(columns, rows[k])
    decreases |rows|
  {
    if |rows| == 0 then Success([])
    else if !ScansCleanly(columns, rows[0]) then
      assert FirstFailure(columns, rows, 0);
      Failure(ScanError(columns, rows[0]))
    else
      match CollectRows(columns, rows[1..])
      case Failure(e) =>
        var k :| FirstFailure(columns, rows[1..], k) && e == ScanError(columns, rows[1..][k]);
        assert FirstFailure(columns, rows, k + 1);
        Failure(e)
      case Success(rest) =>
        Success([RowMap(columns, rows[0].values)] + rest)
  }

  /** Row `k` is the first scan step that failed. */
  predicate FirstFailure(columns: seq<string>, rows: seq<ScanOutcome>, k: int) {
    && 0 <= k < |rows|
    && !ScansCleanly(columns, rows[k])
    && forall i :: 0 <= i < k ==> ScansCleanly(columns, rows[i])
  }
}
