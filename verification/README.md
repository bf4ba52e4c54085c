# Single-shot PostgreSQL query executor: a Dafny model

The program reads a list of `(inputname, compvalue)` parameters and connects to
PostgreSQL. It runs one operation and answers with a JSON envelope
`{"result": ..., "error": ...}`. There are four operations, selected by `data_type`:

- a whole-table dump;
- a stored-procedure call;
- a stored-function call;
- a raw SQL query.

This project models the decision logic of `main.go` as pure functions:

- parameter extraction and the connection check;
- the `data_type` dispatch that builds the statement text, its placeholders and its
  bound arguments;
- the prefix classifier that sends a raw query to `db.Query` or `db.Exec`;
- `parseArgs`;
- row normalisation and the choice of result envelope.

The driver (`sql.Open`, `Ping`, `Query`, `Exec`), the port scanner (`fmt.Sscanf`) and
the JSON decoder of the `parameters` field are inputs of the model.
`Executor.Run` takes the parameter list, a port scanner, a JSON decoder and a
`Driver`, and returns the `Output` envelope. The driver's `query` is a function of
the text and arguments it receives, and `exec` of the text alone, since only the
raw mode uses it and that mode binds no arguments. So the model states what the
driver is asked as well as what is done with its answer.

Modules, one per file:

- `Wrappers` (wrappers.dfy): `Option` and `Result`.
- `Strings` (strings.dfy): `TrimSpace`, case mapping of the ASCII letters and of the
  four non-ASCII letters that map to one (U+0130, U+212A, U+0131, U+017F), `HasPrefix`,
  `Join`/`Split` and decimal formatting, each proved against an independent
  description.
- `Params` (params.dfy): the extraction loop and the connection check.
- `Values` (values.dfy): driver values, byte-to-string normalisation, row maps and
  the rows loop.
- `Statements` (statements.dfy): modes, `parseArgs`, placeholders, the raw-query
  classifier and the statement builder.
- `Executor` (executor.dfy): the whole flow and the envelope.

Three behaviours of `main.go` worth stating:

- A row is a Go map, so a duplicate column name keeps the last column's value and
  no column order is kept.
- A failed stored-procedure or stored-function call is answered with `"OK"`, not an
  error (see Findings).
- The missing-object-name error names the mode: `object_name is required for table`,
  `... for stored_procedure`, `... for stored_function`.

## Model

| member | source | states |
|---|---|---|
| Strings.TrimSpace | main.go:47 | the trimmed value neither starts nor ends with white space; an empty result means the value was all white space |
| Strings.TrimLeft | main.go:47 | the result is a suffix of the input and everything cut off is white space |
| Strings.TrimRight | main.go:47 | the result is a prefix of the input and everything cut off is white space |
| Strings.TrimSpacePadded | main.go:47 | trimming removes exactly the white space around a core that has no white space at its ends |
| Strings.TrimSpaceIdempotent | main.go:47 | a trimmed value trims to itself |
| Strings.TrimKeepsLeadingWord | main.go:159 | a leading word that contains no white space is still at the start after trimming |
| Strings.StartsSurvivesTrim | main.go:159 | a text that starts with a letters-only keyword in any case still starts with it after trimming |
| Strings.LowerEqualsIffMatches | main.go:48 | comparing a lower-cased name with a lower-case key is the same as matching the name against the key in any mixture of cases, in both directions |
| Strings.ToLowerIdempotent | main.go:65 | a lower-cased data_type is already lower case |
| Strings.UpperPrefixIffStarts | main.go:159 | a prefix test on the upper-cased text is the same as a case-insensitive prefix match, in both directions |
| Strings.Decimal | main.go:124 | the decimal text of a number is non-empty, all digits, and starts with 0 only for 0 |
| Strings.ParseDecimalOfDecimal | main.go:124 | reading the decimal text of a number gives the number back |
| Strings.DecimalInjective | main.go:124 | different numbers get different decimal texts |
| Strings.SplitJoin | main.go:127 | splitting a comma-join of comma-free parts gives back exactly those parts |
| Params.ApplyUpdates | main.go:46-73 | one loop step changes exactly the field whose name matches the parameter name in any case: it stores the trimmed value, lower-cased for data_type; it keeps the old value for an unscannable port or an empty sslmode or data_type; an unknown name changes nothing |
| Params.KeyFieldNames | main.go:48-73 | the switch selects a field exactly when the lower-cased name is that field's name |
| Params.ExtractLastWins | main.go:46-74 | the last parameter that sets a field decides its value, so a later duplicate overrides an earlier one |
| Params.ExtractUnassigned | main.go:32-74 | a field no parameter sets keeps its starting value: sslmode "disable", data_type "query", port 0, the rest empty |
| Params.ExtractModeFields | main.go:38-66 | after extraction sslmode and data_type are never empty and data_type is lower case |
| Params.FieldName | main.go:49-71 | every parameter name in the switch is a lower-case key |
| Params.Validate | main.go:77-83 | fails with "host, username, and dbname are required" exactly when one of the three is empty; otherwise keeps every field and makes the port non-zero, 5432 in place of 0 |
| Statements.ModeOf | main.go:102-154 | a recognised mode is selected only by its exact name; every other data_type is a raw query |
| Statements.ModeOfName | main.go:102-154 | dispatching on a mode's name gives that mode |
| Executor.RunRoutineWithoutParameters | main.go:227-236 | a connected routine request in which no entry sets `parameters` calls the driver with `CALL <name>()` or `SELECT * FROM <name>()` and no arguments, and the output is the same whatever the JSON decoder would answer |
| Statements.Placeholders | main.go:122-125 | there is one placeholder per argument, and the i-th is "$" followed by the decimal text of i+1 |
| Statements.PlaceholderBindsInOrder | main.go:122-128 | the i-th placeholder names argument i+1, so the arguments are bound in their given order, and no two placeholders are equal |
| Statements.PlaceholderListSplits | main.go:127 | the comma-separated placeholder list splits back into exactly the placeholders |
| Statements.PlaceholderListEmpty | main.go:127 | with no arguments the list is empty, giving `CALL p()` and `SELECT * FROM f()` |
| Statements.CallTextExamples | main.go:127-148 | `do_thing` with two arguments is called as `CALL do_thing($1,$2)`, and `f` with none as `SELECT * FROM f()` |
| Statements.RowProducingIffKeyword | main.go:159-167 | a raw query is row-producing exactly when its trimmed text starts with SELECT, WITH, SHOW, EXPLAIN or CALL in any case |
| Statements.CommandByFirstLetter | main.go:159-172 | a text whose first character is not a case variant of S, W, E or C is sent to Exec, so INSERT ... RETURNING, UPDATE and DELETE are commands |
| Statements.KeywordStartIsQuery | main.go:159-167 | any text that begins with SELECT, WITH, SHOW, EXPLAIN or CALL in any case is a query, whatever follows the keyword (`selectx`, `call_log`) |
| Statements.RowProducingIgnoresPadding | main.go:159-163 | white space around the query does not change its class |
| Statements.Build | main.go:102-174 | the statement fails exactly when the mode's required field is empty or a routine's parameters do not decode; non-raw modes always read rows; only routine modes bind arguments, and they bind exactly the decoded ones |
| Values.NormalizeCell | main.go:203-210 | a byte value becomes the string with the same bytes; every other value is passed through unchanged; no byte value remains |
| Values.RowMap | main.go:201-211 | a row's map has exactly the column names as keys; each name holds the normalised value of the last column with that name |
| Values.ScanError | main.go:196-198 | every scan failure is reported with the "scan error: " prefix, followed by the driver's reason when the driver refused the scan |
| Values.CollectRows | main.go:189-213 | the rows succeed exactly when every scan step does, giving one map per row in order; otherwise the error is the first failed row's |
| Executor.FromCursor | main.go:181-214 | a failed column read gives "columns error: " and the reason; otherwise the result is a row list exactly when every scan succeeds, holding for each row in order the map of its normalised values, and a failure reports the first failed row's scan error |
| Executor.ReadRows | main.go:176-214 | a failed query whose error is checked gives "execution error: " followed by the driver's reason |
| Executor.ReportCommand | main.go:172-221 | a command answers `rows_affected` with the driver's count, or 0 when the count cannot be read; only a failed Exec is an error, and it is answered "execution error: " followed by the driver's reason |
| Executor.Execute | main.go:169-224 | every execution answers with exactly one of a result and an error |
| Executor.Run | main.go:77-224 | every request answers with exactly one of a result and a non-empty error |
| Executor.RunRequiresConnectionFields | main.go:77-80 | a missing host, username or dbname gives exactly that error, whatever the driver would answer, so no connection is attempted |
| Executor.RunConnectionFirst | main.go:86-96 | open and ping failures are reported before any mode-specific check |
| Executor.RunTable | main.go:103-109 | table mode: an empty object name is an error; otherwise the driver is asked for `SELECT * FROM <name>` with no arguments and its rows are read |
| Executor.RunRoutine | main.go:111-150 | routine modes: the object name is checked first, then the parameters, and only then is the driver called with one placeholder per argument and the arguments in order; a failed call answers "OK" |
| Executor.RunRaw | main.go:152-173 | raw mode, also used for unknown data_type: an empty query is an error; otherwise the text goes without arguments to Query if the classifier says rows and to Exec if not |
| Executor.NoRowsIsEmptyList | main.go:189 | a cursor with no rows gives an empty list, never a missing result |
| Executor.RunOkOnlyWhenCallFailed | main.go:116-128 | "OK" is answered exactly when a connected procedure or function call was built and the driver rejected it |
| Executor.RunIntended | main.go:136-149 | with the call error reported, every request still answers with exactly one of result and error, and never with "OK" |
| Executor.RunIntendedDiffersOnlyOnCallFailure | main.go:136-149 | the corrected flow differs from the program only where the program answers "OK" for a rejected call, and there it reports an execution error |

## Left out

- Reading the request from standard input and writing the envelope to standard output (main.go:26-30 and every `Encode` call): the envelope is the `Output` datatype, not JSON bytes. A malformed request payload is therefore not modelled.
- `sql.Open`, `db.Ping`, `db.Query`, `db.Exec`, `rows.Columns`, `rows.Scan` and `RowsAffected`: they are foreign driver calls, so they appear as the `Driver` input. `Query` is a function of the text and arguments it is given; `Exec` of the text alone, because the raw mode that calls it binds no arguments.
- The connection string (main.go:85): it is library formatting that only reaches the driver. The password, sslmode and port are extracted (the port defaulted by `Validate`) but reach no driver call in the model.
- Port parsing with `fmt.Sscanf` (main.go:52): it is the `scanPort` input. A failed scan stores nothing, as `Sscanf` does.
- `json.Unmarshal` in `parseArgs` (main.go:232): it is the `decode` input. The empty-text rule is concrete.
- Unicode case mapping: `ToLower`/`ToUpper` map the ASCII letters and the four non-ASCII letters whose simple case mapping is an ASCII letter (U+0130, U+212A, U+0131, U+017F). Every other character is kept. The mapped text can then differ from Go's, but no comparison with the ASCII field names, mode names or keywords changes.
- Value kinds: floating point, timestamps and driver-decoded composites are the single `Other` case, which is passed through unchanged.
- JSON encoding of strings: a byte cell becomes a `Str` with the same bytes, as Go's `string(b)` does. Replacing invalid UTF-8 is the encoder's business.
- Go map iteration order, JSON key order and `defer` releases: runtime details with no effect on the envelope's content.
- `rows.Err()` after the loop, which the program never consults: the cursor is a finite sequence of scan steps, and a mid-iteration driver error is not modelled.
- A scanned row whose value count differs from the column count is a scan failure with database/sql's message. The driver never produces one, so this only makes the model total.
- Integer widths: the port and the affected-row count are unbounded integers, where Go has 64-bit ones. `Sscanf` rejects out-of-range ports inside `scanPort`.

## Findings

| source | as written | input that shows it | evidently intended | confidence | as-written member | corrected member |
|---|---|---|---|---|---|---|
| main.go:116-149 | `args, err := parseArgs(...)` declares a new `err` inside the case, so `rows, err = db.Query(...)` writes the call's error to that inner variable. The check at main.go:176 tests the outer `err`, and with `rows` nil the envelope is `"OK"` | data_type `stored_procedure`, object_name `p`, no parameters, and a database that rejects `CALL p()` | the rejected call is reported as `execution error: <reason>`, as in table and raw modes | high; not executed | Executor.RunOkOnlyWhenCallFailed | Executor.RunIntended |

`Executor.Run` is the program as written. All the scenario lemmas (`RunTable`, `RunRoutine`, `RunRaw` and the rest) describe it. `Executor.RunIntended` is the same flow with the call error reported. `RunIntendedDiffersOnlyOnCallFailure` proves that the two agree everywhere else.
