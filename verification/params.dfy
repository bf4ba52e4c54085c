/**
 Parameter extraction (main.go:32-83): the request's (name, value) pairs become a
 configuration record, which is then checked for the connection fields.
 */
module Params {
  import opened Wrappers
  import opened Strings

  /** One request entry: `inputname` and `compvalue`. */
  datatype Param = Param(name: string, value: string)

  /** The variables main.go:32-43 declares, with the port already scanned to a number. */
  datatype Config = Config(
    host: string,
    port: int,
    username: string,
    password: string,
    dbname: string,
    sslmode: string,
    dataType: string,
    objectName: string,
    query: string,
    parameters: string)

  /** The starting values of main.go:32-43. */
  const Defaults := Config("", 0, "", "", "", "disable", "query", "", "", "")

  const DefaultPort := 5432

  const MissingConnectionError := "host, username, and dbname are required"

  /**
   One step of the extraction loop (main.go:46-74): the lower-cased name selects a
   field, unknown names are ignored, and the trimmed value is stored.
   */
  function Apply(c: Config, p: Param, scanPort: string -> Option<int>): Config {
    match KeyField(ToLower(p.name))
    case None => c
    case Some(f) => Store(c, f, TrimSpace(p.value), scanPort)
  }

  /** The cases of the `switch` at main.go:48. */
  function KeyField(key: string): Option<Field> {
    if key == "host" then Some(Host)
    else if key == "port" then Some(Port)
    else if key == "username" then Some(Username)
    else if key == "password" then Some(Password)
    else if key == "dbname" then Some(DbName)
    else if key == "sslmode" then Some(SslMode)
    else if key == "data_type" then Some(DataType)
    else if key == "object_name" then Some(ObjectName)
    else if key == "query" then Some(Query)
    else if key == "parameters" then Some(Parameters)
    else None
  }

  /**
   The body of each case (main.go:49-72). The port text is read by `scanPort`, which
   stands for `fmt.Sscanf(val, "%d", &port)`: `None` is a failed scan, which leaves
   the port as it was. An empty sslmode or data_type keeps the current value.
   */
  function Store(c: Config, f: Field, val: string, scanPort: string -> Option<int>): Config {
    match f
    case Host => c.(host := val)
    case Port =>
      (match scanPort(val)
       case Some(n) => c.(port := n)
       case None => c)
    case Username => c.(username := val)
    case Password => c.(password := val)
    case DbName => c.(dbname := val)
    case SslMode => if val != "" then c.(sslmode := val) else c
    case DataType => if val != "" then c.(dataType := ToLower(val)) else c
    case ObjectName => c.(objectName := val)
    case Query => c.(query := val)
    case Parameters => c.(parameters := val)
  }

  /** The configuration after the loop has run over all of `ps`, in order. */
  function Extract(ps: seq<Param>, scanPort: string -> Option<int>): Config
    decreases |ps|
  {
    if |ps| == 0 then Defaults
    else Apply(Extract(ps[..|ps| - 1], scanPort), ps[|ps| - 1], scanPort)
  }

  // An independent, field-by-field description of what a parameter does.

  /** The configuration fields a request can set. */
  datatype Field =
    | Host | Port | Username | Password | DbName
    | SslMode | DataType | ObjectName | Query | Parameters

  /** The request name of each field, in lower case. */
  function FieldName(f: Field): (name: string)
    ensures LowerFixed(name)
  {
    match f
    case Host => "host"
    case Port => "port"
    case Username => "username"
    case Password => "password"
    case DbName => "dbname"
    case SslMode => "sslmode"
    case DataType => "data_type"
    case ObjectName => "object_name"
    case Query => "query"
    case Parameters => "parameters"
  }

  /** A field's content: text, or the port number. */
  datatype Setting = Text(text: string) | Number(number: int)

  function Get(c: Config, f: Field): Setting {
    match f
    case Host => Text(c.host)
    case Port => Number(c.port)
    case Username => Text(c.username)
    case Password => Text(c.password)
    case DbName => Text(c.dbname)
    case SslMode => Text(c.sslmode)
    case DataType => Text(c.dataType)
    case ObjectName => Text(c.objectName)
    case Query => Text(c.query)
    case Parameters => Text(c.parameters)
  }

  /**
   Parameter `p` sets field `f`: its name spells the field's name in any case, and
   its trimmed value is usable (a port that scans; a non-empty sslmode or data_type).
   */
  predicate Assigns(p: Param, f: Field, scanPort: string -> Option<int>) {
    && MatchesIgnoringCase(p.name, FieldName(f))
    && match f
       case Port => scanPort(TrimSpace(p.value)).Some?
       case SslMode => TrimSpace(p.value) != ""
       case DataType => TrimSpace(p.value) != ""
       case _ => true
  }

  /** What `p` writes into `f`: the trimmed value, lower-cased for data_type. */
  function Assigned(p: Param, f: Field, scanPort: string -> Option<int>): Setting
    requires Assigns(p, f, scanPort)
  {
    match f
    case Port => Number(scanPort(TrimSpace(p.value)).value)
    case DataType => Text(ToLower(TrimSpace(p.value)))
    case _ => Text(TrimSpace(p.value))
  }

  /** One loop step changes exactly the field the parameter assigns, if any. */
  lemma ApplyUpdates(c: Config, p: Param, f: Field, scanPort: string -> Option<int>)
    ensures Get(Apply(c, p, scanPort), f)
            == if Assigns(p, f, scanPort) then Assigned(p, f, scanPort) else Get(c, f)
  {
    var key := ToLower(p.name);
    var val := TrimSpace(p.value);
    LowerEqualsIffMatches(p.name, FieldName(f));
    KeyFieldNames(key, f);
    match KeyField(key)
    case None =>
    case Some(g) =>
      if g == f {
        StoreSame(c, f, val, scanPort);
      } else {
        StoreOther(c, g, f, val, scanPort);
      }
  }

  /** Storing into one field leaves every other field alone. */
  lemma StoreOther(c: Config, g: Field, f: Field, val: string, scanPort: string -> Option<int>)
    requires g != f
    ensures Get(Store(c, g, val, scanPort), f) == Get(c, f)
  {
  }

  /** Storing into a field writes the value, unless the value is unusable for it. */
  lemma StoreSame(c: Config, f: Field, val: string, scanPort: string -> Option<int>)
    ensures Get(Store(c, f, val, scanPort), f) ==
      match f
      case Port => if scanPort(val).Some? then Number(scanPort(val).value) else Get(c, f)
      case SslMode => if val != "" then Text(val) else Get(c, f)
      case DataType => if val != "" then Text(ToLower(val)) else Get(c, f)
      case _ => Text(val)
  {
  }

  /** The switch selects a field exactly when the key is that field's name. */
  lemma KeyFieldNames(key: string, f: Field)
    ensures KeyField(key) == Some(f) <==> key == FieldName(f)
  {
  }

  /** `i` is the last parameter in `ps` that sets `f`. */
  predicate LastAssigns(ps: seq<Param>, i: int, f: Field, scanPort: string -> Option<int>) {
    && 0 <= i < |ps|
    && Assigns(ps[i], f, scanPort)
    && forall j :: i < j < |ps| ==> !Assigns(ps[j], f, scanPort)
  }

  /** The loop's last step decides a field when it sets it, and leaves it alone otherwise. */
  lemma ExtractStep(ps: seq<Param>, f: Field, scanPort: string -> Option<int>)
    requires |ps| > 0
    ensures var n := |ps| - 1;
      Get(Extract(ps, scanPort), f)
      == if Assigns(ps[n], f, scanPort) then Assigned(ps[n], f, scanPort)
         else Get(Extract(ps[..n], scanPort), f)
  {
    var n := |ps| - 1;
    var before := Extract(ps[..n], scanPort);
    assert Extract(ps, scanPort) == Apply(before, ps[n], scanPort);
    ApplyUpdates(before, ps[n], f, scanPort);
  }

  /** The last parameter that sets a field decides its value: later duplicates win. */
  lemma {:induction false} ExtractLastWins(ps: seq<Param>, i: int, f: Field, scanPort: string -> Option<int>)
    requires LastAssigns(ps, i, f, scanPort)
    ensures Get(Extract(ps, scanPort), f) == Assigned(ps[i], f, scanPort)
    decreases |ps|
  {
    var n := |ps| - 1;
    ExtractStep(ps, f, scanPort);
    if i < n {
      assert !Assigns(ps[n], f, scanPort);
      forall j | i < j < n
        ensures !Assigns(ps[..n][j], f, scanPort)
      {
        assert ps[..n][j] == ps[j];
      }
      assert ps[..n][i] == ps[i];
      ExtractLastWins(ps[..n], i, f, scanPort);
      assert Get(Extract(ps, scanPort), f) == Get(Extract(ps[..n], scanPort), f);
    } else {
      assert Assigns(ps[n], f, scanPort);
    }
  }

  /** A field no parameter sets keeps its default; unknown names change nothing. */
  lemma {:induction false} ExtractUnassigned(ps: seq<Param>, f: Field, scanPort: string -> Option<int>)
    requires forall i :: 0 <= i < |ps| ==> !Assigns(ps[i], f, scanPort)
    ensures Get(Extract(ps, scanPort), f) == Get(Defaults, f)
    decreases |ps|
  {
    if |ps| > 0 {
      var n := |ps| - 1;
      ExtractStep(ps, f, scanPort);
      assert !Assigns(ps[n], f, scanPort);
      forall i | 0 <= i < n
        ensures !Assigns(ps[..n][i], f, scanPort)
      {
        assert ps[..n][i] == ps[i];
      }
      ExtractUnassigned(ps[..n], f, scanPort);
    }
  }

  /** sslmode and data_type set, and data_type in lower case. */
  predicate ModeFieldsSet(c: Config) {
    c.sslmode != "" && c.dataType != "" && ToLower(c.dataType) == c.dataType
  }

  /**
   Whatever the request says, sslmode and data_type are never empty, and data_type
   is held in lower case, so it can be compared against the lower-case mode names.
   */
  lemma {:induction false} ExtractModeFields(ps: seq<Param>, scanPort: string -> Option<int>)
    ensures ModeFieldsSet(Extract(ps, scanPort))
    decreases |ps|
  {
    if |ps| > 0 {
      var n := |ps| - 1;
      ExtractModeFields(ps[..n], scanPort);
      ApplyKeepsModeFields(Extract(ps[..n], scanPort), ps[n], scanPort);
    } else {
      assert ToLower("query") == "query";
    }
  }

  /** One loop step keeps sslmode and data_type set. */
  lemma ApplyKeepsModeFields(before: Config, p: Param, scanPort: string -> Option<int>)
    requires ModeFieldsSet(before)
    ensures ModeFieldsSet(Apply(before, p, scanPort))
  {
    match KeyField(ToLower(p.name))
    case None =>
    case Some(f) =>
      StoreKeepsModeFields(before, f, TrimSpace(p.value), scanPort);
  }

  lemma StoreKeepsModeFields(c: Config, f: Field, val: string, scanPort: string -> Option<int>)
    requires ModeFieldsSet(c)
    ensures ModeFieldsSet(Store(c, f, val, scanPort))
  {
    var c' := Store(c, f, val, scanPort);
    if f == DataType && val != "" {
      assert c'.dataType == ToLower(val);
      ToLowerIdempotent(val);
      assert |ToLower(val)| == |val|;
    } else if f == SslMode && val != "" {
      assert c'.sslmode == val;
      assert c'.dataType == c.dataType;
    } else {
      assert c'.sslmode == c.sslmode;
      assert c'.dataType == c.dataType;
    }
  }

  /**
   The connection check (main.go:77-83): the host, user name and database name must
   all be present; a port of 0 becomes 5432 and every other field is kept.
   */
  function Validate(c: Config): (r: Result<Config, string>)
    ensures r.Failure? <==> c.host == "" || c.username == "" || c.dbname == ""
    ensures r.Failure? ==> r.error == MissingConnectionError
    ensures r.Success? ==> r.value.port != 0 && r.value == c.(port := r.value.port)
    ensures r.Success? ==> r.value.port == if c.port == 0 then DefaultPort else c.port
  {
    if c.host == "" || c.username == "" || c.dbname == "" then Failure(MissingConnectionError)
    else if c.port == 0 then Success(c.(port := DefaultPort))
    else Success(c)
  }
}
