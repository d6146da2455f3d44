/** The argument guards of the three data-fetching tools and the file tool's
    choice of reader. Everything after a guard passes (HTTP, database, file
    reads) is left to the environment: a guard either rejects the call with
    a FAILED result or says what the tool would go on to do. */
module Fetchers {
  import opened Values
  import opened Backoff
  import opened CacheKeys
  import opened Tools
  import Text

  /** `kwargs.get(name, default)`. */
  function Arg(kw: KwArgs, name: string, default: Value): Value {
    Get(kw.vals, name, default)
  }

  datatype Decision<+T> = Reject(result: ToolResult) | Proceed(plan: T)

  /** What `DataFetcherTool` goes on to send. */
  datatype HttpRequest = HttpRequest(url: Value, verb: string)

  /** `DataFetcherTool.execute` up to the request. `.upper()` on the method runs before
      the url check, so a non-string method fails first, through the generic handler
      (`spent` is the time that handler reports). */
  function HttpGuard(name: string, kw: KwArgs, spent: real): (d: Decision<HttpRequest>)
    ensures d.Reject? ==> d.result.status == Failed
    ensures d.Proceed? <==> Arg(kw, "method", Str("GET")).Str? && Truthy(Arg(kw, "url", Null))
    ensures !Truthy(Arg(kw, "url", Null)) && Arg(kw, "method", Str("GET")).Str? ==>
              d == Reject(FailedResult(name, "URL is required"))
    ensures d.Proceed? ==> d.plan.url == Arg(kw, "url", Null)
                           && d.plan.verb == Text.Upper(Arg(kw, "method", Str("GET")).s)
  {
    var url := Arg(kw, "url", Null);
    var verb := Arg(kw, "method", Str("GET"));
    if !verb.Str? then
      Reject(MakeToolResult(name, Failed, Null,
        Some("Unexpected error: '" + TypeName(verb) + "' object has no attribute 'upper'"), spent, None))
    else if !Truthy(url) then
      Reject(FailedResult(name, "URL is required"))
    else
      Proceed(HttpRequest(url, Text.Upper(verb.s)))
  }

  /** With no method given the request is a GET. */
  lemma DefaultVerbIsGet(name: string, kw: KwArgs, spent: real)
    requires "method" !in kw.vals && Truthy(Arg(kw, "url", Null))
    ensures HttpGuard(name, kw, spent) == Proceed(HttpRequest(Arg(kw, "url", Null), "GET"))
  {
    assert Text.Upper("GET") == "GET";
  }

  /** The handler's text for what slicing `query[:100]` raises: a number or a bool is not
      subscriptable, and a dict looks the slice up as a key. */
  function QueryError(query: Value): string {
    if query.Dict? then "Database error: slice(None, 100, None)"
    else "Database error: '" + TypeName(query) + "' object is not subscriptable"
  }

  /** `DatabaseFetcherTool.execute` up to the query. Both the connection string and the
      query must be present and non-empty; the log line then slices the query, so only a
      string or a list gets past it, and anything else fails through the handler
      (`spent` is the time that handler reports). */
  function DatabaseGuard(name: string, kw: KwArgs, spent: real): (d: Decision<Value>)
    ensures d.Proceed? <==> Truthy(Arg(kw, "connection_string", Null)) && Truthy(Arg(kw, "query", Null))
                            && (Arg(kw, "query", Null).Str? || Arg(kw, "query", Null).List?)
    ensures !Truthy(Arg(kw, "connection_string", Null)) || !Truthy(Arg(kw, "query", Null)) ==>
              d == Reject(FailedResult(name, "connection_string and query are required"))
    ensures Truthy(Arg(kw, "connection_string", Null)) && Truthy(Arg(kw, "query", Null)) && d.Reject? ==>
              && d.result.status == Failed && d.result.execution_time == spent
              && d.result.error.Some? && |d.result.error.value| > 16
              && d.result.error.value[..16] == "Database error: "
    ensures Truthy(Arg(kw, "connection_string", Null)) && Truthy(Arg(kw, "query", Null)) && d.Reject?
            && (Arg(kw, "query", Null).Int? || Arg(kw, "query", Null).Num? || Arg(kw, "query", Null).Bool?) ==>
              d.result.error == Some("Database error: '" + TypeName(Arg(kw, "query", Null)) + "' object is not subscriptable")
    ensures d.Proceed? ==> d.plan == Arg(kw, "query", Null)
  {
    var conn := Arg(kw, "connection_string", Null);
    var query := Arg(kw, "query", Null);
    if !Truthy(conn) || !Truthy(query) then
      Reject(FailedResult(name, "connection_string and query are required"))
    else if !query.Str? && !query.List? then
      Reject(MakeToolResult(name, Failed, Null, Some(QueryError(query)), spent, None))
    else
      Proceed(query)
  }

  /** How the file tool reads a file. */
  datatype Reader = JsonReader | CsvReader | TextReader

  /** What `FileFetcherTool` goes on to read: the path, the file type it reports, and the reader. */
  datatype FileRead = FileRead(path: Value, fileType: Value, reader: Reader)

  /** Suffix classification for `file_type == "auto"`: JSON first, then CSV, otherwise text. */
  function AutoFileType(path: string): (t: string)
    ensures t == "json" <==> JsonSuffix(path)
    ensures t == "csv" <==> !JsonSuffix(path) && CsvSuffix(path)
    ensures t == "text" <==> !JsonSuffix(path) && !CsvSuffix(path)
  {
    if Text.EndsWith(path, ".json") || Text.EndsWith(path, ".JSON") then "json"
    else if Text.EndsWith(path, ".csv") || Text.EndsWith(path, ".CSV") then "csv"
    else if Text.EndsWith(path, ".txt") || Text.EndsWith(path, ".TXT") then "text"
    else "text"
  }

  predicate JsonSuffix(path: string) {
    Text.EndsWith(path, ".json") || Text.EndsWith(path, ".JSON")
  }

  predicate CsvSuffix(path: string) {
    Text.EndsWith(path, ".csv") || Text.EndsWith(path, ".CSV")
  }

  /** The reader a (resolved) file type selects: anything but json or csv is read as text. */
  function ReaderFor(fileType: Value): (r: Reader)
    ensures r == JsonReader <==> fileType == Str("json")
    ensures r == CsvReader <==> fileType == Str("csv")
  {
    if fileType == Str("json") then JsonReader
    else if fileType == Str("csv") then CsvReader
    else TextReader
  }

  /** `FileFetcherTool.execute` up to the read. */
  function FileGuard(name: string, kw: KwArgs, spent: real): (d: Decision<FileRead>)
    ensures !Truthy(Arg(kw, "file_path", Null)) ==> d == Reject(FailedResult(name, "file_path is required"))
    ensures d.Proceed? ==> d.plan.path == Arg(kw, "file_path", Null) && d.plan.reader == ReaderFor(d.plan.fileType)
    ensures d.Proceed? && Arg(kw, "file_type", Str("auto")) != Str("auto") ==>
              d.plan.fileType == Arg(kw, "file_type", Str("auto"))
    ensures d.Proceed? && Arg(kw, "file_type", Str("auto")) == Str("auto") ==>
              Arg(kw, "file_path", Null).Str? &&
              d.plan.fileType == Str(AutoFileType(Arg(kw, "file_path", Null).s))
  {
    var path := Arg(kw, "file_path", Null);
    var fileType := Arg(kw, "file_type", Str("auto"));
    if !Truthy(path) then
      Reject(FailedResult(name, "file_path is required"))
    else if fileType == Str("auto") && !path.Str? then
      Reject(MakeToolResult(name, Failed, Null,
        Some("File reading error: '" + TypeName(path) + "' object has no attribute 'endswith'"), spent, None))
    else
      var resolved := if fileType == Str("auto") then Str(AutoFileType(path.s)) else fileType;
      Proceed(FileRead(path, resolved, ReaderFor(resolved)))
  }

  /** Only the two spellings of a suffix count: a mixed-case one is read as text. */
  lemma MixedCaseJsonIsText()
    ensures AutoFileType("data.Json") == "text"
  {
    assert !Text.EndsWith("data.Json", ".json") by { assert "data.Json"[4..] != ".json"; }
    assert !Text.EndsWith("data.Json", ".JSON") by { assert "data.Json"[4..] != ".JSON"; }
    assert !Text.EndsWith("data.Json", ".csv") by { assert "data.Json"[5..] != ".csv"; }
    assert !Text.EndsWith("data.Json", ".CSV") by { assert "data.Json"[5..] != ".CSV"; }
  }

  /** A text suffix and the fallback lead to the same reader. */
  lemma TxtIsText()
    ensures AutoFileType("notes.txt") == "text"
  {
    assert !Text.EndsWith("notes.txt", ".json") by { assert "notes.txt"[4..] != ".json"; }
    assert !Text.EndsWith("notes.txt", ".JSON") by { assert "notes.txt"[4..] != ".JSON"; }
    assert !Text.EndsWith("notes.txt", ".csv") by { assert "notes.txt"[5..] != ".csv"; }
    assert !Text.EndsWith("notes.txt", ".CSV") by { assert "notes.txt"[5..] != ".CSV"; }
  }

  /** A path with no suffix at all is read as text. */
  lemma NoSuffixIsText()
    ensures AutoFileType("README") == "text"
  {
    assert !Text.EndsWith("README", ".json") by { assert "README"[1..] != ".json"; }
    assert !Text.EndsWith("README", ".JSON") by { assert "README"[1..] != ".JSON"; }
    assert !Text.EndsWith("README", ".csv") by { assert "README"[2..] != ".csv"; }
    assert !Text.EndsWith("README", ".CSV") by { assert "README"[2..] != ".CSV"; }
  }

  /** The upper-case spelling of a suffix is recognised. */
  lemma UpperCsvIsCsv()
    ensures AutoFileType("table.CSV") == "csv"
  {
    assert !Text.EndsWith("table.CSV", ".json") by { assert "table.CSV"[4..] != ".json"; }
    assert !Text.EndsWith("table.CSV", ".JSON") by { assert "table.CSV"[4..] != ".JSON"; }
    assert Text.EndsWith("table.CSV", ".CSV") by { assert "table.CSV"[5..] == ".CSV"; }
  }

  /** Only the last suffix decides. */
  lemma LastSuffixDecides()
    ensures AutoFileType("x.csv.json") == "json"
  {
    assert Text.EndsWith("x.csv.json", ".json") by { assert "x.csv.json"[5..] == ".json"; }
  }

  /** A rejected file call is a result the tool returns, not an exception: the call
      makes one attempt, hands the FAILED result back and caches nothing. */
  lemma {:induction false} MissingPathFailsOnce(tool: Tool, kw: KwArgs, now: real, script: seq<ToolAttempt>)
    requires WellFormed(kw)
    requires 1 <= AttemptBudget(tool.config.max_retries) <= |script|
    requires !Truthy(Arg(kw, "file_path", Null))
    requires !CacheValid(tool, KeyOf(tool.name, kw), now)
    requires script[0].Returns? && 0 < tool.config.timeout && script[0].took <= tool.config.timeout as real
    requires script[0].value == FileGuard(tool.name, kw, 0.0).result
    ensures Invoke(tool, kw, now, script).result == FailedResult(tool.name, "file_path is required")
    ensures Invoke(tool, kw, now, script).attempts == 1
    ensures Invoke(tool, kw, now, script).tool == tool
  {
    ReturnedResultNotRetried(tool.config, tool.name, script);
  }

  /** A non-empty query that is a number or a bool is also a result the tool returns:
      the call makes one attempt, hands back the FAILED "Database error" result naming the
      query's type, and caches nothing. */
  lemma {:induction false} ScalarQueryFailsOnce(tool: Tool, kw: KwArgs, now: real, script: seq<ToolAttempt>,
                                                spent: real)
    requires WellFormed(kw)
    requires 1 <= AttemptBudget(tool.config.max_retries) <= |script|
    requires Truthy(Arg(kw, "connection_string", Null)) && Truthy(Arg(kw, "query", Null))
    requires Arg(kw, "query", Null).Int? || Arg(kw, "query", Null).Num? || Arg(kw, "query", Null).Bool?
    requires tool.config.cache_enabled ==> !CacheValid(tool, KeyOf(tool.name, kw), now)
    requires script[0].Returns? && 0 < tool.config.timeout && script[0].took <= tool.config.timeout as real
    requires script[0].value == DatabaseGuard(tool.name, kw, spent).result
    ensures Invoke(tool, kw, now, script).result.error
            == Some("Database error: '" + TypeName(Arg(kw, "query", Null)) + "' object is not subscriptable")
    ensures Invoke(tool, kw, now, script).result.status == Failed
    ensures Invoke(tool, kw, now, script).result.execution_time == spent
    ensures Invoke(tool, kw, now, script).attempts == 1
    ensures Invoke(tool, kw, now, script).tool == tool
  {
    ReturnedResultNotRetried(tool.config, tool.name, script);
  }
}
