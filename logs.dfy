/** The logs screen: the filter record and the query it sends, fetching the
    log list, and the cell formatters for the row id, the user id and the level
    chip. Timestamps are shown with locale formatting, which is not modelled. */
module Logs {
  import opened Wrappers

  /** A JavaScript value as far as truthiness is concerned (NaN is not
      modelled). */
  datatype JsValue = Undefined | Null | Bool(b: bool) | Num(n: int) | Str(s: string)

  predicate JsTruthy(v: JsValue)
  {
    match v
    case Undefined => false
    case Null => false
    case Bool(b) => b
    case Num(n) => n != 0
    case Str(s) => s != ""
  }

  datatype LogEntry = LogEntry(
    id: JsValue,
    timestamp: string,
    level: string,
    service: string,
    message: string,
    requestId: string,
    userId: JsValue)

  datatype LogFilter = LogFilter(level: string, service: string, startDate: string, endDate: string)

  /** The `name` of each filter input. */
  datatype FilterField = Level | Service | StartDate | EndDate

  const DefaultFilter: LogFilter := LogFilter("all", "all", "", "")
  const FetchFailed: string := "Failed to fetch logs. Please try again."
  const NotAvailable: string := "N/A"

  function Get(f: LogFilter, field: FilterField): string
  {
    match field
    case Level => f.level
    case Service => f.service
    case StartDate => f.startDate
    case EndDate => f.endDate
  }

  /** The query string parameters of `GET /logs`: a parameter whose value is
      `undefined` is not sent, so `"all"` levels and services and empty dates
      are dropped. */
  function QueryParams(f: LogFilter): (q: map<string, string>)
    ensures q.Keys <= {"level", "service", "startDate", "endDate"}
    ensures ("level" in q <==> f.level != "all") && ("level" in q ==> q["level"] == f.level)
    ensures ("service" in q <==> f.service != "all") && ("service" in q ==> q["service"] == f.service)
    ensures ("startDate" in q <==> f.startDate != "") && ("startDate" in q ==> q["startDate"] == f.startDate)
    ensures ("endDate" in q <==> f.endDate != "") && ("endDate" in q ==> q["endDate"] == f.endDate)
  {
    var q0: map<string, string> := map[];
    var q1 := if f.level != "all" then q0["level" := f.level] else q0;
    var q2 := if f.service != "all" then q1["service" := f.service] else q1;
    var q3 := if f.startDate != "" then q2["startDate" := f.startDate] else q2;
    if f.endDate != "" then q3["endDate" := f.endDate] else q3
  }

  /** What a server reads back from the query: a missing level or service
      means all of them, a missing date means no bound. */
  function FilterFromParams(q: map<string, string>): LogFilter
  {
    LogFilter(
      if "level" in q then q["level"] else "all",
      if "service" in q then q["service"] else "all",
      if "startDate" in q then q["startDate"] else "",
      if "endDate" in q then q["endDate"] else "")
  }

  /** Dropping the default values loses nothing: the filter can be read back
      from its query. */
  lemma QueryParamsRoundTrip(f: LogFilter)
    ensures FilterFromParams(QueryParams(f)) == f
  {
  }

  /** Two filters send the same query only when they are the same filter. */
  lemma QueryParamsInjective(f: LogFilter, g: LogFilter)
    requires QueryParams(f) == QueryParams(g)
    ensures f == g
  {
    QueryParamsRoundTrip(f);
    QueryParamsRoundTrip(g);
  }

  /** The reset filter sends no parameters at all. */
  lemma DefaultFilterSendsNothing()
    ensures QueryParams(DefaultFilter) == map[]
  {
  }

  /** `getRowId`: `row.id || row.timestamp + row.message`. The grid gets a
      usable (truthy) id exactly when the row has an id or carries some text;
      a truthy id is kept as it is. */
  function RowId(row: LogEntry): (r: JsValue)
    ensures JsTruthy(r) <==> JsTruthy(row.id) || row.timestamp + row.message != ""
    ensures JsTruthy(row.id) ==> r == row.id
    ensures !JsTruthy(row.id) ==>
      && r.Str? && |r.s| == |row.timestamp| + |row.message|
      && r.s[..|row.timestamp|] == row.timestamp && r.s[|row.timestamp|..] == row.message
  {
    if JsTruthy(row.id) then row.id else Str(row.timestamp + row.message)
  }

  /** The `userId` column: the value when truthy, else "N/A"; what is shown is
      never falsy. */
  function UserIdCell(v: JsValue): (r: JsValue)
    ensures JsTruthy(v) ==> r == v
    ensures !JsTruthy(v) ==> r == Str(NotAvailable)
    ensures JsTruthy(r)
  {
    if JsTruthy(v) then v else Str(NotAvailable)
  }

  /** The level chip's background; `Orange` is the orange accent of the theme
      or, when the theme has none, `#FFA500`. */
  datatype LevelColor = RedAccent500 | Orange | BlueAccent500 | GreenAccent500 | Grey500

  predicate KnownLevel(level: string)
  {
    level == "ERROR" || level == "WARNING" || level == "INFO" || level == "DEBUG"
  }

  function LevelChipColor(level: string): (c: LevelColor)
    ensures c == Grey500 <==> !KnownLevel(level)
    ensures level == "ERROR" ==> c == RedAccent500
    ensures level == "WARNING" ==> c == Orange
    ensures level == "INFO" ==> c == BlueAccent500
    ensures level == "DEBUG" ==> c == GreenAccent500
  {
    match level
    case "ERROR" => RedAccent500
    case "WARNING" => Orange
    case "INFO" => BlueAccent500
    case "DEBUG" => GreenAccent500
    case _ => Grey500
  }

  /** Different known levels get different colours. */
  lemma LevelColorsDistinct(a: string, b: string)
    requires KnownLevel(a) && KnownLevel(b) && a != b
    ensures LevelChipColor(a) != LevelChipColor(b)
  {
  }

  class LogsScreen {
    var logs: seq<LogEntry>
    var loading: bool
    var filter: LogFilter
    var error: Option<string>

    constructor ()
      ensures logs == [] && loading && filter == DefaultFilter && error == None
    {
      logs := [];
      loading := true;
      filter := DefaultFilter;
      error := None;
    }

    /** `GET /logs` with the current filter: returns the query parameters
        sent. Success replaces the list; failure empties it and reports;
        the error is cleared first and `loading` ends false either way. */
    method FetchLogs(response: Response<seq<LogEntry>>) returns (sent: map<string, string>)
      modifies this`logs, this`loading, this`error
      ensures sent == QueryParams(filter)
      ensures !loading
      ensures response.Ok? ==> logs == response.body && error == None
      ensures response.Err? ==> logs == [] && error == Some(FetchFailed)
    {
      loading := true;
      error := None;
      sent := QueryParams(filter);
      match response {
        case Ok(list) =>
          logs := list;
          loading := false;
        case Err(_) =>
          error := Some(FetchFailed);
          logs := [];
          loading := false;
      }
    }

    /** A filter input changed: only that field of the filter takes the value. */
    method HandleFilterChange(field: FilterField, value: string)
      modifies this`filter
      ensures Get(filter, field) == value
      ensures forall other :: other != field ==> Get(filter, other) == Get(old(filter), other)
    {
      match field {
        case Level => filter := filter.(level := value);
        case Service => filter := filter.(service := value);
        case StartDate => filter := filter.(startDate := value);
        case EndDate => filter := filter.(endDate := value);
      }
    }

    /** Sets the default filter; the fetch the screen then starts is a separate
        `FetchLogs` step. */
    method ResetFilters()
      modifies this`filter
      ensures filter == DefaultFilter && QueryParams(filter) == map[]
    {
      filter := LogFilter("all", "all", "", "");
      DefaultFilterSendsNothing();
    }
  }
}
