/** `TrackmanQueryTool.query_trackman`: validates the intent, obtains the
  * data source, runs the matching report and renders it as markdown text. */
module QueryTool {
  import opened Wrappers
  import opened Tabular
  import opened Text
  import opened DataSources
  import opened Factory
  import ExcelSheets
  import RedshiftQueries

  const ValidIntents: seq<string> := [
    "errors_summary",
    "top_error_messages",
    "connectivity_summary",
    "disconnect_reasons",
    "facility_summary",
    "data_quality_summary"
  ]

  const NoDataMessage: string := "No data found for the specified criteria."
  const FacilityRequiredMessage: string := "facility_summary requires a facility_id parameter"
  const ErrorPrefix: string := "Error executing Trackman query: "

  /** The answer to an intent outside `VALID_INTENTS`: the intent, then
    * the valid intents separated by commas. */
  function InvalidIntentMessage(intent: string): string
  {
    "Invalid intent '" + intent + "'. Must be one of: " + Join(", ", ValidIntents)
  }

  /** `facility_id if facility_id else None`. */
  function FacilityFilter(facilityId: string): (f: Option<string>)
    ensures f.None? <==> facilityId == ""
    ensures f.Some? ==> f.value == facilityId && Truthy(f)
  {
    if facilityId != "" then Some(facilityId) else None
  }

  /** The data-source call an intent selects, with its arguments. */
  function RequestFor(intent: string, rangeDays: int, facilityId: string, limit: int): (req: ReportRequest)
    requires intent in ValidIntents
    ensures req.rangeDays == rangeDays
    ensures req.FacilitySummaryRequest? <==> intent == "facility_summary"
    ensures req.FacilitySummaryRequest? ==> req.facility == facilityId
    ensures !req.FacilitySummaryRequest? ==> req.facilityId == FacilityFilter(facilityId)
    ensures req.TopErrorMessagesRequest? ==> req.limit == limit
  {
    var filter := FacilityFilter(facilityId);
    if intent == "errors_summary" then ErrorsSummaryRequest(rangeDays, filter)
    else if intent == "top_error_messages" then TopErrorMessagesRequest(rangeDays, limit, filter)
    else if intent == "connectivity_summary" then ConnectivitySummaryRequest(rangeDays, filter)
    else if intent == "disconnect_reasons" then DisconnectReasonsRequest(rangeDays, filter)
    else if intent == "facility_summary" then FacilitySummaryRequest(facilityId, rangeDays)
    else DataQualitySummaryRequest(rangeDays, filter)
  }

  /** The intent that names a data-source call. */
  function IntentOf(req: ReportRequest): (intent: string)
    ensures intent in ValidIntents
  {
    match req
    case ErrorsSummaryRequest(_, _) => "errors_summary"
    case TopErrorMessagesRequest(_, _, _) => "top_error_messages"
    case ConnectivitySummaryRequest(_, _) => "connectivity_summary"
    case DisconnectReasonsRequest(_, _) => "disconnect_reasons"
    case FacilitySummaryRequest(_, _) => "facility_summary"
    case DataQualitySummaryRequest(_, _) => "data_quality_summary"
  }

  /** Every valid intent selects the call it names. */
  lemma IntentSelectsItsCall(intent: string, rangeDays: int, facilityId: string, limit: int)
    requires intent in ValidIntents
    ensures IntentOf(RequestFor(intent, rangeDays, facilityId, limit)) == intent
  {
    var i :| 0 <= i < |ValidIntents| && ValidIntents[i] == intent;
    assert i == 0 || i == 1 || i == 2 || i == 3 || i == 4 || i == 5;
  }

  // ---------------------------------------------------------------------
  // Rendering

  /** A real as its sign, the integer part of its magnitude and two
    * truncated decimals of it. */
  function RealText(r: real): string
  {
    var m := if r < 0.0 then -r else r;
    var whole := m.Floor;
    var c := ((m - whole as real) * 100.0).Floor % 100;
    (if r < 0.0 then "-" else "") + IntToString(whole) + "." + [DigitChar(c / 10), DigitChar(c % 10)]
  }

  /** `str(cell)`. */
  function CellText(v: Value): string
  {
    match v
    case VStr(s) => s
    case VInt(i) => IntToString(i)
    case VReal(r) => RealText(r)
    case VNone => "None"
  }

  function CellTexts(row: seq<Value>): (texts: seq<string>)
    ensures |texts| == |row|
  {
    seq(|row|, i requires 0 <= i < |row| => CellText(row[i]))
  }

  /** `"| " + " | ".join(cells) + " |"`. */
  function RowLine(cells: seq<string>): string
  {
    "| " + Join(" | ", cells) + " |"
  }

  /** `"|" + "|".join("---" for _ in columns) + "|"`. */
  function SeparatorLine(n: nat): string
  {
    "|" + Join("|", seq(n, _ => "---")) + "|"
  }

  /** `**Trackman {intent.replace('_', ' ').title()} Report**`. */
  function Title(intent: string): string
  {
    "**Trackman " + TitleCase(ReplaceChar(intent, '_', ' ')) + " Report**"
  }

  /** The summary lines above the table. */
  function SummaryLines(intent: string, result: TabularResult): (lines: seq<string>)
    ensures |lines| == 4 + (if result.metadata.rangeDays.Some? then 1 else 0)
                         + (if Truthy(result.metadata.facilityId) then 1 else 0)
    ensures lines[0] == Title(intent) && lines[|lines| - 1] == ""
    ensures lines[1] == "Source: " + (if result.metadata.source.Some? then result.metadata.source.value else "unknown")
    ensures lines[2] == "Results: " + IntToString(if result.metadata.rowCount.Some? then result.metadata.rowCount.value
                                                  else |result.rows|) + " rows"
  {
    var m := result.metadata;
    var source := if m.source.Some? then m.source.value else "unknown";
    var rowCount := if m.rowCount.Some? then m.rowCount.value else |result.rows|;
    [Title(intent), "Source: " + source, "Results: " + IntToString(rowCount) + " rows"]
      + (if m.rangeDays.Some? then ["Time range: Last " + IntToString(m.rangeDays.value) + " days"] else [])
      + (if Truthy(m.facilityId) then ["Facility: " + m.facilityId.value] else [])
      + [""]
  }

  /** The markdown table: header, separator and one line per row, or
    * nothing when there are no columns. */
  function TableLines(columns: seq<string>, rows: seq<seq<Value>>): (lines: seq<string>)
    ensures |columns| > 0 && |rows| > 0 ==> |lines| == 2 + |rows|
    ensures !(|columns| > 0 && |rows| > 0) ==> lines == []
    ensures |columns| > 0 && |rows| > 0 ==>
      && lines[0] == RowLine(columns) && lines[1] == SeparatorLine(|columns|)
      && forall i :: 0 <= i < |rows| ==> lines[2 + i] == RowLine(CellTexts(rows[i]))
  {
    if |columns| > 0 && |rows| > 0 then
      [RowLine(columns), SeparatorLine(|columns|)] + seq(|rows|, i requires 0 <= i < |rows| => RowLine(CellTexts(rows[i])))
    else []
  }

  /** `_format_result`: the lines of the answer, joined with newlines. */
  function ReportText(intent: string, result: TabularResult): string
  {
    if |result.rows| == 0 then NoDataMessage
    else Join("\n", SummaryLines(intent, result) + TableLines(result.columns, result.rows))
  }

  /** The answer text of a report call: the rendered result, or the error
    * the call raised behind the tool's prefix. */
  function AnswerText(intent: string, r: Result<TabularResult, string>): string
  {
    match r
    case Success(result) => ReportText(intent, result)
    case Failure(e) => ErrorPrefix + e
  }

  /** A result with rows renders as summary lines, a blank line and then,
    * when there are columns, a table with one line per row. */
  lemma ReportLayout(intent: string, result: TabularResult)
    requires |result.rows| > 0
    ensures var lines := SummaryLines(intent, result) + TableLines(result.columns, result.rows);
      var k := |SummaryLines(intent, result)|;
      && ReportText(intent, result) == Join("\n", lines)
      && lines[0] == Title(intent) && lines[k - 1] == ""
      && (|result.columns| > 0 ==> |lines| == k + 2 + |result.rows|)
      && (|result.columns| > 0 ==>
            forall i :: 0 <= i < |result.rows| ==> lines[k + 2 + i] == RowLine(CellTexts(result.rows[i])))
      && (|result.columns| == 0 ==> |lines| == k)
  {
  }

  lemma PipeCountOfDelimiters()
    ensures CountChar(" | ", '|') == 1 && CountChar("| ", '|') == 1 && CountChar(" |", '|') == 1
    ensures CountChar("|", '|') == 1 && CountChar("---", '|') == 0
  {
    assert CountChar(" |", '|') == 0 + CountChar("|", '|');
    assert " | "[1..] == "| " && "| "[1..] == " ";
    assert " |"[1..] == "|" && "---"[1..] == "--" && "--"[1..] == "-";
  }

  /** A row line of `n >= 1` pipe-free cells has `n + 1` pipes, so it
    * delimits exactly `n` markdown cells. */
  lemma RowLinePipes(cells: seq<string>)
    requires |cells| >= 1
    requires forall i :: 0 <= i < |cells| ==> '|' !in cells[i]
    ensures CountChar(RowLine(cells), '|') == |cells| + 1
  {
    PipeCountOfDelimiters();
    JoinCount(" | ", cells, '|');
    CountCharAppend("| ", Join(" | ", cells), '|');
    CountCharAppend("| " + Join(" | ", cells), " |", '|');
  }

  /** The separator line under `n >= 1` columns has `n + 1` pipes. */
  lemma SeparatorPipes(n: nat)
    requires n >= 1
    ensures CountChar(SeparatorLine(n), '|') == n + 1
  {
    var dashes := seq(n, _ => "---");
    PipeCountOfDelimiters();
    forall i | 0 <= i < n ensures '|' !in dashes[i] {
      assert dashes[i] == "---";
    }
    JoinCount("|", dashes, '|');
    CountCharAppend("|", Join("|", dashes), '|');
    CountCharAppend("|" + Join("|", dashes), "|", '|');
  }

  /** When every row has one cell per column and no column name or cell
    * text contains a pipe, every line of the table splits into the same
    * number of cells. */
  lemma TableIsRectangular(columns: seq<string>, rows: seq<seq<Value>>)
    requires |columns| > 0 && |rows| > 0
    requires forall i :: 0 <= i < |rows| ==> |rows[i]| == |columns|
    requires forall i :: 0 <= i < |columns| ==> '|' !in columns[i]
    requires forall i, j :: 0 <= i < |rows| && 0 <= j < |rows[i]| ==> '|' !in CellText(rows[i][j])
    ensures var lines := TableLines(columns, rows);
      forall i :: 0 <= i < |lines| ==> CountChar(lines[i], '|') == |columns| + 1
  {
    var lines := TableLines(columns, rows);
    RowLinePipes(columns);
    SeparatorPipes(|columns|);
    forall i | 0 <= i < |lines| ensures CountChar(lines[i], '|') == |columns| + 1 {
      if i >= 2 {
        var cells := CellTexts(rows[i - 2]);
        assert forall j :: 0 <= j < |cells| ==> cells[j] == CellText(rows[i - 2][j]);
        RowLinePipes(cells);
      }
    }
  }

  /** The title names the intent in words, without underscores. */
  lemma TitleHasNoUnderscore(intent: string)
    ensures '_' !in Title(intent)
  {
    TitleOfReplaced(intent);
    var t := Title(intent);
    var middle := TitleCase(ReplaceChar(intent, '_', ' '));
    assert t == "**Trackman " + middle + " Report**";
    forall i | 0 <= i < |t| ensures t[i] != '_' {
      if i < 11 {
        assert t[i] == "**Trackman "[i];
      } else if i < 11 + |middle| {
        assert t[i] == middle[i - 11];
      } else {
        assert t[i] == " Report**"[i - 11 - |middle|];
      }
    }
  }

  // ---------------------------------------------------------------------
  // The tool

  /** The summary lines of `_format_result`, appended one by one. */
  method BuildSummaryLines(intent: string, result: TabularResult) returns (lines: seq<string>)
    ensures lines == SummaryLines(intent, result)
  {
    var metadata := result.metadata;
    var source := if metadata.source.Some? then metadata.source.value else "unknown";
    var rowCount := if metadata.rowCount.Some? then metadata.rowCount.value else |result.rows|;
    lines := [Title(intent), "Source: " + source, "Results: " + IntToString(rowCount) + " rows"];
    if metadata.rangeDays.Some? {
      lines := lines + ["Time range: Last " + IntToString(metadata.rangeDays.value) + " days"];
    }
    if Truthy(metadata.facilityId) {
      lines := lines + ["Facility: " + metadata.facilityId.value];
    }
    lines := lines + [""];
  }

  /** The markdown table of `_format_result`: header, separator, then one
    * line per row appended in a loop. */
  method BuildTableLines(columns: seq<string>, rows: seq<seq<Value>>) returns (lines: seq<string>)
    requires |columns| > 0 && |rows| > 0
    ensures lines == TableLines(columns, rows)
  {
    var header := RowLine(columns);
    var separator := SeparatorLine(|columns|);
    lines := [header, separator];
    for i := 0 to |rows|
      invariant |lines| == 2 + i
      invariant lines[0] == header && lines[1] == separator
      invariant forall j :: 0 <= j < i ==> lines[2 + j] == RowLine(CellTexts(rows[j]))
    {
      var rowText := RowLine(CellTexts(rows[i]));
      lines := lines + [rowText];
    }
  }

  /** `_format_result`. */
  method FormatResult(intent: string, result: TabularResult) returns (text: string)
    ensures text == ReportText(intent, result)
  {
    if |result.rows| == 0 {
      return NoDataMessage;
    }
    var lines := BuildSummaryLines(intent, result);
    if |result.columns| > 0 && |result.rows| > 0 {
      var tableLines := BuildTableLines(result.columns, result.rows);
      lines := lines + tableLines;
    } else {
      assert lines + TableLines(result.columns, result.rows) == lines;
    }
    text := Join("\n", lines);
  }

  /** `query_trackman`: an invalid intent is refused before the data source
    * is touched; a facility summary without a facility id is refused after
    * it; otherwise the report's rendering, or the error it raised. */
  method QueryTrackman(factory: DataSourceFactory, env: Env.Environment, intent: string, rangeDays: int,
                       facilityId: string, limit: int, now: int) returns (answer: string)
    requires factory.Valid()
    modifies factory, factory.Footprint()
    ensures factory.Valid()
    ensures intent !in ValidIntents ==> answer == InvalidIntentMessage(intent) && factory.instance == old(factory.instance)
    ensures intent in ValidIntents ==> factory.instance.Some?
    ensures intent in ValidIntents && old(factory.instance).Some? ==> factory.instance == old(factory.instance)
    ensures intent in ValidIntents && old(factory.instance).None? ==>
      var source := factory.instance.value;
      && KindOf(source) == Resolve(env)
      && (source.ExcelSource? ==> source.excel.data == ExcelSheets.LoadDirectory(factory.fs(ExcelDataDirectory(env))))
      && (source.RedshiftSource? ==>
            source.redshift.config == RedshiftQueries.ReadConfig(env).value && source.redshift.db == factory.db)
    ensures intent == "facility_summary" && facilityId == "" ==> answer == FacilityRequiredMessage
    ensures intent in ValidIntents && !(intent == "facility_summary" && facilityId == "") ==>
      var source := factory.instance.value;
      answer == AnswerText(intent, Answer(source, RequestFor(intent, rangeDays, facilityId, limit), now))
  {
    if intent !in ValidIntents {
      return InvalidIntentMessage(intent);
    }
    var source := factory.GetDataSource(env);
    if intent == "facility_summary" && facilityId == "" {
      return FacilityRequiredMessage;
    }
    var req := RequestFor(intent, rangeDays, facilityId, limit);
    var r := RunReport(source, req, now);
    if r.Failure? {
      return ErrorPrefix + r.error;
    }
    answer := FormatResult(intent, r.value);
  }
}
