/** The warehouse backend as pure functions: its configuration check, the
  * queries and bound parameters of each report, and how a query outcome
  * becomes a result. The SQL text itself and what it computes are not
  * modelled; a query is named by its template, its schema and its table. */
module RedshiftQueries {
  import opened Wrappers
  import opened Tabular
  import opened Env
  import RedshiftConfig

  // ---------------------------------------------------------------------
  // Configuration

  datatype Config = Config(host: string, port: string, database: string, user: string, password: string, schema: string)

  const MissingVariablesError: string :=
    "Missing required Redshift environment variables: REDSHIFT_HOST, REDSHIFT_DB, REDSHIFT_USER, REDSHIFT_PASSWORD"

  /** The four variables the constructor cannot do without. */
  const RequiredVariables: seq<string> := ["REDSHIFT_HOST", "REDSHIFT_DB", "REDSHIFT_USER", "REDSHIFT_PASSWORD"]

  /** Some required variable is unset or empty. */
  predicate AnyRequiredMissing(env: Environment)
  {
    exists i :: 0 <= i < |RequiredVariables| && Missing(env, RequiredVariables[i])
  }

  /** `RedshiftDataSource.__init__`: fails when host, database, user or
    * password is unset or empty; the port defaults to "5439" and the schema
    * to "public". */
  function ReadConfig(env: Environment): (r: Result<Config, string>)
    ensures r.Failure? <==> AnyRequiredMissing(env)
    ensures r.Failure? ==> r.error == MissingVariablesError
    ensures r.Success? ==>
      && (forall v :: v in RequiredVariables ==> v in env && env[v] != "")
      && r.value.host == env["REDSHIFT_HOST"] && r.value.database == env["REDSHIFT_DB"]
      && r.value.user == env["REDSHIFT_USER"] && r.value.password == env["REDSHIFT_PASSWORD"]
      && r.value.port == (if "REDSHIFT_PORT" in env then env["REDSHIFT_PORT"] else "5439")
      && r.value.schema == (if "REDSHIFT_SCHEMA" in env then env["REDSHIFT_SCHEMA"] else "public")
  {
    var host := Getenv(env, "REDSHIFT_HOST");
    var port := GetenvOr(env, "REDSHIFT_PORT", "5439");
    var database := Getenv(env, "REDSHIFT_DB");
    var user := Getenv(env, "REDSHIFT_USER");
    var password := Getenv(env, "REDSHIFT_PASSWORD");
    var schema := GetenvOr(env, "REDSHIFT_SCHEMA", "public");
    if !(Truthy(host) && Truthy(database) && Truthy(user) && Truthy(password)) then
      assert Missing(env, RequiredVariables[0]) || Missing(env, RequiredVariables[1])
          || Missing(env, RequiredVariables[2]) || Missing(env, RequiredVariables[3]);
      Failure(MissingVariablesError)
    else
      Success(Config(host.value, port, database.value, user.value, password.value, schema))
  }

  // ---------------------------------------------------------------------
  // Queries and their bound parameters

  /** The SQL templates; `filtered` selects the variant with `AND facility_id = %s`. */
  datatype Template =
    | ErrorsSummarySql(filtered: bool)
    | TopErrorMessagesSql(filtered: bool)
    | ConnectivitySummarySql(filtered: bool)
    | DisconnectReasonsSql(filtered: bool)
    | DataQualitySummarySql(filtered: bool)
    | FacilityMetadataSql
    | FacilityErrorsSql

  /** A composed query: a template with the schema and table as quoted identifiers. */
  datatype Query = Query(template: Template, schema: string, table: string)

  /** A bound parameter: the cutoff time, a facility id or a row limit. */
  datatype Param = TimeParam(seconds: int) | TextParam(text: string) | IntParam(n: int)

  /** The number of `%s` placeholders in each template. */
  function Placeholders(t: Template): nat
  {
    match t
    case ErrorsSummarySql(filtered) => if filtered then 2 else 1
    case TopErrorMessagesSql(filtered) => if filtered then 3 else 2
    case ConnectivitySummarySql(filtered) => if filtered then 2 else 1
    case DisconnectReasonsSql(filtered) => if filtered then 2 else 1
    case DataQualitySummarySql(filtered) => if filtered then 2 else 1
    case FacilityMetadataSql => 7
    case FacilityErrorsSql => 4
  }

  /** `(cutoff_date, facility_id)` for a truthy facility id, else `(cutoff_date,)`. */
  function FilterParams(cutoff: int, facilityId: Option<string>): (params: seq<Param>)
    ensures |params| >= 1 && params[0] == TimeParam(cutoff)
  {
    if Truthy(facilityId) then [TimeParam(cutoff), TextParam(facilityId.value)] else [TimeParam(cutoff)]
  }

  /** `(facility_id,) * 7`. */
  function MetadataParams(facility: string): (params: seq<Param>)
    ensures |params| == 7
  {
    seq(7, i => TextParam(facility))
  }

  /** `(facility_id, cutoff_date, facility_id, cutoff_date)`. */
  function FacilityErrorParams(facility: string, cutoff: int): seq<Param>
  {
    [TextParam(facility), TimeParam(cutoff), TextParam(facility), TimeParam(cutoff)]
  }

  /** The table a single-query report reads. */
  function ReportTable(req: ReportRequest): string
    requires !req.FacilitySummaryRequest?
  {
    match req
    case ErrorsSummaryRequest(_, _) => "errors"
    case TopErrorMessagesRequest(_, _, _) => "errors"
    case ConnectivitySummaryRequest(_, _) => "connectivity"
    case DisconnectReasonsRequest(_, _) => "connectivity"
    case DataQualitySummaryRequest(_, _) => "data_quality"
  }

  /** The query of a single-query report. */
  function ReportQuery(req: ReportRequest, schema: string): (q: Query)
    requires !req.FacilitySummaryRequest?
    ensures q.schema == schema && q.table == ReportTable(req)
  {
    var filtered := Truthy(req.facilityId);
    var template := match req
      case ErrorsSummaryRequest(_, _) => ErrorsSummarySql(filtered)
      case TopErrorMessagesRequest(_, _, _) => TopErrorMessagesSql(filtered)
      case ConnectivitySummaryRequest(_, _) => ConnectivitySummarySql(filtered)
      case DisconnectReasonsRequest(_, _) => DisconnectReasonsSql(filtered)
      case DataQualitySummaryRequest(_, _) => DataQualitySummarySql(filtered);
    Query(template, schema, ReportTable(req))
  }

  /** The bound parameters of a single-query report: the filter parameters,
    * and the limit last for the top error messages. */
  function ReportParams(req: ReportRequest, now: int): seq<Param>
    requires !req.FacilitySummaryRequest?
  {
    var params := FilterParams(Cutoff(now, req.rangeDays), req.facilityId);
    if req.TopErrorMessagesRequest? then params + [IntParam(req.limit)] else params
  }

  function MetadataQuery(schema: string): Query { Query(FacilityMetadataSql, schema, "facility_metadata") }

  function FacilityErrorsQuery(schema: string): Query { Query(FacilityErrorsSql, schema, "errors") }

  /** Every query binds exactly as many parameters as its template has placeholders. */
  lemma ParamsFillPlaceholders(req: ReportRequest, schema: string, now: int)
    ensures !req.FacilitySummaryRequest? ==> |ReportParams(req, now)| == Placeholders(ReportQuery(req, schema).template)
    ensures req.FacilitySummaryRequest? ==>
      && |MetadataParams(req.facility)| == Placeholders(MetadataQuery(schema).template)
      && |FacilityErrorParams(req.facility, Cutoff(now, req.rangeDays))| == Placeholders(FacilityErrorsQuery(schema).template)
  {
  }

  /** The facility id, the cutoff and the limit travel only as parameters:
    * two requests for the same report that differ in those values (but both
    * filter by a facility or both do not) compose the same query. */
  lemma QueryIndependentOfUserValues(req1: ReportRequest, req2: ReportRequest, schema: string)
    requires !req1.FacilitySummaryRequest? && !req2.FacilitySummaryRequest?
    requires ReportTable(req1) == ReportTable(req2)
    requires req1.TopErrorMessagesRequest? == req2.TopErrorMessagesRequest?
    requires req1.DisconnectReasonsRequest? == req2.DisconnectReasonsRequest?
    requires req1.ErrorsSummaryRequest? == req2.ErrorsSummaryRequest?
    requires Truthy(req1.facilityId) == Truthy(req2.facilityId)
    ensures ReportQuery(req1, schema) == ReportQuery(req2, schema)
  {
  }

  /** A truthy facility id is bound right after the cutoff; the limit of the
    * top error messages is always the last parameter. */
  lemma ParamsCarryUserValues(req: ReportRequest, now: int)
    requires !req.FacilitySummaryRequest?
    ensures ReportParams(req, now)[0] == TimeParam(Cutoff(now, req.rangeDays))
    ensures Truthy(req.facilityId) ==> ReportParams(req, now)[1] == TextParam(req.facilityId.value)
    ensures req.TopErrorMessagesRequest? ==>
      ReportParams(req, now)[|ReportParams(req, now)| - 1] == IntParam(req.limit)
    ensures !Truthy(req.facilityId) ==> forall p :: p in ReportParams(req, now) ==> !p.TextParam?
  {
  }

  /** The facility summary binds the facility id seven times to the metadata
    * query, and alternates the facility id and the cutoff in the error query. */
  lemma FacilitySummaryParamsCarryUserValues(facility: string, rangeDays: int, now: int)
    ensures forall p :: p in MetadataParams(facility) ==> p == TextParam(facility)
    ensures var cutoff := Cutoff(now, rangeDays);
      var ps := FacilityErrorParams(facility, cutoff);
      && |ps| == 4
      && forall i :: 0 <= i < 4 ==> ps[i] == (if i % 2 == 0 then TextParam(facility) else TimeParam(cutoff))
  {
  }

  // ---------------------------------------------------------------------
  // Outcomes and results

  /** What executing a query yields: the connection could not be opened, the
    * statement failed, or the columns and fetched rows. */
  datatype DbOutcome = ConnectFailed(error: string) | ExecuteFailed(error: string) | Returned(columns: seq<string>, rows: seq<seq<Value>>)

  /** The warehouse as an oracle from a query and its parameters to an outcome. */
  type Database = (Query, seq<Param>) -> DbOutcome

  /** `_format_result`: columns and rows pass through; `source` and
    * `rowCount` override whatever the caller's metadata held. */
  function FormatResult(columns: seq<string>, rows: seq<seq<Value>>, metadata: Metadata): (r: TabularResult)
    ensures r.columns == columns && r.rows == rows
    ensures r.metadata.rowCount == Some(|rows|) && r.metadata.source == Some("redshift")
    ensures r.metadata.rangeDays == metadata.rangeDays && r.metadata.limit == metadata.limit
    ensures r.metadata.facilityId == metadata.facilityId
  {
    TabularResult(columns, rows, metadata.(source := Some("redshift"), rowCount := Some(|rows|)))
  }

  /** The metadata dictionary a report passes to `_format_result`. */
  function RequestMetadataOf(req: ReportRequest): Metadata
  {
    match req
    case TopErrorMessagesRequest(rangeDays, limit, facilityId) => RequestMetadata(rangeDays, Some(limit), facilityId)
    case FacilitySummaryRequest(facility, rangeDays) => RequestMetadata(rangeDays, None, Some(facility))
    case _ => RequestMetadata(req.rangeDays, None, req.facilityId)
  }

  /** A single-query report: the outcome's error, or its rows formatted. */
  function SingleQueryAnswer(db: Database, schema: string, req: ReportRequest, now: int): (r: Result<TabularResult, string>)
    requires !req.FacilitySummaryRequest?
  {
    match db(ReportQuery(req, schema), ReportParams(req, now))
    case ConnectFailed(e) => Failure(e)
    case ExecuteFailed(e) => Failure(e)
    case Returned(columns, rows) => Success(FormatResult(columns, rows, RequestMetadataOf(req)))
  }

  /** `get_facility_summary`: the metadata query, then the error query; the
    * result has the metadata query's columns and its rows followed by the
    * error query's rows. */
  function FacilitySummaryAnswer(db: Database, schema: string, facility: string, rangeDays: int, now: int): (r: Result<TabularResult, string>)
  {
    var metadata := RequestMetadata(rangeDays, None, Some(facility));
    match db(MetadataQuery(schema), MetadataParams(facility))
    case ConnectFailed(e) => Failure(e)
    case ExecuteFailed(e) => Failure(e)
    case Returned(columns, metaRows) =>
      match db(FacilityErrorsQuery(schema), FacilityErrorParams(facility, Cutoff(now, rangeDays)))
      case ConnectFailed(e) => Failure(e)
      case ExecuteFailed(e) => Failure(e)
      case Returned(_, errorRows) => Success(FormatResult(columns, metaRows + errorRows, metadata))
  }

  /** The answer to any report request. */
  function Answer(db: Database, schema: string, req: ReportRequest, now: int): Result<TabularResult, string>
  {
    if req.FacilitySummaryRequest? then FacilitySummaryAnswer(db, schema, req.facility, req.rangeDays, now)
    else SingleQueryAnswer(db, schema, req, now)
  }

  /** The warehouse report passes the query's rows through unchanged and
    * counts them, and a failed query surfaces as the report's error. */
  lemma SingleQueryPassesThrough(db: Database, schema: string, req: ReportRequest, now: int)
    requires !req.FacilitySummaryRequest?
    ensures var out := db(ReportQuery(req, schema), ReportParams(req, now));
      var r := SingleQueryAnswer(db, schema, req, now);
      && (out.Returned? <==> r.Success?)
      && (out.Returned? ==> r.value.columns == out.columns && r.value.rows == out.rows
                            && r.value.metadata.rowCount == Some(|out.rows|)
                            && r.value.metadata.source == Some("redshift"))
      && (!out.Returned? ==> r == Failure(out.error))
  {
  }

  /** The facility summary's rows are the metadata rows followed by the error
    * rows, and its row count is their total. */
  lemma FacilitySummaryConcatenates(db: Database, schema: string, facility: string, rangeDays: int, now: int)
    requires db(MetadataQuery(schema), MetadataParams(facility)).Returned?
    requires db(FacilityErrorsQuery(schema), FacilityErrorParams(facility, Cutoff(now, rangeDays))).Returned?
    ensures var meta := db(MetadataQuery(schema), MetadataParams(facility));
      var errors := db(FacilityErrorsQuery(schema), FacilityErrorParams(facility, Cutoff(now, rangeDays)));
      var r := FacilitySummaryAnswer(db, schema, facility, rangeDays, now);
      && r.Success? && r.value.columns == meta.columns
      && r.value.rows[..|meta.rows|] == meta.rows && r.value.rows[|meta.rows|..] == errors.rows
      && r.value.metadata.rowCount == Some(|meta.rows| + |errors.rows|)
      && r.value.metadata.facilityId == Some(facility) && r.value.metadata.rangeDays == Some(rangeDays)
  {
    var meta := db(MetadataQuery(schema), MetadataParams(facility));
    var errors := db(FacilityErrorsQuery(schema), FacilityErrorParams(facility, Cutoff(now, rangeDays)));
    assert (meta.rows + errors.rows)[..|meta.rows|] == meta.rows;
    assert (meta.rows + errors.rows)[|meta.rows|..] == errors.rows;
  }

  /** Every table a report queries is on the allowlist, so the access check
    * before each query never refuses. */
  lemma ReportTablesAllowed(req: ReportRequest, schema: string)
    ensures !req.FacilitySummaryRequest? ==> RedshiftConfig.ValidateTable(ReportQuery(req, schema).table)
    ensures RedshiftConfig.ValidateTable(MetadataQuery(schema).table)
    ensures RedshiftConfig.ValidateTable(FacilityErrorsQuery(schema).table)
  {
  }
}
