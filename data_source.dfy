/** The data-source interface: the six report calls, answered by either
  * backend. */
module DataSources {
  import opened Wrappers
  import opened Tabular
  import opened ExcelSheets
  import ExcelReports
  import ExcelBackend
  import RedshiftQueries
  import RedshiftBackend

  /** A configured backend. */
  datatype DataSource =
    | ExcelSource(excel: ExcelBackend.ExcelDataSource)
    | RedshiftSource(redshift: RedshiftBackend.RedshiftDataSource)

  /** The object a data source is made of. */
  function Objects(source: DataSource): set<object>
  {
    match source
    case ExcelSource(excel) => {excel}
    case RedshiftSource(redshift) => {redshift}
  }

  /** The warehouse backend keeps its connection discipline. */
  ghost predicate Ready(source: DataSource)
    reads Objects(source)
  {
    source.RedshiftSource? ==> source.redshift.Valid()
  }

  /** The spreadsheet backend's answer to a request. */
  function ExcelAnswer(data: Datasets, req: ReportRequest, now: int): (r: Result<TabularResult, string>)
    ensures !req.FacilitySummaryRequest? ==> r.Success?
    ensures r.Success? ==> WellFormed(r.value) && r.value.metadata.source == Some("excel")
    ensures r.Success? ==> r.value.metadata.rangeDays == Some(req.rangeDays)
  {
    match req
    case ErrorsSummaryRequest(rangeDays, facilityId) =>
      Success(ExcelReports.GetErrorsSummary(data, rangeDays, facilityId, now))
    case TopErrorMessagesRequest(rangeDays, limit, facilityId) =>
      Success(ExcelReports.GetTopErrorMessages(data, rangeDays, limit, facilityId, now))
    case ConnectivitySummaryRequest(rangeDays, facilityId) =>
      Success(ExcelReports.GetConnectivitySummary(data, rangeDays, facilityId, now))
    case DisconnectReasonsRequest(rangeDays, facilityId) =>
      Success(ExcelReports.GetDisconnectReasons(data, rangeDays, facilityId, now))
    case FacilitySummaryRequest(facility, rangeDays) =>
      ExcelReports.GetFacilitySummary(data, facility, rangeDays, now)
    case DataQualitySummaryRequest(rangeDays, facilityId) =>
      Success(ExcelReports.GetDataQualitySummary(data, rangeDays, facilityId, now))
  }

  /** What a data source answers to a request. */
  function Answer(source: DataSource, req: ReportRequest, now: int): Result<TabularResult, string>
    reads Objects(source)
  {
    match source
    case ExcelSource(excel) => ExcelAnswer(excel.data, req, now)
    case RedshiftSource(redshift) => RedshiftQueries.Answer(redshift.db, redshift.config.schema, req, now)
  }

  /** Whichever backend answers, a result counts its rows, names its
    * backend and records the requested range. */
  lemma AnswerRecordsRequest(source: DataSource, req: ReportRequest, now: int)
    ensures var r := Answer(source, req, now);
      r.Success? ==>
        && r.value.metadata.rowCount == Some(|r.value.rows|)
        && r.value.metadata.rangeDays == Some(req.rangeDays)
        && r.value.metadata.source == Some(if source.ExcelSource? then "excel" else "redshift")
  {
  }

  /** Call the report method that matches the request on the data source. */
  method RunReport(source: DataSource, req: ReportRequest, now: int) returns (r: Result<TabularResult, string>)
    requires Ready(source)
    modifies if source.RedshiftSource? then {source.redshift} else {}
    ensures Ready(source)
    ensures r == Answer(source, req, now)
    ensures source.RedshiftSource? ==>
      source.redshift.trace == old(source.redshift.trace)
        + RedshiftBackend.ReportTrace(source.redshift.db, source.redshift.config.schema, req, now)
  {
    match source
    case ExcelSource(excel) =>
      match req {
      case ErrorsSummaryRequest(rangeDays, facilityId) =>
        var t := excel.GetErrorsSummary(rangeDays, facilityId, now);
        r := Success(t);
      case TopErrorMessagesRequest(rangeDays, limit, facilityId) =>
        var t := excel.GetTopErrorMessages(rangeDays, limit, facilityId, now);
        r := Success(t);
      case ConnectivitySummaryRequest(rangeDays, facilityId) =>
        var t := excel.GetConnectivitySummary(rangeDays, facilityId, now);
        r := Success(t);
      case DisconnectReasonsRequest(rangeDays, facilityId) =>
        var t := excel.GetDisconnectReasons(rangeDays, facilityId, now);
        r := Success(t);
      case FacilitySummaryRequest(facility, rangeDays) =>
        r := excel.GetFacilitySummary(facility, rangeDays, now);
      case DataQualitySummaryRequest(rangeDays, facilityId) =>
        var t := excel.GetDataQualitySummary(rangeDays, facilityId, now);
        r := Success(t);
      }
    case RedshiftSource(redshift) =>
      match req {
      case ErrorsSummaryRequest(rangeDays, facilityId) =>
        r := redshift.GetErrorsSummary(rangeDays, facilityId, now);
      case TopErrorMessagesRequest(rangeDays, limit, facilityId) =>
        r := redshift.GetTopErrorMessages(rangeDays, limit, facilityId, now);
      case ConnectivitySummaryRequest(rangeDays, facilityId) =>
        r := redshift.GetConnectivitySummary(rangeDays, facilityId, now);
      case DisconnectReasonsRequest(rangeDays, facilityId) =>
        r := redshift.GetDisconnectReasons(rangeDays, facilityId, now);
      case FacilitySummaryRequest(facility, rangeDays) =>
        r := redshift.GetFacilitySummary(facility, rangeDays, now);
      case DataQualitySummaryRequest(rangeDays, facilityId) =>
        r := redshift.GetDataQualitySummary(rangeDays, facilityId, now);
      }
  }
}
