/** The spreadsheet-backed data source: the merged datasets it loads once,
  * and the reports it answers from them. */
module ExcelBackend {
  import opened Wrappers
  import opened Collections
  import opened Tabular
  import opened ExcelSheets
  import opened ExcelReports

  class ExcelDataSource {
    /** `self._data`: the four merged sheets. */
    var data: Datasets

    /** Loads every sheet of every file in `dir`. */
    constructor (dir: Directory)
      ensures data == LoadDirectory(dir)
    {
      data := EmptyDatasets;
      new;
      LoadData(dir);
    }

    /** `_initialize_empty_data`: all four sheets become `pd.DataFrame()`. */
    method InitializeEmptyData()
      modifies this
      ensures data == EmptyDatasets
    {
      data := EmptyDatasets;
    }

    /** `_load_data`: collect each sheet's frames file by file, then merge
      * them; a missing directory or one without spreadsheets gives empty
      * sheets. */
    method LoadData(dir: Directory)
      modifies this
      ensures data == LoadDirectory(dir)
    {
      if !dir.present || |dir.files| == 0 {
        InitializeEmptyData();
        return;
      }
      var files := dir.files;
      var errors: seq<seq<ErrorEvent>> := [];
      var connectivity: seq<seq<ConnectivityEvent>> := [];
      var metadata: seq<seq<FacilityMetadata>> := [];
      var quality: seq<seq<QualitySample>> := [];
      var i := 0;
      while i < |files|
        invariant 0 <= i <= |files|
        invariant errors == SheetsOf(files[..i], ErrorsSheet)
        invariant connectivity == SheetsOf(files[..i], ConnectivitySheet)
        invariant metadata == SheetsOf(files[..i], MetadataSheet)
        invariant quality == SheetsOf(files[..i], QualitySheet)
      {
        var file := files[i];
        assert files[..i + 1][..i] == files[..i];
        if file.errors.Some? {
          errors := errors + [file.errors.value];
        }
        if file.connectivity.Some? {
          connectivity := connectivity + [file.connectivity.value];
        }
        if file.facilityMetadata.Some? {
          metadata := metadata + [file.facilityMetadata.value];
        }
        if file.dataQuality.Some? {
          quality := quality + [file.dataQuality.value];
        }
        i := i + 1;
      }
      assert files[..i] == files;
      data := Datasets(MergeSheets(errors), MergeSheets(connectivity), MergeSheets(metadata), MergeSheets(quality));
    }

    /** `get_errors_summary`. */
    method GetErrorsSummary(rangeDays: int, facilityId: Option<string>, now: int) returns (r: TabularResult)
      ensures r == ExcelReports.GetErrorsSummary(data, rangeDays, facilityId, now)
    {
      r := ExcelReports.GetErrorsSummary(data, rangeDays, facilityId, now);
    }

    /** `get_top_error_messages`. */
    method GetTopErrorMessages(rangeDays: int, limit: int, facilityId: Option<string>, now: int) returns (r: TabularResult)
      ensures r == ExcelReports.GetTopErrorMessages(data, rangeDays, limit, facilityId, now)
    {
      r := ExcelReports.GetTopErrorMessages(data, rangeDays, limit, facilityId, now);
    }

    /** `get_connectivity_summary`. */
    method GetConnectivitySummary(rangeDays: int, facilityId: Option<string>, now: int) returns (r: TabularResult)
      ensures r == ExcelReports.GetConnectivitySummary(data, rangeDays, facilityId, now)
    {
      r := ExcelReports.GetConnectivitySummary(data, rangeDays, facilityId, now);
    }

    /** `get_disconnect_reasons`. */
    method GetDisconnectReasons(rangeDays: int, facilityId: Option<string>, now: int) returns (r: TabularResult)
      ensures r == ExcelReports.GetDisconnectReasons(data, rangeDays, facilityId, now)
    {
      r := ExcelReports.GetDisconnectReasons(data, rangeDays, facilityId, now);
    }

    /** `get_data_quality_summary`. */
    method GetDataQualitySummary(rangeDays: int, facilityId: Option<string>, now: int) returns (r: TabularResult)
      ensures r == ExcelReports.GetDataQualitySummary(data, rangeDays, facilityId, now)
    {
      r := ExcelReports.GetDataQualitySummary(data, rangeDays, facilityId, now);
    }

    /** The loop of `get_facility_summary` over the metadata columns: one
      * `[column, str(value)]` metric per column other than `facility_id`. */
    static method CollectMetadataMetrics(fields: seq<(string, string)>) returns (metrics: seq<seq<Value>>)
      ensures metrics == MetadataMetrics(fields)
    {
      metrics := [];
      var i := 0;
      while i < |fields|
        invariant 0 <= i <= |fields|
        invariant metrics == MetadataMetrics(fields[..i])
      {
        assert fields[..i + 1][..i] == fields[..i];
        if fields[i].0 != "facility_id" {
          metrics := metrics + [[VStr(fields[i].0), VStr(fields[i].1)]];
        }
        i := i + 1;
      }
      assert fields[..i] == fields;
    }

    /** `get_facility_summary`: the metrics list is built by appending, the
      * metadata metrics in a loop over the sheet's columns. */
    method GetFacilitySummary(facilityId: string, rangeDays: int, now: int) returns (r: Result<TabularResult, string>)
      ensures r == ExcelReports.GetFacilitySummary(data, facilityId, rangeDays, now)
    {
      var metadata := RequestMetadata(rangeDays, None, Some(facilityId));
      if data.facilityMetadata.NoColumns? {
        return Failure(MissingFacilityColumn);
      }
      var facilityMeta := GroupAt(data.facilityMetadata.rows, MetadataFacility, facilityId);
      if |facilityMeta| == 0 {
        return Success(FormatResult([], [], metadata));
      }
      var metrics := CollectMetadataMetrics(MetadataFields(facilityMeta[0]));
      var cutoff := Cutoff(now, rangeDays);

      var errors := FacilityRowsInRange(data.errors, ErrorStamp, ErrorFacility, facilityId, cutoff);
      if errors.None? {
        return Failure(MissingFacilityColumn);
      }
      if |errors.value| > 0 {
        metrics := metrics + [[VStr("errors_total"), VInt(|errors.value|)]];
        metrics := metrics + [[VStr("errors_critical"), VInt(|Filter(errors.value, IsCritical)|)]];
      }
      assert metrics == MetadataMetrics(MetadataFields(facilityMeta[0])) + ErrorMetrics(errors.value);

      var events := FacilityRowsInRange(data.connectivity, ConnectivityStamp, ConnectivityFacility, facilityId, cutoff);
      if events.None? {
        return Failure(MissingFacilityColumn);
      }
      if |events.value| > 0 {
        var connected := |Filter(events.value, IsConnected)|;
        metrics := metrics + [[VStr("connectivity_pct"), VReal(Percentage(connected, |events.value|))]];
      }
      assert metrics == MetadataMetrics(MetadataFields(facilityMeta[0])) + ErrorMetrics(errors.value)
        + ConnectivityMetrics(events.value);

      var samples := FacilityRowsInRange(data.dataQuality, QualityStamp, QualityFacility, facilityId, cutoff);
      if samples.None? {
        return Failure(MissingFacilityColumn);
      }
      if |samples.value| > 0 {
        metrics := metrics + [[VStr("avg_data_quality_score"), VReal(Mean(Scores(samples.value)))]];
      }

      assert metrics == FacilityMetrics(facilityMeta[0], errors.value, events.value, samples.value);
      return Success(FormatResult(MetricColumns, metrics, metadata));
    }
  }
}
