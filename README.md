# Trackman report layer, modelled in Dafny

This project models the report layer of the Trackman operational data tool. An
assistant asks a question with an *intent* (`errors_summary`,
`top_error_messages`, `connectivity_summary`, `disconnect_reasons`,
`facility_summary`, `data_quality_summary`), a time range in days, an optional
facility id and a limit. The query tool checks the intent. It then gets the one
shared data source from a factory and runs the matching report. Last, it turns
the tabular result into a markdown answer.

There are two backends:

* **The spreadsheet backend** (`ExcelSheets`, `ExcelReports`, `ExcelBackend`).
  It reads the four sheets (`errors`, `connectivity`, `facility_metadata`,
  `data_quality`) from every spreadsheet in a directory. It merges the frames of
  each sheet and drops duplicate rows. It computes the six reports with
  group-by, counts, percentages and means.
* **The warehouse backend** (`RedshiftConfig`, `RedshiftQueries`,
  `RedshiftBackend`). It checks every table against an allowlist before
  querying. It sends each report as one parameterised query, or two for the
  facility summary. It opens and closes a connection around every query and
  passes rows through unchanged.

The factory (`Factory`) picks a backend from the environment and caches it.
`DataSources` is the common interface of the two backends. The tool itself is
`QueryTool`.

How the model is built:

* The database is a parameter. It is a function from a query and its
  parameters to an outcome: connection failed, execution failed, or returned
  rows.
* The warehouse source keeps a ghost *trace* of what it did: validate a table,
  connect, execute, close. Every method proves that the trace stays
  *disciplined*:
  - every query's table was validated before the query;
  - every execution happens inside a connection;
  - every connection is closed.
* The clock is a parameter `now`, in seconds. The cutoff of a report is
  `now - range_days * 86400`.
* The environment is a map from variable names to values.
* The directory is a value: whether it exists, and its spreadsheets, already
  parsed into typed rows. The file system is a function from path to directory.
* An exception raised by a report becomes a `Failure` carrying its message.
  The tool renders it behind the tool's error prefix.

## Model

| member | source | states |
|---|---|---|
| RedshiftConfig.ValidateTable | code/backend/batch/utilities/helpers/trackman/redshift_config.py:43-45 | a table is accepted exactly when it is one of errors, connectivity, facility_metadata, data_quality |
| RedshiftConfig.ValidateColumns | code/backend/batch/utilities/helpers/trackman/redshift_config.py:48-56 | an unknown table is refused; for a known table the request is accepted exactly when every requested column is in its allowlist |
| RedshiftConfig.GetAllowedColumns | code/backend/batch/utilities/helpers/trackman/redshift_config.py:59-61 | the configured column list of a known table, the empty list for any other name |
| RedshiftConfig.EmptyColumnsAllowed | code/backend/batch/utilities/helpers/trackman/redshift_config.py:48-56 | a known table accepts a request for no columns |
| RedshiftConfig.ValidateColumnsIgnoresOrder | code/backend/batch/utilities/helpers/trackman/redshift_config.py:53-56 | only the set of requested columns matters, not their order or repetition |
| RedshiftConfig.AllowedColumnsValidate | code/backend/batch/utilities/helpers/trackman/redshift_config.py:48-61 | every known table accepts a request for all of its own allowed columns |
| RedshiftConfig.UnknownColumnRefused | code/backend/batch/utilities/helpers/trackman/redshift_config.py:48-56 | one column outside the allowlist makes the whole request fail |
| ExcelSheets.MergeSheets | code/backend/batch/utilities/helpers/trackman/excel_data_source.py:87-98 | no frame gives the column-less empty frame; otherwise the merged rows are duplicate-free and are exactly the rows of the collected frames |
| ExcelSheets.LoadDirectory | code/backend/batch/utilities/helpers/trackman/excel_data_source.py:40-104 | a missing directory or one with no spreadsheet leaves all four sheets column-less and empty |
| ExcelSheets.SheetsOfMembership | code/backend/batch/utilities/helpers/trackman/excel_data_source.py:65-81 | a row is in some collected frame exactly when some file has that sheet and the row is in it |
| ExcelSheets.MergedErrors | code/backend/batch/utilities/helpers/trackman/excel_data_source.py:60-98 | the merged errors sheet is column-less exactly when no file has one; otherwise it holds each row of every file's errors sheet exactly once, and nothing else |
| Collections.DedupKeepsFirstOccurrenceOrder | code/backend/batch/utilities/helpers/trackman/excel_data_source.py:90-93 | de-duplication keeps the first occurrence of each row, in the order of first occurrence |
| Collections.DedupOfDistinct | code/backend/batch/utilities/helpers/trackman/excel_data_source.py:90-93 | rows without duplicates are left as they are |
| ExcelSheets.MergeDisjoint | code/backend/batch/utilities/helpers/trackman/excel_data_source.py:90-94 | two duplicate-free sheets with no row in common merge to their concatenation, so the row counts add up |
| ExcelSheets.MergeIdentical | code/backend/batch/utilities/helpers/trackman/excel_data_source.py:90-94 | two identical files merge to the de-duplicated rows of one of them |
| ExcelSheets.MergeOrderIndependent | code/backend/batch/utilities/helpers/trackman/excel_data_source.py:51-94 | any rearrangement of the files found, in any number, gives the same sheet presence and a permutation of the merged rows |
| ExcelSheets.FilterByDateRange | code/backend/batch/utilities/helpers/trackman/excel_data_source.py:111-117 | a column-less or row-less frame is returned as is; otherwise a subsequence holding exactly the rows whose timestamp is at or after the cutoff; FilterByDateRangeKeepsCopies fixes how many copies of each |
| ExcelSheets.FilterByFacility | code/backend/batch/utilities/helpers/trackman/excel_data_source.py:119-125 | with a non-empty id, a subsequence holding exactly the rows of that facility (FilterByFacilityKeepsCopies fixes their copies); with no id or on a column-less frame, the frame unchanged |
| ExcelSheets.FilterByDateRangeKeepsCopies | code/backend/batch/utilities/helpers/trackman/excel_data_source.py:111-117 | the mask keeps every copy of an in-range row and no copy of any other, so with the subsequence clause the result is fixed |
| ExcelSheets.FilterByFacilityKeepsCopies | code/backend/batch/utilities/helpers/trackman/excel_data_source.py:119-125 | with a non-empty id, every copy of a row of that facility is kept and no copy of any other |
| ExcelBackend.ExcelDataSource.constructor | code/backend/batch/utilities/helpers/trackman/excel_data_source.py:24-38 | the new source holds the datasets loaded from the directory |
| ExcelBackend.ExcelDataSource.InitializeEmptyData | code/backend/batch/utilities/helpers/trackman/excel_data_source.py:106-109 | all four sheets become column-less empty frames |
| ExcelBackend.ExcelDataSource.LoadData | code/backend/batch/utilities/helpers/trackman/excel_data_source.py:40-104 | the loop that collects each sheet file by file leaves exactly the merged datasets of the directory |
| ExcelBackend.ExcelDataSource.GetErrorsSummary | code/backend/batch/utilities/helpers/trackman/excel_data_source.py:147-186 | answers from the loaded data as the errors summary report defines |
| ExcelBackend.ExcelDataSource.GetTopErrorMessages | code/backend/batch/utilities/helpers/trackman/excel_data_source.py:188-231 | answers from the loaded data with the intended top error messages report (see Findings) |
| ExcelBackend.ExcelDataSource.GetConnectivitySummary | code/backend/batch/utilities/helpers/trackman/excel_data_source.py:233-266 | answers from the loaded data as the connectivity summary report defines |
| ExcelBackend.ExcelDataSource.GetDisconnectReasons | code/backend/batch/utilities/helpers/trackman/excel_data_source.py:268-303 | answers from the loaded data as the disconnect reasons report defines |
| ExcelBackend.ExcelDataSource.GetDataQualitySummary | code/backend/batch/utilities/helpers/trackman/excel_data_source.py:380-423 | answers from the loaded data as the data quality report defines |
| ExcelBackend.ExcelDataSource.CollectMetadataMetrics | code/backend/batch/utilities/helpers/trackman/excel_data_source.py:323-325 | the loop over the metadata columns yields one [column, value] metric per column other than facility_id, in column order |
| ExcelBackend.ExcelDataSource.GetFacilitySummary | code/backend/batch/utilities/helpers/trackman/excel_data_source.py:305-378 | the step-by-step construction of the metrics list gives the facility summary report, errors included |
| ExcelReports.FormatResult | code/backend/batch/utilities/helpers/trackman/excel_data_source.py:127-145 | no rows gives no columns and no rows; otherwise columns and rows pass through; the metadata gains source "excel" and the row count; rows as wide as the columns give a well-formed result |
| ExcelReports.ErrorsInScope | code/backend/batch/utilities/helpers/trackman/excel_data_source.py:152-154 | an error event is in scope exactly when it was loaded, is not older than the cutoff, and belongs to the requested facility when one is given |
| ExcelReports.ConnectivityInScope | code/backend/batch/utilities/helpers/trackman/excel_data_source.py:238-240 | the same scope rule for connectivity events |
| ExcelReports.QualityInScope | code/backend/batch/utilities/helpers/trackman/excel_data_source.py:385-387 | the same scope rule for data quality samples |
| ExcelReports.ErrorsInScopeKeepsCopies | code/backend/batch/utilities/helpers/trackman/excel_data_source.py:152-154 | each in-scope error event occurs as often as in the loaded sheet, every other one not at all |
| ExcelReports.ConnectivityInScopeKeepsCopies | code/backend/batch/utilities/helpers/trackman/excel_data_source.py:238-240 | the same multiplicities for connectivity events |
| ExcelReports.QualityInScopeKeepsCopies | code/backend/batch/utilities/helpers/trackman/excel_data_source.py:385-387 | the same multiplicities for data quality samples |
| ExcelReports.FacilityIds | code/backend/batch/utilities/helpers/trackman/excel_data_source.py:162-163 | the groups of a facility group-by are the distinct present facility ids, strictly ascending |
| ExcelReports.FacilityGroupsPartition | code/backend/batch/utilities/helpers/trackman/excel_data_source.py:162-171 | the facility groups together hold every row that has a facility id exactly once |
| ExcelReports.GetErrorsSummary | code/backend/batch/utilities/helpers/trackman/excel_data_source.py:147-186 | the result is well-formed, carries source "excel", the range, the facility and the row count, and has one row per facility group with its counts |
| ExcelReports.ErrorStatsCounts | code/backend/batch/utilities/helpers/trackman/excel_data_source.py:162-179 | a facility's row holds its event count (positive), its critical count, and its distinct error codes, between 1 and the event count |
| ExcelReports.ErrorsSummaryFacilities | code/backend/batch/utilities/helpers/trackman/excel_data_source.py:162-171 | a facility has a summary row exactly when some event in scope carries its id |
| ExcelReports.ErrorsSummaryOrdered | code/backend/batch/utilities/helpers/trackman/excel_data_source.py:162-163 | summary rows are in strictly ascending facility id order |
| ExcelReports.ErrorsSummaryCounts | code/backend/batch/utilities/helpers/trackman/excel_data_source.py:162-179 | every summary row holds its group's event count, critical count and distinct-code count, with critical <= total and 1 <= distinct <= total |
| ExcelReports.ErrorsSummaryTotal | code/backend/batch/utilities/helpers/trackman/excel_data_source.py:162-171 | the error counts add up to the number of in-scope events that carry a facility id |
| ExcelReports.ErrorsSummaryOnlyRequestedFacility | code/backend/batch/utilities/helpers/trackman/excel_data_source.py:152-163 | with a facility filter the summary has at most one row, and it is for that facility |
| ExcelReports.MessageKeys | code/backend/batch/utilities/helpers/trackman/excel_data_source.py:208-209 | every event's (message, code) key is listed, every listed key has events, and the keys ascend |
| ExcelReports.MessageGroups | code/backend/batch/utilities/helpers/trackman/excel_data_source.py:208-212 | one group for every (message, code) key that occurs, in ascending key order; each has a positive size equal to its number of events and the severity of its first event |
| ExcelReports.GetTopErrorMessages | code/backend/batch/utilities/helpers/trackman/excel_data_source.py:188-231 | the intended report (see Findings): well-formed, carrying range, limit, facility, source and row count, with the top groups as rows |
| ExcelReports.TopErrorMessagesRanking | code/backend/batch/utilities/helpers/trackman/excel_data_source.py:208-223 | min(limit, groups) groups for a non-negative limit, non-increasing counts, each group's count and first severity, and a limit covering all groups keeps them all |
| ExcelReports.TopErrorMessagesKeepsLargest | code/backend/batch/utilities/helpers/trackman/excel_data_source.py:220-223 | no group cut by `head(limit)` has a larger count than a group kept |
| ExcelReports.GetTopErrorMessagesAsWritten | code/backend/batch/utilities/helpers/trackman/excel_data_source.py:188-231 | as written: the "cannot insert error_code, already exists" failure exactly when some error is in scope, otherwise the empty result |
| ExcelReports.OneErrorInScope | code/backend/batch/utilities/helpers/trackman/excel_data_source.py:193-195 | a sheet holding one in-range event puts exactly that event in scope |
| ExcelReports.OneMessageGroup | code/backend/batch/utilities/helpers/trackman/excel_data_source.py:208-212 | one event forms exactly one group, of size one |
| ExcelReports.TopErrorMessagesAsWrittenRaises | code/backend/batch/utilities/helpers/trackman/excel_data_source.py:208-212 | one in-range event: the code as written fails, while the intended report lists one group of count one |
| ExcelReports.Percentage | code/backend/batch/utilities/helpers/trackman/excel_data_source.py:256-258 | a part between 0 and the whole gives a percentage between 0 and 100; the whole itself gives 100 |
| ExcelReports.ConnectivitySummaryStats | code/backend/batch/utilities/helpers/trackman/excel_data_source.py:247-258 | each facility row has a positive event count and a connected count between 0 and it |
| ExcelReports.GetConnectivitySummary | code/backend/batch/utilities/helpers/trackman/excel_data_source.py:233-266 | the result is well-formed, records the request and source, and has one row per facility group |
| ExcelReports.ConnectivityStatsCounts | code/backend/batch/utilities/helpers/trackman/excel_data_source.py:248-253 | the connected count is the number of that facility's events whose status is "connected" |
| ExcelReports.ConnectivitySummaryGroups | code/backend/batch/utilities/helpers/trackman/excel_data_source.py:247-259 | one row per facility present, in ascending id order, each with its totals and a percentage between 0 and 100 |
| ExcelReports.ConnectivitySummaryTotal | code/backend/batch/utilities/helpers/trackman/excel_data_source.py:248-249 | the event totals add up to the number of in-scope events that carry a facility id |
| ExcelReports.Reasons | code/backend/batch/utilities/helpers/trackman/excel_data_source.py:291 | the distinct present reasons, none for no disconnected events, and a reason is listed exactly when some event carries it |
| ExcelReports.ReasonCounts | code/backend/batch/utilities/helpers/trackman/excel_data_source.py:291-292 | one positive count per distinct reason, equal to the size of its group; a reason is counted exactly when it occurs |
| ExcelReports.TallyFacts | code/backend/batch/utilities/helpers/trackman/excel_data_source.py:291-292 | pairing distinct, occurring reasons with their group sizes gives distinct, positive counts, one for each reason |
| ExcelReports.Rank | code/backend/batch/utilities/helpers/trackman/excel_data_source.py:291 | sorting by count puts the counts in non-increasing order and is a permutation of them |
| ExcelReports.RankedReasons | code/backend/batch/utilities/helpers/trackman/excel_data_source.py:283-292 | the ranked counts are a permutation of the counts of the disconnected events, non-increasing, and empty when nothing disconnected |
| ExcelReports.DisconnectReasonCounts | code/backend/batch/utilities/helpers/trackman/excel_data_source.py:283-292 | each reason's count is the number of disconnected events with that reason |
| ExcelReports.DisconnectReasonsCovered | code/backend/batch/utilities/helpers/trackman/excel_data_source.py:283-292 | a reason is listed exactly when some disconnected event carries it |
| ExcelReports.RankedReasonComplete | code/backend/batch/utilities/helpers/trackman/excel_data_source.py:283-292 | every reason of a disconnected event is listed |
| ExcelReports.RankedReasonSound | code/backend/batch/utilities/helpers/trackman/excel_data_source.py:283-292 | every listed reason comes from a disconnected event |
| ExcelReports.DisconnectPercentagesSum | code/backend/batch/utilities/helpers/trackman/excel_data_source.py:294-296 | the unrounded percentages of a non-empty reasons table add up to exactly 100 |
| ExcelReports.GetDisconnectReasons | code/backend/batch/utilities/helpers/trackman/excel_data_source.py:268-303 | well-formed, records the request and source, no rows when nothing disconnected, otherwise one row per ranked reason with its count and percentage |
| ExcelReports.Mean | code/backend/batch/utilities/helpers/trackman/excel_data_source.py:394-405 | the mean of a non-empty group lies between its minimum and its maximum |
| ExcelReports.QualitySummaryStats | code/backend/batch/utilities/helpers/trackman/excel_data_source.py:394-405 | each facility row has non-empty scores and latencies, so both means are defined |
| ExcelReports.GetDataQualitySummary | code/backend/batch/utilities/helpers/trackman/excel_data_source.py:380-423 | well-formed, records the request and source, and has one row per facility group with the two means and the summed missing records |
| ExcelReports.QualitySummaryFacilities | code/backend/batch/utilities/helpers/trackman/excel_data_source.py:394-405 | a facility has a quality row exactly when some in-scope sample carries its id |
| ExcelReports.QualitySummaryOrdered | code/backend/batch/utilities/helpers/trackman/excel_data_source.py:396 | quality rows are in strictly ascending facility id order |
| ExcelReports.QualitySummaryValues | code/backend/batch/utilities/helpers/trackman/excel_data_source.py:394-405 | each row holds its group's scores, latencies and summed missing records, and each mean lies between the group's extremes |
| ExcelReports.FacilityRowsInRange | code/backend/batch/utilities/helpers/trackman/excel_data_source.py:328-332 | a column-less sheet gives no answer (the lookup of facility_id fails); otherwise the rows of the facility not older than the cutoff |
| ExcelReports.GetFacilitySummary | code/backend/batch/utilities/helpers/trackman/excel_data_source.py:305-378 | a failure is always the KeyError on facility_id; a success is well-formed and records facility, range, source and row count |
| ExcelReports.MetadataFieldsFollowAllowlist | code/backend/batch/utilities/helpers/trackman/excel_data_source.py:323-325 | the metadata row's columns are the facility_metadata allowlist columns, in the same order |
| ExcelReports.MetadataMetricsSkipFirst | code/backend/batch/utilities/helpers/trackman/excel_data_source.py:323-325 | when only the first column is facility_id, the metadata metrics are all the other columns with their values |
| ExcelReports.MetadataMetricsOfRow | code/backend/batch/utilities/helpers/trackman/excel_data_source.py:323-325 | a facility's metadata gives exactly 7 metrics, the allowlist columns after facility_id with the row's values |
| ExcelReports.FacilitySummaryNeedsMetadataSheet | code/backend/batch/utilities/helpers/trackman/excel_data_source.py:309-310 | without a loaded metadata sheet the summary fails with the KeyError on facility_id |
| ExcelReports.FacilitySummaryUnknownFacility | code/backend/batch/utilities/helpers/trackman/excel_data_source.py:312-317 | a facility without metadata gives an empty result with the facility, the range, source "excel" and row count 0 |
| ExcelReports.FacilitySummaryNeedsEventSheets | code/backend/batch/utilities/helpers/trackman/excel_data_source.py:328-361 | for a known facility, a missing errors, connectivity or quality sheet makes the summary fail with the KeyError |
| ExcelReports.FacilityMetricsLayout | code/backend/batch/utilities/helpers/trackman/excel_data_source.py:319-371 | the metrics are the 7 metadata metrics, then errors_total and errors_critical when there are errors, then connectivity_pct when there are events, then avg_data_quality_score when there are samples |
| ExcelReports.FacilitySummaryMetrics | code/backend/batch/utilities/helpers/trackman/excel_data_source.py:305-375 | with all sheets loaded and a known facility, the summary succeeds with the metric/value columns and the metrics of the first metadata row and the facility's in-range rows |
| RedshiftQueries.ReadConfig | code/backend/batch/utilities/helpers/trackman/redshift_data_source.py:20-33 | fails, with the fixed message, exactly when host, database, user or password is unset or empty; otherwise those come from the environment, and port and schema default to "5439" and "public" |
| RedshiftQueries.FilterParams | code/backend/batch/utilities/helpers/trackman/redshift_data_source.py:129 | the first parameter is always the cutoff time |
| RedshiftQueries.MetadataParams | code/backend/batch/utilities/helpers/trackman/redshift_data_source.py:351 | the metadata query gets seven parameters |
| RedshiftQueries.ReportQuery | code/backend/batch/utilities/helpers/trackman/redshift_data_source.py:113-146 | the query is composed with the configured schema and the report's own table |
| RedshiftQueries.ParamsFillPlaceholders | code/backend/batch/utilities/helpers/trackman/redshift_data_source.py:113-146 | every query gets exactly as many parameters as its text has placeholders, the facility summary's two queries included |
| RedshiftQueries.QueryIndependentOfUserValues | code/backend/batch/utilities/helpers/trackman/redshift_data_source.py:113-146 | the query text depends only on the report and on whether a facility filter is present, never on the range, the limit or the facility id itself |
| RedshiftQueries.ParamsCarryUserValues | code/backend/batch/utilities/helpers/trackman/redshift_data_source.py:129-146 | user values travel only as parameters: the cutoff first, the facility id next when filtering, the limit last for top errors, and no text parameter without a filter |
| RedshiftQueries.FacilitySummaryParamsCarryUserValues | code/backend/batch/utilities/helpers/trackman/redshift_data_source.py:351-378 | the metadata query binds only the facility id, seven times; the error query binds the facility id and the cutoff, twice each, alternating |
| RedshiftQueries.FormatResult | code/backend/batch/utilities/helpers/trackman/redshift_data_source.py:85-97 | columns and rows pass through unchanged, and the metadata gains source "redshift" and the row count |
| RedshiftQueries.SingleQueryPassesThrough | code/backend/batch/utilities/helpers/trackman/redshift_data_source.py:148-151 | a report succeeds exactly when its query returned, with that query's columns and rows; otherwise it fails with the database's error |
| RedshiftQueries.FacilitySummaryConcatenates | code/backend/batch/utilities/helpers/trackman/redshift_data_source.py:351-384 | the facility summary has the metadata query's columns, its rows followed by the error query's rows, and the combined row count |
| RedshiftQueries.ReportTablesAllowed | code/backend/batch/utilities/helpers/trackman/redshift_data_source.py:103-108 | every table a report queries passes the allowlist check |
| RedshiftBackend.Session | code/backend/batch/utilities/helpers/trackman/redshift_data_source.py:62-78 | a failed connection records nothing; otherwise connect, execute, close |
| RedshiftBackend.OpenConnectionsAppend | code/backend/batch/utilities/helpers/trackman/redshift_data_source.py:62-78 | the number of connections left open is additive over a trace |
| RedshiftBackend.WrappedAppend | code/backend/batch/utilities/helpers/trackman/redshift_data_source.py:62-78 | joining two traces where every execute lies inside a connection keeps that property |
| RedshiftBackend.ValidatedFirstAppend | code/backend/batch/utilities/helpers/trackman/redshift_data_source.py:80-83 | joining two traces where every query's table was validated earlier keeps that property |
| RedshiftBackend.DisciplinedAppend | code/backend/batch/utilities/helpers/trackman/redshift_data_source.py:62-83 | joining two disciplined traces gives a disciplined trace |
| RedshiftBackend.ReportTrace | code/backend/batch/utilities/helpers/trackman/redshift_data_source.py:103-108 | every report starts by validating a table |
| RedshiftBackend.ValidatedSession | code/backend/batch/utilities/helpers/trackman/redshift_data_source.py:62-83 | validating a table and then running one query on it is disciplined: validated first, executed inside a connection, every connection closed |
| RedshiftBackend.ReportTraceDisciplined | code/backend/batch/utilities/helpers/trackman/redshift_data_source.py:320-384 | every report's trace, also the two-query facility summary, is disciplined |
| RedshiftBackend.RedshiftDataSource.constructor | code/backend/batch/utilities/helpers/trackman/redshift_data_source.py:20-27 | the source holds the configuration and the database, with an empty trace |
| RedshiftBackend.RedshiftDataSource.Create | code/backend/batch/utilities/helpers/trackman/redshift_data_source.py:20-33 | construction fails with the fixed message exactly when a required variable is missing; otherwise the configuration is the one read from the environment |
| RedshiftBackend.RedshiftDataSource.ValidateTableAccess | code/backend/batch/utilities/helpers/trackman/redshift_data_source.py:80-83 | no error exactly when the table is allowlisted; the error names the table; only a success is recorded |
| RedshiftBackend.RedshiftDataSource.ExecuteQuery | code/backend/batch/utilities/helpers/trackman/redshift_data_source.py:49-78 | the result is the database's answer, and the trace grows by that query's connect, execute and close |
| RedshiftBackend.RedshiftDataSource.RunSingleQuery | code/backend/batch/utilities/helpers/trackman/redshift_data_source.py:103-154 | validate, execute and format a single-query report: the answer the report defines, with a disciplined trace |
| RedshiftBackend.RedshiftDataSource.KeepsDiscipline | code/backend/batch/utilities/helpers/trackman/redshift_data_source.py:49-83 | appending any report's trace to a disciplined trace keeps it disciplined |
| RedshiftBackend.RedshiftDataSource.GetErrorsSummary | code/backend/batch/utilities/helpers/trackman/redshift_data_source.py:103-154 | the errors summary answer, with its disciplined trace |
| RedshiftBackend.RedshiftDataSource.GetTopErrorMessages | code/backend/batch/utilities/helpers/trackman/redshift_data_source.py:156-211 | the top error messages answer, with its disciplined trace |
| RedshiftBackend.RedshiftDataSource.GetConnectivitySummary | code/backend/batch/utilities/helpers/trackman/redshift_data_source.py:213-263 | the connectivity summary answer, with its disciplined trace |
| RedshiftBackend.RedshiftDataSource.GetDisconnectReasons | code/backend/batch/utilities/helpers/trackman/redshift_data_source.py:265-318 | the disconnect reasons answer, with its disciplined trace |
| RedshiftBackend.RedshiftDataSource.GetFacilitySummary | code/backend/batch/utilities/helpers/trackman/redshift_data_source.py:320-387 | two validated queries, the error rows appended after the metadata rows, and a disciplined trace |
| RedshiftBackend.RedshiftDataSource.GetDataQualitySummary | code/backend/batch/utilities/helpers/trackman/redshift_data_source.py:389-439 | the data quality answer, with its disciplined trace |
| DataSources.ExcelAnswer | code/backend/batch/utilities/tools/trackman_query_tool.py:78-102 | with the corrected top error messages report (see Findings), every report except the facility summary succeeds on spreadsheets; a success is well-formed, with source "excel" and the requested range |
| DataSources.AnswerRecordsRequest | code/backend/batch/utilities/tools/trackman_query_tool.py:78-102 | every successful answer records its row count, the requested range, and the backend that produced it |
| DataSources.RunReport | code/backend/batch/utilities/tools/trackman_query_tool.py:78-102 | the call the request names, on whichever backend the source is, gives the answer that backend defines; on the warehouse the trace grows by exactly that report's trace and stays disciplined |
| Factory.ExcelDataDirectory | code/backend/batch/utilities/helpers/trackman/excel_data_source.py:33-34 | TRACKMAN_DATA_DIR, or data/testtrack when unset |
| Factory.MissingVariables | code/backend/batch/utilities/helpers/trackman/data_source_factory.py:40-47 | the missing list holds exactly the unset or empty required variables, and is empty exactly when none is missing |
| Factory.Resolve | code/backend/batch/utilities/helpers/trackman/data_source_factory.py:35-69 | the warehouse is chosen exactly when USE_REDSHIFT is "true" in any case and no required variable is missing; otherwise the spreadsheets |
| Factory.ExcelByDefault | code/backend/batch/utilities/helpers/trackman/data_source_factory.py:35-37 | with USE_REDSHIFT unset the spreadsheets are used |
| Factory.FlagIgnoresCase | code/backend/batch/utilities/helpers/trackman/data_source_factory.py:35 | USE_REDSHIFT="TRUE" also requests the warehouse |
| Factory.MissingVariableFallsBack | code/backend/batch/utilities/helpers/trackman/data_source_factory.py:47-54 | one missing required variable sends the factory to the spreadsheets and is reported as missing |
| Factory.ResolvedWarehouseConfigures | code/backend/batch/utilities/helpers/trackman/data_source_factory.py:55-65 | whenever the warehouse is chosen its constructor succeeds, so the fallback after a failed construction is never taken |
| Factory.DataSourceFactory.constructor | code/backend/batch/utilities/helpers/trackman/data_source_factory.py:13 | no instance is cached yet |
| Factory.DataSourceFactory.GetDataSource | code/backend/batch/utilities/helpers/trackman/data_source_factory.py:16-71 | a cached instance is returned unchanged; otherwise a fresh source of the resolved kind is built, loaded from the data directory or configured from the environment, and cached |
| Factory.DataSourceFactory.Reset | code/backend/batch/utilities/helpers/trackman/data_source_factory.py:74-77 | the cached instance is dropped |
| QueryTool.FacilityFilter | code/backend/batch/utilities/tools/trackman_query_tool.py:76 | an empty facility id means no filter; any other id filters on itself |
| QueryTool.RequestFor | code/backend/batch/utilities/tools/trackman_query_tool.py:78-102 | each valid intent selects its call with the requested range; facility_summary gets the raw id, the others the filter, top_error_messages the limit |
| QueryTool.IntentOf | code/backend/batch/utilities/tools/trackman_query_tool.py:18-25 | every call is named by one of the six valid intents |
| QueryTool.IntentSelectsItsCall | code/backend/batch/utilities/tools/trackman_query_tool.py:78-102 | the call a valid intent selects is the one that intent names |
| QueryTool.CellTexts | code/backend/batch/utilities/tools/trackman_query_tool.py:158 | one text per cell |
| QueryTool.SummaryLines | code/backend/batch/utilities/tools/trackman_query_tool.py:131-146 | title, source (or "unknown"), row count (or the number of rows), optional range and facility lines, then an empty line |
| QueryTool.TableLines | code/backend/batch/utilities/tools/trackman_query_tool.py:149-161 | with columns and rows: header, separator and one line per row, in row order; otherwise no lines |
| QueryTool.ReportLayout | code/backend/batch/utilities/tools/trackman_query_tool.py:120-163 | a non-empty result is the summary lines followed by the table lines, joined with newlines, with each row on its own line |
| QueryTool.PipeCountOfDelimiters | code/backend/batch/utilities/tools/trackman_query_tool.py:151-158 | each delimiter of the table holds exactly one pipe, the dashes none |
| QueryTool.RowLinePipes | code/backend/batch/utilities/tools/trackman_query_tool.py:151-158 | a header or data line of n pipe-free cells has n+1 pipes |
| QueryTool.SeparatorPipes | code/backend/batch/utilities/tools/trackman_query_tool.py:152 | the separator for n columns has n+1 pipes |
| QueryTool.TableIsRectangular | code/backend/batch/utilities/tools/trackman_query_tool.py:149-161 | when rows are as wide as the columns and no cell holds a pipe, every table line has the same number of pipes |
| QueryTool.TitleHasNoUnderscore | code/backend/batch/utilities/tools/trackman_query_tool.py:135 | the title shows the intent without underscores |
| QueryTool.BuildSummaryLines | code/backend/batch/utilities/tools/trackman_query_tool.py:131-146 | the appends produce exactly the summary lines |
| QueryTool.BuildTableLines | code/backend/batch/utilities/tools/trackman_query_tool.py:149-161 | the loop over the rows produces exactly the table lines |
| QueryTool.FormatResult | code/backend/batch/utilities/tools/trackman_query_tool.py:120-163 | the rendered answer: the no-data message when there are no rows, otherwise the joined lines |
| QueryTool.QueryTrackman | code/backend/batch/utilities/tools/trackman_query_tool.py:35-118 | an invalid intent gives the invalid-intent message without touching the factory; facility_summary without an id gives its fixed message; otherwise the source is obtained (the cached one if any; on an empty cache, the backend `Resolve` picks, loaded from the configured directory or configured from the environment) and the answer is the rendered report or the error behind "Error executing Trackman query: " |
| Text.NatToStringRoundTrip | code/backend/batch/utilities/tools/trackman_query_tool.py:137 | the decimal text of a row count reads back as that count |
| Text.NumericText | code/backend/batch/utilities/helpers/trackman/excel_data_source.py:323-325 | `str` of a numeric metadata cell: an integer's decimal text, or a float's sign, integer part, point and at least one decimal |
| Text.DecimalText | code/backend/batch/utilities/helpers/trackman/excel_data_source.py:323-325 | the point stands before exactly `places` decimals, with digits on both sides |
| Text.DigitsRoundTrip | code/backend/batch/utilities/helpers/trackman/excel_data_source.py:323-325 | the decimals and the integer part of a magnitude recombine to it |
| Text.DecimalTextParts | code/backend/batch/utilities/helpers/trackman/excel_data_source.py:323-325 | the text before the point is the integer part, the text after it the decimals |
| Text.DecimalTextReadsBack | code/backend/batch/utilities/helpers/trackman/excel_data_source.py:323-325 | a float cell's text reads back as its value |
| Text.FixtureUsageHoursText | tests/test_trackman_integration.py:57 | the fixture's usage hours 245.5 and 180.0 print as "245.5" and "180.0" |
| Text.TitleOfReplaced | code/backend/batch/utilities/tools/trackman_query_tool.py:135 | title-casing after replacing underscores by spaces leaves no underscore |
| Text.LowerAscii | code/backend/batch/utilities/helpers/trackman/data_source_factory.py:35 | lower-casing maps each letter to its lower-case form and keeps the length |

## Left out

- File reading, pandas parsing and type coercion. A spreadsheet is already a list of typed rows. A timestamp that failed to parse is `None` and never passes the date filter. The per-file exception handler of `_load_data`, which skips an unreadable file, has no counterpart: the directory holds only readable files.
- The whole-load exception handler of `_load_data`, which resets to empty sheets, is not modelled. No step of the modelled load can fail.
- ExcelReports.GetConnectivitySummary: the connected percentage is an exact real. The `round(..., 2)` of the source is not applied.
- ExcelReports.GetDisconnectReasons: the reason percentages are exact reals, not rounded to two decimals.
- ExcelReports.GetDataQualitySummary: the two means are exact reals, not rounded to two decimals.
- ExcelReports.GetFacilitySummary: `connectivity_pct` and `avg_data_quality_score` are exact reals, not rounded to two decimals.
- ExcelReports.ErrorsSummaryCounts: `error_count` counts rows, and `unique_errors` counts distinct codes, taking every error code as present. pandas skips null codes in both. The model's error codes are never null.
- ExcelReports.GetTopErrorMessages: this is the intended ranking, which the rest of the model uses. The code as written raises on every non-empty scope (see Findings); `GetTopErrorMessagesAsWritten` models that.
- ExcelBackend.ExcelDataSource.GetTopErrorMessages: the method returns the corrected ranking of `ExcelReports.GetTopErrorMessages`. The code as written raises on every non-empty scope; `ExcelReports.GetTopErrorMessagesAsWritten` is that half (see Findings).
- DataSources.ExcelAnswer: top_error_messages is answered with the corrected report, so its success on spreadsheets holds for the intended code, not for the code as written.
- ExcelReports.TopErrorMessagesRanking: the order among groups with equal counts is stable (key order). pandas' `sort_values` does not promise any order for ties. The same holds for equal reason counts in `value_counts`, which the model keeps in first-seen order.
- The model does not distinguish between a metadata key that is absent and one that is set to `None`. `Metadata` fields are `Option`s, so both are `None`. The rendered "Time range" line therefore depends on whether the range is present.
- QueryTool.RealText: a real is rendered as its sign, the integer part of its magnitude and two truncated decimals. This is not Python's shortest `repr` of a float.
- Text.NumericText: a float cell is given by the shortest decimal Python prints for it. The conversion from a binary float to that decimal is not modelled, nor Python's exponent notation for magnitudes of at least 1e16 or below 1e-4. Whether a column holds integers or floats is part of the data, one cell at a time. pandas gives a whole column one type, so an integer and a float file merged give floats throughout.
- Text.LowerAscii: lower-casing covers ASCII letters only. Python's `str.lower` also covers other Unicode letters.
- QueryTool.InvalidIntentMessage: the message is defined as the intent followed by the joined intent list. No lemma re-derives its literal text.
- The SQL text of each query is an opaque template name with its placeholder count. What the warehouse computes from it (grouping, sums, `UNION ALL`) is outside the model. The database is an oracle parameter.
- The `if params:` branch of `_execute_query`, which executes without parameters, is not modelled. Every modelled query has at least one parameter.
- The `__init__` of the warehouse source logs after reading the configuration. `_get_connection` uses the configuration to connect. Connecting is part of the database oracle.
- `_get_date_filter` and `datetime.now()` are not modelled. The cutoff is computed from the `now` parameter.
- Logging everywhere, and the Answer object's fields other than the answer text (question, source documents, token counts).
- The catch-all `except` of `_format_result` in the query tool, with its JSON dump, is not modelled. Rendering cannot fail in the model.
- The catch-all `except` of `query_trackman` is modelled only for the errors a report returns as a `Failure`. The Excel KeyError on a missing sheet and the warehouse errors are such errors.
- Concurrency: the module-level singleton is a field of one factory object, and no thread can interleave.
- The backends differ for a facility without metadata. The spreadsheet backend returns an empty result. The warehouse backend runs both queries and returns whatever rows they give. Both behaviours are modelled as written.

## Findings

| source | as written | input that shows it | evidently intended | confidence | as-written member | corrected member |
|---|---|---|---|---|---|---|
| code/backend/batch/utilities/helpers/trackman/excel_data_source.py:208-212 | `groupby(["error_message", "error_code"]).agg({"error_code": "size", ...})` makes `error_code` both an index level and a column, so `reset_index()` raises `ValueError: cannot insert error_code, already exists`; the error is re-raised and the tool answers "Error executing Trackman query: cannot insert error_code, already exists" | one error event in range, e.g. message "Error message 1", code "E001", severity "critical" | one row per (message, code) group with its size as `count` and its first severity, ranked by count and cut by `head(limit)`, as the renaming at lines 213-218 and the test at code/tests/test_trackman_data_sources.py:129-137 expect | medium; not executed (rests on pandas' `reset_index` refusing duplicate column names) | ExcelReports.GetTopErrorMessagesAsWritten, ExcelReports.TopErrorMessagesAsWrittenRaises | ExcelReports.GetTopErrorMessages, ExcelReports.TopErrorMessagesRanking, ExcelReports.TopErrorMessagesKeepsLargest |
