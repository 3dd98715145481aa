/** The tabular result both backends return, and the request parameters
  * they share. */
module Tabular {
  import opened Wrappers

  /** A scalar cell: text, an integer count, an exact ratio or a database NULL. */
  datatype Value = VStr(s: string) | VInt(i: int) | VReal(r: real) | VNone

  /** The metadata dictionary of a result. A field is `None` when the key is
    * absent or holds Python's `None`. */
  datatype Metadata = Metadata(
    rangeDays: Option<int>,
    limit: Option<int>,
    facilityId: Option<string>,
    source: Option<string>,
    rowCount: Option<int>)

  /** `{"columns": [...], "rows": [[...], ...], "metadata": {...}}`. */
  datatype TabularResult = TabularResult(columns: seq<string>, rows: seq<seq<Value>>, metadata: Metadata)

  /** Every row has one cell per column. */
  predicate Aligned(r: TabularResult)
  {
    forall i :: 0 <= i < |r.rows| ==> |r.rows[i]| == |r.columns|
  }

  /** Aligned, and `rowCount` is the number of rows. */
  predicate WellFormed(r: TabularResult)
  {
    Aligned(r) && r.metadata.rowCount == Some(|r.rows|)
  }

  /** The request parameters a report records in its metadata. */
  function RequestMetadata(rangeDays: int, limit: Option<int>, facilityId: Option<string>): Metadata
  {
    Metadata(Some(rangeDays), limit, facilityId, None, None)
  }

  /** Python truthiness of an optional string: present and non-empty. */
  predicate Truthy(s: Option<string>)
  {
    s.Some? && s.value != ""
  }

  const SecondsPerDay: int := 86400

  /** `datetime.now() - timedelta(days=range_days)`, with times in seconds. */
  function Cutoff(now: int, rangeDays: int): int
  {
    now - rangeDays * SecondsPerDay
  }

  /** One call of the data-source interface: the six report methods and their arguments. */
  datatype ReportRequest =
    | ErrorsSummaryRequest(rangeDays: int, facilityId: Option<string>)
    | TopErrorMessagesRequest(rangeDays: int, limit: int, facilityId: Option<string>)
    | ConnectivitySummaryRequest(rangeDays: int, facilityId: Option<string>)
    | DisconnectReasonsRequest(rangeDays: int, facilityId: Option<string>)
    | FacilitySummaryRequest(facility: string, rangeDays: int)
    | DataQualitySummaryRequest(rangeDays: int, facilityId: Option<string>)
}
