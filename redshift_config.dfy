/** The warehouse allowlist: the four tables that may be queried and the
  * columns each of them may expose. */
module RedshiftConfig {

  /** Table name to its permitted columns, in their configured order. */
  const AllowedTables: map<string, seq<string>> := map[
    "errors" := ["timestamp", "facility_id", "unit_id", "unit_model", "error_code", "severity", "error_message"],
    "connectivity" := ["timestamp", "facility_id", "unit_id", "connectivity_status", "disconnect_reason"],
    "facility_metadata" := ["facility_id", "location", "opening_hours", "subscription_status",
                            "units_deployed", "usage_hours_30d", "strokes_tracked", "tournaments_hosted"],
    "data_quality" := ["timestamp", "facility_id", "data_quality_score", "missing_records", "latency_ms"]
  ]

  /** `validate_table`: the table is one of the four allowlisted ones. */
  function ValidateTable(table: string): (ok: bool)
    ensures ok <==> table == "errors" || table == "connectivity" || table == "facility_metadata" || table == "data_quality"
  {
    table in AllowedTables
  }

  /** `validate_columns`: the table is allowlisted and the set of requested
    * columns is a subset of its permitted columns. */
  function ValidateColumns(table: string, columns: seq<string>): (ok: bool)
    ensures !ValidateTable(table) ==> !ok
    ensures ValidateTable(table) ==> (ok <==> forall c :: c in columns ==> c in AllowedTables[table])
  {
    if table !in AllowedTables then false
    else
      var requested, allowed := set c | c in columns, set c | c in AllowedTables[table];
      assert forall c :: c in requested <==> c in columns;
      requested <= allowed
  }

  /** `get_allowed_columns`: the configured list, or `[]` for an unknown table. */
  function GetAllowedColumns(table: string): (columns: seq<string>)
    ensures !ValidateTable(table) ==> columns == []
    ensures ValidateTable(table) ==> columns == AllowedTables[table]
  {
    if table in AllowedTables then AllowedTables[table] else []
  }

  /** An allowlisted table accepts the empty column request. */
  lemma EmptyColumnsAllowed(table: string)
    requires ValidateTable(table)
    ensures ValidateColumns(table, [])
  {
  }

  /** Only the set of requested columns matters: neither order nor repetition. */
  lemma ValidateColumnsIgnoresOrder(table: string, a: seq<string>, b: seq<string>)
    requires forall c :: c in a <==> c in b
    ensures ValidateColumns(table, a) == ValidateColumns(table, b)
  {
  }

  /** Every allowlisted table accepts a request for all of its own columns. */
  lemma AllowedColumnsValidate(table: string)
    requires ValidateTable(table)
    ensures ValidateColumns(table, GetAllowedColumns(table))
  {
  }

  /** A column outside the table's list is refused, whatever else is requested. */
  lemma UnknownColumnRefused(table: string, columns: seq<string>, c: string)
    requires c in columns && c !in GetAllowedColumns(table)
    ensures !ValidateColumns(table, columns)
  {
  }
}
