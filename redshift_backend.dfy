/** The warehouse data source as an object: it holds its configuration and
  * a database oracle, checks table access before each query, and opens and
  * closes one connection per query. A ghost trace records these steps so
  * that the discipline can be stated and kept as an invariant. */
module RedshiftBackend {
  import opened Wrappers
  import opened Tabular
  import opened Env
  import opened RedshiftQueries
  import RedshiftConfig

  /** One observable step of the data source. */
  datatype Event = Validated(table: string) | Connected | Executed(query: Query, params: seq<Param>) | Closed

  /** `_execute_query`: nothing happens when the connection cannot be
    * opened; otherwise the statement runs and the connection is closed in
    * `finally`, whether the statement succeeded or not. */
  function Session(q: Query, params: seq<Param>, out: DbOutcome): (t: seq<Event>)
    ensures out.ConnectFailed? <==> t == []
  {
    if out.ConnectFailed? then [] else [Connected, Executed(q, params), Closed]
  }

  /** Every statement runs on a connection opened just before it and closed
    * just after it. */
  predicate Wrapped(t: seq<Event>)
  {
    forall i :: 0 <= i < |t| && t[i].Executed? ==> 0 < i < |t| - 1 && t[i - 1].Connected? && t[i + 1].Closed?
  }

  /** Every statement runs against a table whose access was checked earlier. */
  predicate ValidatedFirst(t: seq<Event>)
  {
    forall i :: 0 <= i < |t| && t[i].Executed? ==> Validated(t[i].query.table) in t[..i]
  }

  /** The number of connections opened and not yet closed. */
  function OpenConnections(t: seq<Event>): int
  {
    if t == [] then 0
    else OpenConnections(t[..|t| - 1]) + (if t[|t| - 1].Connected? then 1 else if t[|t| - 1].Closed? then -1 else 0)
  }

  /** The discipline of `_execute_query` over a whole history. */
  predicate Disciplined(t: seq<Event>)
  {
    Wrapped(t) && ValidatedFirst(t) && OpenConnections(t) == 0
  }

  lemma {:induction false} OpenConnectionsAppend(a: seq<Event>, b: seq<Event>)
    ensures OpenConnections(a + b) == OpenConnections(a) + OpenConnections(b)
    decreases |b|
  {
    if b == [] {
      assert a + b == a;
    } else {
      var b' := b[..|b| - 1];
      assert (a + b)[..|a + b| - 1] == a + b';
      OpenConnectionsAppend(a, b');
    }
  }

  lemma WrappedAppend(a: seq<Event>, b: seq<Event>)
    requires Wrapped(a) && Wrapped(b)
    ensures Wrapped(a + b)
  {
    var t := a + b;
    forall i | 0 <= i < |t| && t[i].Executed?
      ensures 0 < i < |t| - 1 && t[i - 1].Connected? && t[i + 1].Closed?
    {
      if i < |a| {
        assert t[i] == a[i];
        assert t[i - 1] == a[i - 1] && t[i + 1] == a[i + 1];
      } else {
        var k := i - |a|;
        assert t[i] == b[k];
        assert t[i - 1] == b[k - 1] && t[i + 1] == b[k + 1];
      }
    }
  }

  lemma ValidatedFirstAppend(a: seq<Event>, b: seq<Event>)
    requires ValidatedFirst(a) && ValidatedFirst(b)
    ensures ValidatedFirst(a + b)
  {
    var t := a + b;
    forall i | 0 <= i < |t| && t[i].Executed?
      ensures Validated(t[i].query.table) in t[..i]
    {
      if i < |a| {
        assert t[..i] == a[..i];
      } else {
        var k := i - |a|;
        assert t[i] == b[k];
        assert Validated(b[k].query.table) in b[..k];
        assert t[..i] == a + b[..k];
      }
    }
  }

  /** Histories that keep the discipline compose. */
  lemma DisciplinedAppend(a: seq<Event>, b: seq<Event>)
    requires Disciplined(a) && Disciplined(b)
    ensures Disciplined(a + b)
  {
    WrappedAppend(a, b);
    ValidatedFirstAppend(a, b);
    OpenConnectionsAppend(a, b);
  }

  /** The error of `_validate_table_access`. */
  function TableAccessError(table: string): string
  {
    "Table '" + table + "' is not in the allowlist"
  }

  /** The steps one report takes: the access check of its table, then its
    * query; the facility summary checks `facility_metadata`, queries it, and
    * only when that succeeded checks `errors` and queries it. */
  function ReportTrace(db: Database, schema: string, req: ReportRequest, now: int): (t: seq<Event>)
    ensures |t| >= 1 && t[0].Validated?
  {
    if req.FacilitySummaryRequest? then
      var mq := MetadataQuery(schema);
      var mp := MetadataParams(req.facility);
      var eq := FacilityErrorsQuery(schema);
      var ep := FacilityErrorParams(req.facility, Cutoff(now, req.rangeDays));
      [Validated("facility_metadata")] + Session(mq, mp, db(mq, mp))
        + (if db(mq, mp).Returned? then [Validated("errors")] + Session(eq, ep, db(eq, ep)) else [])
    else
      var q := ReportQuery(req, schema);
      var p := ReportParams(req, now);
      [Validated(ReportTable(req))] + Session(q, p, db(q, p))
  }

  /** One access check followed by the session of a query on that table. */
  lemma ValidatedSession(table: string, q: Query, params: seq<Param>, out: DbOutcome)
    requires q.table == table
    ensures Disciplined([Validated(table)] + Session(q, params, out))
  {
    var t := [Validated(table)] + Session(q, params, out);
    if !out.ConnectFailed? {
      assert t == [Validated(table), Connected, Executed(q, params), Closed];
      assert t[..2] == [Validated(table), Connected];
      assert t[..3] == [Validated(table), Connected, Executed(q, params)];
      assert t[..1] == [Validated(table)] && t[..1][..0] == [];
      assert OpenConnections(t[..1]) == 0;
      assert t[..2][..1] == t[..1];
      assert OpenConnections(t[..2]) == 1;
      assert t[..3][..2] == t[..2];
      assert OpenConnections(t[..3]) == 1;
    } else {
      assert t == [Validated(table)] && t[..0] == [];
    }
  }

  /** Every report checks the table of each query before running it, runs
    * each statement on its own connection and closes every connection it
    * opens. */
  lemma ReportTraceDisciplined(db: Database, schema: string, req: ReportRequest, now: int)
    ensures Disciplined(ReportTrace(db, schema, req, now))
  {
    var t := ReportTrace(db, schema, req, now);
    if req.FacilitySummaryRequest? {
      var mq := MetadataQuery(schema);
      var mp := MetadataParams(req.facility);
      var eq := FacilityErrorsQuery(schema);
      var ep := FacilityErrorParams(req.facility, Cutoff(now, req.rangeDays));
      var first := [Validated("facility_metadata")] + Session(mq, mp, db(mq, mp));
      ValidatedSession("facility_metadata", mq, mp, db(mq, mp));
      if db(mq, mp).Returned? {
        var second := [Validated("errors")] + Session(eq, ep, db(eq, ep));
        ValidatedSession("errors", eq, ep, db(eq, ep));
        DisciplinedAppend(first, second);
        assert t == first + second;
      } else {
        assert t == first;
      }
    } else {
      var q := ReportQuery(req, schema);
      ValidatedSession(ReportTable(req), q, ReportParams(req, now), db(q, ReportParams(req, now)));
    }
  }

  class RedshiftDataSource {
    const config: Config
    const db: Database
    /** The steps this object has taken. */
    ghost var trace: seq<Event>

    ghost predicate Valid()
      reads this
    {
      Disciplined(trace)
    }

    constructor(config: Config, db: Database)
      ensures this.config == config && this.db == db
      ensures trace == [] && Valid()
    {
      this.config := config;
      this.db := db;
      trace := [];
    }

    /** `RedshiftDataSource()`: reads the configuration from the environment
      * and raises when a required variable is missing. */
    static method Create(env: Environment, db: Database) returns (r: Result<RedshiftDataSource, string>)
      ensures r.Failure? <==> AnyRequiredMissing(env)
      ensures r.Failure? ==> r.error == MissingVariablesError
      ensures r.Success? ==> fresh(r.value) && r.value.config == ReadConfig(env).value
      ensures r.Success? ==> r.value.db == db && r.value.trace == [] && r.value.Valid()
    {
      var config := ReadConfig(env);
      if config.Failure? {
        return Failure(config.error);
      }
      var source := new RedshiftDataSource(config.value, db);
      r := Success(source);
    }

    /** `_validate_table_access`: refuses a table outside the allowlist. */
    method ValidateTableAccess(table: string) returns (err: Option<string>)
      modifies this
      ensures err.None? <==> RedshiftConfig.ValidateTable(table)
      ensures err.Some? ==> err.value == TableAccessError(table)
      ensures trace == old(trace) + (if err.None? then [Validated(table)] else [])
    {
      if !RedshiftConfig.ValidateTable(table) {
        return Some(TableAccessError(table));
      }
      trace := trace + [Validated(table)];
      err := None;
    }

    /** `_execute_query`: one connection per statement, closed afterwards. */
    method ExecuteQuery(q: Query, params: seq<Param>) returns (out: DbOutcome)
      modifies this
      ensures out == db(q, params)
      ensures trace == old(trace) + Session(q, params, out)
    {
      out := db(q, params);
      if out.ConnectFailed? {
        return;
      }
      trace := trace + [Connected];
      trace := trace + [Executed(q, params)];
      trace := trace + [Closed];
    }

    /** The five reports that run one query against one table. */
    method RunSingleQuery(req: ReportRequest, now: int) returns (r: Result<TabularResult, string>)
      requires Valid() && !req.FacilitySummaryRequest?
      modifies this
      ensures Valid()
      ensures r == Answer(db, config.schema, req, now)
      ensures trace == old(trace) + ReportTrace(db, config.schema, req, now)
    {
      ReportTablesAllowed(req, config.schema);
      var err := ValidateTableAccess(ReportTable(req));
      assert err.None?;
      var out := ExecuteQuery(ReportQuery(req, config.schema), ReportParams(req, now));
      if out.Returned? {
        r := Success(FormatResult(out.columns, out.rows, RequestMetadataOf(req)));
      } else {
        r := Failure(out.error);
      }
      assert trace == old(trace) + ReportTrace(db, config.schema, req, now);
      KeepsDiscipline(old(trace), req, now);
    }

    lemma KeepsDiscipline(before: seq<Event>, req: ReportRequest, now: int)
      requires Disciplined(before)
      ensures Disciplined(before + ReportTrace(db, config.schema, req, now))
    {
      ReportTraceDisciplined(db, config.schema, req, now);
      DisciplinedAppend(before, ReportTrace(db, config.schema, req, now));
    }

    method GetErrorsSummary(rangeDays: int, facilityId: Option<string>, now: int) returns (r: Result<TabularResult, string>)
      requires Valid()
      modifies this
      ensures Valid()
      ensures r == Answer(db, config.schema, ErrorsSummaryRequest(rangeDays, facilityId), now)
      ensures trace == old(trace) + ReportTrace(db, config.schema, ErrorsSummaryRequest(rangeDays, facilityId), now)
    {
      r := RunSingleQuery(ErrorsSummaryRequest(rangeDays, facilityId), now);
    }

    method GetTopErrorMessages(rangeDays: int, limit: int, facilityId: Option<string>, now: int) returns (r: Result<TabularResult, string>)
      requires Valid()
      modifies this
      ensures Valid()
      ensures r == Answer(db, config.schema, TopErrorMessagesRequest(rangeDays, limit, facilityId), now)
      ensures trace == old(trace) + ReportTrace(db, config.schema, TopErrorMessagesRequest(rangeDays, limit, facilityId), now)
    {
      r := RunSingleQuery(TopErrorMessagesRequest(rangeDays, limit, facilityId), now);
    }

    method GetConnectivitySummary(rangeDays: int, facilityId: Option<string>, now: int) returns (r: Result<TabularResult, string>)
      requires Valid()
      modifies this
      ensures Valid()
      ensures r == Answer(db, config.schema, ConnectivitySummaryRequest(rangeDays, facilityId), now)
      ensures trace == old(trace) + ReportTrace(db, config.schema, ConnectivitySummaryRequest(rangeDays, facilityId), now)
    {
      r := RunSingleQuery(ConnectivitySummaryRequest(rangeDays, facilityId), now);
    }

    method GetDisconnectReasons(rangeDays: int, facilityId: Option<string>, now: int) returns (r: Result<TabularResult, string>)
      requires Valid()
      modifies this
      ensures Valid()
      ensures r == Answer(db, config.schema, DisconnectReasonsRequest(rangeDays, facilityId), now)
      ensures trace == old(trace) + ReportTrace(db, config.schema, DisconnectReasonsRequest(rangeDays, facilityId), now)
    {
      r := RunSingleQuery(DisconnectReasonsRequest(rangeDays, facilityId), now);
    }

    method GetDataQualitySummary(rangeDays: int, facilityId: Option<string>, now: int) returns (r: Result<TabularResult, string>)
      requires Valid()
      modifies this
      ensures Valid()
      ensures r == Answer(db, config.schema, DataQualitySummaryRequest(rangeDays, facilityId), now)
      ensures trace == old(trace) + ReportTrace(db, config.schema, DataQualitySummaryRequest(rangeDays, facilityId), now)
    {
      r := RunSingleQuery(DataQualitySummaryRequest(rangeDays, facilityId), now);
    }

    /** `get_facility_summary`: the metadata query, then the error query,
      * whose rows extend the first result's rows. */
    method GetFacilitySummary(facilityId: string, rangeDays: int, now: int) returns (r: Result<TabularResult, string>)
      requires Valid()
      modifies this
      ensures Valid()
      ensures r == Answer(db, config.schema, FacilitySummaryRequest(facilityId, rangeDays), now)
      ensures trace == old(trace) + ReportTrace(db, config.schema, FacilitySummaryRequest(facilityId, rangeDays), now)
    {
      var req := FacilitySummaryRequest(facilityId, rangeDays);
      ReportTablesAllowed(req, config.schema);
      KeepsDiscipline(trace, req, now);
      var err := ValidateTableAccess("facility_metadata");
      assert err.None?;
      var result := ExecuteQuery(MetadataQuery(config.schema), MetadataParams(facilityId));
      ghost var first := [Validated("facility_metadata")] + Session(MetadataQuery(config.schema), MetadataParams(facilityId), result);
      assert trace == old(trace) + first;
      if !result.Returned? {
        assert ReportTrace(db, config.schema, req, now) == first;
        r := Failure(result.error);
        return;
      }
      var cutoff := Cutoff(now, rangeDays);
      err := ValidateTableAccess("errors");
      assert err.None?;
      var errorResult := ExecuteQuery(FacilityErrorsQuery(config.schema), FacilityErrorParams(facilityId, cutoff));
      ghost var second := [Validated("errors")] + Session(FacilityErrorsQuery(config.schema), FacilityErrorParams(facilityId, cutoff), errorResult);
      assert trace == old(trace) + first + second == old(trace) + (first + second);
      assert ReportTrace(db, config.schema, req, now) == first + second;
      if !errorResult.Returned? {
        r := Failure(errorResult.error);
        return;
      }
      var rows := result.rows + errorResult.rows;
      r := Success(FormatResult(result.columns, rows, RequestMetadata(rangeDays, None, Some(facilityId))));
    }
  }
}
