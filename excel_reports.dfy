/** The six reports of the spreadsheet backend, as functions of the merged
  * datasets, the request and the current time. */
module ExcelReports {
  import opened Wrappers
  import opened Collections
  import opened Tabular
  import opened Text
  import opened ExcelSheets
  import RedshiftConfig

  /** `_format_result`: an empty frame gives no columns and no rows; the
    * metadata gains `source = "excel"` and `rowCount`. */
  function FormatResult(columns: seq<string>, rows: seq<seq<Value>>, metadata: Metadata): (r: TabularResult)
    ensures |rows| == 0 ==> r.columns == [] && r.rows == []
    ensures |rows| > 0 ==> r.columns == columns && r.rows == rows
    ensures r.metadata == metadata.(source := Some("excel"), rowCount := Some(|rows|))
    ensures (forall i :: 0 <= i < |rows| ==> |rows[i]| == |columns|) ==> WellFormed(r)
  {
    if |rows| == 0 then TabularResult([], [], metadata.(source := Some("excel"), rowCount := Some(0)))
    else TabularResult(columns, rows, metadata.(source := Some("excel"), rowCount := Some(|rows|)))
  }

  // ---------------------------------------------------------------------
  // Rows in scope and grouping by facility

  /** The `errors` rows a report sees: on or after the cutoff, then restricted
    * to the requested facility when one is given. */
  function ErrorsInScope(data: Datasets, rangeDays: int, facilityId: Option<string>, now: int): (rows: seq<ErrorEvent>)
    ensures forall e :: e in rows <==>
      && e in Rows(data.errors)
      && OnOrAfter(e.timestamp, Cutoff(now, rangeDays))
      && (Truthy(facilityId) ==> e.facilityId == facilityId)
  {
    var dated := FilterByDateRange(data.errors, ErrorStamp, Cutoff(now, rangeDays));
    Rows(FilterByFacility(dated, ErrorFacility, facilityId))
  }

  /** The `connectivity` rows a report sees. */
  function ConnectivityInScope(data: Datasets, rangeDays: int, facilityId: Option<string>, now: int): (rows: seq<ConnectivityEvent>)
    ensures forall c :: c in rows <==>
      && c in Rows(data.connectivity)
      && OnOrAfter(c.timestamp, Cutoff(now, rangeDays))
      && (Truthy(facilityId) ==> c.facilityId == facilityId)
  {
    var dated := FilterByDateRange(data.connectivity, ConnectivityStamp, Cutoff(now, rangeDays));
    Rows(FilterByFacility(dated, ConnectivityFacility, facilityId))
  }

  /** The `data_quality` rows a report sees. */
  function QualityInScope(data: Datasets, rangeDays: int, facilityId: Option<string>, now: int): (rows: seq<QualitySample>)
    ensures forall q :: q in rows <==>
      && q in Rows(data.dataQuality)
      && OnOrAfter(q.timestamp, Cutoff(now, rangeDays))
      && (Truthy(facilityId) ==> q.facilityId == facilityId)
  {
    var dated := FilterByDateRange(data.dataQuality, QualityStamp, Cutoff(now, rangeDays));
    Rows(FilterByFacility(dated, QualityFacility, facilityId))
  }

  /** The errors in scope keep every copy of a row that passes both
    * filters and no copy of any other. */
  lemma ErrorsInScopeKeepsCopies(data: Datasets, rangeDays: int, facilityId: Option<string>, now: int)
    ensures var rows := ErrorsInScope(data, rangeDays, facilityId, now);
      forall e :: multiset(rows)[e] ==
        if InScope(e.timestamp, e.facilityId, rangeDays, facilityId, now) then multiset(Rows(data.errors))[e] else 0
  {
    ScopeKeepsCopies(data.errors, ErrorStamp, ErrorFacility, rangeDays, facilityId, now);
  }

  /** The same for the connectivity events. */
  lemma ConnectivityInScopeKeepsCopies(data: Datasets, rangeDays: int, facilityId: Option<string>, now: int)
    ensures var rows := ConnectivityInScope(data, rangeDays, facilityId, now);
      forall c :: multiset(rows)[c] ==
        if InScope(c.timestamp, c.facilityId, rangeDays, facilityId, now) then multiset(Rows(data.connectivity))[c] else 0
  {
    ScopeKeepsCopies(data.connectivity, ConnectivityStamp, ConnectivityFacility, rangeDays, facilityId, now);
  }

  /** The same for the quality samples. */
  lemma QualityInScopeKeepsCopies(data: Datasets, rangeDays: int, facilityId: Option<string>, now: int)
    ensures var rows := QualityInScope(data, rangeDays, facilityId, now);
      forall q :: multiset(rows)[q] ==
        if InScope(q.timestamp, q.facilityId, rangeDays, facilityId, now) then multiset(Rows(data.dataQuality))[q] else 0
  {
    ScopeKeepsCopies(data.dataQuality, QualityStamp, QualityFacility, rangeDays, facilityId, now);
  }

  /** A row's timestamp is in range and it belongs to the requested facility, if any. */
  predicate InScope(stamp: Option<int>, facility: Option<string>, rangeDays: int, facilityId: Option<string>, now: int)
  {
    OnOrAfter(stamp, Cutoff(now, rangeDays)) && (Truthy(facilityId) ==> facility == facilityId)
  }

  lemma ScopeKeepsCopies<R(!new)>(s: Sheet<R>, stamp: R -> Option<int>, facility: R -> Option<string>,
                                  rangeDays: int, facilityId: Option<string>, now: int)
    ensures var rows := Rows(FilterByFacility(FilterByDateRange(s, stamp, Cutoff(now, rangeDays)), facility, facilityId));
      forall x :: multiset(rows)[x] ==
        if InScope(stamp(x), facility(x), rangeDays, facilityId, now) then multiset(Rows(s))[x] else 0
  {
    if s.Table? {
      var dated := FilterByDateRange(s, stamp, Cutoff(now, rangeDays));
      FilterByDateRangeKeepsCopies(s, stamp, Cutoff(now, rangeDays));
      if Truthy(facilityId) {
        FilterByFacilityKeepsCopies(dated, facility, facilityId);
      }
    }
  }

  /** The non-null values of a key column, in row order. */
  function PresentKeys<R(!new)>(rows: seq<R>, key: R -> Option<string>): (keys: seq<string>)
    ensures forall k :: k in keys <==> exists x :: x in rows && key(x) == Some(k)
  {
    if |rows| == 0 then []
    else (if key(rows[0]).Some? then [key(rows[0]).value] else []) + PresentKeys(rows[1..], key)
  }

  /** The groups of a `groupby("facility_id")`: the distinct non-null ids in
    * ascending order. */
  function FacilityIds<R(!new)>(rows: seq<R>, facility: R -> Option<string>): (ids: seq<string>)
    ensures Distinct(ids) && StrictlySorted(ids, StrLt)
    ensures forall f :: f in ids <==> exists x :: x in rows && facility(x) == Some(f)
  {
    StrLtIsStrictTotalOrder();
    SortedKeysCorrect(PresentKeys(rows, facility), StrLt);
    SortedKeys(PresentKeys(rows, facility), StrLt)
  }

  /** The rows of one facility's group, in row order. */
  function GroupAt<R(!new)>(rows: seq<R>, facility: R -> Option<string>, f: string): (g: seq<R>)
    ensures |g| <= |rows|
    ensures forall x :: x in g <==> x in rows && facility(x) == Some(f)
  {
    if |rows| == 0 then []
    else (if facility(rows[0]) == Some(f) then [rows[0]] else []) + GroupAt(rows[1..], facility, f)
  }

  /** Filtering a group by `q` is filtering all rows by "in the group and `q`". */
  lemma {:induction false} GroupAtFilter<R(!new)>(rows: seq<R>, facility: R -> Option<string>, f: string,
                                                  q: R -> bool, pq: R -> bool)
    requires forall x :: pq(x) == (facility(x) == Some(f) && q(x))
    ensures Filter(GroupAt(rows, facility, f), q) == Filter(rows, pq)
  {
    if |rows| > 0 {
      GroupAtFilter(rows[1..], facility, f, q, pq);
      var head := if facility(rows[0]) == Some(f) then [rows[0]] else [];
      FilterAppend(head, GroupAt(rows[1..], facility, f), q);
      assert Filter(head, q) == if pq(rows[0]) then [rows[0]] else [] by {
        if facility(rows[0]) == Some(f) {
          assert head[1..] == [];
        }
      }
    }
  }

  /** Grouping the rows that satisfy `q` is filtering all rows by "`q` and in the group". */
  lemma {:induction false} GroupAtOfFilter<R(!new)>(rows: seq<R>, q: R -> bool, facility: R -> Option<string>, f: string,
                                                    pq: R -> bool)
    requires forall x :: pq(x) == (q(x) && facility(x) == Some(f))
    ensures GroupAt(Filter(rows, q), facility, f) == Filter(rows, pq)
  {
    if |rows| > 0 {
      GroupAtOfFilter(rows[1..], q, facility, f, pq);
      var head := if q(rows[0]) then [rows[0]] else [];
      var rest := Filter(rows[1..], q);
      assert Filter(rows, q) == head + rest;
      GroupAtAppend(head, rest, facility, f);
      if q(rows[0]) {
        assert head[1..] == [];
      }
    }
  }

  lemma {:induction false} GroupAtAppend<R(!new)>(a: seq<R>, b: seq<R>, facility: R -> Option<string>, f: string)
    ensures GroupAt(a + b, facility, f) == GroupAt(a, facility, f) + GroupAt(b, facility, f)
  {
    if |a| > 0 {
      assert (a + b)[1..] == a[1..] + b;
      GroupAtAppend(a[1..], b, facility, f);
    } else {
      assert a + b == b;
    }
  }

  /** The summed sizes of the groups named by `ids`. */
  function TotalGroupSize<R(!new)>(rows: seq<R>, key: R -> Option<string>, ids: seq<string>): nat
  {
    if |ids| == 0 then 0 else |GroupAt(rows, key, ids[0])| + TotalGroupSize(rows, key, ids[1..])
  }

  lemma {:induction false} TotalGroupSizeOfNoRows<R(!new)>(key: R -> Option<string>, ids: seq<string>)
    ensures TotalGroupSize([], key, ids) == 0
  {
    if |ids| > 0 {
      TotalGroupSizeOfNoRows(key, ids[1..]);
    }
  }

  /** The first row adds one to the total exactly when its key is one of `ids`. */
  lemma {:induction false} TotalGroupSizeStep<R(!new)>(rows: seq<R>, key: R -> Option<string>, ids: seq<string>)
    requires |rows| > 0 && Distinct(ids)
    ensures TotalGroupSize(rows, key, ids) ==
      TotalGroupSize(rows[1..], key, ids) + (if key(rows[0]).Some? && key(rows[0]).value in ids then 1 else 0)
  {
    if |ids| > 0 {
      assert Distinct(ids[1..]);
      TotalGroupSizeStep(rows, key, ids[1..]);
      assert ids[0] !in ids[1..];
      assert forall k :: k in ids <==> k == ids[0] || k in ids[1..] by {
        assert ids == [ids[0]] + ids[1..];
      }
    }
  }

  /** Groups over distinct keys that cover every keyed row partition the rows
    * with a key: their sizes add up to the number of such rows. */
  lemma {:induction false} GroupsPartition<R(!new)>(rows: seq<R>, key: R -> Option<string>, ids: seq<string>)
    requires Distinct(ids)
    requires forall x :: x in rows && key(x).Some? ==> key(x).value in ids
    ensures TotalGroupSize(rows, key, ids) == |PresentKeys(rows, key)|
  {
    if |rows| == 0 {
      TotalGroupSizeOfNoRows(key, ids);
    } else {
      assert forall x :: x in rows[1..] ==> x in rows;
      GroupsPartition(rows[1..], key, ids);
      TotalGroupSizeStep(rows, key, ids);
    }
  }

  /** `TotalGroupSize` is the sum of the group sizes listed in key order. */
  lemma {:induction false} TotalGroupSizeIsSum<R(!new)>(rows: seq<R>, key: R -> Option<string>, ids: seq<string>)
    ensures SumInt(seq(|ids|, i requires 0 <= i < |ids| => |GroupAt(rows, key, ids[i])|)) == TotalGroupSize(rows, key, ids)
  {
    var sizes := seq(|ids|, i requires 0 <= i < |ids| => |GroupAt(rows, key, ids[i])|);
    if |ids| > 0 {
      TotalGroupSizeIsSum(rows, key, ids[1..]);
      assert sizes[1..] == seq(|ids[1..]|, i requires 0 <= i < |ids[1..]| => |GroupAt(rows, key, ids[1..][i])|);
    }
  }

  /** The per-facility groups of a `groupby("facility_id")` cover every row
    * with a facility id exactly once. */
  lemma FacilityGroupsPartition<R(!new)>(rows: seq<R>, facility: R -> Option<string>)
    ensures var ids := FacilityIds(rows, facility);
      SumInt(seq(|ids|, i requires 0 <= i < |ids| => |GroupAt(rows, facility, ids[i])|)) == |PresentKeys(rows, facility)|
  {
    var ids := FacilityIds(rows, facility);
    TotalGroupSizeIsSum(rows, facility, ids);
    GroupsPartition(rows, facility, ids);
  }

  // ---------------------------------------------------------------------
  // errors_summary

  datatype FacilityErrors = FacilityErrors(facilityId: string, errorCount: nat, criticalCount: nat, uniqueErrors: nat)

  predicate IsCritical(e: ErrorEvent) { e.severity == "critical" }

  function Codes(rows: seq<ErrorEvent>): (codes: seq<string>)
    ensures |codes| == |rows|
  {
    seq(|rows|, i requires 0 <= i < |rows| => rows[i].errorCode)
  }

  /** One facility's aggregate: events, critical events, distinct error codes. */
  function ErrorStats(rows: seq<ErrorEvent>, f: string): FacilityErrors
  {
    var g := GroupAt(rows, ErrorFacility, f);
    FacilityErrors(f, |g|, |Filter(g, IsCritical)|, |Dedup(Codes(g))|)
  }

  function ErrorsSummaryStats(rows: seq<ErrorEvent>): seq<FacilityErrors>
  {
    var ids := FacilityIds(rows, ErrorFacility);
    seq(|ids|, i requires 0 <= i < |ids| => ErrorStats(rows, ids[i]))
  }

  const ErrorsSummaryColumns: seq<string> := ["facility_id", "error_count", "critical_count", "unique_errors"]

  function ErrorsRow(s: FacilityErrors): seq<Value>
  {
    [VStr(s.facilityId), VInt(s.errorCount), VInt(s.criticalCount), VInt(s.uniqueErrors)]
  }

  /** `get_errors_summary`. */
  function GetErrorsSummary(data: Datasets, rangeDays: int, facilityId: Option<string>, now: int): (r: TabularResult)
    ensures WellFormed(r)
    ensures r.metadata == Metadata(Some(rangeDays), None, facilityId, Some("excel"), Some(|r.rows|))
    ensures var stats := ErrorsSummaryStats(ErrorsInScope(data, rangeDays, facilityId, now));
      r.rows == seq(|stats|, i requires 0 <= i < |stats| => ErrorsRow(stats[i]))
    ensures |r.rows| > 0 ==> r.columns == ErrorsSummaryColumns
  {
    var rows := ErrorsInScope(data, rangeDays, facilityId, now);
    var metadata := RequestMetadata(rangeDays, None, facilityId);
    if |rows| == 0 then FormatResult([], [], metadata)
    else
      var stats := ErrorsSummaryStats(rows);
      FormatResult(ErrorsSummaryColumns, seq(|stats|, i requires 0 <= i < |stats| => ErrorsRow(stats[i])), metadata)
  }

  /** One facility's counts: its critical events are those of its events
    * with severity "critical", and it has at least one and at most as many
    * distinct error codes as events. */
  lemma ErrorStatsCounts(rows: seq<ErrorEvent>, f: string)
    requires exists e :: e in rows && e.facilityId == Some(f)
    ensures var s := ErrorStats(rows, f);
      && s.facilityId == f
      && s.errorCount == |GroupAt(rows, ErrorFacility, f)| > 0
      && s.criticalCount == |Filter(rows, (e: ErrorEvent) => e.facilityId == Some(f) && IsCritical(e))|
      && s.criticalCount <= s.errorCount
      && 1 <= s.uniqueErrors <= s.errorCount
  {
    var g := GroupAt(rows, ErrorFacility, f);
    var e :| e in rows && e.facilityId == Some(f);
    assert e in g;
    var codes := Codes(g);
    assert codes[0] in codes;
    assert codes[0] in Dedup(codes);
    GroupAtFilter(rows, ErrorFacility, f, IsCritical,
                  (e: ErrorEvent) => e.facilityId == Some(f) && IsCritical(e));
  }

  /** The summary has one row per distinct facility id in scope. */
  lemma ErrorsSummaryFacilities(rows: seq<ErrorEvent>, f: string)
    ensures var stats := ErrorsSummaryStats(rows);
      (exists i :: 0 <= i < |stats| && stats[i].facilityId == f) <==>
      (exists e :: e in rows && e.facilityId == Some(f))
  {
    var stats := ErrorsSummaryStats(rows);
    var ids := FacilityIds(rows, ErrorFacility);
    if exists e :: e in rows && e.facilityId == Some(f) {
      var e :| e in rows && e.facilityId == Some(f);
      assert ErrorFacility(e) == Some(f);
      var i :| 0 <= i < |ids| && ids[i] == f;
      assert stats[i].facilityId == f;
    }
    if exists i :: 0 <= i < |stats| && stats[i].facilityId == f {
      var i :| 0 <= i < |stats| && stats[i].facilityId == f;
      assert ids[i] in ids;
    }
  }

  /** The summary rows are in ascending facility id order. */
  lemma ErrorsSummaryOrdered(rows: seq<ErrorEvent>)
    ensures var stats := ErrorsSummaryStats(rows);
      forall i, j :: 0 <= i < j < |stats| ==> StrLt(stats[i].facilityId, stats[j].facilityId)
  {
    var ids := FacilityIds(rows, ErrorFacility);
    assert StrictlySorted(ids, StrLt);
  }

  /** Each summary row holds its facility's event, critical and distinct-code counts. */
  lemma ErrorsSummaryCounts(rows: seq<ErrorEvent>)
    ensures var stats := ErrorsSummaryStats(rows);
      forall i :: 0 <= i < |stats| ==>
        var s := stats[i];
        && s.errorCount == |GroupAt(rows, ErrorFacility, s.facilityId)| > 0
        && s.criticalCount == |Filter(rows, (e: ErrorEvent) => e.facilityId == Some(s.facilityId) && IsCritical(e))|
        && s.criticalCount <= s.errorCount
        && 1 <= s.uniqueErrors <= s.errorCount
  {
    var stats := ErrorsSummaryStats(rows);
    var ids := FacilityIds(rows, ErrorFacility);
    forall i | 0 <= i < |stats|
      ensures var s := stats[i];
        && s.errorCount == |GroupAt(rows, ErrorFacility, s.facilityId)| > 0
        && s.criticalCount == |Filter(rows, (e: ErrorEvent) => e.facilityId == Some(s.facilityId) && IsCritical(e))|
        && s.criticalCount <= s.errorCount
        && 1 <= s.uniqueErrors <= s.errorCount
    {
      assert ids[i] in ids;
      var x :| x in rows && ErrorFacility(x) == Some(ids[i]);
      ErrorStatsCounts(rows, ids[i]);
    }
  }

  /** The `error_count` column adds up to the number of events in scope that
    * carry a facility id. */
  lemma ErrorsSummaryTotal(rows: seq<ErrorEvent>)
    ensures var stats := ErrorsSummaryStats(rows);
      SumInt(seq(|stats|, i requires 0 <= i < |stats| => stats[i].errorCount as int)) == |PresentKeys(rows, ErrorFacility)|
  {
    var stats := ErrorsSummaryStats(rows);
    var ids := FacilityIds(rows, ErrorFacility);
    FacilityGroupsPartition(rows, ErrorFacility);
    assert seq(|stats|, i requires 0 <= i < |stats| => stats[i].errorCount as int)
        == seq(|ids|, i requires 0 <= i < |ids| => |GroupAt(rows, ErrorFacility, ids[i])|);
  }

  /** With a facility filter, every row of the summary is that facility's. */
  lemma ErrorsSummaryOnlyRequestedFacility(data: Datasets, rangeDays: int, facilityId: Option<string>, now: int)
    requires Truthy(facilityId)
    ensures var r := GetErrorsSummary(data, rangeDays, facilityId, now);
      |r.rows| <= 1 && forall i :: 0 <= i < |r.rows| ==> r.rows[i][0] == VStr(facilityId.value)
  {
    var rows := ErrorsInScope(data, rangeDays, facilityId, now);
    var ids := FacilityIds(rows, ErrorFacility);
    forall i | 0 <= i < |ids| ensures ids[i] == facilityId.value {
      var e :| e in rows && ErrorFacility(e) == Some(ids[i]);
    }
    DistinctConstant(ids, facilityId.value);
  }

  // ---------------------------------------------------------------------
  // top_error_messages

  /** One `(error_message, error_code)` group: its size and the severity of its first row. */
  datatype MessageGroup = MessageGroup(errorMessage: string, errorCode: string, count: nat, severity: string)

  function MessageKey(e: ErrorEvent): (string, string) { (e.errorMessage, e.errorCode) }

  function GroupCount(g: MessageGroup): int { g.count }

  /** The rows with one message key, in row order. */
  function MessageRows(rows: seq<ErrorEvent>, key: (string, string)): (g: seq<ErrorEvent>)
    ensures forall e :: e in g <==> e in rows && MessageKey(e) == key
  {
    Filter(rows, e => MessageKey(e) == key)
  }

  function GroupKey(g: MessageGroup): (string, string) { (g.errorMessage, g.errorCode) }

  /** One group per key, each with its size and its first row's severity. */
  function KeyGroups(rows: seq<ErrorEvent>, keys: seq<(string, string)>): (groups: seq<MessageGroup>)
    requires forall k :: k in keys ==> |MessageRows(rows, k)| > 0
    ensures |groups| == |keys|
    ensures forall i :: 0 <= i < |keys| ==> GroupKey(groups[i]) == keys[i]
    ensures forall g :: g in groups ==>
      var rs := MessageRows(rows, GroupKey(g));
      |rs| > 0 && g.count == |rs| && g.severity == rs[0].severity
  {
    seq(|keys|, i requires 0 <= i < |keys| =>
      var rs := MessageRows(rows, keys[i]);
      MessageGroup(keys[i].0, keys[i].1, |rs|, rs[0].severity))
  }

  /** The distinct `(error_message, error_code)` keys, ascending. */
  function MessageKeys(rows: seq<ErrorEvent>): (keys: seq<(string, string)>)
    ensures forall e :: e in rows ==> MessageKey(e) in keys
    ensures forall k :: k in keys ==> |MessageRows(rows, k)| > 0
    ensures StrictlySorted(keys, PairLt)
  {
    var raw := seq(|rows|, i requires 0 <= i < |rows| => MessageKey(rows[i]));
    PairLtIsStrictTotalOrder();
    SortedKeysCorrect(raw, PairLt);
    assert forall e :: e in rows ==> MessageKey(e) in raw by {
      forall e | e in rows ensures MessageKey(e) in raw {
        var k :| 0 <= k < |rows| && rows[k] == e;
        assert raw[k] == MessageKey(e);
      }
    }
    var keys := SortedKeys(raw, PairLt);
    assert forall k :: k in keys ==> rows[IndexOf(raw, k)] in MessageRows(rows, k);
    keys
  }

  /** The groups of `groupby(["error_message", "error_code"])`: one per key
    * that occurs, in ascending key order. */
  function MessageGroups(rows: seq<ErrorEvent>): (groups: seq<MessageGroup>)
    ensures forall g :: g in groups ==>
      var rs := MessageRows(rows, GroupKey(g));
      |rs| > 0 && g.count == |rs| && g.severity == rs[0].severity
    ensures forall e :: e in rows ==> exists g :: g in groups && GroupKey(g) == MessageKey(e)
    ensures forall i, j :: 0 <= i < j < |groups| ==> PairLt(GroupKey(groups[i]), GroupKey(groups[j]))
  {
    var keys := MessageKeys(rows);
    var groups := KeyGroups(rows, keys);
    forall e | e in rows ensures exists g :: g in groups && GroupKey(g) == MessageKey(e) {
      var i :| 0 <= i < |keys| && keys[i] == MessageKey(e);
      assert groups[i] in groups;
    }
    groups
  }

  /** Groups by count, largest first, cut by `head(limit)`. */
  function TopGroups(rows: seq<ErrorEvent>, limit: int): seq<MessageGroup>
  {
    Head(SortByCountDesc(MessageGroups(rows), GroupCount), limit)
  }

  const TopErrorColumns: seq<string> := ["error_message", "error_code", "count", "severity"]

  function MessageRow(g: MessageGroup): seq<Value>
  {
    [VStr(g.errorMessage), VStr(g.errorCode), VInt(g.count), VStr(g.severity)]
  }

  /** `get_top_error_messages` as intended: the in-scope errors grouped by
    * message and code, ranked by group size and cut by `head(limit)`. */
  function GetTopErrorMessages(data: Datasets, rangeDays: int, limit: int, facilityId: Option<string>, now: int): (r: TabularResult)
    ensures WellFormed(r)
    ensures r.metadata == Metadata(Some(rangeDays), Some(limit), facilityId, Some("excel"), Some(|r.rows|))
    ensures var top := TopGroups(ErrorsInScope(data, rangeDays, facilityId, now), limit);
      r.rows == seq(|top|, i requires 0 <= i < |top| => MessageRow(top[i]))
    ensures |r.rows| > 0 ==> r.columns == TopErrorColumns
  {
    var rows := ErrorsInScope(data, rangeDays, facilityId, now);
    var metadata := RequestMetadata(rangeDays, Some(limit), facilityId);
    if |rows| == 0 then FormatResult([], [], metadata)
    else
      var top := TopGroups(rows, limit);
      FormatResult(TopErrorColumns, seq(|top|, i requires 0 <= i < |top| => MessageRow(top[i])), metadata)
  }

  /** `min(limit, groups)` groups for a non-negative limit; counts never
    * increase down the list; each count is the size of its group and each severity is that of the
    * group's first row; a limit at least the number of groups keeps every
    * group. */
  lemma TopErrorMessagesRanking(rows: seq<ErrorEvent>, limit: int)
    ensures var top := TopGroups(rows, limit);
      && (limit >= 0 ==> |top| == Min(limit, |MessageGroups(rows)|))
      && NonIncreasing(top, GroupCount)
      && (forall g :: g in top ==>
            var rs := MessageRows(rows, GroupKey(g));
            |rs| > 0 && g.count == |rs| && g.severity == rs[0].severity)
      && (limit >= |MessageGroups(rows)| ==> multiset(top) == multiset(MessageGroups(rows)))
  {
    var groups := MessageGroups(rows);
    var ranked := SortByCountDesc(groups, GroupCount);
    SortByCountDescCorrect(groups, GroupCount);
    var top := Head(ranked, limit);
    assert |ranked| == |groups| by {
      assert |multiset(ranked)| == |multiset(groups)|;
    }
    forall i, j | 0 <= i < j < |top| ensures GroupCount(top[i]) >= GroupCount(top[j]) {
      assert top[i] == ranked[i] && top[j] == ranked[j];
    }
    forall g | g in top ensures g in groups {
      assert g in ranked;
      assert g in multiset(ranked);
    }
  }

  /** `head(limit)` after the sort: no group left out is larger than one kept. */
  lemma TopErrorMessagesKeepsLargest(rows: seq<ErrorEvent>, limit: int)
    ensures var top := TopGroups(rows, limit);
      forall g, t :: g in MessageGroups(rows) && g !in top && t in top ==> g.count <= t.count
  {
    var groups := MessageGroups(rows);
    var ranked := SortByCountDesc(groups, GroupCount);
    SortByCountDescCorrect(groups, GroupCount);
    PrefixKeepsLargest(ranked, TopGroups(rows, limit), GroupCount);
    forall g | g in groups ensures g in ranked {
      assert g in multiset(groups);
    }
  }

  /** The message `DataFrame.insert` raises when a column of that name exists. */
  const DuplicateErrorCodeMessage: string := "cannot insert error_code, already exists"

  /** `get_top_error_messages` as written: `agg` also produces an `error_code`
    * column while `error_code` is a group key, so `reset_index` raises before
    * the columns are renamed, on every non-empty in-scope frame. */
  function GetTopErrorMessagesAsWritten(data: Datasets, rangeDays: int, limit: int, facilityId: Option<string>, now: int): (r: Result<TabularResult, string>)
    ensures r.Failure? <==> |ErrorsInScope(data, rangeDays, facilityId, now)| > 0
    ensures r.Failure? ==> r.error == DuplicateErrorCodeMessage
    ensures r.Success? ==> r.value.rows == [] && r.value.metadata.rowCount == Some(0)
  {
    var rows := ErrorsInScope(data, rangeDays, facilityId, now);
    if |rows| == 0 then Success(FormatResult([], [], RequestMetadata(rangeDays, Some(limit), facilityId)))
    else Failure(DuplicateErrorCodeMessage)
  }

  /** A sheet holding one in-range event puts exactly that event in scope. */
  lemma OneErrorInScope(e: ErrorEvent, rangeDays: int, now: int)
    requires OnOrAfter(e.timestamp, Cutoff(now, rangeDays))
    ensures ErrorsInScope(Datasets(Table([e]), NoColumns, NoColumns, NoColumns), rangeDays, None, now) == [e]
  {
    var rows := ErrorsInScope(Datasets(Table([e]), NoColumns, NoColumns, NoColumns), rangeDays, None, now);
    ErrorsInScopeKeepsCopies(Datasets(Table([e]), NoColumns, NoColumns, NoColumns), rangeDays, None, now);
    assert multiset(rows)[e] == 1;
    ConstantMultiplicity(rows, e);
    assert rows[0] in rows;
  }

  /** One event forms one group of size one. */
  lemma OneMessageGroup(e: ErrorEvent)
    ensures MessageGroups([e]) == [MessageGroup(e.errorMessage, e.errorCode, 1, e.severity)]
  {
    var groups := MessageGroups([e]);
    assert MessageRows([e], MessageKey(e)) == [e];
    forall g | g in groups ensures g == MessageGroup(e.errorMessage, e.errorCode, 1, e.severity) {
      var rs := MessageRows([e], GroupKey(g));
      assert rs[0] in [e];
    }
    assert |groups| > 0 by {
      assert e in [e];
    }
    assert |groups| == 1 by {
      if |groups| > 1 {
        assert groups[0] in groups && groups[1] in groups;
        assert PairLt(GroupKey(groups[0]), GroupKey(groups[1]));
        PairLtIsStrictTotalOrder();
      }
    }
    assert groups[0] in groups;
  }

  /** One error event in range: the code as written raises, while the intended
    * report lists its group with a count of one. */
  lemma TopErrorMessagesAsWrittenRaises(now: int)
    ensures var e := ErrorEvent(Some(now), Some("FAC001"), "U001", "ModelA", "E001", "critical", "Error message 1");
      var data := Datasets(Table([e]), NoColumns, NoColumns, NoColumns);
      && GetTopErrorMessagesAsWritten(data, 30, 10, None, now) == Failure(DuplicateErrorCodeMessage)
      && GetTopErrorMessages(data, 30, 10, None, now).rows
           == [[VStr("Error message 1"), VStr("E001"), VInt(1), VStr("critical")]]
  {
    var e := ErrorEvent(Some(now), Some("FAC001"), "U001", "ModelA", "E001", "critical", "Error message 1");
    OneErrorInScope(e, 30, now);
    OneMessageGroup(e);
    var g := MessageGroup(e.errorMessage, e.errorCode, 1, e.severity);
    assert SortByCountDesc([g], GroupCount) == [g];
    assert TopGroups([e], 10) == [g];
  }

  // ---------------------------------------------------------------------
  // connectivity_summary

  /** `part / whole * 100` as an exact ratio (the report rounds it to two decimals). */
  function Percentage(part: int, whole: int): (p: real)
    requires whole > 0
    ensures 0 <= part <= whole ==> 0.0 <= p <= 100.0
    ensures part == whole ==> p == 100.0
  {
    part as real / whole as real * 100.0
  }

  datatype FacilityConnectivity = FacilityConnectivity(facilityId: string, totalEvents: nat, connectedCount: nat)

  predicate IsConnected(c: ConnectivityEvent) { c.connectivityStatus == "connected" }

  function ConnectivityStats(rows: seq<ConnectivityEvent>, f: string): FacilityConnectivity
  {
    var g := GroupAt(rows, ConnectivityFacility, f);
    FacilityConnectivity(f, |g|, |Filter(g, IsConnected)|)
  }

  /** Per facility in ascending id order: its events, and how many were "connected". */
  function ConnectivitySummaryStats(rows: seq<ConnectivityEvent>): (stats: seq<FacilityConnectivity>)
    ensures forall i :: 0 <= i < |stats| ==> 0 <= stats[i].connectedCount <= stats[i].totalEvents && stats[i].totalEvents > 0
  {
    var ids := FacilityIds(rows, ConnectivityFacility);
    assert forall i :: 0 <= i < |ids| ==> |GroupAt(rows, ConnectivityFacility, ids[i])| > 0 by {
      forall i | 0 <= i < |ids| ensures |GroupAt(rows, ConnectivityFacility, ids[i])| > 0 {
        var x :| x in rows && ConnectivityFacility(x) == Some(ids[i]);
        assert x in GroupAt(rows, ConnectivityFacility, ids[i]);
      }
    }
    seq(|ids|, i requires 0 <= i < |ids| => ConnectivityStats(rows, ids[i]))
  }

  const ConnectivityColumns: seq<string> := ["facility_id", "total_events", "connected_count", "connected_pct"]

  function ConnectivityRow(s: FacilityConnectivity): seq<Value>
    requires s.totalEvents > 0
  {
    [VStr(s.facilityId), VInt(s.totalEvents), VInt(s.connectedCount), VReal(Percentage(s.connectedCount, s.totalEvents))]
  }

  /** `get_connectivity_summary`. */
  function GetConnectivitySummary(data: Datasets, rangeDays: int, facilityId: Option<string>, now: int): (r: TabularResult)
    ensures WellFormed(r)
    ensures r.metadata == Metadata(Some(rangeDays), None, facilityId, Some("excel"), Some(|r.rows|))
    ensures var stats := ConnectivitySummaryStats(ConnectivityInScope(data, rangeDays, facilityId, now));
      r.rows == seq(|stats|, i requires 0 <= i < |stats| => ConnectivityRow(stats[i]))
    ensures |r.rows| > 0 ==> r.columns == ConnectivityColumns
  {
    var rows := ConnectivityInScope(data, rangeDays, facilityId, now);
    var metadata := RequestMetadata(rangeDays, None, facilityId);
    if |rows| == 0 then FormatResult([], [], metadata)
    else
      var stats := ConnectivitySummaryStats(rows);
      FormatResult(ConnectivityColumns, seq(|stats|, i requires 0 <= i < |stats| => ConnectivityRow(stats[i])), metadata)
  }

  /** One facility's `connected_count` counts its "connected" events. */
  lemma ConnectivityStatsCounts(rows: seq<ConnectivityEvent>, f: string)
    ensures ConnectivityStats(rows, f).connectedCount ==
      |Filter(rows, (c: ConnectivityEvent) => c.facilityId == Some(f) && IsConnected(c))|
  {
    GroupAtFilter(rows, ConnectivityFacility, f, IsConnected,
                  (c: ConnectivityEvent) => c.facilityId == Some(f) && IsConnected(c));
  }

  /** One row per facility in scope, in ascending id order; `total_events` is
    * the facility's group size, `connected_count` the "connected" events among
    * them, and `connected_pct` lies between 0 and 100. */
  lemma ConnectivitySummaryGroups(rows: seq<ConnectivityEvent>)
    ensures var stats := ConnectivitySummaryStats(rows);
      && (forall f :: (exists i :: 0 <= i < |stats| && stats[i].facilityId == f) <==>
                      (exists c :: c in rows && c.facilityId == Some(f)))
      && (forall i, j :: 0 <= i < j < |stats| ==> StrLt(stats[i].facilityId, stats[j].facilityId))
      && (forall i :: 0 <= i < |stats| ==>
            var s := stats[i];
            && s.totalEvents == |GroupAt(rows, ConnectivityFacility, s.facilityId)|
            && s.connectedCount == |Filter(rows, (c: ConnectivityEvent) => c.facilityId == Some(s.facilityId) && IsConnected(c))|
            && 0.0 <= Percentage(s.connectedCount, s.totalEvents) <= 100.0)
  {
    var stats := ConnectivitySummaryStats(rows);
    var ids := FacilityIds(rows, ConnectivityFacility);
    forall f | exists c :: c in rows && c.facilityId == Some(f)
      ensures exists i :: 0 <= i < |stats| && stats[i].facilityId == f
    {
      var c :| c in rows && c.facilityId == Some(f);
      assert ConnectivityFacility(c) == Some(f);
      var i :| 0 <= i < |ids| && ids[i] == f;
      assert stats[i].facilityId == f;
    }
    forall i | 0 <= i < |stats|
      ensures stats[i].connectedCount ==
        |Filter(rows, (c: ConnectivityEvent) => c.facilityId == Some(stats[i].facilityId) && IsConnected(c))|
    {
      ConnectivityStatsCounts(rows, ids[i]);
    }
  }

  /** The `total_events` column adds up to the number of events in scope that
    * carry a facility id. */
  lemma ConnectivitySummaryTotal(rows: seq<ConnectivityEvent>)
    ensures var stats := ConnectivitySummaryStats(rows);
      SumInt(seq(|stats|, i requires 0 <= i < |stats| => stats[i].totalEvents as int)) == |PresentKeys(rows, ConnectivityFacility)|
  {
    var stats := ConnectivitySummaryStats(rows);
    var ids := FacilityIds(rows, ConnectivityFacility);
    FacilityGroupsPartition(rows, ConnectivityFacility);
    assert seq(|stats|, i requires 0 <= i < |stats| => stats[i].totalEvents as int)
        == seq(|ids|, i requires 0 <= i < |ids| => |GroupAt(rows, ConnectivityFacility, ids[i])|);
  }

  // ---------------------------------------------------------------------
  // disconnect_reasons

  predicate IsDisconnected(c: ConnectivityEvent) { c.connectivityStatus == "disconnected" }

  function DisconnectReason(c: ConnectivityEvent): Option<string> { c.disconnectReason }

  datatype ReasonCount = ReasonCount(reason: string, count: nat)

  function ReasonCountOf(r: ReasonCount): int { r.count }

  function Disconnected(rows: seq<ConnectivityEvent>): seq<ConnectivityEvent>
  {
    Filter(rows, IsDisconnected)
  }

  /** The distinct non-null reasons, in first-seen order. */
  function Reasons(disconnected: seq<ConnectivityEvent>): (reasons: seq<string>)
    ensures Distinct(reasons)
    ensures |disconnected| == 0 ==> reasons == []
    ensures forall reason :: reason in reasons <==> exists c :: c in disconnected && c.disconnectReason == Some(reason)
  {
    var reasons := Dedup(PresentKeys(disconnected, DisconnectReason));
    assert forall reason :: reason in reasons <==> exists c :: c in disconnected && DisconnectReason(c) == Some(reason);
    reasons
  }

  lemma ReasonsOccur(disconnected: seq<ConnectivityEvent>)
    ensures forall i :: 0 <= i < |Reasons(disconnected)| ==>
      |GroupAt(disconnected, DisconnectReason, Reasons(disconnected)[i])| > 0
  {
    var reasons := Reasons(disconnected);
    forall i | 0 <= i < |reasons| ensures |GroupAt(disconnected, DisconnectReason, reasons[i])| > 0 {
      assert reasons[i] in reasons;
      var c :| c in disconnected && DisconnectReason(c) == Some(reasons[i]);
      assert c in GroupAt(disconnected, DisconnectReason, reasons[i]);
    }
  }

  /** `value_counts()` of the non-null reasons, in first-seen order before sorting. */
  function ReasonCounts(disconnected: seq<ConnectivityEvent>): (counts: seq<ReasonCount>)
    ensures forall x :: x in counts ==> x.count > 0
    ensures |disconnected| == 0 ==> counts == []
    ensures forall i :: 0 <= i < |counts| ==>
      counts[i].count == |GroupAt(disconnected, DisconnectReason, counts[i].reason)|
    ensures forall reason :: (exists i :: 0 <= i < |counts| && counts[i].reason == reason) <==>
      (exists c :: c in disconnected && c.disconnectReason == Some(reason))
    ensures Distinct(counts)
  {
    var reasons := Reasons(disconnected);
    ReasonsOccur(disconnected);
    TallyFacts(disconnected, reasons);
    Tally(disconnected, reasons)
  }

  lemma TallyFacts(disconnected: seq<ConnectivityEvent>, reasons: seq<string>)
    requires Distinct(reasons)
    requires forall i :: 0 <= i < |reasons| ==> |GroupAt(disconnected, DisconnectReason, reasons[i])| > 0
    ensures var counts := Tally(disconnected, reasons);
      && (forall x :: x in counts ==> x.count > 0)
      && (forall reason :: (exists i :: 0 <= i < |counts| && counts[i].reason == reason) <==> reason in reasons)
      && Distinct(counts)
  {
    var counts := Tally(disconnected, reasons);
    forall reason | reason in reasons ensures exists i :: 0 <= i < |counts| && counts[i].reason == reason {
      var i :| 0 <= i < |reasons| && reasons[i] == reason;
      assert counts[i].reason == reason;
    }
    forall x | x in counts ensures x.count > 0 {
      var i :| 0 <= i < |counts| && counts[i] == x;
    }
    forall i, j | 0 <= i < j < |counts| ensures counts[i] != counts[j] {
      assert counts[i].reason == reasons[i] != reasons[j] == counts[j].reason;
    }
  }

  /** One count per reason, in the reasons' order. */
  function Tally(disconnected: seq<ConnectivityEvent>, reasons: seq<string>): (counts: seq<ReasonCount>)
    ensures |counts| == |reasons|
    ensures forall i :: 0 <= i < |counts| ==> counts[i].reason == reasons[i]
    ensures forall i :: 0 <= i < |counts| ==>
      counts[i].count == |GroupAt(disconnected, DisconnectReason, reasons[i])|
  {
    seq(|reasons|, i requires 0 <= i < |reasons| =>
      ReasonCount(reasons[i], |GroupAt(disconnected, DisconnectReason, reasons[i])|))
  }

  /** Positive counts sorted by count, largest first. */
  function Rank(counts: seq<ReasonCount>): (ranked: seq<ReasonCount>)
    requires forall x :: x in counts ==> x.count > 0
    ensures multiset(ranked) == multiset(counts)
    ensures NonIncreasing(ranked, ReasonCountOf)
    ensures forall i :: 0 <= i < |ranked| ==> ranked[i] in counts && ranked[i].count > 0
    ensures |counts| == 0 ==> ranked == []
  {
    SortByCountDescCorrect(counts, ReasonCountOf);
    var ranked := SortByCountDesc(counts, ReasonCountOf);
    SameMultisetSameElements(ranked, counts);
    assert forall i :: 0 <= i < |ranked| ==> ranked[i] in ranked;
    ranked
  }

  /** The reason counts sorted by count, largest first. */
  function RankedReasons(rows: seq<ConnectivityEvent>): (ranked: seq<ReasonCount>)
    ensures multiset(ranked) == multiset(ReasonCounts(Disconnected(rows)))
    ensures NonIncreasing(ranked, ReasonCountOf)
    ensures forall i :: 0 <= i < |ranked| ==> ranked[i] in ReasonCounts(Disconnected(rows)) && ranked[i].count > 0
    ensures |Disconnected(rows)| == 0 ==> ranked == []
  {
    Rank(ReasonCounts(Disconnected(rows)))
  }

  function CountsOf(ranked: seq<ReasonCount>): seq<int>
  {
    seq(|ranked|, i requires 0 <= i < |ranked| => ranked[i].count as int)
  }

  const DisconnectColumns: seq<string> := ["disconnect_reason", "count", "percentage"]

  function ReasonRow(r: ReasonCount, total: int): seq<Value>
    requires total > 0
  {
    [VStr(r.reason), VInt(r.count), VReal(Percentage(r.count, total))]
  }

  /** Each reason's share of the summed counts, in percent. */
  function ReasonPercentages(ranked: seq<ReasonCount>): (pcts: seq<real>)
    requires forall i :: 0 <= i < |ranked| ==> ranked[i].count > 0
    ensures |pcts| == |ranked|
  {
    if |ranked| == 0 then []
    else
      var total := SumInt(CountsOf(ranked));
      PositiveSum(CountsOf(ranked));
      seq(|ranked|, i requires 0 <= i < |ranked| => Percentage(ranked[i].count, total))
  }

  /** The rows of the reasons table: reason, count and percentage. */
  function ReasonRows(ranked: seq<ReasonCount>): (rows: seq<seq<Value>>)
    requires forall i :: 0 <= i < |ranked| ==> ranked[i].count > 0
    ensures |rows| == |ranked|
  {
    var pcts := ReasonPercentages(ranked);
    seq(|ranked|, i requires 0 <= i < |ranked| => [VStr(ranked[i].reason), VInt(ranked[i].count), VReal(pcts[i])])
  }

  /** Percentages of a positive total add up to the percentage of the sum. */
  lemma {:induction false} SumOfPercentages(counts: seq<int>, total: int)
    requires total > 0
    ensures SumReal(seq(|counts|, i requires 0 <= i < |counts| => Percentage(counts[i], total)))
         == Percentage(SumInt(counts), total)
  {
    var pcts := seq(|counts|, i requires 0 <= i < |counts| => Percentage(counts[i], total));
    if |counts| > 0 {
      SumOfPercentages(counts[1..], total);
      assert pcts[1..] == seq(|counts[1..]|, i requires 0 <= i < |counts[1..]| => Percentage(counts[1..][i], total));
      DivideSum(counts[0] as real, SumInt(counts[1..]) as real, total as real);
    }
  }

  lemma DivideSum(a: real, b: real, t: real)
    requires t > 0.0
    ensures (a + b) / t * 100.0 == a / t * 100.0 + b / t * 100.0
  {
    var qa, qb := a / t, b / t;
    assert qa * t == a && qb * t == b;
    assert (qa + qb) * t == a + b;
  }

  /** Each row counts the disconnected events in scope with its reason. */
  lemma DisconnectReasonCounts(rows: seq<ConnectivityEvent>)
    ensures forall x :: x in RankedReasons(rows) ==>
      x.count == |Filter(rows, (c: ConnectivityEvent) => IsDisconnected(c) && c.disconnectReason == Some(x.reason))|
  {
    var ranked := RankedReasons(rows);
    var counts := ReasonCounts(Disconnected(rows));
    forall x | x in ranked
      ensures x.count == |Filter(rows, (c: ConnectivityEvent) => IsDisconnected(c) && c.disconnectReason == Some(x.reason))|
    {
      assert x in multiset(ranked);
      assert x in counts;
      var i :| 0 <= i < |counts| && counts[i] == x;
      GroupAtOfFilter(rows, IsDisconnected, DisconnectReason, x.reason,
                      (c: ConnectivityEvent) => IsDisconnected(c) && c.disconnectReason == Some(x.reason));
    }
  }

  /** There is a row for a reason exactly when some disconnected event in
    * scope gives that reason. */
  lemma DisconnectReasonsCovered(rows: seq<ConnectivityEvent>, reason: string)
    ensures (exists x :: x in RankedReasons(rows) && x.reason == reason) <==>
            (exists c :: c in rows && IsDisconnected(c) && c.disconnectReason == Some(reason))
  {
    if exists c :: c in rows && IsDisconnected(c) && c.disconnectReason == Some(reason) {
      var c :| c in rows && IsDisconnected(c) && c.disconnectReason == Some(reason);
      RankedReasonComplete(rows, c, reason);
    }
    if exists x :: x in RankedReasons(rows) && x.reason == reason {
      var x :| x in RankedReasons(rows) && x.reason == reason;
      RankedReasonSound(rows, x);
    }
  }

  lemma RankedReasonComplete(rows: seq<ConnectivityEvent>, c: ConnectivityEvent, reason: string)
    requires c in rows && IsDisconnected(c) && c.disconnectReason == Some(reason)
    ensures exists x :: x in RankedReasons(rows) && x.reason == reason
  {
    var counts := ReasonCounts(Disconnected(rows));
    assert c in Disconnected(rows);
    var i :| 0 <= i < |counts| && counts[i].reason == reason;
    assert counts[i] in multiset(counts);
    assert counts[i] in multiset(RankedReasons(rows));
  }

  lemma RankedReasonSound(rows: seq<ConnectivityEvent>, x: ReasonCount)
    requires x in RankedReasons(rows)
    ensures exists c :: c in rows && IsDisconnected(c) && c.disconnectReason == Some(x.reason)
  {
    var counts := ReasonCounts(Disconnected(rows));
    var i :| 0 <= i < |counts| && counts[i] == x;
    var c :| c in Disconnected(rows) && c.disconnectReason == Some(x.reason);
  }

  /** The percentages of a non-empty reasons table add up to 100. */
  lemma DisconnectPercentagesSum(ranked: seq<ReasonCount>)
    requires |ranked| > 0
    requires forall i :: 0 <= i < |ranked| ==> ranked[i].count > 0
    ensures SumReal(ReasonPercentages(ranked)) == 100.0
  {
    var counts := CountsOf(ranked);
    var total := SumInt(counts);
    PositiveSum(counts);
    SumOfPercentages(counts, total);
    assert ReasonPercentages(ranked)
        == seq(|counts|, i requires 0 <= i < |counts| => Percentage(counts[i], total));
  }

  lemma {:induction false} PositiveSum(s: seq<int>)
    requires |s| > 0 && forall i :: 0 <= i < |s| ==> s[i] > 0
    ensures SumInt(s) > 0
  {
    if |s| > 1 {
      PositiveSum(s[1..]);
    } else {
      assert s[1..] == [];
    }
  }

  /** `get_disconnect_reasons`. */
  function GetDisconnectReasons(data: Datasets, rangeDays: int, facilityId: Option<string>, now: int): (r: TabularResult)
    ensures WellFormed(r)
    ensures r.metadata == Metadata(Some(rangeDays), None, facilityId, Some("excel"), Some(|r.rows|))
    ensures |Disconnected(ConnectivityInScope(data, rangeDays, facilityId, now))| == 0 ==> r.rows == []
    ensures var ranked := RankedReasons(ConnectivityInScope(data, rangeDays, facilityId, now));
      (forall i :: 0 <= i < |ranked| ==> ranked[i].count > 0) && r.rows == ReasonRows(ranked)
    ensures |r.rows| > 0 ==> r.columns == DisconnectColumns
  {
    var rows := ConnectivityInScope(data, rangeDays, facilityId, now);
    var metadata := RequestMetadata(rangeDays, None, facilityId);
    var ranked := RankedReasons(rows);
    if |Disconnected(rows)| == 0 then FormatResult([], [], metadata)
    else FormatResult(DisconnectColumns, ReasonRows(ranked), metadata)
  }

  // ---------------------------------------------------------------------
  // data_quality_summary

  /** The smallest and largest of a non-empty sequence of reals. */
  function MinOf(s: seq<real>): (m: real)
    requires |s| > 0
    ensures forall i :: 0 <= i < |s| ==> m <= s[i]
    ensures m in s
  {
    if |s| == 1 then s[0] else var rest := MinOf(s[1..]); if s[0] <= rest then s[0] else rest
  }

  function MaxOf(s: seq<real>): (m: real)
    requires |s| > 0
    ensures forall i :: 0 <= i < |s| ==> s[i] <= m
    ensures m in s
  {
    if |s| == 1 then s[0] else var rest := MaxOf(s[1..]); if s[0] >= rest then s[0] else rest
  }

  /** The arithmetic mean (`Series.mean()` over values with no nulls); it lies
    * between the smallest and the largest value. */
  function Mean(s: seq<real>): (m: real)
    requires |s| > 0
    ensures MinOf(s) <= m <= MaxOf(s)
  {
    var lo, hi, sum, n := MinOf(s), MaxOf(s), SumReal(s), |s| as real;
    SumRealBounds(s, lo, hi);
    QuotientBetween(sum, n, lo, hi);
    sum / n
  }

  lemma {:induction false} SumRealBounds(s: seq<real>, lo: real, hi: real)
    requires forall i :: 0 <= i < |s| ==> lo <= s[i] <= hi
    ensures |s| as real * lo <= SumReal(s) <= |s| as real * hi
  {
    if |s| > 0 {
      SumRealBounds(s[1..], lo, hi);
    }
  }

  lemma QuotientBetween(sum: real, n: real, lo: real, hi: real)
    requires n > 0.0 && n * lo <= sum <= n * hi
    ensures lo <= sum / n <= hi
  {
    var m := sum / n;
    assert m * n == sum;
    assert (m - lo) * n == sum - n * lo;
    assert (hi - m) * n == n * hi - sum;
  }

  datatype FacilityQuality = FacilityQuality(facilityId: string, scores: seq<real>, missingRecords: int, latencies: seq<real>)

  function Scores(g: seq<QualitySample>): (r: seq<real>)
    ensures |r| == |g|
  {
    seq(|g|, i requires 0 <= i < |g| => g[i].dataQualityScore)
  }

  function Latencies(g: seq<QualitySample>): (r: seq<real>)
    ensures |r| == |g|
  {
    seq(|g|, i requires 0 <= i < |g| => g[i].latencyMs)
  }

  function MissingRecords(g: seq<QualitySample>): (r: seq<int>)
    ensures |r| == |g|
  {
    seq(|g|, i requires 0 <= i < |g| => g[i].missingRecords)
  }

  function QualityStats(rows: seq<QualitySample>, f: string): FacilityQuality
  {
    var g := GroupAt(rows, QualityFacility, f);
    FacilityQuality(f, Scores(g), SumInt(MissingRecords(g)), Latencies(g))
  }

  /** Per facility in ascending id order: its scores, latencies and summed missing records. */
  function QualitySummaryStats(rows: seq<QualitySample>): (stats: seq<FacilityQuality>)
    ensures forall i :: 0 <= i < |stats| ==> |stats[i].scores| > 0 && |stats[i].latencies| > 0
  {
    var ids := FacilityIds(rows, QualityFacility);
    assert forall i :: 0 <= i < |ids| ==> |GroupAt(rows, QualityFacility, ids[i])| > 0 by {
      forall i | 0 <= i < |ids| ensures |GroupAt(rows, QualityFacility, ids[i])| > 0 {
        var x :| x in rows && QualityFacility(x) == Some(ids[i]);
        assert x in GroupAt(rows, QualityFacility, ids[i]);
      }
    }
    seq(|ids|, i requires 0 <= i < |ids| => QualityStats(rows, ids[i]))
  }

  const QualityColumns: seq<string> := ["facility_id", "avg_quality_score", "total_missing_records", "avg_latency_ms"]

  function QualityRow(s: FacilityQuality): seq<Value>
    requires |s.scores| > 0 && |s.latencies| > 0
  {
    [VStr(s.facilityId), VReal(Mean(s.scores)), VInt(s.missingRecords), VReal(Mean(s.latencies))]
  }

  /** `get_data_quality_summary`. */
  function GetDataQualitySummary(data: Datasets, rangeDays: int, facilityId: Option<string>, now: int): (r: TabularResult)
    ensures WellFormed(r)
    ensures r.metadata == Metadata(Some(rangeDays), None, facilityId, Some("excel"), Some(|r.rows|))
    ensures var stats := QualitySummaryStats(QualityInScope(data, rangeDays, facilityId, now));
      r.rows == seq(|stats|, i requires 0 <= i < |stats| => QualityRow(stats[i]))
    ensures |r.rows| > 0 ==> r.columns == QualityColumns
  {
    var rows := QualityInScope(data, rangeDays, facilityId, now);
    var metadata := RequestMetadata(rangeDays, None, facilityId);
    if |rows| == 0 then FormatResult([], [], metadata)
    else
      var stats := QualitySummaryStats(rows);
      FormatResult(QualityColumns, seq(|stats|, i requires 0 <= i < |stats| => QualityRow(stats[i])), metadata)
  }

  /** One row per facility in scope, in ascending id order; its averages are
    * taken over exactly that facility's samples and lie between their
    * smallest and largest value. */
  lemma QualitySummaryFacilities(rows: seq<QualitySample>, f: string)
    ensures var stats := QualitySummaryStats(rows);
      (exists i :: 0 <= i < |stats| && stats[i].facilityId == f) <==>
      (exists q :: q in rows && q.facilityId == Some(f))
  {
    var stats := QualitySummaryStats(rows);
    var ids := FacilityIds(rows, QualityFacility);
    if exists q :: q in rows && q.facilityId == Some(f) {
      var q :| q in rows && q.facilityId == Some(f);
      assert QualityFacility(q) == Some(f);
      var i :| 0 <= i < |ids| && ids[i] == f;
      assert stats[i].facilityId == f;
    }
    if exists i :: 0 <= i < |stats| && stats[i].facilityId == f {
      var i :| 0 <= i < |stats| && stats[i].facilityId == f;
      assert ids[i] in ids;
    }
  }

  /** The quality rows are in ascending facility id order. */
  lemma QualitySummaryOrdered(rows: seq<QualitySample>)
    ensures var stats := QualitySummaryStats(rows);
      forall i, j :: 0 <= i < j < |stats| ==> StrLt(stats[i].facilityId, stats[j].facilityId)
  {
    var ids := FacilityIds(rows, QualityFacility);
    assert StrictlySorted(ids, StrLt);
  }

  /** Each quality row holds its facility's scores, latencies and summed
    * missing records; both averages lie between the group's extremes. */
  lemma QualitySummaryValues(rows: seq<QualitySample>)
    ensures var stats := QualitySummaryStats(rows);
      forall i :: 0 <= i < |stats| ==>
        var s := stats[i];
        var g := GroupAt(rows, QualityFacility, s.facilityId);
        && s.scores == Scores(g) && s.latencies == Latencies(g)
        && s.missingRecords == SumInt(MissingRecords(g))
        && MinOf(s.scores) <= Mean(s.scores) <= MaxOf(s.scores)
        && MinOf(s.latencies) <= Mean(s.latencies) <= MaxOf(s.latencies)
  {
  }

  // ---------------------------------------------------------------------
  // facility_summary

  /** The text of `KeyError('facility_id')`, raised when a sheet was never loaded. */
  const MissingFacilityColumn: string := "'facility_id'"

  function MetadataFacility(m: FacilityMetadata): Option<string> { m.facilityId }

  /** The metadata sheet's columns with `str()` of one row's values, in sheet order. */
  function MetadataFields(m: FacilityMetadata): seq<(string, string)>
  {
    [ ("facility_id", if m.facilityId.Some? then m.facilityId.value else "nan"),
      ("location", m.location),
      ("opening_hours", m.openingHours),
      ("subscription_status", m.subscriptionStatus),
      ("units_deployed", NumericText(m.unitsDeployed)),
      ("usage_hours_30d", NumericText(m.usageHours30d)),
      ("strokes_tracked", NumericText(m.strokesTracked)),
      ("tournaments_hosted", NumericText(m.tournamentsHosted)) ]
  }

  /** The column names of `MetadataFields`, in order. */
  function FieldNames(fields: seq<(string, string)>): (names: seq<string>)
    ensures |names| == |fields|
  {
    seq(|fields|, i requires 0 <= i < |fields| => fields[i].0)
  }

  /** One `[column, str(value)]` metric per field other than `facility_id`. */
  function MetadataMetrics(fields: seq<(string, string)>): (metrics: seq<seq<Value>>)
    ensures |metrics| <= |fields|
    ensures forall i :: 0 <= i < |metrics| ==> |metrics[i]| == 2
  {
    if |fields| == 0 then []
    else
      var init := MetadataMetrics(fields[..|fields| - 1]);
      var last := fields[|fields| - 1];
      if last.0 == "facility_id" then init else init + [[VStr(last.0), VStr(last.1)]]
  }

  /** The rows of one sheet within the range that belong to one facility;
    * `None` stands for the KeyError of a sheet that was never loaded. */
  function FacilityRowsInRange<R(!new)>(s: Sheet<R>, stamp: R -> Option<int>, facility: R -> Option<string>,
                                        f: string, cutoff: int): (g: Option<seq<R>>)
    ensures g.None? <==> s.NoColumns?
    ensures g.Some? ==> forall x :: x in g.value <==> x in Rows(s) && OnOrAfter(stamp(x), cutoff) && facility(x) == Some(f)
  {
    match FilterByDateRange(s, stamp, cutoff)
    case NoColumns => None
    case Table(rows) => Some(GroupAt(rows, facility, f))
  }

  function ErrorMetrics(errors: seq<ErrorEvent>): seq<seq<Value>>
  {
    if |errors| == 0 then []
    else [[VStr("errors_total"), VInt(|errors|)], [VStr("errors_critical"), VInt(|Filter(errors, IsCritical)|)]]
  }

  function ConnectivityMetrics(events: seq<ConnectivityEvent>): seq<seq<Value>>
  {
    if |events| == 0 then []
    else [[VStr("connectivity_pct"), VReal(Percentage(|Filter(events, IsConnected)|, |events|))]]
  }

  function QualityMetrics(samples: seq<QualitySample>): seq<seq<Value>>
  {
    if |samples| == 0 then []
    else [[VStr("avg_data_quality_score"), VReal(Mean(Scores(samples)))]]
  }

  /** The `metrics` list, in the order it is appended to. */
  function FacilityMetrics(m: FacilityMetadata, errors: seq<ErrorEvent>, events: seq<ConnectivityEvent>,
                           samples: seq<QualitySample>): (metrics: seq<seq<Value>>)
    ensures forall i :: 0 <= i < |metrics| ==> |metrics[i]| == 2
  {
    var a := MetadataMetrics(MetadataFields(m));
    var b := ErrorMetrics(errors);
    var c := ConnectivityMetrics(events);
    var d := QualityMetrics(samples);
    assert forall i :: 0 <= i < |b| ==> |b[i]| == 2;
    assert forall i :: 0 <= i < |c| ==> |c[i]| == 2;
    assert forall i :: 0 <= i < |d| ==> |d[i]| == 2;
    a + b + c + d
  }

  const MetricColumns: seq<string> := ["metric", "value"]

  /** `get_facility_summary`: the facility's first metadata row as metrics,
    * then error, connectivity and quality metrics where that facility has
    * rows in range. */
  function GetFacilitySummary(data: Datasets, facilityId: string, rangeDays: int, now: int): (r: Result<TabularResult, string>)
    ensures r.Failure? ==> r.error == MissingFacilityColumn
    ensures r.Success? ==> WellFormed(r.value)
    ensures r.Success? ==>
      r.value.metadata == Metadata(Some(rangeDays), None, Some(facilityId), Some("excel"), Some(|r.value.rows|))
  {
    var cutoff := Cutoff(now, rangeDays);
    var metadata := RequestMetadata(rangeDays, None, Some(facilityId));
    match data.facilityMetadata
    case NoColumns => Failure(MissingFacilityColumn)
    case Table(metaRows) =>
      var matching := GroupAt(metaRows, MetadataFacility, facilityId);
      if |matching| == 0 then Success(FormatResult([], [], metadata))
      else
        var errors := FacilityRowsInRange(data.errors, ErrorStamp, ErrorFacility, facilityId, cutoff);
        var events := FacilityRowsInRange(data.connectivity, ConnectivityStamp, ConnectivityFacility, facilityId, cutoff);
        var samples := FacilityRowsInRange(data.dataQuality, QualityStamp, QualityFacility, facilityId, cutoff);
        if errors.None? || events.None? || samples.None? then Failure(MissingFacilityColumn)
        else
          var metrics := FacilityMetrics(matching[0], errors.value, events.value, samples.value);
          Success(FormatResult(MetricColumns, metrics, metadata))
  }

  /** The metadata sheet has the columns the warehouse allowlist gives for
    * `facility_metadata`, in the same order. */
  lemma MetadataFieldsFollowAllowlist(m: FacilityMetadata)
    ensures FieldNames(MetadataFields(m)) == RedshiftConfig.GetAllowedColumns("facility_metadata")
  {
  }

  /** Skipping the leading `facility_id` field leaves one metric per remaining field. */
  lemma {:induction false} MetadataMetricsSkipFirst(fields: seq<(string, string)>)
    requires |fields| > 0 && fields[0].0 == "facility_id"
    requires forall i :: 1 <= i < |fields| ==> fields[i].0 != "facility_id"
    ensures MetadataMetrics(fields) ==
      seq(|fields| - 1, i requires 0 <= i < |fields| - 1 => [VStr(fields[i + 1].0), VStr(fields[i + 1].1)])
  {
    var n := |fields|;
    if n == 1 {
      assert fields[..0] == [];
    } else {
      var init := fields[..n - 1];
      MetadataMetricsSkipFirst(init);
    }
  }

  /** Without a loaded metadata sheet the report raises the KeyError. */
  lemma FacilitySummaryNeedsMetadataSheet(data: Datasets, facilityId: string, rangeDays: int, now: int)
    requires data.facilityMetadata.NoColumns?
    ensures GetFacilitySummary(data, facilityId, rangeDays, now) == Failure(MissingFacilityColumn)
  {
  }

  /** A facility with no metadata row gives an empty result that keeps the
    * requested facility and range in its metadata, whatever the other sheets hold. */
  lemma FacilitySummaryUnknownFacility(data: Datasets, facilityId: string, rangeDays: int, now: int)
    requires data.facilityMetadata.Table?
    requires forall m :: m in data.facilityMetadata.rows ==> m.facilityId != Some(facilityId)
    ensures var r := GetFacilitySummary(data, facilityId, rangeDays, now);
      r.Success? && r.value.columns == [] && r.value.rows == []
      && r.value.metadata == Metadata(Some(rangeDays), None, Some(facilityId), Some("excel"), Some(0))
  {
    var matching := GroupAt(data.facilityMetadata.rows, MetadataFacility, facilityId);
    NoElementsEmpty(matching);
  }

  /** A known facility with one of the event sheets never loaded raises the KeyError. */
  lemma FacilitySummaryNeedsEventSheets(data: Datasets, facilityId: string, rangeDays: int, now: int)
    requires data.facilityMetadata.Table?
    requires exists m :: m in data.facilityMetadata.rows && m.facilityId == Some(facilityId)
    requires data.errors.NoColumns? || data.connectivity.NoColumns? || data.dataQuality.NoColumns?
    ensures GetFacilitySummary(data, facilityId, rangeDays, now) == Failure(MissingFacilityColumn)
  {
    var m :| m in data.facilityMetadata.rows && m.facilityId == Some(facilityId);
    assert m in GroupAt(data.facilityMetadata.rows, MetadataFacility, facilityId);
  }

  /** The layout of the metrics list: the seven metadata metrics, then two
    * error metrics if there are errors, one connectivity metric if there are
    * events, one quality metric if there are samples. */
  lemma FacilityMetricsLayout(m: FacilityMetadata, errors: seq<ErrorEvent>, events: seq<ConnectivityEvent>,
                              samples: seq<QualitySample>)
    ensures var metrics := FacilityMetrics(m, errors, events, samples);
      var k := 7 + (if |errors| > 0 then 2 else 0);
      && |metrics| == k + (if |events| > 0 then 1 else 0) + (if |samples| > 0 then 1 else 0)
      && (forall i :: 0 <= i < 7 ==>
            metrics[i] == [VStr(RedshiftConfig.GetAllowedColumns("facility_metadata")[i + 1]), VStr(MetadataFields(m)[i + 1].1)])
      && (|errors| > 0 ==>
            && metrics[7] == [VStr("errors_total"), VInt(|errors|)]
            && metrics[8] == [VStr("errors_critical"), VInt(|Filter(errors, IsCritical)|)])
      && (|events| > 0 ==>
            metrics[k] == [VStr("connectivity_pct"), VReal(Percentage(|Filter(events, IsConnected)|, |events|))])
      && (|samples| > 0 ==>
            metrics[|metrics| - 1] == [VStr("avg_data_quality_score"), VReal(Mean(Scores(samples)))])
  {
    var a := MetadataMetrics(MetadataFields(m));
    var b := ErrorMetrics(errors);
    var c := ConnectivityMetrics(events);
    var d := QualityMetrics(samples);
    MetadataMetricsOfRow(m);
    ConcatLayout(a, b, c, d);
  }

  lemma ConcatLayout<T>(a: seq<T>, b: seq<T>, c: seq<T>, d: seq<T>)
    ensures var t := a + b + c + d;
      && |t| == |a| + |b| + |c| + |d|
      && (forall i :: 0 <= i < |a| ==> t[i] == a[i])
      && (forall i :: 0 <= i < |b| ==> t[|a| + i] == b[i])
      && (forall i :: 0 <= i < |c| ==> t[|a| + |b| + i] == c[i])
      && (forall i :: 0 <= i < |d| ==> t[|a| + |b| + |c| + i] == d[i])
  {
  }

  /** The seven metadata metrics of a row: every allowlisted column but
    * `facility_id`, in order, with the row's value. */
  lemma MetadataMetricsOfRow(m: FacilityMetadata)
    ensures var a := MetadataMetrics(MetadataFields(m));
      && |a| == 7
      && forall i :: 0 <= i < 7 ==>
           a[i] == [VStr(RedshiftConfig.GetAllowedColumns("facility_metadata")[i + 1]), VStr(MetadataFields(m)[i + 1].1)]
  {
    var fields := MetadataFields(m);
    MetadataMetricsSkipFirst(fields);
    MetadataFieldsFollowAllowlist(m);
    assert forall i :: 0 <= i < 8 ==> FieldNames(fields)[i] == fields[i].0;
  }

  /** For a known facility with all four sheets loaded the report succeeds
    * with columns `metric` and `value` and the metrics of the facility's first
    * metadata row and of its events in range. */
  lemma FacilitySummaryMetrics(data: Datasets, facilityId: string, rangeDays: int, now: int)
    requires data.facilityMetadata.Table? && data.errors.Table? && data.connectivity.Table? && data.dataQuality.Table?
    requires exists m :: m in data.facilityMetadata.rows && m.facilityId == Some(facilityId)
    ensures var r := GetFacilitySummary(data, facilityId, rangeDays, now);
      var m := GroupAt(data.facilityMetadata.rows, MetadataFacility, facilityId)[0];
      var cutoff := Cutoff(now, rangeDays);
      var errors := FacilityRowsInRange(data.errors, ErrorStamp, ErrorFacility, facilityId, cutoff);
      var events := FacilityRowsInRange(data.connectivity, ConnectivityStamp, ConnectivityFacility, facilityId, cutoff);
      var samples := FacilityRowsInRange(data.dataQuality, QualityStamp, QualityFacility, facilityId, cutoff);
      && m in data.facilityMetadata.rows && m.facilityId == Some(facilityId)
      && errors.Some? && events.Some? && samples.Some?
      && r == Success(TabularResult(MetricColumns, FacilityMetrics(m, errors.value, events.value, samples.value),
                                    Metadata(Some(rangeDays), None, Some(facilityId), Some("excel"), Some(|r.value.rows|))))
  {
    var rows := data.facilityMetadata.rows;
    var m0 :| m0 in rows && m0.facilityId == Some(facilityId);
    var matching := GroupAt(rows, MetadataFacility, facilityId);
    assert m0 in matching;
    var m := matching[0];
    assert m in matching;
    var cutoff := Cutoff(now, rangeDays);
    FacilityMetricsLayout(m, FacilityRowsInRange(data.errors, ErrorStamp, ErrorFacility, facilityId, cutoff).value,
      FacilityRowsInRange(data.connectivity, ConnectivityStamp, ConnectivityFacility, facilityId, cutoff).value,
      FacilityRowsInRange(data.dataQuality, QualityStamp, QualityFacility, facilityId, cutoff).value);
  }
}
