/** The spreadsheet backend's data: one row type per expected sheet,
  * the parsed files of the data directory, the merge of same-named sheets
  * across files, and the two row filters every report applies. */
module ExcelSheets {
  import opened Wrappers
  import opened Collections
  import opened Tabular
  import opened Text

  /** A row of the `errors` sheet; a `timestamp` that failed to parse is `None`. */
  datatype ErrorEvent = ErrorEvent(
    timestamp: Option<int>,
    facilityId: Option<string>,
    unitId: string,
    unitModel: string,
    errorCode: string,
    severity: string,
    errorMessage: string)

  /** A row of the `connectivity` sheet. */
  datatype ConnectivityEvent = ConnectivityEvent(
    timestamp: Option<int>,
    facilityId: Option<string>,
    unitId: string,
    connectivityStatus: string,
    disconnectReason: Option<string>)

  /** A row of the `facility_metadata` sheet (no timestamp column). */
  datatype FacilityMetadata = FacilityMetadata(
    facilityId: Option<string>,
    location: string,
    openingHours: string,
    subscriptionStatus: string,
    unitsDeployed: Numeric,
    usageHours30d: Numeric,
    strokesTracked: Numeric,
    tournamentsHosted: Numeric)

  /** A row of the `data_quality` sheet. */
  datatype QualitySample = QualitySample(
    timestamp: Option<int>,
    facilityId: Option<string>,
    dataQualityScore: real,
    missingRecords: int,
    latencyMs: real)

  /** A data frame of one sheet: `NoColumns` is `pd.DataFrame()`, which has
    * no columns at all; `Table` is a sheet that was read, possibly with no rows. */
  datatype Sheet<R> = NoColumns | Table(rows: seq<R>)

  function Rows<R>(s: Sheet<R>): seq<R>
  {
    if s.Table? then s.rows else []
  }

  /** `self._data`: one frame per expected sheet. */
  datatype Datasets = Datasets(
    errors: Sheet<ErrorEvent>,
    connectivity: Sheet<ConnectivityEvent>,
    facilityMetadata: Sheet<FacilityMetadata>,
    dataQuality: Sheet<QualitySample>)

  /** `_initialize_empty_data`: every sheet is `pd.DataFrame()`. */
  const EmptyDatasets: Datasets := Datasets(NoColumns, NoColumns, NoColumns, NoColumns)

  /** One spreadsheet file, already parsed: each expected sheet it contains. */
  datatype ExcelFile = ExcelFile(
    errors: Option<seq<ErrorEvent>>,
    connectivity: Option<seq<ConnectivityEvent>>,
    facilityMetadata: Option<seq<FacilityMetadata>>,
    dataQuality: Option<seq<QualitySample>>)

  /** The data directory: whether it exists, and its readable `.xlsx`/`.xls`
    * files in discovery order. */
  datatype Directory = Directory(present: bool, files: seq<ExcelFile>)

  function ErrorsSheet(f: ExcelFile): Option<seq<ErrorEvent>> { f.errors }
  function ConnectivitySheet(f: ExcelFile): Option<seq<ConnectivityEvent>> { f.connectivity }
  function MetadataSheet(f: ExcelFile): Option<seq<FacilityMetadata>> { f.facilityMetadata }
  function QualitySheet(f: ExcelFile): Option<seq<QualitySample>> { f.dataQuality }

  /** The frames of one sheet name collected from `files`, in file order
    * (`sheet_dataframes[sheet_name]`). */
  function SheetsOf<R>(files: seq<ExcelFile>, pick: ExcelFile -> Option<seq<R>>): seq<seq<R>>
  {
    if |files| == 0 then [] else
      var last := pick(files[|files| - 1]);
      SheetsOf(files[..|files| - 1], pick) + (if last.Some? then [last.value] else [])
  }

  /** Concatenate the collected frames and drop exact duplicates; no frame at
    * all gives `pd.DataFrame()`. */
  function MergeSheets<R(==,!new)>(frames: seq<seq<R>>): (s: Sheet<R>)
    ensures s.NoColumns? <==> |frames| == 0
    ensures s.Table? ==> Distinct(s.rows)
    ensures s.Table? ==> forall x :: x in s.rows <==> exists i :: 0 <= i < |frames| && x in frames[i]
  {
    if |frames| == 0 then NoColumns else Table(Dedup(Flatten(frames)))
  }

  /** What `_load_data` leaves in `self._data` for a directory. */
  function LoadDirectory(dir: Directory): (d: Datasets)
    ensures !dir.present || |dir.files| == 0 ==> d == EmptyDatasets
  {
    if !dir.present || |dir.files| == 0 then EmptyDatasets
    else Datasets(
      MergeSheets(SheetsOf(dir.files, ErrorsSheet)),
      MergeSheets(SheetsOf(dir.files, ConnectivitySheet)),
      MergeSheets(SheetsOf(dir.files, MetadataSheet)),
      MergeSheets(SheetsOf(dir.files, QualitySheet)))
  }

  lemma {:induction false} SheetsOfMembership<R>(files: seq<ExcelFile>, pick: ExcelFile -> Option<seq<R>>, x: R)
    ensures (exists i :: 0 <= i < |SheetsOf(files, pick)| && x in SheetsOf(files, pick)[i])
        <==> (exists k :: 0 <= k < |files| && pick(files[k]).Some? && x in pick(files[k]).value)
  {
    if |files| > 0 {
      var n := |files| - 1;
      SheetsOfMembership(files[..n], pick, x);
      var prev := SheetsOf(files[..n], pick);
      var all := SheetsOf(files, pick);
      assert all[..|prev|] == prev;
      if exists k :: 0 <= k < |files| && pick(files[k]).Some? && x in pick(files[k]).value {
        var k :| 0 <= k < |files| && pick(files[k]).Some? && x in pick(files[k]).value;
        if k < n {
          assert files[..n][k] == files[k];
          var i :| 0 <= i < |prev| && x in prev[i];
          assert all[i] == prev[i];
        } else {
          assert all[|all| - 1] == pick(files[n]).value;
        }
      }
      if exists i :: 0 <= i < |all| && x in all[i] {
        var i :| 0 <= i < |all| && x in all[i];
        if i < |prev| {
          assert all[i] == prev[i];
          var k :| 0 <= k < n && pick(files[..n][k]).Some? && x in pick(files[..n][k]).value;
          assert files[..n][k] == files[k];
        } else {
          assert pick(files[n]).Some? && all[i] == pick(files[n]).value;
        }
      }
    }
  }

  /** The merged `errors` frame holds exactly the rows of all files' `errors`
    * sheets, each once, in order of first occurrence; it is `pd.DataFrame()`
    * only when no file has that sheet. The other three sheets merge alike. */
  lemma MergedErrors(dir: Directory)
    requires dir.present && |dir.files| > 0
    ensures var s := LoadDirectory(dir).errors;
      && (s.NoColumns? <==> forall k :: 0 <= k < |dir.files| ==> dir.files[k].errors.None?)
      && (s.Table? ==> Distinct(s.rows))
      && (s.Table? ==> forall x :: x in s.rows <==>
            exists k :: 0 <= k < |dir.files| && dir.files[k].errors.Some? && x in dir.files[k].errors.value)
  {
    var s := LoadDirectory(dir).errors;
    SheetsOfEmpty(dir.files, ErrorsSheet);
    if s.Table? {
      forall x | x in s.rows
        ensures exists k :: 0 <= k < |dir.files| && dir.files[k].errors.Some? && x in dir.files[k].errors.value
      {
        SheetsOfMembership(dir.files, ErrorsSheet, x);
      }
      forall x, k | 0 <= k < |dir.files| && dir.files[k].errors.Some? && x in dir.files[k].errors.value
        ensures x in s.rows
      {
        SheetsOfMembership(dir.files, ErrorsSheet, x);
      }
    }
    SheetsOfEmpty(dir.files, ErrorsSheet);
  }

  lemma {:induction false} SheetsOfEmpty<R>(files: seq<ExcelFile>, pick: ExcelFile -> Option<seq<R>>)
    ensures |SheetsOf(files, pick)| == 0 <==> forall k :: 0 <= k < |files| ==> pick(files[k]).None?
  {
    if |files| > 0 {
      var n := |files| - 1;
      SheetsOfEmpty(files[..n], pick);
      assert forall k :: 0 <= k < n ==> files[..n][k] == files[k];
    }
  }

  /** Two files whose sheets have no duplicate rows and no row in common
    * contribute the sum of their row counts. */
  lemma MergeDisjoint<R(!new)>(a: seq<R>, b: seq<R>)
    requires Distinct(a) && Distinct(b)
    requires forall x :: x in a ==> x !in b
    ensures MergeSheets([a, b]) == Table(a + b)
    ensures |MergeSheets([a, b]).rows| == |a| + |b|
  {
    FlattenPair(a, b);
    assert Distinct(a + b) by {
      forall i, j | 0 <= i < j < |a + b| ensures (a + b)[i] != (a + b)[j] {
        if i < |a| && j >= |a| {
          assert (a + b)[i] in a && (a + b)[j] in b;
        }
      }
    }
    DedupOfDistinct(a + b);
  }

  /** Two identical files merge to one file's de-duplicated rows. */
  lemma MergeIdentical<R(!new)>(a: seq<R>)
    ensures MergeSheets([a, a]) == Table(Dedup(a))
  {
    FlattenPair(a, a);
    DedupAbsorbs(a, a);
  }

  /** The merged rows do not depend on the order in which files are
    * discovered, up to the order of the rows: any rearrangement of the
    * frames merges to a permutation of the same rows. */
  lemma MergeOrderIndependent<R(!new)>(fs1: seq<seq<R>>, fs2: seq<seq<R>>)
    requires multiset(fs1) == multiset(fs2)
    ensures MergeSheets(fs1).NoColumns? <==> MergeSheets(fs2).NoColumns?
    ensures MergeSheets(fs1).Table? ==> multiset(MergeSheets(fs1).rows) == multiset(MergeSheets(fs2).rows)
  {
    SameMultisetSameElements(fs1, fs2);
    if |fs1| > 0 {
      var a, b := MergeSheets(fs1).rows, MergeSheets(fs2).rows;
      forall x ensures x in a <==> x in b {
        if x in a {
          var i :| 0 <= i < |fs1| && x in fs1[i];
          assert fs1[i] in fs2;
          var j :| 0 <= j < |fs2| && fs2[j] == fs1[i];
        }
        if x in b {
          var j :| 0 <= j < |fs2| && x in fs2[j];
          assert fs2[j] in fs1;
          var i :| 0 <= i < |fs1| && fs1[i] == fs2[j];
        }
      }
      SameElementsSameMultiset(a, b);
    }
  }

  // ---------------------------------------------------------------------
  // Filters

  /** A row's timestamp is on or after the cutoff; a coerced-null timestamp
    * never is (a comparison with `NaT` is false). */
  predicate OnOrAfter(stamp: Option<int>, cutoff: int)
  {
    stamp.Some? && stamp.value >= cutoff
  }

  /** `_filter_by_date_range` with the cutoff already computed: a frame
    * without columns or without rows is returned as it is. */
  function FilterByDateRange<R(!new)>(s: Sheet<R>, stamp: R -> Option<int>, cutoff: int): (r: Sheet<R>)
    ensures s.NoColumns? ==> r == s
    ensures s.Table? && |s.rows| == 0 ==> r == s
    ensures s.Table? ==> r.Table? && Subsequence(r.rows, s.rows)
    ensures s.Table? ==> forall x :: x in r.rows <==> x in s.rows && OnOrAfter(stamp(x), cutoff)
  {
    if s.NoColumns? || |s.rows| == 0 then s
    else
      var keep := x => OnOrAfter(stamp(x), cutoff);
      FilterIsSubsequence(s.rows, keep);
      Table(Filter(s.rows, keep))
  }

  /** `_filter_by_facility`: with a non-empty id, the rows whose `facility_id`
    * equals it; otherwise (or on a frame without columns) the identity. */
  function FilterByFacility<R(!new)>(s: Sheet<R>, facility: R -> Option<string>, facilityId: Option<string>): (r: Sheet<R>)
    ensures !Truthy(facilityId) || s.NoColumns? ==> r == s
    ensures s.Table? ==> r.Table? && Subsequence(r.rows, s.rows)
    ensures Truthy(facilityId) && s.Table? ==> forall x :: x in r.rows <==> x in s.rows && facility(x) == facilityId
  {
    if Truthy(facilityId) && s.Table? then
      var keep := x => facility(x) == facilityId;
      FilterIsSubsequence(s.rows, keep);
      Table(Filter(s.rows, keep))
    else
      SubsequenceRefl(Rows(s));
      s
  }

  /** The date filter keeps every copy of an in-range row and no copy of any other. */
  lemma FilterByDateRangeKeepsCopies<R(!new)>(s: Sheet<R>, stamp: R -> Option<int>, cutoff: int)
    requires s.Table?
    ensures var r := FilterByDateRange(s, stamp, cutoff);
      forall x :: multiset(Rows(r))[x] == if OnOrAfter(stamp(x), cutoff) then multiset(s.rows)[x] else 0
  {
    FilterMultiplicity(s.rows, x => OnOrAfter(stamp(x), cutoff));
  }

  /** With a non-empty id, the facility filter keeps every copy of a matching
    * row and no copy of any other. */
  lemma FilterByFacilityKeepsCopies<R(!new)>(s: Sheet<R>, facility: R -> Option<string>, facilityId: Option<string>)
    requires s.Table? && Truthy(facilityId)
    ensures var r := FilterByFacility(s, facility, facilityId);
      forall x :: multiset(Rows(r))[x] == if facility(x) == facilityId then multiset(s.rows)[x] else 0
  {
    FilterMultiplicity(s.rows, x => facility(x) == facilityId);
  }

  lemma {:induction false} SubsequenceRefl<T>(s: seq<T>)
    ensures Subsequence(s, s)
  {
    if |s| > 0 {
      SubsequenceRefl(s[1..]);
    }
  }

  function ErrorStamp(e: ErrorEvent): Option<int> { e.timestamp }
  function ErrorFacility(e: ErrorEvent): Option<string> { e.facilityId }
  function ConnectivityStamp(c: ConnectivityEvent): Option<int> { c.timestamp }
  function ConnectivityFacility(c: ConnectivityEvent): Option<string> { c.facilityId }
  function QualityStamp(q: QualitySample): Option<int> { q.timestamp }
  function QualityFacility(q: QualitySample): Option<string> { q.facilityId }
}
