/** `get_data_source` and `reset_data_source`: which backend answers, chosen
  * once from the environment and then cached. */
module Factory {
  import opened Wrappers
  import opened Env
  import opened Text
  import opened ExcelSheets
  import ExcelBackend
  import RedshiftQueries
  import RedshiftBackend
  import opened DataSources

  /** The spreadsheet directories, by path. */
  type FileSystem = string -> Directory

  datatype SourceKind = UseExcel | UseRedshift

  function KindOf(source: DataSource): SourceKind
  {
    if source.ExcelSource? then UseExcel else UseRedshift
  }

  /** `ExcelDataSource()` without an argument reads `TRACKMAN_DATA_DIR`,
    * defaulting to `data/testtrack`. */
  function ExcelDataDirectory(env: Environment): (dir: string)
    ensures "TRACKMAN_DATA_DIR" in env ==> dir == env["TRACKMAN_DATA_DIR"]
    ensures "TRACKMAN_DATA_DIR" !in env ==> dir == "data/testtrack"
  {
    GetenvOr(env, "TRACKMAN_DATA_DIR", "data/testtrack")
  }

  /** `os.getenv("USE_REDSHIFT", "false").lower() == "true"`. */
  predicate RedshiftRequested(env: Environment)
  {
    LowerAscii(GetenvOr(env, "USE_REDSHIFT", "false")) == "true"
  }

  /** `[var for var in required_vars if not os.getenv(var)]`. */
  function MissingVariables(env: Environment): (missing: seq<string>)
    ensures forall v :: v in missing <==> v in RedshiftQueries.RequiredVariables && Missing(env, v)
    ensures |missing| == 0 <==> !RedshiftQueries.AnyRequiredMissing(env)
  {
    var required := RedshiftQueries.RequiredVariables;
    var missing := MissingAmong(env, required);
    assert |missing| == 0 ==> forall i :: 0 <= i < |required| ==> !Missing(env, required[i]) by {
      if |missing| == 0 {
        forall i | 0 <= i < |required| ensures !Missing(env, required[i]) {
          assert required[i] in required;
        }
      }
    }
    assert |missing| > 0 ==> missing[0] in missing;
    missing
  }

  function MissingAmong(env: Environment, vars: seq<string>): (missing: seq<string>)
    ensures forall v :: v in missing <==> v in vars && Missing(env, v)
  {
    if |vars| == 0 then []
    else (if Missing(env, vars[0]) then [vars[0]] else []) + MissingAmong(env, vars[1..])
  }

  /** The backend `get_data_source` builds when nothing is cached: the
    * warehouse only when it is requested and fully configured. */
  function Resolve(env: Environment): (kind: SourceKind)
    ensures kind == UseRedshift <==> RedshiftRequested(env) && !RedshiftQueries.AnyRequiredMissing(env)
  {
    if RedshiftRequested(env) && |MissingVariables(env)| == 0 then UseRedshift else UseExcel
  }

  /** Without `USE_REDSHIFT` the spreadsheets answer. */
  lemma ExcelByDefault(env: Environment)
    requires "USE_REDSHIFT" !in env
    ensures Resolve(env) == UseExcel
  {
    assert LowerAscii("false") != "true" by {
      assert LowerAscii("false")[0] == 'f';
    }
  }

  /** The flag is compared without regard to case. */
  lemma FlagIgnoresCase(env: Environment)
    requires "USE_REDSHIFT" in env && env["USE_REDSHIFT"] == "TRUE"
    ensures RedshiftRequested(env)
  {
    var l := LowerAscii("TRUE");
    assert l == [l[0], l[1], l[2], l[3]];
  }

  /** A set flag with an unset or empty required variable still falls back
    * to the spreadsheets. */
  lemma MissingVariableFallsBack(env: Environment, v: string)
    requires v in RedshiftQueries.RequiredVariables && Missing(env, v)
    ensures Resolve(env) == UseExcel
    ensures v in MissingVariables(env)
  {
    var i :| 0 <= i < |RedshiftQueries.RequiredVariables| && RedshiftQueries.RequiredVariables[i] == v;
    assert RedshiftQueries.AnyRequiredMissing(env);
  }

  /** When the factory's own check passes, the warehouse constructor's check
    * passes too, so its fallback on a constructor error is never taken. */
  lemma ResolvedWarehouseConfigures(env: Environment)
    requires Resolve(env) == UseRedshift
    ensures RedshiftQueries.ReadConfig(env).Success?
  {
  }

  class DataSourceFactory {
    /** `_data_source_instance`. */
    var instance: Option<DataSource>
    const fs: FileSystem
    const db: RedshiftQueries.Database

    /** The objects of the cached data source. */
    function Footprint(): set<object>
      reads this
    {
      if instance.Some? then Objects(instance.value) else {}
    }

    ghost predicate Valid()
      reads this, Footprint()
    {
      instance.Some? ==> Ready(instance.value)
    }

    constructor(fs: FileSystem, db: RedshiftQueries.Database)
      ensures this.fs == fs && this.db == db && instance == None && Valid()
    {
      this.fs := fs;
      this.db := db;
      instance := None;
    }

    /** `get_data_source`: the cached instance, or a new one chosen by
      * `Resolve` and cached. */
    method GetDataSource(env: Environment) returns (source: DataSource)
      requires Valid()
      modifies this
      ensures Valid() && instance == Some(source)
      ensures old(instance).Some? ==> source == old(instance).value
      ensures old(instance).None? ==> fresh(Objects(source)) && KindOf(source) == Resolve(env)
      ensures old(instance).None? && source.ExcelSource? ==>
        source.excel.data == LoadDirectory(fs(ExcelDataDirectory(env)))
      ensures old(instance).None? && source.RedshiftSource? ==>
        && source.redshift.config == RedshiftQueries.ReadConfig(env).value
        && source.redshift.db == db && source.redshift.trace == []
    {
      if instance.Some? {
        return instance.value;
      }
      var warehouse: Option<RedshiftBackend.RedshiftDataSource> := None;
      if RedshiftRequested(env) {
        var missing := MissingVariables(env);
        if |missing| == 0 {
          var created := RedshiftBackend.RedshiftDataSource.Create(env, db);
          if created.Success? {
            warehouse := Some(created.value);
          }
        }
      }
      if warehouse.Some? {
        source := RedshiftSource(warehouse.value);
      } else {
        var excel := new ExcelBackend.ExcelDataSource(fs(ExcelDataDirectory(env)));
        source := ExcelSource(excel);
      }
      instance := Some(source);
    }

    /** `reset_data_source`. */
    method Reset()
      modifies this
      ensures instance == None && Valid()
    {
      instance := None;
    }
  }
}
