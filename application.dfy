/**
 * The parts of the command-line entry point that decide something: the defaults of the
 * optional arguments and the process exit code derived from the metrics.
 */
module Application {
  import opened Wrappers
  import opened Types
  import opened Metrics
  import opened JavaStrings
  import TMS = TableMetadataService
  import Service

  /** Exit code from the metrics: 2 when any error was recorded, else 1 when differences were found, else 0. */
  function ExitCodeOf(m: MetricsValue): (code: int)
    ensures code == 2 <==> |m.errorMessages| > 0
    ensures code == 1 <==> |m.errorMessages| == 0 && m.differencesFound > 0
    ensures code == 0 <==> |m.errorMessages| == 0 && m.differencesFound <= 0
  {
    if |m.errorMessages| > 0 then 2
    else if m.differencesFound > 0 then 1
    else 0
  }

  /** determineExitCode, reading the metrics through their getters. */
  function DetermineExitCode(metrics: VerificationMetrics): (code: int)
    reads metrics
    ensures code == ExitCodeOf(metrics.Value())
    ensures 0 <= code <= 2
  {
    if |metrics.GetErrorMessages()| > 0 then 2
    else if metrics.GetDifferencesFound() > 0 then 1
    else 0
  }

  /** The optional options as given on the command line (None when absent). */
  datatype OptionalArguments = OptionalArguments(whereCondition: Option<string>, excludeColumns: Option<string>,
                                                 mode: Option<string>)

  function WhereCondition(args: OptionalArguments): string
  {
    args.whereCondition.GetOr("1=1")
  }

  function ExcludeColumns(args: OptionalArguments): string
  {
    args.excludeColumns.GetOr("")
  }

  /** VerificationMode.valueOf of the upper-cased mode option, FAST when absent. */
  function Mode(args: OptionalArguments): Result<VerificationMode, JavaException>
  {
    ModeValueOf(ToUpperCase(args.mode.GetOr("FAST")))
  }

  /** Without options: every row matches the filter, nothing is excluded, and the mode is FAST. */
  lemma AbsentOptionsDefaults(args: OptionalArguments, all: seq<string>)
    requires args.whereCondition.None? && args.excludeColumns.None? && args.mode.None?
    ensures WhereCondition(args) == "1=1"
    ensures TMS.ColumnsAfterExclusion(all, Some(ExcludeColumns(args)))
         == if |all| == 0 then Failure(TMS.NoColumnsLeft) else Success(all)
    ensures Mode(args) == Success(FAST)
  {
    assert ToUpperCase("FAST") == "FAST";
    TMS.BlankExcludesRemoveNothing(all, Some(""));
  }

  /** The mode option is case-insensitive: any spelling whose upper case is a mode name selects that mode, and no other spelling does. */
  lemma ModeIgnoresCase(args: OptionalArguments)
    requires args.mode.Some?
    ensures Mode(args).Success? <==> ToUpperCase(args.mode.value) in {"FAST", "DETAILED"}
    ensures Mode(args).Success? ==> ModeName(Mode(args).value) == ToUpperCase(args.mode.value)
  {
  }

  /** The lower-case spelling of the detailed mode is accepted. */
  lemma LowerCaseDetailedAccepted(args: OptionalArguments)
    requires args.mode == Some("detailed")
    ensures Mode(args) == Success(DETAILED)
  {
    assert ToUpperCase("detailed") == "DETAILED";
  }

  /** A verification that throws always ends with exit code 2. */
  lemma ThrowMeansExitTwo(env: Service.Environment, req: Service.Request, config: VerificationConfig)
    ensures var o := Service.VerifyTableSpec(env, req, config);
            o.thrown.Some? ==> ExitCodeOf(o.metrics) == 2
  {
    Service.FailureRecordedLast(env, req, config);
  }

  /**
   * Exit code 0 on a partitioned table means every partition's result was OK: no partition
   * gave up, and none found a difference.
   */
  lemma ExitZeroMeansEveryPartitionOk(env: Service.Environment, req: Service.Request, config: VerificationConfig,
                                      partitions: seq<string>)
    requires env.connection.None?
    requires var a := TMS.AnalysisSpec(env.engine, req.baseDatabase, req.tableName, req.excludeColumns);
             a.Success? && a.value.partitioned
    requires TMS.PartitionsSpec(env.engine, req.baseDatabase, req.tableName, req.whereCondition) == Success(partitions)
    requires ExitCodeOf(Service.VerifyTableSpec(env, req, config).metrics) == 0
    ensures var columns := TMS.AnalysisSpec(env.engine, req.baseDatabase, req.tableName, req.excludeColumns).value.columns;
            var kind := Service.CreateStrategy(req.mode);
            forall p :: p in partitions ==> Service.PartitionResult(env, req, columns, kind, config, p).result.status == Some(OK)
  {
    var columns := TMS.AnalysisSpec(env.engine, req.baseDatabase, req.tableName, req.excludeColumns).value.columns;
    var kind := Service.CreateStrategy(req.mode);
    ThrowMeansExitTwo(env, req, config);
    if |partitions| > 0 && config.maxParallelPartitions > 0 {
      var vs := Service.PartitionResults(env, req, columns, kind, config, partitions);
      Service.PartitionedTotals(env, req, config, partitions);
      forall i | 0 <= i < |vs|
        ensures Service.Settled(vs[i].result)
      {
        Service.PartitionResultNamesPartition(env, req, columns, kind, config, partitions[i]);
      }
      Service.CleanFoldMeansAllOk(vs);
      forall p | p in partitions
        ensures Service.PartitionResult(env, req, columns, kind, config, p).result.status == Some(OK)
      {
        var i :| 0 <= i < |partitions| && partitions[i] == p;
        assert vs[i].result.status == Some(OK);
      }
    }
  }
}
