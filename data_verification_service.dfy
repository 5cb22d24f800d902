/**
 * The orchestration of one table's verification: analyse the table, choose the strategy by
 * mode, then verify either every partition (each with its own connection, under retry) or the
 * whole table (on the main connection, under retry), fold every result into the metrics and
 * save it.
 *
 * The outside world is an Environment: the main connection and its engine, and, for every
 * attempt, the engine and clock that attempt sees and the state of the result database when it
 * saves. The spec functions say what verifyTable does in that world; the class runs it step by
 * step and is proved to agree with them.
 */
module Service {
  import opened Wrappers
  import opened Types
  import opened Results
  import opened Metrics
  import opened QueryEngine
  import opened Strategy
  import FastStrategy
  import DetailedStrategy
  import opened Repository
  import Retry
  import TMS = TableMetadataService
  import JavaStrings

  // ---------------------------------------------------------------- strategy choice

  datatype StrategyKind = Fast | Detailed

  /** createStrategy: DETAILED selects the EXCEPT strategy, everything else the fingerprint strategy. */
  function CreateStrategy(mode: VerificationMode): (kind: StrategyKind)
    ensures kind == Detailed <==> mode == DETAILED
  {
    match mode
    case DETAILED => Detailed
    case FAST => Fast
  }

  function RunStrategy(kind: StrategyKind, engine: Engine, baseDb: string, targetDb: string, table: string,
                       columns: seq<string>, where: string, sampleLimit: int, clock: Clock): StrategyOutcome
  {
    match kind
    case Fast => FastStrategy.FastVerify(engine, baseDb, targetDb, table, columns, where, sampleLimit, clock)
    case Detailed => DetailedStrategy.DetailedVerify(engine, baseDb, targetDb, table, columns, where, sampleLimit, clock)
  }

  /** No strategy returns normally with an ERROR result; OK means no differences and NOT_OK means some. */
  lemma StrategyReturnStatus(kind: StrategyKind, engine: Engine, baseDb: string, targetDb: string, table: string,
                             columns: seq<string>, where: string, sampleLimit: int, clock: Clock)
    ensures var o := RunStrategy(kind, engine, baseDb, targetDb, table, columns, where, sampleLimit, clock);
            o.thrown.None? ==> (o.result.status == Some(OK) || o.result.status == Some(NOT_OK))
                               && (o.result.status == Some(OK) ==> o.result.differencesFound == 0)
                               && (o.result.status == Some(NOT_OK) ==> o.result.differencesFound > 0)
  {
    match kind
    case Fast => FastStrategy.FastReturnStatus(engine, baseDb, targetDb, table, columns, where, sampleLimit, clock);
    case Detailed => DetailedStrategy.DetailedReturnStatus(engine, baseDb, targetDb, table, columns, where, sampleLimit, clock);
  }

  method CallStrategy(kind: StrategyKind, engine: Engine, baseDb: string, targetDb: string, table: string,
                      columns: seq<string>, where: string, sampleLimit: int, clock: Clock)
    returns (result: VerificationResult, thrown: Option<JavaException>)
    ensures fresh(result)
    ensures var o := RunStrategy(kind, engine, baseDb, targetDb, table, columns, where, sampleLimit, clock);
            result.Value() == o.result && thrown == o.thrown
  {
    var statements: seq<string>;
    match kind
    case Fast =>
      result, thrown, statements := FastStrategy.Verify(engine, baseDb, targetDb, table, columns, where, sampleLimit, clock);
    case Detailed =>
      result, thrown, statements := DetailedStrategy.Verify(engine, baseDb, targetDb, table, columns, where, sampleLimit, clock);
  }

  // ---------------------------------------------------------------- the outside world

  /** What one strategy run sees: the engine behind its connection and the clock of the result it builds. */
  datatype Run = Run(engine: Engine, clock: Clock)

  /** One attempt at a partition: its own connection (or the failure to get one), its run, and the result database. */
  datatype Attempt = Attempt(connection: Option<JavaException>, run: Run, sink: Sink)

  datatype Environment = Environment(
    /** The main connection of verifyTable, or the failure to obtain it. */
    connection: Option<JavaException>,
    /** The engine behind the main connection: table analysis and the partition listing. */
    engine: Engine,
    /** When the metrics are created. */
    now: int,
    /** Attempt k of the non-partitioned path, on the main connection. */
    normalRuns: nat -> Run,
    /** The result database when the non-partitioned result is saved. */
    normalSink: Sink,
    /** Attempt k at partition p. */
    partitionAttempts: (string, nat) -> Attempt,
    /** When the error result of partition p is created and completed. */
    errorClocks: string -> Clock)

  /** The arguments of verifyTable. */
  datatype Request = Request(
    baseDatabase: string,
    targetDatabase: string,
    tableName: string,
    whereCondition: string,
    excludeColumns: Option<string>,
    mode: VerificationMode,
    odate: Option<string>,
    mid: Option<string>)

  /** What a verification leaves behind: the metrics, the exception thrown (if any), and the rows saved, in order. */
  datatype VerifyOutcome = VerifyOutcome(metrics: MetricsValue, thrown: Option<JavaException>, stored: seq<Record>)

  // ---------------------------------------------------------------- metrics

  /** updateMetrics: rows, differences and one more processed unit; its time under its partition; its message if ERROR. */
  function Updated(m: MetricsValue, r: ResultValue): MetricsValue
  {
    m.(totalRowsProcessed := m.totalRowsProcessed + r.baseRowCount,
       differencesFound := m.differencesFound + r.differencesFound,
       partitionsProcessed := m.partitionsProcessed + 1,
       partitionProcessingTimes := m.partitionProcessingTimes[r.partition.GetOr(NoPartition) := r.processingTimeMs],
       errorMessages := m.errorMessages + (if r.status == Some(ERROR) then [r.message] else []))
  }

  /**
   * One fold step adds the result's base rows and differences and one processed unit, records
   * its time under its partition (NO_PARTITION when it has none) leaving every other time as it
   * was, and appends its message exactly when it is an ERROR result.
   */
  lemma UpdatedFoldsOne(m: MetricsValue, r: ResultValue)
    ensures var u := Updated(m, r);
            var key := r.partition.GetOr(NoPartition);
            && u.startTime == m.startTime
            && u.totalRowsProcessed == m.totalRowsProcessed + r.baseRowCount
            && u.differencesFound == m.differencesFound + r.differencesFound
            && u.partitionsProcessed == m.partitionsProcessed + 1
            && key in u.partitionProcessingTimes && u.partitionProcessingTimes[key] == r.processingTimeMs
            && (forall p :: p != key ==> Lookup(u.partitionProcessingTimes, p) == Lookup(m.partitionProcessingTimes, p))
            && u.errorMessages[..|m.errorMessages|] == m.errorMessages
            && (|u.errorMessages| == |m.errorMessages| + 1 <==> r.status == Some(ERROR))
            && (r.status != Some(ERROR) ==> u.errorMessages == m.errorMessages)
            && (r.status == Some(ERROR) ==> u.errorMessages[|m.errorMessages|] == r.message)
  {
  }

  // ---------------------------------------------------------------- one partition

  /**
   * One invocation of the partition callable: build the partition's filter, take a connection,
   * run the strategy, tag the result with the partition and save it. A failure anywhere on the
   * way is what the invocation throws.
   */
  function AttemptOutcome(a: Attempt, req: Request, columns: seq<string>, kind: StrategyKind, sampleLimit: int,
                          partition: string): Result<ResultValue, JavaException>
  {
    match a.connection
    case Some(e) => Failure(e)
    case None =>
      var filter := TMS.PartitionFilter(Some(partition), req.whereCondition);
      var o := RunStrategy(kind, a.run.engine, req.baseDatabase, req.targetDatabase, req.tableName, columns, filter,
                           sampleLimit, a.run.clock);
      if o.thrown.Some? then Failure(o.thrown.value)
      else
        var r := o.result.(partition := Some(partition));
        match SaveOutcome(r, req.odate, req.mid, a.sink)
        case Threw(e) => Failure(e)
        case _ => Success(r)
  }

  /** The rows a successful attempt saved. */
  function StoredBy(a: Attempt, req: Request, r: ResultValue): seq<Record>
  {
    match SaveOutcome(r, req.odate, req.mid, a.sink)
    case Stored(record) => [record]
    case _ => []
  }

  function PartitionCall(env: Environment, req: Request, columns: seq<string>, kind: StrategyKind, sampleLimit: int,
                         partition: string): nat -> Result<ResultValue, JavaException>
  {
    (k: nat) => AttemptOutcome(env.partitionAttempts(partition, k), req, columns, kind, sampleLimit, partition)
  }

  /** The result verifyPartition builds when the retry gives up: ERROR, "Error: " + the message, not saved. */
  function ErrorResult(table: string, partition: string, e: JavaException, clock: Clock): ResultValue
  {
    Completed(NewResult(clock.started).(tableName := Some(table), partition := Some(partition), status := Some(ERROR),
                                        message := Some("Error: " + MessageText(e))), clock.finished)
  }

  /** The result of one partition and the rows saved for it. */
  datatype Verified = Verified(result: ResultValue, stored: seq<Record>)

  /** verifyPartition: retry the callable; its first success, or the error result when the retry gives up. */
  function PartitionResult(env: Environment, req: Request, columns: seq<string>, kind: StrategyKind,
                           config: VerificationConfig, partition: string): Verified
  {
    var run := Retry.RetrySpec(PartitionCall(env, req, columns, kind, config.sampleLimit, partition),
                               config.retryAttempts, config.retryDelayMs, "Verify partition: " + partition);
    match run.outcome
    case Success(r) => Verified(r, StoredBy(env.partitionAttempts(partition, run.invocations), req, r))
    case Failure(e) => Verified(ErrorResult(req.tableName, partition, e, env.errorClocks(partition)), [])
  }

  /** A finished verdict: OK without differences, NOT_OK with some, or ERROR without any. */
  predicate Settled(r: ResultValue)
  {
    || (r.status == Some(OK) && r.differencesFound == 0)
    || (r.status == Some(NOT_OK) && r.differencesFound > 0)
    || (r.status == Some(ERROR) && r.differencesFound == 0)
  }

  /**
   * Every partition gets a settled result that names its table and its partition, whether it was
   * verified or gave up; giving up saves nothing.
   */
  lemma PartitionResultNamesPartition(env: Environment, req: Request, columns: seq<string>, kind: StrategyKind,
                                      config: VerificationConfig, partition: string)
    ensures var v := PartitionResult(env, req, columns, kind, config, partition);
            && v.result.partition == Some(partition)
            && v.result.tableName == Some(req.tableName)
            && Settled(v.result)
            && (v.result.status == Some(ERROR) ==> v.stored == [])
            && |v.stored| <= 1
  {
    var call := PartitionCall(env, req, columns, kind, config.sampleLimit, partition);
    var run := Retry.RetrySpec(call, config.retryAttempts, config.retryDelayMs, "Verify partition: " + partition);
    if run.outcome.Success? {
      Retry.SuccessIsLastCall(call, config.retryAttempts, config.retryDelayMs, "Verify partition: " + partition);
      var a := env.partitionAttempts(partition, run.invocations);
      var filter := TMS.PartitionFilter(Some(partition), req.whereCondition);
      StrategyReturnStatus(kind, a.run.engine, req.baseDatabase, req.targetDatabase, req.tableName, columns, filter,
                           config.sampleLimit, a.run.clock);
      match kind
      case Fast =>
        FastStrategy.FastEchoesInputs(a.run.engine, req.baseDatabase, req.targetDatabase, req.tableName, columns,
                                      filter, config.sampleLimit, a.run.clock);
      case Detailed =>
        DetailedStrategy.DetailedEchoesInputs(a.run.engine, req.baseDatabase, req.targetDatabase, req.tableName,
                                              columns, filter, config.sampleLimit, a.run.clock);
    }
  }

  /**
   * When every attempt fails and the delay is not negative, the partition's result is ERROR, it
   * names the table and the partition, its message names the partition and the number of
   * attempts, and it is completed at the error clock's second reading.
   */
  lemma PartitionGivesUp(env: Environment, req: Request, columns: seq<string>, kind: StrategyKind,
                         config: VerificationConfig, partition: string)
    requires config.retryAttempts >= 1 && config.retryDelayMs >= 0
    requires forall k :: 1 <= k <= config.retryAttempts ==>
               AttemptOutcome(env.partitionAttempts(partition, k), req, columns, kind, config.sampleLimit, partition).Failure?
    ensures var v := PartitionResult(env, req, columns, kind, config, partition);
            && v.result.status == Some(ERROR) && v.stored == []
            && v.result.tableName == Some(req.tableName) && v.result.partition == Some(partition)
            && v.result.message == Some("Error: Operation 'Verify partition: " + partition + "' failed after "
                                        + JavaStrings.IntToString(config.retryAttempts) + " attempts")
            && v.result.startTime == env.errorClocks(partition).started
            && v.result.endTime == Some(env.errorClocks(partition).finished)
  {
    var call := PartitionCall(env, req, columns, kind, config.sampleLimit, partition);
    var name := "Verify partition: " + partition;
    Retry.AllAttemptsFail(call, config.retryAttempts, config.retryDelayMs, name);
    var last := Some(call(config.retryAttempts).error);
    GiveUpMessage(req.tableName, partition, config.retryAttempts, last, env.errorClocks(partition));
  }

  lemma GiveUpMessage(table: string, partition: string, attempts: int, last: Option<JavaException>, clock: Clock)
    ensures var r := ErrorResult(table, partition, Retry.Exhausted("Verify partition: " + partition, attempts, last), clock);
            && r.status == Some(ERROR)
            && r.tableName == Some(table) && r.partition == Some(partition)
            && r.message == Some("Error: Operation 'Verify partition: " + partition + "' failed after "
                                 + JavaStrings.IntToString(attempts) + " attempts")
            && r.startTime == clock.started && r.endTime == Some(clock.finished)
  {
    var name := "Verify partition: " + partition;
    var e := Retry.Exhausted(name, attempts, last);
    var count := JavaStrings.IntToString(attempts);
    var tail := "' failed after " + count + " attempts";
    assert MessageText(e) == "Operation '" + name + tail;
    GiveUpPrefix(partition);
    assert "Error: " + ("Operation '" + name + tail) == "Error: Operation 'Verify partition: " + partition + tail;
    assert ErrorResult(table, partition, e, clock).message == Some("Error: " + MessageText(e));
    var prefix := "Error: Operation 'Verify partition: " + partition;
    assert prefix + tail == prefix + "' failed after " + count + " attempts";
  }

  /** The three literal parts of the give-up message join into one prefix. */
  lemma GiveUpPrefix(partition: string)
    ensures "Error: " + ("Operation '" + ("Verify partition: " + partition))
         == "Error: Operation 'Verify partition: " + partition
  {
    assert "Error: " + "Operation '" + "Verify partition: " == "Error: Operation 'Verify partition: ";
  }

  /** Partition results in submission order. */
  function PartitionResults(env: Environment, req: Request, columns: seq<string>, kind: StrategyKind,
                            config: VerificationConfig, partitions: seq<string>): (vs: seq<Verified>)
    ensures |vs| == |partitions|
    ensures forall i :: 0 <= i < |partitions| ==> vs[i] == PartitionResult(env, req, columns, kind, config, partitions[i])
  {
    seq(|partitions|, i requires 0 <= i < |partitions| => PartitionResult(env, req, columns, kind, config, partitions[i]))
  }

  /** `vs` are the results of the partitions `ps`, in order. */
  ghost predicate ResultsOf(vs: seq<Verified>, env: Environment, req: Request, columns: seq<string>, kind: StrategyKind,
                            config: VerificationConfig, ps: seq<string>)
  {
    && |vs| == |ps|
    && forall j {:trigger PartitionResult(env, req, columns, kind, config, ps[j])} :: 0 <= j < |ps| ==>
         vs[j] == PartitionResult(env, req, columns, kind, config, ps[j])
  }

  /** The futures collected in order: each result folded into the metrics. */
  function Collected(m: MetricsValue, vs: seq<Verified>): MetricsValue
  {
    if |vs| == 0 then m else Updated(Collected(m, vs[..|vs| - 1]), vs[|vs| - 1].result)
  }

  function StoredRows(vs: seq<Verified>): seq<Record>
  {
    if |vs| == 0 then [] else StoredRows(vs[..|vs| - 1]) + vs[|vs| - 1].stored
  }

  function SumRows(vs: seq<Verified>): int
  {
    if |vs| == 0 then 0 else SumRows(vs[..|vs| - 1]) + vs[|vs| - 1].result.baseRowCount
  }

  function SumDifferences(vs: seq<Verified>): int
  {
    if |vs| == 0 then 0 else SumDifferences(vs[..|vs| - 1]) + vs[|vs| - 1].result.differencesFound
  }

  /** The messages of the ERROR results, in order. */
  function ErrorsOf(vs: seq<Verified>): seq<Option<string>>
  {
    if |vs| == 0 then []
    else ErrorsOf(vs[..|vs| - 1]) + (if vs[|vs| - 1].result.status == Some(ERROR) then [vs[|vs| - 1].result.message] else [])
  }

  /**
   * Collecting n results adds n processed partitions, the results' base rows and differences,
   * and the ERROR results' messages in order; the start time is untouched.
   */
  lemma {:induction false} CollectedTotals(m: MetricsValue, vs: seq<Verified>)
    ensures var c := Collected(m, vs);
            && c.partitionsProcessed == m.partitionsProcessed + |vs|
            && c.totalRowsProcessed == m.totalRowsProcessed + SumRows(vs)
            && c.differencesFound == m.differencesFound + SumDifferences(vs)
            && c.errorMessages == m.errorMessages + ErrorsOf(vs)
            && c.startTime == m.startTime
    decreases |vs|
  {
    if |vs| > 0 {
      CollectedTotals(m, vs[..|vs| - 1]);
    }
  }

  /** After collecting, every result's partition has a recorded processing time. */
  lemma {:induction false} CollectedTimes(m: MetricsValue, vs: seq<Verified>)
    ensures forall i :: 0 <= i < |vs| ==> vs[i].result.partition.GetOr(NoPartition) in Collected(m, vs).partitionProcessingTimes
    decreases |vs|
  {
    if |vs| > 0 {
      CollectedTimes(m, vs[..|vs| - 1]);
      forall i | 0 <= i < |vs| - 1
        ensures vs[i].result.partition.GetOr(NoPartition) in Collected(m, vs).partitionProcessingTimes
      {
        assert vs[..|vs| - 1][i] == vs[i];
      }
    }
  }

  /**
   * Over settled results the summed differences are never negative, and a fold that recorded
   * no error and no difference saw only OK results.
   */
  lemma {:induction false} CleanFoldMeansAllOk(vs: seq<Verified>)
    requires forall i :: 0 <= i < |vs| ==> Settled(vs[i].result)
    ensures SumDifferences(vs) >= 0
    ensures ErrorsOf(vs) == [] && SumDifferences(vs) == 0 ==> forall i :: 0 <= i < |vs| ==> vs[i].result.status == Some(OK)
    decreases |vs|
  {
    if |vs| > 0 {
      var init := vs[..|vs| - 1];
      forall i | 0 <= i < |init|
        ensures Settled(init[i].result)
      {
        assert init[i] == vs[i];
      }
      CleanFoldMeansAllOk(init);
      if ErrorsOf(vs) == [] && SumDifferences(vs) == 0 {
        assert ErrorsOf(init) == [];
        forall i | 0 <= i < |vs|
          ensures vs[i].result.status == Some(OK)
        {
          if i < |init| {
            assert init[i] == vs[i];
          }
        }
      }
    }
  }

  lemma {:induction false} StoredRowsAppend(vs: seq<Verified>, v: Verified)
    ensures StoredRows(vs + [v]) == StoredRows(vs) + v.stored
  {
    assert (vs + [v])[..|vs|] == vs;
  }

  /** Slicing step for the submission loop. */
  lemma StoredRowsPrefix(vs: seq<Verified>, i: nat)
    requires i < |vs|
    ensures StoredRows(vs[..i + 1]) == StoredRows(vs[..i]) + vs[i].stored
  {
    assert vs[..i + 1][..i] == vs[..i];
  }

  // ---------------------------------------------------------------- the two paths

  /** newFixedThreadPool with no threads: an IllegalArgumentException without a message. */
  const PoolSizeRejected: JavaException := JavaException(IllegalArgumentException, None, None)

  /**
   * verifyPartitionedTable: list the partitions on the main connection, size the pool as
   * min(maxParallelPartitions, partition count), which must be positive, then verify every
   * partition and collect the results in submission order.
   */
  function PartitionedSpec(env: Environment, req: Request, columns: seq<string>, kind: StrategyKind,
                           config: VerificationConfig, m: MetricsValue): VerifyOutcome
  {
    match TMS.PartitionsSpec(env.engine, req.baseDatabase, req.tableName, req.whereCondition)
    case Failure(e) => VerifyOutcome(m, Some(e), [])
    case Success(partitions) =>
      if Min(config.maxParallelPartitions, |partitions|) <= 0 then VerifyOutcome(m, Some(PoolSizeRejected), [])
      else
        var vs := PartitionResults(env, req, columns, kind, config, partitions);
        VerifyOutcome(Collected(m, vs), None, StoredRows(vs))
  }

  /** One invocation of the non-partitioned callable: the strategy on the main connection. */
  function NormalAttemptOutcome(run: Run, req: Request, columns: seq<string>, kind: StrategyKind, sampleLimit: int)
    : Result<ResultValue, JavaException>
  {
    var o := RunStrategy(kind, run.engine, req.baseDatabase, req.targetDatabase, req.tableName, columns,
                         req.whereCondition, sampleLimit, run.clock);
    if o.thrown.Some? then Failure(o.thrown.value) else Success(o.result)
  }

  function NormalCall(env: Environment, req: Request, columns: seq<string>, kind: StrategyKind, sampleLimit: int)
    : nat -> Result<ResultValue, JavaException>
  {
    (k: nat) => NormalAttemptOutcome(env.normalRuns(k), req, columns, kind, sampleLimit)
  }

  /**
   * verifyNormalTable: retry the strategy; a final failure propagates. Otherwise the result is
   * tagged NO_PARTITION, folded into the metrics, then saved.
   */
  function NormalSpec(env: Environment, req: Request, columns: seq<string>, kind: StrategyKind,
                      config: VerificationConfig, m: MetricsValue): VerifyOutcome
  {
    var run := Retry.RetrySpec(NormalCall(env, req, columns, kind, config.sampleLimit), config.retryAttempts,
                               config.retryDelayMs, "Verify table: " + req.tableName);
    match run.outcome
    case Failure(e) => VerifyOutcome(m, Some(e), [])
    case Success(r0) =>
      var r := r0.(partition := Some(NoPartition));
      var m1 := Updated(m, r);
      match SaveOutcome(r, req.odate, req.mid, env.normalSink)
      case Threw(e) => VerifyOutcome(m1, Some(e), [])
      case Stored(record) => VerifyOutcome(m1, None, [record])
      case Swallowed => VerifyOutcome(m1, None, [])
  }

  /** The catch block of verifyTable: the message is recorded, the exception rethrown. */
  function Failing(m: MetricsValue, e: JavaException, stored: seq<Record>): VerifyOutcome
  {
    VerifyOutcome(m.(errorMessages := m.errorMessages + [e.message]), Some(e), stored)
  }

  /** verifyTable in the given world. */
  function VerifyTableSpec(env: Environment, req: Request, config: VerificationConfig): VerifyOutcome
  {
    var m0 := NewMetrics(env.now);
    match env.connection
    case Some(e) => Failing(m0, e, [])
    case None =>
      match TMS.AnalysisSpec(env.engine, req.baseDatabase, req.tableName, req.excludeColumns)
      case Failure(e) => Failing(m0, e, [])
      case Success(metadata) =>
        var kind := CreateStrategy(req.mode);
        var o := if metadata.partitioned then PartitionedSpec(env, req, metadata.columns, kind, config, m0)
                 else NormalSpec(env, req, metadata.columns, kind, config, m0);
        match o.thrown
        case Some(e) => Failing(o.metrics, e, o.stored)
        case None => o
  }

  // ---------------------------------------------------------------- properties

  /** A failing verification always leaves its exception's message as the last recorded error. */
  lemma FailureRecordedLast(env: Environment, req: Request, config: VerificationConfig)
    ensures var o := VerifyTableSpec(env, req, config);
            o.thrown.Some? ==> |o.metrics.errorMessages| > 0
                               && o.metrics.errorMessages[|o.metrics.errorMessages| - 1] == o.thrown.value.message
  {
  }

  /**
   * A partitioned table with no partitions to verify: the pool cannot be sized, nothing is
   * processed or saved, and the one recorded error is the exception's missing message.
   */
  lemma NoPartitionsRejected(env: Environment, req: Request, config: VerificationConfig)
    requires env.connection.None?
    requires var a := TMS.AnalysisSpec(env.engine, req.baseDatabase, req.tableName, req.excludeColumns);
             a.Success? && a.value.partitioned
    requires TMS.PartitionsSpec(env.engine, req.baseDatabase, req.tableName, req.whereCondition) == Success([])
    ensures var o := VerifyTableSpec(env, req, config);
            && o.thrown == Some(PoolSizeRejected) && o.stored == []
            && o.metrics.partitionsProcessed == 0 && o.metrics.errorMessages == [None]
  {
  }

  /**
   * A partitioned table with P partitions and a positive pool size: no exception, P units
   * processed, every partition's time recorded, rows and differences summed over the results,
   * and the errors are the ERROR results' messages in order.
   */
  lemma PartitionedTotals(env: Environment, req: Request, config: VerificationConfig, partitions: seq<string>)
    requires env.connection.None?
    requires var a := TMS.AnalysisSpec(env.engine, req.baseDatabase, req.tableName, req.excludeColumns);
             a.Success? && a.value.partitioned
    requires TMS.PartitionsSpec(env.engine, req.baseDatabase, req.tableName, req.whereCondition) == Success(partitions)
    requires config.maxParallelPartitions > 0 && |partitions| > 0
    ensures var o := VerifyTableSpec(env, req, config);
            var columns := TMS.AnalysisSpec(env.engine, req.baseDatabase, req.tableName, req.excludeColumns).value.columns;
            var vs := PartitionResults(env, req, columns, CreateStrategy(req.mode), config, partitions);
            && o.thrown == None
            && o.metrics.partitionsProcessed == |partitions|
            && o.metrics.totalRowsProcessed == SumRows(vs)
            && o.metrics.differencesFound == SumDifferences(vs)
            && o.metrics.errorMessages == ErrorsOf(vs)
            && (forall p :: p in partitions ==> p in o.metrics.partitionProcessingTimes)
            && o.stored == StoredRows(vs)
  {
    var columns := TMS.AnalysisSpec(env.engine, req.baseDatabase, req.tableName, req.excludeColumns).value.columns;
    var kind := CreateStrategy(req.mode);
    var vs := PartitionResults(env, req, columns, kind, config, partitions);
    var m0 := NewMetrics(env.now);
    CollectedTotals(m0, vs);
    CollectedTimes(m0, vs);
    forall p | p in partitions
      ensures p in Collected(m0, vs).partitionProcessingTimes
    {
      var i :| 0 <= i < |partitions| && partitions[i] == p;
      PartitionResultNamesPartition(env, req, columns, kind, config, p);
      assert vs[i].result.partition.GetOr(NoPartition) == p;
    }
  }

  /** A table without partitions that verifies: one unit processed, under NO_PARTITION, at most one row saved. */
  lemma NormalTableOnce(env: Environment, req: Request, config: VerificationConfig)
    requires env.connection.None?
    requires var a := TMS.AnalysisSpec(env.engine, req.baseDatabase, req.tableName, req.excludeColumns);
             a.Success? && !a.value.partitioned
    requires var columns := TMS.AnalysisSpec(env.engine, req.baseDatabase, req.tableName, req.excludeColumns).value.columns;
             Retry.RetrySpec(NormalCall(env, req, columns, CreateStrategy(req.mode), config.sampleLimit),
                             config.retryAttempts, config.retryDelayMs, "Verify table: " + req.tableName).outcome.Success?
    ensures var o := VerifyTableSpec(env, req, config);
            && o.metrics.partitionsProcessed == 1
            && NoPartition in o.metrics.partitionProcessingTimes
            && |o.stored| <= 1
            && (forall i :: 0 <= i < |o.stored| ==> o.stored[i].partitionKey == NoPartition)
  {
  }

  /** A table without partitions whose every attempt fails: the retry's exception propagates, nothing is processed or saved. */
  lemma NormalTableGivesUp(env: Environment, req: Request, config: VerificationConfig)
    requires env.connection.None?
    requires var a := TMS.AnalysisSpec(env.engine, req.baseDatabase, req.tableName, req.excludeColumns);
             a.Success? && !a.value.partitioned
    requires var columns := TMS.AnalysisSpec(env.engine, req.baseDatabase, req.tableName, req.excludeColumns).value.columns;
             Retry.RetrySpec(NormalCall(env, req, columns, CreateStrategy(req.mode), config.sampleLimit),
                             config.retryAttempts, config.retryDelayMs, "Verify table: " + req.tableName).outcome.Failure?
    ensures var columns := TMS.AnalysisSpec(env.engine, req.baseDatabase, req.tableName, req.excludeColumns).value.columns;
            var e := Retry.RetrySpec(NormalCall(env, req, columns, CreateStrategy(req.mode), config.sampleLimit),
                                     config.retryAttempts, config.retryDelayMs, "Verify table: " + req.tableName).outcome.error;
            var o := VerifyTableSpec(env, req, config);
            && o.thrown == Some(e) && o.stored == []
            && o.metrics.partitionsProcessed == 0 && o.metrics.errorMessages == [e.message]
  {
  }

  /**
   * A partition that verifies was verified by its last attempt: that attempt had a connection,
   * ran the strategy under the partition's filter without an exception, and the result is the
   * strategy's, tagged with the partition; the rows saved are those of that attempt's save.
   */
  lemma PartitionVerifiedWithFilter(env: Environment, req: Request, columns: seq<string>, kind: StrategyKind,
                                    config: VerificationConfig, partition: string)
    requires Retry.RetrySpec(PartitionCall(env, req, columns, kind, config.sampleLimit, partition),
                             config.retryAttempts, config.retryDelayMs, "Verify partition: " + partition).outcome.Success?
    ensures var k := Retry.RetrySpec(PartitionCall(env, req, columns, kind, config.sampleLimit, partition),
                                     config.retryAttempts, config.retryDelayMs, "Verify partition: " + partition).invocations;
            var a := env.partitionAttempts(partition, k);
            var o := RunStrategy(kind, a.run.engine, req.baseDatabase, req.targetDatabase, req.tableName, columns,
                                 TMS.PartitionFilter(Some(partition), req.whereCondition), config.sampleLimit, a.run.clock);
            var v := PartitionResult(env, req, columns, kind, config, partition);
            && 1 <= k <= config.retryAttempts
            && a.connection.None? && o.thrown.None?
            && v.result == o.result.(partition := Some(partition))
            && v.stored == StoredBy(a, req, v.result)
  {
    Retry.SuccessIsLastCall(PartitionCall(env, req, columns, kind, config.sampleLimit, partition),
                            config.retryAttempts, config.retryDelayMs, "Verify partition: " + partition);
  }

  /** No saved row is ever an ERROR result: error results are built only when the retry gives up, and those are not saved. */
  lemma {:induction false} StoredRowsNeverError(env: Environment, req: Request, columns: seq<string>, kind: StrategyKind,
                                                config: VerificationConfig, vs: seq<Verified>, partitions: seq<string>)
    requires vs == PartitionResults(env, req, columns, kind, config, partitions)
    ensures forall i :: 0 <= i < |StoredRows(vs)| ==> StoredRows(vs)[i].executionStatus in {"OK", "NOT_OK"}
    decreases |partitions|
  {
    if |partitions| > 0 {
      var n := |partitions| - 1;
      var init := PartitionResults(env, req, columns, kind, config, partitions[..n]);
      assert vs[..n] == init;
      StoredRowsNeverError(env, req, columns, kind, config, init, partitions[..n]);
      assert vs == init + [vs[n]];
      StoredRowsAppend(init, vs[n]);
      PartitionStoredStatus(env, req, columns, kind, config, partitions[n]);
    }
  }

  /** The row saved for a partition, if any, is the strategy's own OK or NOT_OK verdict. */
  lemma PartitionStoredStatus(env: Environment, req: Request, columns: seq<string>, kind: StrategyKind,
                              config: VerificationConfig, partition: string)
    ensures var v := PartitionResult(env, req, columns, kind, config, partition);
            forall i :: 0 <= i < |v.stored| ==> v.stored[i].executionStatus in {"OK", "NOT_OK"}
                                                && v.stored[i].partitionKey == partition
  {
    var call := PartitionCall(env, req, columns, kind, config.sampleLimit, partition);
    var run := Retry.RetrySpec(call, config.retryAttempts, config.retryDelayMs, "Verify partition: " + partition);
    if run.outcome.Success? {
      Retry.SuccessIsLastCall(call, config.retryAttempts, config.retryDelayMs, "Verify partition: " + partition);
      var a := env.partitionAttempts(partition, run.invocations);
      var filter := TMS.PartitionFilter(Some(partition), req.whereCondition);
      StrategyReturnStatus(kind, a.run.engine, req.baseDatabase, req.targetDatabase, req.tableName, columns, filter,
                           config.sampleLimit, a.run.clock);
    }
  }

  // ---------------------------------------------------------------- the service object

  class DataVerificationService {
    const config: VerificationConfig
    const repository: ResultRepository

    constructor (config: VerificationConfig, repository: ResultRepository)
      ensures this.config == config && this.repository == repository
    {
      this.config := config;
      this.repository := repository;
    }

    method UpdateMetrics(metrics: VerificationMetrics, result: VerificationResult)
      modifies metrics
      ensures metrics.Value() == Updated(old(metrics.Value()), result.Value())
    {
      metrics.AddRowsProcessed(result.baseRowCount);
      metrics.AddDifferences(result.differencesFound);
      metrics.IncrementPartitionsProcessed();
      metrics.RecordPartitionTime(if result.partition.Some? then result.partition.value else NoPartition,
                                  result.processingTimeMs);
      if result.status == Some(ERROR) {
        metrics.AddError(result.message);
      }
    }

    /** One invocation of the partition callable, with its effects: the result object and the save. */
    method AttemptPartition(a: Attempt, req: Request, columns: seq<string>, kind: StrategyKind, partition: string)
      returns (outcome: Result<VerificationResult, JavaException>)
      modifies repository
      ensures var o := AttemptOutcome(a, req, columns, kind, config.sampleLimit, partition);
              && outcome.Success? == o.Success?
              && (outcome.Success? ==> fresh(outcome.value) && outcome.value.Value() == o.value
                                       && repository.stored == old(repository.stored) + StoredBy(a, req, o.value))
              && (outcome.Failure? ==> outcome.error == o.error && repository.stored == old(repository.stored))
    {
      var partitionFilter := TMS.BuildPartitionFilter(Some(partition), req.whereCondition);
      if a.connection.Some? {
        return Failure(a.connection.value);
      }
      var result, thrown := CallStrategy(kind, a.run.engine, req.baseDatabase, req.targetDatabase, req.tableName,
                                         columns, partitionFilter, config.sampleLimit, a.run.clock);
      if thrown.Some? {
        return Failure(thrown.value);
      }
      result.SetPartition(Some(partition));
      var saveFailure := repository.Save(result, req.odate, req.mid, a.sink);
      if saveFailure.Some? {
        return Failure(saveFailure.value);
      }
      outcome := Success(result);
    }

    /**
     * verifyPartition. The retry loop runs over the invocations' outcomes; the effects of the
     * invocation that succeeded (its result object and its save) are then carried out. A failed
     * invocation stores nothing provided closing its connection does not fail, so under that
     * assumption no other effect is lost.
     */
    method VerifyPartition(env: Environment, req: Request, columns: seq<string>, kind: StrategyKind, partition: string)
      returns (result: VerificationResult)
      modifies repository
      ensures fresh(result)
      ensures var v := PartitionResult(env, req, columns, kind, config, partition);
              result.Value() == v.result && repository.stored == old(repository.stored) + v.stored
    {
      var call := PartitionCall(env, req, columns, kind, config.sampleLimit, partition);
      var run := Retry.ExecuteWithRetry(call, config.retryAttempts, config.retryDelayMs, "Verify partition: " + partition);
      if run.outcome.Success? {
        Retry.SuccessIsLastCall(call, config.retryAttempts, config.retryDelayMs, "Verify partition: " + partition);
        var attempt := AttemptPartition(env.partitionAttempts(partition, run.invocations), req, columns, kind, partition);
        result := attempt.value;
      } else {
        var e := run.outcome.error;
        var clock := env.errorClocks(partition);
        result := new VerificationResult(clock.started);
        result.SetTableName(Some(req.tableName));
        result.SetPartition(Some(partition));
        result.SetStatus(Some(ERROR));
        result.SetMessage(Some("Error: " + MessageText(e)));
        result.Complete(clock.finished);
      }
    }

    method VerifyPartitionedTable(metrics: VerificationMetrics, env: Environment, req: Request, columns: seq<string>,
                                  kind: StrategyKind)
      returns (thrown: Option<JavaException>)
      modifies metrics, repository
      ensures var o := PartitionedSpec(env, req, columns, kind, config, old(metrics.Value()));
              && metrics.Value() == o.metrics && thrown == o.thrown
              && repository.stored == old(repository.stored) + o.stored
    {
      var partitions := TMS.GetPartitions(env.engine, req.baseDatabase, req.tableName, req.whereCondition);
      if partitions.Failure? {
        return Some(partitions.error);
      }
      var ps := partitions.value;
      var threadPoolSize := Min(config.maxParallelPartitions, |ps|);
      if threadPoolSize <= 0 {
        return Some(PoolSizeRejected);
      }
      ghost var vs := PartitionResults(env, req, columns, kind, config, ps);
      var futures := SubmitAll(env, req, columns, kind, ps, vs);
      CollectResults(metrics, futures, vs);
      thrown := None;
    }

    /** The submission loop: one verifyPartition per partition, in order; `vs` names their results. */
    method SubmitAll(env: Environment, req: Request, columns: seq<string>, kind: StrategyKind, ps: seq<string>,
                     ghost vs: seq<Verified>)
      returns (futures: seq<VerificationResult>)
      requires ResultsOf(vs, env, req, columns, kind, config, ps)
      modifies repository
      ensures |futures| == |ps|
      ensures forall j :: 0 <= j < |ps| ==> futures[j].Value() == vs[j].result
      ensures repository.stored == old(repository.stored) + StoredRows(vs)
    {
      futures := [];
      for i := 0 to |ps|
        invariant |futures| == i
        invariant forall j :: 0 <= j < i ==> futures[j].Value() == vs[j].result
        invariant repository.stored == old(repository.stored) + StoredRows(vs[..i])
      {
        var future := SubmitOne(env, req, columns, kind, ps, vs, i);
        StoredRowsPrefix(vs, i);
        futures := futures + [future];
      }
      assert vs[..|ps|] == vs;
    }

    /** verifyPartition of the i-th partition, stated against its entry in `vs`. */
    method SubmitOne(env: Environment, req: Request, columns: seq<string>, kind: StrategyKind, ps: seq<string>,
                     ghost vs: seq<Verified>, i: int)
      returns (future: VerificationResult)
      requires ResultsOf(vs, env, req, columns, kind, config, ps) && 0 <= i < |ps|
      modifies repository
      ensures fresh(future)
      ensures future.Value() == vs[i].result && repository.stored == old(repository.stored) + vs[i].stored
    {
      future := VerifyPartition(env, req, columns, kind, ps[i]);
    }

    /** The collection loop: every future's result folded into the metrics, in order. */
    method CollectResults(metrics: VerificationMetrics, futures: seq<VerificationResult>, ghost vs: seq<Verified>)
      requires |futures| == |vs|
      requires forall j :: 0 <= j < |vs| ==> futures[j].Value() == vs[j].result
      modifies metrics
      ensures metrics.Value() == Collected(old(metrics.Value()), vs)
    {
      for i := 0 to |futures|
        invariant metrics.Value() == Collected(old(metrics.Value()), vs[..i])
      {
        UpdateMetrics(metrics, futures[i]);
        assert vs[..i + 1][..i] == vs[..i];
      }
      assert vs[..|vs|] == vs;
    }

    /** The non-partitioned path; as for partitions, the succeeding invocation's result object is then built. */
    method VerifyNormalTable(metrics: VerificationMetrics, env: Environment, req: Request, columns: seq<string>,
                             kind: StrategyKind)
      returns (thrown: Option<JavaException>)
      modifies metrics, repository
      ensures var o := NormalSpec(env, req, columns, kind, config, old(metrics.Value()));
              && metrics.Value() == o.metrics && thrown == o.thrown
              && repository.stored == old(repository.stored) + o.stored
    {
      var call := NormalCall(env, req, columns, kind, config.sampleLimit);
      var run := Retry.ExecuteWithRetry(call, config.retryAttempts, config.retryDelayMs, "Verify table: " + req.tableName);
      if run.outcome.Failure? {
        return Some(run.outcome.error);
      }
      Retry.SuccessIsLastCall(call, config.retryAttempts, config.retryDelayMs, "Verify table: " + req.tableName);
      var attempt := env.normalRuns(run.invocations);
      var result, strategyFailure := CallStrategy(kind, attempt.engine, req.baseDatabase, req.targetDatabase, req.tableName, columns,
                                    req.whereCondition, config.sampleLimit, attempt.clock);
      result.SetPartition(Some(NoPartition));
      UpdateMetrics(metrics, result);
      thrown := repository.Save(result, req.odate, req.mid, env.normalSink);
    }

    method VerifyTable(env: Environment, req: Request) returns (metrics: VerificationMetrics, thrown: Option<JavaException>)
      modifies repository
      ensures fresh(metrics)
      ensures var o := VerifyTableSpec(env, req, config);
              && metrics.Value() == o.metrics && thrown == o.thrown
              && repository.stored == old(repository.stored) + o.stored
    {
      metrics := new VerificationMetrics(env.now);
      if env.connection.Some? {
        metrics.AddError(env.connection.value.message);
        return metrics, env.connection;
      }
      var metadata := TMS.AnalyzeTable(env.engine, req.baseDatabase, req.tableName, req.excludeColumns);
      if metadata.Failure? {
        metrics.AddError(metadata.error.message);
        return metrics, Some(metadata.error);
      }
      var kind := CreateStrategy(req.mode);
      if metadata.value.partitioned {
        thrown := VerifyPartitionedTable(metrics, env, req, metadata.value.columns, kind);
      } else {
        thrown := VerifyNormalTable(metrics, env, req, metadata.value.columns, kind);
      }
      if thrown.Some? {
        metrics.AddError(thrown.value.message);
      }
    }
  }
}
