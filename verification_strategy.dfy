/**
 * What both comparison strategies share: the count query, the echo of the inputs onto a new
 * result, the count short-circuit, and the catch block that marks a result ERROR before the
 * exception is rethrown.
 */
module Strategy {
  import opened Wrappers
  import opened Types
  import opened Results
  import opened QueryEngine

  /**
   * What one verify call leaves behind: the final state of the result object it built, the
   * exception it rethrows (None when it returns normally), and the statements it sent, in order.
   */
  datatype StrategyOutcome = StrategyOutcome(result: ResultValue, thrown: Option<JavaException>, statements: seq<string>)

  /** Both row counts in one statement, the same filter on both sides. */
  function BuildCountQuery(baseDb: string, targetDb: string, table: string, where: string): string
  {
    "SELECT "
    + "  (SELECT COUNT(*) FROM " + baseDb + "." + table + " WHERE " + where + ") as base_count, "
    + "  (SELECT COUNT(*) FROM " + targetDb + "." + table + " WHERE " + where + ") as target_count"
  }

  /** columns.get(0) on an empty list. */
  const IndexZeroOfEmpty: JavaException :=
    JavaException(IndexOutOfBoundsException, Some("Index 0 out of bounds for length 0"), None)

  /** A new result created at `now` that carries the inputs and the strategy's mode. */
  function Echoed(table: string, baseDb: string, targetDb: string, where: string, mode: VerificationMode, now: int)
    : (r: ResultValue)
    ensures r.tableName == Some(table) && r.baseDatabase == Some(baseDb) && r.targetDatabase == Some(targetDb)
    ensures r.whereCondition == Some(where) && r.mode == Some(mode)
    ensures r.status == None && r.startTime == now && r.sampleDifferences == [] && r.differencesFound == 0
  {
    NewResult(now).(tableName := Some(table), baseDatabase := Some(baseDb), targetDatabase := Some(targetDb),
                    whereCondition := Some(where), mode := Some(mode))
  }

  /** The catch block: status ERROR, the message "Verification error: " + e.getMessage(), completed. */
  function Failed(r: ResultValue, e: JavaException, now: int): ResultValue
  {
    Completed(r.(status := Some(ERROR), message := Some("Verification error: " + MessageText(e))), now)
  }

  /** The fields that identify a comparison: its inputs, its mode and its start time. */
  predicate SameInputs(a: ResultValue, b: ResultValue)
  {
    a.tableName == b.tableName && a.baseDatabase == b.baseDatabase && a.targetDatabase == b.targetDatabase
    && a.whereCondition == b.whereCondition && a.mode == b.mode && a.startTime == b.startTime
  }

  /** The catch block and the count step leave the identifying fields alone. */
  lemma StepsKeepInputs(r: ResultValue, e: JavaException, row: Option<CountRow>, now: int)
    ensures SameInputs(r, Failed(r, e, now)) && Failed(r, e, now).endTime == Some(now)
    ensures SameInputs(r, CountPhase(r, row, now).result)
    ensures CountPhase(r, row, now).Decided? ==> CountPhase(r, row, now).result.endTime == Some(now)
  {
  }

  /** The count step either settles the comparison or lets it go on to the differencing queries. */
  datatype CountVerdict = Decided(result: ResultValue) | Proceed(result: ResultValue)

  /**
   * Step 1: without a count row nothing is recorded and the strategy goes on. With a row both
   * counts are recorded; different counts are NOT_OK with |base - target| differences, two
   * empty tables are OK, and equal non-zero counts go on.
   */
  function CountPhase(r: ResultValue, row: Option<CountRow>, now: int): CountVerdict
  {
    match row
    case None => Proceed(r)
    case Some(c) =>
      var counted := r.(baseRowCount := c.baseCount, targetRowCount := c.targetCount);
      if c.baseCount != c.targetCount then
        Decided(Completed(counted.(status := Some(NOT_OK), message := Some("Row count mismatch"),
                                   differencesFound := Abs(c.baseCount - c.targetCount)), now))
      else if c.baseCount == 0 then
        Decided(Completed(counted.(status := Some(OK), message := Some("Both tables are empty")), now))
      else Proceed(counted)
  }

  /**
   * The count step settles the comparison exactly when a row came back with different or zero
   * counts: different counts are NOT_OK "Row count mismatch" with |base - target| differences,
   * two zero counts are OK "Both tables are empty" with none; the samples are left alone.
   */
  lemma CountPhaseDecides(r: ResultValue, row: Option<CountRow>, now: int)
    requires r.status == None && r.differencesFound == 0
    ensures var v := CountPhase(r, row, now);
            && (v.Decided? <==> row.Some? && (row.value.baseCount != row.value.targetCount || row.value.baseCount == 0))
            && (row.Some? ==> v.result.baseRowCount == row.value.baseCount && v.result.targetRowCount == row.value.targetCount)
            && (row.None? ==> v.result == r)
            && (v.Decided? ==> v.result.endTime == Some(now) && v.result.processingTimeMs == now - r.startTime)
            && (v.Decided? ==> (v.result.status == Some(OK) <==> v.result.differencesFound == 0))
            && (row.Some? && row.value.baseCount != row.value.targetCount ==>
                  v.result.status == Some(NOT_OK) && v.result.message == Some("Row count mismatch")
                  && v.result.differencesFound == Abs(row.value.baseCount - row.value.targetCount))
            && (row.Some? && row.value.baseCount == 0 && row.value.targetCount == 0 ==>
                  v.result.status == Some(OK) && v.result.message == Some("Both tables are empty")
                  && v.result.differencesFound == 0)
            && v.result.sampleDifferences == r.sampleDifferences
            && (v.Proceed? ==> v.result.status == None && v.result == r.(baseRowCount := v.result.baseRowCount,
                                                                         targetRowCount := v.result.targetRowCount))
  {
  }

  /** The setters of the echo step on a new result. */
  method EchoInputs(result: VerificationResult, table: string, baseDb: string, targetDb: string, where: string,
                    mode: VerificationMode)
    modifies result
    ensures result.Value() == old(result.Value()).(tableName := Some(table), baseDatabase := Some(baseDb),
                                                   targetDatabase := Some(targetDb), whereCondition := Some(where),
                                                   mode := Some(mode))
  {
    result.SetTableName(Some(table));
    result.SetBaseDatabase(Some(baseDb));
    result.SetTargetDatabase(Some(targetDb));
    result.SetWhereCondition(Some(where));
    result.SetMode(Some(mode));
  }

  /** Step 1 on the result object; `decided` tells the strategy to return right away. */
  method ApplyCountPhase(result: VerificationResult, row: Option<CountRow>, now: int) returns (decided: bool)
    modifies result
    ensures decided == CountPhase(old(result.Value()), row, now).Decided?
    ensures result.Value() == CountPhase(old(result.Value()), row, now).result
  {
    decided := false;
    if row.Some? {
      var baseCount, targetCount := row.value.baseCount, row.value.targetCount;
      result.SetBaseRowCount(baseCount);
      result.SetTargetRowCount(targetCount);
      if baseCount != targetCount {
        result.SetStatus(Some(NOT_OK));
        result.SetMessage(Some("Row count mismatch"));
        result.SetDifferencesFound(Abs(baseCount - targetCount));
        result.Complete(now);
        decided := true;
      } else if baseCount == 0 {
        result.SetStatus(Some(OK));
        result.SetMessage(Some("Both tables are empty"));
        result.Complete(now);
        decided := true;
      }
    }
  }

  /** The catch block on the result object. */
  method MarkFailed(result: VerificationResult, e: JavaException, now: int)
    modifies result
    ensures result.Value() == Failed(old(result.Value()), e, now)
  {
    result.SetStatus(Some(ERROR));
    result.SetMessage(Some("Verification error: " + MessageText(e)));
    result.Complete(now);
  }
}
