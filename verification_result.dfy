/**
 * The result of verifying one table or partition. `ResultValue` is the state of a result
 * object at one moment; `VerificationResult` is the object itself, changed by its setters
 * and by `Complete`. Times are milliseconds read from an explicit clock.
 */
module Results {
  import opened Wrappers
  import opened Types

  datatype ResultValue = ResultValue(
    tableName: Option<string>,
    baseDatabase: Option<string>,
    targetDatabase: Option<string>,
    partition: Option<string>,
    status: Option<VerificationStatus>,
    message: Option<string>,
    baseRowCount: int,
    targetRowCount: int,
    differencesFound: int,
    sampleDifferences: seq<string>,
    startTime: int,
    endTime: Option<int>,
    processingTimeMs: int,
    whereCondition: Option<string>,
    mode: Option<VerificationMode>)

  /** A freshly constructed result, created at time `now`. */
  function NewResult(now: int): ResultValue
  {
    ResultValue(None, None, None, None, None, None, 0, 0, 0, [], now, None, 0, None, None)
  }

  /** The state after complete() at time `now`: the end time and the elapsed milliseconds are set. */
  function Completed(r: ResultValue, now: int): (c: ResultValue)
    ensures c.endTime == Some(now) && c.processingTimeMs == now - r.startTime
    ensures c.(endTime := r.endTime, processingTimeMs := r.processingTimeMs) == r
  {
    r.(endTime := Some(now), processingTimeMs := now - r.startTime)
  }

  class VerificationResult {
    var tableName: Option<string>
    var baseDatabase: Option<string>
    var targetDatabase: Option<string>
    var partition: Option<string>
    var status: Option<VerificationStatus>
    var message: Option<string>
    var baseRowCount: int
    var targetRowCount: int
    var differencesFound: int
    var sampleDifferences: seq<string>
    var startTime: int
    var endTime: Option<int>
    var processingTimeMs: int
    var whereCondition: Option<string>
    var mode: Option<VerificationMode>

    /** The object's fields as one value. */
    function Value(): ResultValue
      reads this
    {
      ResultValue(tableName, baseDatabase, targetDatabase, partition, status, message,
                  baseRowCount, targetRowCount, differencesFound, sampleDifferences,
                  startTime, endTime, processingTimeMs, whereCondition, mode)
    }

    /** A new result: empty sample list, zero counts, no status, started at `now`. */
    constructor (now: int)
      ensures sampleDifferences == [] && startTime == now
      ensures baseRowCount == 0 && targetRowCount == 0 && differencesFound == 0 && processingTimeMs == 0
      ensures status == None && message == None && partition == None && endTime == None
      ensures tableName == None && baseDatabase == None && targetDatabase == None
      ensures whereCondition == None && mode == None
      ensures Value() == NewResult(now)
    {
      tableName, baseDatabase, targetDatabase, partition := None, None, None, None;
      status, message := None, None;
      baseRowCount, targetRowCount, differencesFound := 0, 0, 0;
      sampleDifferences := [];
      startTime := now;
      endTime := None;
      processingTimeMs := 0;
      whereCondition, mode := None, None;
    }

    /** complete(): stamps the end time and the processing time; nothing else changes. */
    method Complete(now: int)
      modifies this
      ensures endTime == Some(now) && processingTimeMs == now - startTime
      ensures Value() == Completed(old(Value()), now)
    {
      endTime := Some(now);
      processingTimeMs := now - startTime;
    }

    method SetTableName(v: Option<string>)
      modifies this
      ensures Value() == old(Value()).(tableName := v)
    {
      tableName := v;
    }

    method SetBaseDatabase(v: Option<string>)
      modifies this
      ensures Value() == old(Value()).(baseDatabase := v)
    {
      baseDatabase := v;
    }

    method SetTargetDatabase(v: Option<string>)
      modifies this
      ensures Value() == old(Value()).(targetDatabase := v)
    {
      targetDatabase := v;
    }

    method SetPartition(v: Option<string>)
      modifies this
      ensures Value() == old(Value()).(partition := v)
    {
      partition := v;
    }

    method SetStatus(v: Option<VerificationStatus>)
      modifies this
      ensures Value() == old(Value()).(status := v)
    {
      status := v;
    }

    method SetMessage(v: Option<string>)
      modifies this
      ensures Value() == old(Value()).(message := v)
    {
      message := v;
    }

    method SetBaseRowCount(v: int)
      modifies this
      ensures Value() == old(Value()).(baseRowCount := v)
    {
      baseRowCount := v;
    }

    method SetTargetRowCount(v: int)
      modifies this
      ensures Value() == old(Value()).(targetRowCount := v)
    {
      targetRowCount := v;
    }

    method SetDifferencesFound(v: int)
      modifies this
      ensures Value() == old(Value()).(differencesFound := v)
    {
      differencesFound := v;
    }

    method SetSampleDifferences(v: seq<string>)
      modifies this
      ensures Value() == old(Value()).(sampleDifferences := v)
    {
      sampleDifferences := v;
    }

    method SetStartTime(v: int)
      modifies this
      ensures Value() == old(Value()).(startTime := v)
    {
      startTime := v;
    }

    method SetEndTime(v: Option<int>)
      modifies this
      ensures Value() == old(Value()).(endTime := v)
    {
      endTime := v;
    }

    method SetProcessingTimeMs(v: int)
      modifies this
      ensures Value() == old(Value()).(processingTimeMs := v)
    {
      processingTimeMs := v;
    }

    method SetWhereCondition(v: Option<string>)
      modifies this
      ensures Value() == old(Value()).(whereCondition := v)
    {
      whereCondition := v;
    }

    method SetMode(v: Option<VerificationMode>)
      modifies this
      ensures Value() == old(Value()).(mode := v)
    {
      mode := v;
    }
  }
}
