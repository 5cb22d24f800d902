/**
 * Run-level metrics of one table verification: three counters, the error messages in the
 * order they were reported (a message may be null), and the processing time per partition.
 * The getters hand out values, so a caller can never change the metrics through them.
 */
module Metrics {
  import opened Wrappers

  datatype MetricsValue = MetricsValue(
    startTime: int,
    totalRowsProcessed: int,
    differencesFound: int,
    partitionsProcessed: int,
    errorMessages: seq<Option<string>>,
    partitionProcessingTimes: map<string, int>)

  /** The state of a metrics object constructed at time `now`. */
  function NewMetrics(now: int): MetricsValue
  {
    MetricsValue(now, 0, 0, 0, [], map[])
  }

  class VerificationMetrics {
    const startTime: int
    var totalRowsProcessed: int
    var differencesFound: int
    var partitionsProcessed: int
    var errorMessages: seq<Option<string>>
    var partitionProcessingTimes: map<string, int>

    function Value(): MetricsValue
      reads this
    {
      MetricsValue(startTime, totalRowsProcessed, differencesFound, partitionsProcessed,
                   errorMessages, partitionProcessingTimes)
    }

    /** A new metrics object: all counters 0, no errors, no partition times. */
    constructor (now: int)
      ensures totalRowsProcessed == 0 && differencesFound == 0 && partitionsProcessed == 0
      ensures errorMessages == [] && partitionProcessingTimes == map[]
      ensures Value() == NewMetrics(now)
    {
      startTime := now;
      totalRowsProcessed, differencesFound, partitionsProcessed := 0, 0, 0;
      errorMessages := [];
      partitionProcessingTimes := map[];
    }

    method AddRowsProcessed(rows: int)
      modifies this
      ensures Value() == old(Value()).(totalRowsProcessed := old(totalRowsProcessed) + rows)
    {
      totalRowsProcessed := totalRowsProcessed + rows;
    }

    method AddDifferences(differences: int)
      modifies this
      ensures Value() == old(Value()).(differencesFound := old(differencesFound) + differences)
    {
      differencesFound := differencesFound + differences;
    }

    method IncrementPartitionsProcessed()
      modifies this
      ensures Value() == old(Value()).(partitionsProcessed := old(partitionsProcessed) + 1)
    {
      partitionsProcessed := partitionsProcessed + 1;
    }

    /** Appends at the end; the earlier messages stay where they were. */
    method AddError(error: Option<string>)
      modifies this
      ensures Value() == old(Value()).(errorMessages := old(errorMessages) + [error])
      ensures |errorMessages| == |old(errorMessages)| + 1 && errorMessages[..|old(errorMessages)|] == old(errorMessages)
    {
      errorMessages := errorMessages + [error];
    }

    /** Records (or overwrites) the time of one partition. */
    method RecordPartitionTime(partition: string, timeMs: int)
      modifies this
      ensures partition in partitionProcessingTimes && partitionProcessingTimes[partition] == timeMs
      ensures forall p :: p != partition ==> Lookup(partitionProcessingTimes, p) == Lookup(old(partitionProcessingTimes), p)
      ensures Value() == old(Value()).(partitionProcessingTimes := old(partitionProcessingTimes)[partition := timeMs])
    {
      partitionProcessingTimes := partitionProcessingTimes[partition := timeMs];
    }

    function GetTotalRowsProcessed(): int reads this { totalRowsProcessed }

    function GetDifferencesFound(): int reads this { differencesFound }

    function GetPartitionsProcessed(): int reads this { partitionsProcessed }

    /** A copy: sequences are values. */
    function GetErrorMessages(): seq<Option<string>> reads this { errorMessages }

    /** A copy: maps are values. */
    function GetPartitionProcessingTimes(): map<string, int> reads this { partitionProcessingTimes }
  }

  function Lookup(m: map<string, int>, k: string): Option<int>
  {
    if k in m then Some(m[k]) else None
  }
}
