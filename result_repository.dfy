/**
 * Saving a result as one row of the verification_result table. The result database is seen
 * only through a Sink: whether a connection is obtained, and whether the insert of a given
 * row succeeds. Every SQL failure is logged and swallowed; a result without a status fails
 * with a NullPointerException, which propagates.
 */
module Repository {
  import opened Wrappers
  import opened Types
  import opened Results
  import JavaStrings

  /** The sixteen columns of one insert, in statement order. */
  datatype Record = Record(
    tableName: Option<string>,
    baseDatabaseName: Option<string>,
    targetDatabaseName: Option<string>,
    partitionKey: string,
    executionStatus: string,
    sampleData: Option<string>,
    startTime: int,
    endTime: Option<int>,
    processingTimeMs: int,
    baseRowCount: int,
    targetRowCount: int,
    differencesFound: int,
    whereCondition: Option<string>,
    verificationMode: string,
    odate: Option<string>,
    mid: Option<string>)

  /**
   * The result database at the time of one save. `connected` means that a connection was
   * obtained and the insert statement was prepared (a failure of either is swallowed before the
   * status is read); `accepts` says which inserts succeed.
   */
  datatype Sink = Sink(connected: bool, accepts: Record -> bool)

  /** At most this many samples are stored with a result. */
  const StoredSampleLimit: nat := 10
  const SampleHeader: string := "Sample differences:\n"
  const TruncationMarker: string := "... (truncated)"

  /**
   * formatSampleData: without samples, the message alone; otherwise the message, a blank line,
   * the header, the first ten samples one per line, and a marker when more were left out.
   */
  function SampleText(message: Option<string>, samples: seq<string>): Option<string>
  {
    if |samples| == 0 then message
    else
      var shown := samples[..Min(StoredSampleLimit, |samples|)];
      Some(JavaStrings.Str(message) + "\n\n" + SampleHeader + JavaStrings.Terminated(shown, "\n")
           + (if |samples| > StoredSampleLimit then TruncationMarker else ""))
  }

  method FormatSampleData(message: Option<string>, samples: seq<string>) returns (text: Option<string>)
    ensures text == SampleText(message, samples)
  {
    if |samples| == 0 {
      return message;
    }
    var header := JavaStrings.Str(message) + "\n\n" + SampleHeader;
    var sb := header;
    var count := 0;
    var i := 0;
    while i < |samples|
      invariant 0 <= i <= |samples| && count == i <= StoredSampleLimit
      invariant sb == header + JavaStrings.Terminated(samples[..i], "\n")
    {
      if count >= StoredSampleLimit {
        assert samples[..i] == samples[..Min(StoredSampleLimit, |samples|)];
        sb := sb + TruncationMarker;
        break;
      }
      count := count + 1;
      assert samples[..i + 1][..i] == samples[..i];
      sb := sb + samples[i] + "\n";
      i := i + 1;
    }
    if i == |samples| {
      assert samples[..i] == samples[..Min(StoredSampleLimit, |samples|)];
      assert sb == header + JavaStrings.Terminated(samples[..Min(StoredSampleLimit, |samples|)], "\n") + "";
    }
    text := Some(sb);
  }

  lemma {:induction false} TerminatedEndsWithSeparator(parts: seq<string>, sep: string)
    requires |parts| > 0 && |sep| > 0
    ensures var t := JavaStrings.Terminated(parts, sep);
            |t| >= |sep| && t[|t| - |sep|..] == sep
  {
    var t := JavaStrings.Terminated(parts, sep);
    var front := JavaStrings.Terminated(parts[..|parts| - 1], sep) + parts[|parts| - 1];
    assert t == front + sep;
    assert t[|front|..] == sep;
  }

  /**
   * With samples, the stored text ends in the truncation marker's ')' exactly when more than
   * ten samples exist, and in the newline after the tenth-or-last sample otherwise.
   */
  lemma SampleTextEnding(message: Option<string>, samples: seq<string>)
    requires |samples| > 0
    ensures var t := SampleText(message, samples).value;
            |t| > 0 && t[|t| - 1] == (if |samples| > StoredSampleLimit then ')' else '\n')
  {
    var shown := samples[..Min(StoredSampleLimit, |samples|)];
    var listed := JavaStrings.Terminated(shown, "\n");
    TerminatedEndsWithSeparator(shown, "\n");
    var front := JavaStrings.Str(message) + "\n\n" + SampleHeader;
    var t := SampleText(message, samples).value;
    if |samples| > StoredSampleLimit {
      assert t == (front + listed) + TruncationMarker;
    } else {
      assert t == front + listed;
      assert t[|t| - 1] == listed[|listed| - 1];
    }
  }

  /** The marker appears iff samples were cut: it is the text's ending exactly when more than ten exist. */
  lemma TruncatedIffMoreThanTen(message: Option<string>, samples: seq<string>)
    requires |samples| > 0
    ensures var t := SampleText(message, samples).value;
            (|t| >= |TruncationMarker| && t[|t| - |TruncationMarker|..] == TruncationMarker)
            <==> |samples| > StoredSampleLimit
  {
    SampleTextEnding(message, samples);
    var t := SampleText(message, samples).value;
    if |samples| > StoredSampleLimit {
      var front := JavaStrings.Str(message) + "\n\n" + SampleHeader
                   + JavaStrings.Terminated(samples[..StoredSampleLimit], "\n");
      assert t == front + TruncationMarker;
      assert t[|front|..] == TruncationMarker;
    }
  }

  /**
   * The stored listing loses nothing for short lists: when no sample holds a newline, the
   * listing after the header splits at newlines into the first min(10, n) samples and a
   * final empty field.
   */
  lemma StoredSamplesRecoverable(samples: seq<string>)
    requires |samples| > 0
    requires forall i :: 0 <= i < |samples| ==> '\n' !in samples[i]
    ensures var shown := samples[..Min(StoredSampleLimit, |samples|)];
            JavaStrings.SplitAll(JavaStrings.Terminated(shown, "\n"), '\n') == shown + [""]
  {
    var shown := samples[..Min(StoredSampleLimit, |samples|)];
    JavaStrings.TerminatedIsJoin(shown, "\n");
    JavaStrings.JoinAppend(shown, "", "\n");
    assert JavaStrings.Terminated(shown, "\n") == JavaStrings.Join(shown + [""], "\n");
    JavaStrings.SplitAllOfJoin(shown + [""], '\n');
  }

  /** The row save() inserts: the partition defaults to NO_PARTITION and the mode to FAST. */
  function RecordOf(r: ResultValue, odate: Option<string>, mid: Option<string>): Record
    requires r.status.Some?
  {
    Record(r.tableName, r.baseDatabase, r.targetDatabase, r.partition.GetOr(NoPartition),
           StatusName(r.status.value), SampleText(r.message, r.sampleDifferences), r.startTime, r.endTime,
           r.processingTimeMs, r.baseRowCount, r.targetRowCount, r.differencesFound, r.whereCondition,
           if r.mode.Some? then ModeName(r.mode.value) else "FAST", odate, mid)
  }

  /** getStatus().name() on a result without a status. */
  const NullStatus: JavaException := JavaException(NullPointerException, None, None)

  /** What one save does: a row is stored, a SQL failure is swallowed, or the missing status is thrown. */
  datatype SaveEffect = Stored(record: Record) | Swallowed | Threw(error: JavaException)

  /** The connection is obtained before any column is read, so without one even a status-less result is swallowed. */
  function SaveOutcome(r: ResultValue, odate: Option<string>, mid: Option<string>, sink: Sink): (e: SaveEffect)
    ensures e.Threw? <==> sink.connected && r.status.None?
    ensures e.Threw? ==> e.error.kind == NullPointerException
    ensures e.Stored? <==> sink.connected && r.status.Some? && sink.accepts(RecordOf(r, odate, mid))
    ensures e.Stored? ==> e.record == RecordOf(r, odate, mid)
  {
    if !sink.connected then Swallowed
    else if r.status.None? then Threw(NullStatus)
    else
      var record := RecordOf(r, odate, mid);
      if sink.accepts(record) then Stored(record) else Swallowed
  }

  /** A stored row carries the result's identity, counts, times and filter unchanged, and the status by name. */
  lemma StoredRecordFaithful(r: ResultValue, odate: Option<string>, mid: Option<string>, sink: Sink)
    requires SaveOutcome(r, odate, mid, sink).Stored?
    ensures var rec := SaveOutcome(r, odate, mid, sink).record;
            && rec.tableName == r.tableName && rec.baseDatabaseName == r.baseDatabase
            && rec.targetDatabaseName == r.targetDatabase
            && rec.partitionKey == (if r.partition.Some? then r.partition.value else NoPartition)
            && rec.executionStatus == StatusName(r.status.value)
            && rec.baseRowCount == r.baseRowCount && rec.targetRowCount == r.targetRowCount
            && rec.differencesFound == r.differencesFound && rec.whereCondition == r.whereCondition
            && rec.startTime == r.startTime && rec.endTime == r.endTime && rec.processingTimeMs == r.processingTimeMs
            && rec.verificationMode == (if r.mode.Some? then ModeName(r.mode.value) else "FAST")
            && rec.odate == odate && rec.mid == mid
  {
  }

  /** The result table, as the rows inserted so far. */
  class ResultRepository {
    var stored: seq<Record>

    constructor ()
      ensures stored == []
    {
      stored := [];
    }

    /** save(result, odate, mid): appends the row when it is stored; rethrows only the missing-status failure. */
    method Save(result: VerificationResult, odate: Option<string>, mid: Option<string>, sink: Sink)
      returns (thrown: Option<JavaException>)
      modifies this
      ensures var e := SaveOutcome(result.Value(), odate, mid, sink);
              && stored == old(stored) + (if e.Stored? then [e.record] else [])
              && thrown == (if e.Threw? then Some(e.error) else None)
    {
      thrown := None;
      if !sink.connected {
        return;
      }
      if result.status.None? {
        return Some(NullStatus);
      }
      var sampleData := FormatSampleData(result.message, result.sampleDifferences);
      var mode := if result.mode.Some? then ModeName(result.mode.value) else "FAST";
      var record := Record(result.tableName, result.baseDatabase, result.targetDatabase,
                           result.partition.GetOr(NoPartition), StatusName(result.status.value), sampleData,
                           result.startTime, result.endTime, result.processingTimeMs, result.baseRowCount,
                           result.targetRowCount, result.differencesFound, result.whereCondition, mode, odate, mid);
      if sink.accepts(record) {
        stored := stored + [record];
      }
    }
  }
}
