/**
 * DETAILED mode: after two session settings and the count comparison, run EXCEPT in both
 * directions and report the rows found only in the base table and only in the target table,
 * each labelled with its side.
 */
module DetailedStrategy {
  import opened Wrappers
  import opened Types
  import opened Results
  import opened QueryEngine
  import opened ResultSets
  import opened Strategy
  import JavaStrings

  /** The two session settings sent before anything else. */
  const AdaptiveEnabled: string := "SET spark.sql.adaptive.enabled=true"
  const CoalesceEnabled: string := "SET spark.sql.adaptive.coalescePartitions.enabled=true"

  const BaseLabel: string := "[BASE ONLY] "
  const TargetLabel: string := "[TARGET ONLY] "

  /** One side of the EXCEPT: the compared columns of one table under the filter. */
  function ExceptSide(columnList: string, db: string, table: string, where: string): string
  {
    "SELECT " + columnList + " FROM " + db + "." + table + " WHERE " + where
  }

  /**
   * buildExceptQuery: the rows of sourceDb.table that exceptDb.table does not have, on the
   * comma-and-space separated columns, ordered by the first column and capped by the limit.
   * An empty column list fails at columns.get(0).
   */
  function ExceptQuery(sourceDb: string, exceptDb: string, table: string, columns: seq<string>, where: string,
                       limit: int): (q: Result<string, JavaException>)
    ensures q.Failure? <==> |columns| == 0
    ensures q.Failure? ==> q.error == IndexZeroOfEmpty
  {
    if |columns| == 0 then Failure(IndexZeroOfEmpty)
    else
      var columnList := JavaStrings.Join(columns, ", ");
      Success(ExceptSide(columnList, sourceDb, table, where) + " EXCEPT "
              + ExceptSide(columnList, exceptDb, table, where)
              + " ORDER BY " + columns[0] + " LIMIT " + JavaStrings.IntToString(limit))
  }

  /** replaceAll(s -> tag + s): every row keeps its place and gains the tag. */
  function Labelled(tag: string, rows: seq<string>): (l: seq<string>)
    ensures |l| == |rows|
    ensures forall i :: 0 <= i < |rows| ==> l[i] == tag + rows[i]
  {
    seq(|rows|, i requires 0 <= i < |rows| => tag + rows[i])
  }

  method PrefixAll(tag: string, rows: seq<string>) returns (labelled: seq<string>)
    ensures labelled == Labelled(tag, rows)
  {
    labelled := rows;
    var i := 0;
    while i < |labelled|
      invariant 0 <= i <= |labelled| == |rows|
      invariant forall j :: 0 <= j < i ==> labelled[j] == tag + rows[j]
      invariant forall j :: i <= j < |rows| ==> labelled[j] == rows[j]
    {
      labelled := labelled[i := tag + labelled[i]];
      i := i + 1;
    }
  }

  /** Step 4: both directions empty is OK; otherwise NOT_OK with both counts, and the labelled samples base first. */
  function ExceptVerdict(r: ResultValue, baseDifferences: seq<string>, targetDifferences: seq<string>): ResultValue
  {
    if |baseDifferences| == 0 && |targetDifferences| == 0 then
      r.(status := Some(OK), message := Some("All rows are identical"), differencesFound := 0)
    else
      var total := |baseDifferences| + |targetDifferences|;
      r.(status := Some(NOT_OK),
         message := Some("Found " + JavaStrings.IntToString(total) + " differences ("
                         + JavaStrings.IntToString(|baseDifferences|) + " in base, "
                         + JavaStrings.IntToString(|targetDifferences|) + " in target)"),
         differencesFound := total,
         sampleDifferences := Labelled(BaseLabel, baseDifferences) + Labelled(TargetLabel, targetDifferences))
  }

  /** DetailedVerificationStrategy.verify against the engine of one connection. */
  function DetailedVerify(engine: Engine, baseDb: string, targetDb: string, table: string, columns: seq<string>,
                          where: string, sampleLimit: int, clock: Clock): StrategyOutcome
  {
    var r0 := Echoed(table, baseDb, targetDb, where, DETAILED, clock.started);
    match engine.execute(AdaptiveEnabled)
    case Some(e) => StrategyOutcome(Failed(r0, e, clock.finished), Some(e), [AdaptiveEnabled])
    case None =>
      match engine.execute(CoalesceEnabled)
      case Some(e) => StrategyOutcome(Failed(r0, e, clock.finished), Some(e), [AdaptiveEnabled, CoalesceEnabled])
      case None =>
        var countQuery := BuildCountQuery(baseDb, targetDb, table, where);
        var sent := [AdaptiveEnabled, CoalesceEnabled, countQuery];
        match engine.counts(countQuery)
        case Failure(e) => StrategyOutcome(Failed(r0, e, clock.finished), Some(e), sent)
        case Success(row) =>
          match CountPhase(r0, row, clock.finished)
          case Decided(r) => StrategyOutcome(r, None, sent)
          case Proceed(r1) =>
            var o := ExceptPhase(engine, r1, baseDb, targetDb, table, columns, where, sampleLimit, clock.finished);
            o.(statements := sent + o.statements)
  }

  /** Steps 2 to 4, from a result that passed the count step; the statements are those of these steps. */
  function ExceptPhase(engine: Engine, r1: ResultValue, baseDb: string, targetDb: string, table: string,
                       columns: seq<string>, where: string, sampleLimit: int, now: int): StrategyOutcome
  {
    match ExceptQuery(baseDb, targetDb, table, columns, where, sampleLimit)
    case Failure(e) => StrategyOutcome(Failed(r1, e, now), Some(e), [])
    case Success(exceptQuery) =>
      match engine.select(exceptQuery)
      case Failure(e) => StrategyOutcome(Failed(r1, e, now), Some(e), [exceptQuery])
      case Success(baseRs) =>
        var reverseQuery := ExceptQuery(targetDb, baseDb, table, columns, where, sampleLimit).value;
        match engine.select(reverseQuery)
        case Failure(e) => StrategyOutcome(Failed(r1, e, now), Some(e), [exceptQuery, reverseQuery])
        case Success(targetRs) =>
          StrategyOutcome(Completed(ExceptVerdict(r1, Rendered(baseRs), Rendered(targetRs)), now), None,
                          [exceptQuery, reverseQuery])
  }

  /** The combined verdict leaves the identifying fields alone. */
  lemma ExceptVerdictKeepsInputs(r: ResultValue, baseDifferences: seq<string>, targetDifferences: seq<string>)
    ensures SameInputs(r, ExceptVerdict(r, baseDifferences, targetDifferences))
  {
  }

  /** Steps 2 to 4 leave the identifying fields alone and complete the result at `now`. */
  lemma ExceptPhaseKeepsInputs(engine: Engine, r1: ResultValue, baseDb: string, targetDb: string, table: string,
                               columns: seq<string>, where: string, sampleLimit: int, now: int)
    ensures var o := ExceptPhase(engine, r1, baseDb, targetDb, table, columns, where, sampleLimit, now);
            SameInputs(r1, o.result) && o.result.endTime == Some(now)
  {
    match ExceptQuery(baseDb, targetDb, table, columns, where, sampleLimit)
    case Failure(e) => StepsKeepInputs(r1, e, None, now);
    case Success(exceptQuery) =>
      match engine.select(exceptQuery)
      case Failure(e) => StepsKeepInputs(r1, e, None, now);
      case Success(baseRs) =>
        var reverseQuery := ExceptQuery(targetDb, baseDb, table, columns, where, sampleLimit).value;
        match engine.select(reverseQuery)
        case Failure(e) => StepsKeepInputs(r1, e, None, now);
        case Success(targetRs) => ExceptVerdictKeepsInputs(r1, Rendered(baseRs), Rendered(targetRs));
  }

  method Verify(engine: Engine, baseDb: string, targetDb: string, table: string, columns: seq<string>,
                where: string, sampleLimit: int, clock: Clock)
    returns (result: VerificationResult, thrown: Option<JavaException>, statements: seq<string>)
    ensures fresh(result)
    ensures StrategyOutcome(result.Value(), thrown, statements)
         == DetailedVerify(engine, baseDb, targetDb, table, columns, where, sampleLimit, clock)
  {
    result := new VerificationResult(clock.started);
    EchoInputs(result, table, baseDb, targetDb, where, DETAILED);
    assert result.Value() == Echoed(table, baseDb, targetDb, where, DETAILED, clock.started);
    statements := [AdaptiveEnabled];
    var failure := engine.execute(AdaptiveEnabled);
    if failure.None? {
      statements := statements + [CoalesceEnabled];
      failure := engine.execute(CoalesceEnabled);
    }
    if failure.Some? {
      MarkFailed(result, failure.value, clock.finished);
      return result, failure, statements;
    }
    var countQuery := BuildCountQuery(baseDb, targetDb, table, where);
    statements := statements + [countQuery];
    var countRs := engine.counts(countQuery);
    if countRs.Failure? {
      MarkFailed(result, countRs.error, clock.finished);
      return result, Some(countRs.error), statements;
    }
    var decided := ApplyCountPhase(result, countRs.value, clock.finished);
    if decided {
      return result, None, statements;
    }
    var phase: Option<JavaException>, sentHere: seq<string>;
    phase, sentHere := RunExcepts(result, engine, baseDb, targetDb, table, columns, where, sampleLimit, clock.finished);
    statements := statements + sentHere;
    thrown := phase;
  }

  /** Steps 2 to 4 on the result object. */
  method RunExcepts(result: VerificationResult, engine: Engine, baseDb: string, targetDb: string, table: string,
                    columns: seq<string>, where: string, sampleLimit: int, now: int)
    returns (thrown: Option<JavaException>, statements: seq<string>)
    modifies result
    ensures StrategyOutcome(result.Value(), thrown, statements)
         == ExceptPhase(engine, old(result.Value()), baseDb, targetDb, table, columns, where, sampleLimit, now)
  {
    statements := [];
    var exceptQuery := ExceptQuery(baseDb, targetDb, table, columns, where, sampleLimit);
    if exceptQuery.Failure? {
      MarkFailed(result, exceptQuery.error, now);
      return Some(exceptQuery.error), statements;
    }
    statements := [exceptQuery.value];
    var exceptRs := engine.select(exceptQuery.value);
    if exceptRs.Failure? {
      MarkFailed(result, exceptRs.error, now);
      return Some(exceptRs.error), statements;
    }
    var baseDifferences := ConvertToStringList(exceptRs.value);
    var reverseQuery := ExceptQuery(targetDb, baseDb, table, columns, where, sampleLimit).value;
    statements := statements + [reverseQuery];
    var reverseRs := engine.select(reverseQuery);
    if reverseRs.Failure? {
      MarkFailed(result, reverseRs.error, now);
      return Some(reverseRs.error), statements;
    }
    var targetDifferences := ConvertToStringList(reverseRs.value);
    ApplyExceptVerdict(result, baseDifferences, targetDifferences, now);
    thrown := None;
  }

  /** Step 4 on the result object: the verdict setters, the labelling of both lists, then complete(). */
  method ApplyExceptVerdict(result: VerificationResult, baseDifferences: seq<string>, targetDifferences: seq<string>,
                            now: int)
    modifies result
    ensures result.Value() == Completed(ExceptVerdict(old(result.Value()), baseDifferences, targetDifferences), now)
  {
    if |baseDifferences| == 0 && |targetDifferences| == 0 {
      result.SetStatus(Some(OK));
      result.SetMessage(Some("All rows are identical"));
      result.SetDifferencesFound(0);
    } else {
      result.SetStatus(Some(NOT_OK));
      var totalDifferences := |baseDifferences| + |targetDifferences|;
      result.SetMessage(Some("Found " + JavaStrings.IntToString(totalDifferences) + " differences ("
                             + JavaStrings.IntToString(|baseDifferences|) + " in base, "
                             + JavaStrings.IntToString(|targetDifferences|) + " in target)"));
      result.SetDifferencesFound(totalDifferences);
      var labelledBase := PrefixAll(BaseLabel, baseDifferences);
      var labelledTarget := PrefixAll(TargetLabel, targetDifferences);
      result.SetSampleDifferences(labelledBase + labelledTarget);
    }
    result.Complete(now);
  }

  // ---------------------------------------------------------------- properties

  /** Every outcome carries mode DETAILED and echoes the inputs; the session settings always go first. */
  lemma DetailedEchoesInputs(engine: Engine, baseDb: string, targetDb: string, table: string, columns: seq<string>,
                             where: string, sampleLimit: int, clock: Clock)
    ensures var o := DetailedVerify(engine, baseDb, targetDb, table, columns, where, sampleLimit, clock);
            && o.result.mode == Some(DETAILED) && o.result.tableName == Some(table)
            && o.result.baseDatabase == Some(baseDb) && o.result.targetDatabase == Some(targetDb)
            && o.result.whereCondition == Some(where) && o.result.endTime == Some(clock.finished)
            && 1 <= |o.statements| && o.statements[0] == AdaptiveEnabled
            && (|o.statements| >= 2 ==> o.statements[1] == CoalesceEnabled)
  {
    var r0 := Echoed(table, baseDb, targetDb, where, DETAILED, clock.started);
    var countQuery := BuildCountQuery(baseDb, targetDb, table, where);
    match engine.execute(AdaptiveEnabled)
    case Some(e) => StepsKeepInputs(r0, e, None, clock.finished);
    case None =>
      match engine.execute(CoalesceEnabled)
      case Some(e) => StepsKeepInputs(r0, e, None, clock.finished);
      case None =>
        match engine.counts(countQuery)
        case Failure(e) => StepsKeepInputs(r0, e, None, clock.finished);
        case Success(row) =>
          StepsKeepInputs(r0, IndexZeroOfEmpty, row, clock.finished);
          match CountPhase(r0, row, clock.finished)
          case Decided(r) =>
          case Proceed(r1) =>
            ExceptPhaseKeepsInputs(engine, r1, baseDb, targetDb, table, columns, where, sampleLimit, clock.finished);
  }

  /** Different counts settle the comparison before any EXCEPT query, as in FAST mode. */
  lemma DetailedCountMismatch(engine: Engine, baseDb: string, targetDb: string, table: string, columns: seq<string>,
                              where: string, sampleLimit: int, clock: Clock, c: CountRow)
    requires engine.execute(AdaptiveEnabled).None? && engine.execute(CoalesceEnabled).None?
    requires engine.counts(BuildCountQuery(baseDb, targetDb, table, where)) == Success(Some(c))
    requires c.baseCount != c.targetCount
    ensures var o := DetailedVerify(engine, baseDb, targetDb, table, columns, where, sampleLimit, clock);
            && o.thrown == None
            && o.statements == [AdaptiveEnabled, CoalesceEnabled, BuildCountQuery(baseDb, targetDb, table, where)]
            && o.result.status == Some(NOT_OK) && o.result.message == Some("Row count mismatch")
            && o.result.differencesFound == Abs(c.baseCount - c.targetCount)
            && o.result.baseRowCount == c.baseCount && o.result.targetRowCount == c.targetCount
  {
  }

  /** Both counts 0: OK, "Both tables are empty", no differences, and no EXCEPT query is sent. */
  lemma DetailedBothEmpty(engine: Engine, baseDb: string, targetDb: string, table: string, columns: seq<string>,
                          where: string, sampleLimit: int, clock: Clock)
    requires engine.execute(AdaptiveEnabled).None? && engine.execute(CoalesceEnabled).None?
    requires engine.counts(BuildCountQuery(baseDb, targetDb, table, where)) == Success(Some(CountRow(0, 0)))
    ensures var o := DetailedVerify(engine, baseDb, targetDb, table, columns, where, sampleLimit, clock);
            && o.thrown == None
            && o.statements == [AdaptiveEnabled, CoalesceEnabled, BuildCountQuery(baseDb, targetDb, table, where)]
            && o.result.status == Some(OK) && o.result.message == Some("Both tables are empty")
            && o.result.differencesFound == 0 && o.result.sampleDifferences == []
  {
  }

  /**
   * The combined verdict: the differences found are the rows of both directions together; OK
   * exactly when both are empty; the samples are the base-only rows, labelled and in order,
   * followed by the target-only rows, labelled and in order.
   */
  lemma ExceptVerdictCombines(r: ResultValue, baseDifferences: seq<string>, targetDifferences: seq<string>)
    ensures var v := ExceptVerdict(r, baseDifferences, targetDifferences);
            var a, b := |baseDifferences|, |targetDifferences|;
            && (v.status == Some(OK) <==> a == 0 && b == 0)
            && (a + b == 0 ==> v.message == Some("All rows are identical") && v.sampleDifferences == r.sampleDifferences)
            && v.differencesFound == a + b
            && (a + b > 0 ==> v.status == Some(NOT_OK)
                              && v.message == Some("Found " + JavaStrings.IntToString(a + b) + " differences ("
                                                   + JavaStrings.IntToString(a) + " in base, "
                                                   + JavaStrings.IntToString(b) + " in target)"))
            && (a + b > 0 ==> |v.sampleDifferences| == a + b
                              && (forall i :: 0 <= i < a ==> v.sampleDifferences[i] == BaseLabel + baseDifferences[i])
                              && (forall i :: 0 <= i < b ==> v.sampleDifferences[a + i] == TargetLabel + targetDifferences[i]))
  {
    var a := |baseDifferences|;
    if a + |targetDifferences| > 0 {
      var samples := ExceptVerdict(r, baseDifferences, targetDifferences).sampleDifferences;
      assert samples == Labelled(BaseLabel, baseDifferences) + Labelled(TargetLabel, targetDifferences);
      forall i | 0 <= i < |targetDifferences|
        ensures samples[a + i] == TargetLabel + targetDifferences[i]
      {
        assert samples[a + i] == Labelled(TargetLabel, targetDifferences)[i];
      }
    }
  }

  /** Both EXCEPT directions answered: the outcome is the combined verdict on their rendered rows, after five statements. */
  lemma DetailedExceptVerdict(engine: Engine, baseDb: string, targetDb: string, table: string, columns: seq<string>,
                              where: string, sampleLimit: int, clock: Clock, baseRs: ResultSet, targetRs: ResultSet)
    requires |columns| > 0
    requires engine.execute(AdaptiveEnabled).None? && engine.execute(CoalesceEnabled).None?
    requires var cr := engine.counts(BuildCountQuery(baseDb, targetDb, table, where));
             cr.Success? && (cr.value.None? || (cr.value.value.baseCount == cr.value.value.targetCount != 0))
    requires engine.select(ExceptQuery(baseDb, targetDb, table, columns, where, sampleLimit).value) == Success(baseRs)
    requires engine.select(ExceptQuery(targetDb, baseDb, table, columns, where, sampleLimit).value) == Success(targetRs)
    ensures var o := DetailedVerify(engine, baseDb, targetDb, table, columns, where, sampleLimit, clock);
            && o.thrown == None && |o.statements| == 5
            && o.statements[3] == ExceptQuery(baseDb, targetDb, table, columns, where, sampleLimit).value
            && o.statements[4] == ExceptQuery(targetDb, baseDb, table, columns, where, sampleLimit).value
            && o.statements[2] == BuildCountQuery(baseDb, targetDb, table, where)
            && var r0 := Echoed(table, baseDb, targetDb, where, DETAILED, clock.started);
               var r1 := CountPhase(r0, engine.counts(BuildCountQuery(baseDb, targetDb, table, where)).value, clock.finished).result;
               o.result == Completed(ExceptVerdict(r1, Rendered(baseRs), Rendered(targetRs)), clock.finished)
  {
    var r0 := Echoed(table, baseDb, targetDb, where, DETAILED, clock.started);
    var r1 := CountPhase(r0, engine.counts(BuildCountQuery(baseDb, targetDb, table, where)).value, clock.finished).result;
    var o := DetailedVerify(engine, baseDb, targetDb, table, columns, where, sampleLimit, clock);
    assert o.result == Completed(ExceptVerdict(r1, Rendered(baseRs), Rendered(targetRs)), clock.finished);
  }

  /** Any exception: the result is marked ERROR with the exception's message, and it is rethrown. */
  lemma DetailedFailureMarksError(engine: Engine, baseDb: string, targetDb: string, table: string,
                                  columns: seq<string>, where: string, sampleLimit: int, clock: Clock)
    ensures var o := DetailedVerify(engine, baseDb, targetDb, table, columns, where, sampleLimit, clock);
            o.thrown.Some? ==> o.result.status == Some(ERROR)
                               && o.result.message == Some("Verification error: " + MessageText(o.thrown.value))
  {
  }

  /** A normal return is OK with no differences or NOT_OK with some, never ERROR. */
  lemma DetailedReturnStatus(engine: Engine, baseDb: string, targetDb: string, table: string, columns: seq<string>,
                             where: string, sampleLimit: int, clock: Clock)
    ensures var o := DetailedVerify(engine, baseDb, targetDb, table, columns, where, sampleLimit, clock);
            o.thrown.None? ==> (o.result.status == Some(OK) || o.result.status == Some(NOT_OK))
                               && (o.result.status == Some(OK) ==> o.result.differencesFound == 0)
                               && (o.result.status == Some(NOT_OK) ==> o.result.differencesFound > 0)
  {
  }
}
