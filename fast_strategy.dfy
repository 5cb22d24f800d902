/**
 * FAST mode: compare the row counts, then full-outer-join the two sides on a SHA fingerprint
 * of all compared columns and keep the rows that have no partner, at most sampleLimit of them.
 */
module FastStrategy {
  import opened Wrappers
  import opened Types
  import opened Results
  import opened QueryEngine
  import opened ResultSets
  import opened Strategy
  import JavaStrings

  /** Opening text of a fingerprint before its column list. */
  const HashOpen: string := "sha(CONCAT_WS('',"

  /** "a.c1", "a.c2", ... */
  function Qualified(alias: string, columns: seq<string>): (q: seq<string>)
    ensures |q| == |columns|
    ensures forall i :: 0 <= i < |columns| ==> q[i] == alias + "." + columns[i]
  {
    seq(|columns|, i requires 0 <= i < |columns| => alias + "." + columns[i])
  }

  /** sha(CONCAT_WS('',x.c1,...,x.cn)): the columns in order, comma-separated, no trailing comma. */
  function HashExpression(alias: string, columns: seq<string>): string
  {
    HashOpen + JavaStrings.Join(Qualified(alias, columns), ",") + "))"
  }

  function JoinQueryText(baseDb: string, targetDb: string, table: string, where: string, baseHash: string,
                         targetHash: string, firstColumn: string, limit: int): string
  {
    "SELECT * FROM "
    + "(SELECT * FROM " + baseDb + "." + table + " WHERE " + where + ") a "
    + "FULL OUTER JOIN "
    + "(SELECT * FROM " + targetDb + "." + table + " WHERE " + where + ") b "
    + "ON " + baseHash + " = " + targetHash + " "
    + "WHERE (a." + firstColumn + " IS NULL OR b." + firstColumn + " IS NULL) "
    + "LIMIT " + JavaStrings.IntToString(limit)
  }

  /**
   * buildFullOuterJoinQuery: base side aliased a, target side b, joined on their fingerprints,
   * unmatched rows recognised by a null first column, capped by the limit. An empty column
   * list fails at columns.get(0).
   */
  function FullOuterJoinQuery(baseDb: string, targetDb: string, table: string, columns: seq<string>, where: string,
                              limit: int): (q: Result<string, JavaException>)
    ensures q.Failure? <==> |columns| == 0
    ensures q.Failure? ==> q.error == IndexZeroOfEmpty
  {
    if |columns| == 0 then Failure(IndexZeroOfEmpty)
    else Success(JoinQueryText(baseDb, targetDb, table, where, HashExpression("a", columns),
                               HashExpression("b", columns), columns[0], limit))
  }

  lemma TerminatedQualifiedStep(alias: string, columns: seq<string>, i: nat)
    requires i < |columns|
    ensures JavaStrings.Terminated(Qualified(alias, columns[..i + 1]), ",")
         == JavaStrings.Terminated(Qualified(alias, columns[..i]), ",") + alias + "." + columns[i] + ","
  {
    assert Qualified(alias, columns[..i + 1])[..i] == Qualified(alias, columns[..i]);
  }

  /** The StringBuilder loop of one side: append x.c and a comma per column, then cut the last character. */
  method BuildHash(alias: string, columns: seq<string>) returns (hash: string)
    requires |columns| > 0
    ensures hash == HashExpression(alias, columns)
  {
    var sb := HashOpen;
    for i := 0 to |columns|
      invariant sb == HashOpen + JavaStrings.Terminated(Qualified(alias, columns[..i]), ",")
    {
      TerminatedQualifiedStep(alias, columns, i);
      sb := sb + alias + "." + columns[i] + ",";
    }
    assert columns[..|columns|] == columns;
    JavaStrings.TerminatedIsJoin(Qualified(alias, columns), ",");
    sb := sb[..|sb| - 1];
    assert sb == HashOpen + JavaStrings.Join(Qualified(alias, columns), ",");
    hash := sb + "))";
  }

  method BuildFullOuterJoinQuery(baseDb: string, targetDb: string, table: string, columns: seq<string>,
                                 where: string, limit: int)
    returns (q: Result<string, JavaException>)
    ensures q == FullOuterJoinQuery(baseDb, targetDb, table, columns, where, limit)
  {
    if |columns| == 0 {
      // the loop appends nothing and setLength cuts HashOpen's comma; then columns.get(0) throws
      return Failure(IndexZeroOfEmpty);
    }
    var baseHash := BuildHash("a", columns);
    var targetHash := BuildHash("b", columns);
    var firstColumn := columns[0];
    q := Success(JoinQueryText(baseDb, targetDb, table, where, baseHash, targetHash, firstColumn, limit));
  }

  /** When no column name contains a comma, the fingerprint's column list splits back into x.c1, ..., x.cn. */
  lemma HashCoversColumns(alias: string, columns: seq<string>)
    requires |columns| > 0
    requires ',' !in alias && forall i :: 0 <= i < |columns| ==> ',' !in columns[i]
    ensures JavaStrings.SplitAll(JavaStrings.Join(Qualified(alias, columns), ","), ',') == Qualified(alias, columns)
  {
    var q := Qualified(alias, columns);
    forall i | 0 <= i < |q|
      ensures ',' !in q[i]
    {
      assert q[i] == alias + "." + columns[i];
    }
    JavaStrings.SplitAllOfJoin(q, ',');
  }

  /** Step 2's verdict on the rendered join rows. */
  function JoinVerdict(r: ResultValue, samples: seq<string>): ResultValue
  {
    if |samples| == 0 then
      r.(status := Some(OK), message := Some("All rows match (SHA comparison)"), differencesFound := 0)
    else
      r.(status := Some(NOT_OK), message := Some("Found " + JavaStrings.IntToString(|samples|) + " sample differences"),
         differencesFound := |samples|, sampleDifferences := samples)
  }

  /** The join verdict leaves the identifying fields alone. */
  lemma JoinVerdictKeepsInputs(r: ResultValue, samples: seq<string>)
    ensures SameInputs(r, JoinVerdict(r, samples))
  {
  }

  /** FastVerificationStrategy.verify against the engine of one connection, created and completed at the clock's readings. */
  function FastVerify(engine: Engine, baseDb: string, targetDb: string, table: string, columns: seq<string>,
                      where: string, sampleLimit: int, clock: Clock): StrategyOutcome
  {
    var r0 := Echoed(table, baseDb, targetDb, where, FAST, clock.started);
    var countQuery := BuildCountQuery(baseDb, targetDb, table, where);
    match engine.counts(countQuery)
    case Failure(e) => StrategyOutcome(Failed(r0, e, clock.finished), Some(e), [countQuery])
    case Success(row) =>
      match CountPhase(r0, row, clock.finished)
      case Decided(r) => StrategyOutcome(r, None, [countQuery])
      case Proceed(r1) =>
        match FullOuterJoinQuery(baseDb, targetDb, table, columns, where, sampleLimit)
        case Failure(e) => StrategyOutcome(Failed(r1, e, clock.finished), Some(e), [countQuery])
        case Success(joinQuery) =>
          match engine.select(joinQuery)
          case Failure(e) => StrategyOutcome(Failed(r1, e, clock.finished), Some(e), [countQuery, joinQuery])
          case Success(rs) =>
            StrategyOutcome(Completed(JoinVerdict(r1, Rendered(rs)), clock.finished), None, [countQuery, joinQuery])
  }

  method Verify(engine: Engine, baseDb: string, targetDb: string, table: string, columns: seq<string>,
                where: string, sampleLimit: int, clock: Clock)
    returns (result: VerificationResult, thrown: Option<JavaException>, statements: seq<string>)
    ensures fresh(result)
    ensures StrategyOutcome(result.Value(), thrown, statements)
         == FastVerify(engine, baseDb, targetDb, table, columns, where, sampleLimit, clock)
  {
    result := new VerificationResult(clock.started);
    EchoInputs(result, table, baseDb, targetDb, where, FAST);
    assert result.Value() == Echoed(table, baseDb, targetDb, where, FAST, clock.started);
    var countQuery := BuildCountQuery(baseDb, targetDb, table, where);
    statements := [countQuery];
    var countRs := engine.counts(countQuery);
    if countRs.Failure? {
      MarkFailed(result, countRs.error, clock.finished);
      return result, Some(countRs.error), statements;
    }
    var decided := ApplyCountPhase(result, countRs.value, clock.finished);
    if decided {
      return result, None, statements;
    }
    var joinQuery := BuildFullOuterJoinQuery(baseDb, targetDb, table, columns, where, sampleLimit);
    if joinQuery.Failure? {
      MarkFailed(result, joinQuery.error, clock.finished);
      return result, Some(joinQuery.error), statements;
    }
    statements := statements + [joinQuery.value];
    var joinRs := engine.select(joinQuery.value);
    if joinRs.Failure? {
      MarkFailed(result, joinRs.error, clock.finished);
      return result, Some(joinRs.error), statements;
    }
    var sampleDifferences := ConvertToStringList(joinRs.value);
    if |sampleDifferences| == 0 {
      result.SetStatus(Some(OK));
      result.SetMessage(Some("All rows match (SHA comparison)"));
      result.SetDifferencesFound(0);
    } else {
      result.SetStatus(Some(NOT_OK));
      result.SetMessage(Some("Found " + JavaStrings.IntToString(|sampleDifferences|) + " sample differences"));
      result.SetDifferencesFound(|sampleDifferences|);
      result.SetSampleDifferences(sampleDifferences);
    }
    result.Complete(clock.finished);
    thrown := None;
  }

  // ---------------------------------------------------------------- properties

  /** Every outcome carries mode FAST and echoes the table, both databases and the filter. */
  lemma FastEchoesInputs(engine: Engine, baseDb: string, targetDb: string, table: string, columns: seq<string>,
                         where: string, sampleLimit: int, clock: Clock)
    ensures var r := FastVerify(engine, baseDb, targetDb, table, columns, where, sampleLimit, clock).result;
            && r.mode == Some(FAST) && r.tableName == Some(table) && r.baseDatabase == Some(baseDb)
            && r.targetDatabase == Some(targetDb) && r.whereCondition == Some(where)
            && r.startTime == clock.started && r.endTime == Some(clock.finished)
  {
    var r0 := Echoed(table, baseDb, targetDb, where, FAST, clock.started);
    var countQuery := BuildCountQuery(baseDb, targetDb, table, where);
    match engine.counts(countQuery)
    case Failure(e) => StepsKeepInputs(r0, e, None, clock.finished);
    case Success(row) =>
      StepsKeepInputs(r0, IndexZeroOfEmpty, row, clock.finished);
      match CountPhase(r0, row, clock.finished)
      case Decided(r) =>
      case Proceed(r1) =>
        match FullOuterJoinQuery(baseDb, targetDb, table, columns, where, sampleLimit)
        case Failure(e) => StepsKeepInputs(r1, e, None, clock.finished);
        case Success(joinQuery) =>
          match engine.select(joinQuery)
          case Failure(e) => StepsKeepInputs(r1, e, None, clock.finished);
          case Success(rs) => JoinVerdictKeepsInputs(r1, Rendered(rs));
  }

  /**
   * Different counts: NOT_OK, "Row count mismatch", |base - target| differences, both counts
   * recorded, and the count query is the only statement sent (no join).
   */
  lemma FastCountMismatch(engine: Engine, baseDb: string, targetDb: string, table: string, columns: seq<string>,
                          where: string, sampleLimit: int, clock: Clock, c: CountRow)
    requires engine.counts(BuildCountQuery(baseDb, targetDb, table, where)) == Success(Some(c))
    requires c.baseCount != c.targetCount
    ensures var o := FastVerify(engine, baseDb, targetDb, table, columns, where, sampleLimit, clock);
            && o.thrown == None && o.statements == [BuildCountQuery(baseDb, targetDb, table, where)]
            && o.result.status == Some(NOT_OK) && o.result.message == Some("Row count mismatch")
            && o.result.differencesFound == Abs(c.baseCount - c.targetCount) && o.result.differencesFound > 0
            && o.result.baseRowCount == c.baseCount && o.result.targetRowCount == c.targetCount
  {
  }

  /** Both counts 0: OK, "Both tables are empty", no differences, no join. */
  lemma FastBothEmpty(engine: Engine, baseDb: string, targetDb: string, table: string, columns: seq<string>,
                      where: string, sampleLimit: int, clock: Clock)
    requires engine.counts(BuildCountQuery(baseDb, targetDb, table, where)) == Success(Some(CountRow(0, 0)))
    ensures var o := FastVerify(engine, baseDb, targetDb, table, columns, where, sampleLimit, clock);
            && o.thrown == None && o.statements == [BuildCountQuery(baseDb, targetDb, table, where)]
            && o.result.status == Some(OK) && o.result.message == Some("Both tables are empty")
            && o.result.differencesFound == 0 && o.result.sampleDifferences == []
  {
  }

  /**
   * Equal non-zero counts (or no count row) and a join that answers: the verdict rests on the
   * rendered join rows alone. No rows is OK with 0 differences; k rows is NOT_OK with k
   * differences, the rows in order as samples, and "Found k sample differences".
   */
  lemma FastJoinVerdict(engine: Engine, baseDb: string, targetDb: string, table: string, columns: seq<string>,
                        where: string, sampleLimit: int, clock: Clock, rs: ResultSet)
    requires |columns| > 0
    requires var cr := engine.counts(BuildCountQuery(baseDb, targetDb, table, where));
             cr.Success? && (cr.value.None? || (cr.value.value.baseCount == cr.value.value.targetCount != 0))
    requires engine.select(FullOuterJoinQuery(baseDb, targetDb, table, columns, where, sampleLimit).value) == Success(rs)
    ensures var o := FastVerify(engine, baseDb, targetDb, table, columns, where, sampleLimit, clock);
            var k := |rs.rows|;
            && o.thrown == None && |o.statements| == 2
            && o.statements[1] == FullOuterJoinQuery(baseDb, targetDb, table, columns, where, sampleLimit).value
            && (k == 0 ==> o.result.status == Some(OK) && o.result.differencesFound == 0
                           && o.result.message == Some("All rows match (SHA comparison)"))
            && (k > 0 ==> o.result.status == Some(NOT_OK) && o.result.differencesFound == k
                          && o.result.sampleDifferences == Rendered(rs)
                          && o.result.message == Some("Found " + JavaStrings.IntToString(k) + " sample differences"))
  {
  }

  /** Any exception: the result is marked ERROR with the exception's message, and it is rethrown. */
  lemma FastFailureMarksError(engine: Engine, baseDb: string, targetDb: string, table: string, columns: seq<string>,
                              where: string, sampleLimit: int, clock: Clock)
    ensures var o := FastVerify(engine, baseDb, targetDb, table, columns, where, sampleLimit, clock);
            o.thrown.Some? ==> o.result.status == Some(ERROR)
                               && o.result.message == Some("Verification error: " + MessageText(o.thrown.value))
  {
  }

  /** A normal return is OK with no differences or NOT_OK with some, never ERROR. */
  lemma FastReturnStatus(engine: Engine, baseDb: string, targetDb: string, table: string, columns: seq<string>,
                         where: string, sampleLimit: int, clock: Clock)
    ensures var o := FastVerify(engine, baseDb, targetDb, table, columns, where, sampleLimit, clock);
            o.thrown.None? ==> (o.result.status == Some(OK) || o.result.status == Some(NOT_OK))
                               && (o.result.status == Some(OK) ==> o.result.differencesFound == 0)
                               && (o.result.status == Some(NOT_OK) ==> o.result.differencesFound > 0)
  {
  }
}
