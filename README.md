# Spark data verifier — a Dafny model of its comparison core

The tool compares one table in two databases, such as a source and a migration target.
- It reads the table's columns, less an exclude list, and finds out whether the table is partitioned.
- It picks a strategy by mode:
  - FAST compares row counts, then compares SHA fingerprints of every row with a FULL OUTER JOIN;
  - DETAILED compares row counts, then runs EXCEPT in both directions and reports the rows found on one side only, labelled with their side.
- It verifies every partition under a partition filter, or the whole table once. Every attempt runs under a retry helper with linear backoff.
- It folds each result into a metrics aggregate and saves it as one row of a result table.
- The exit code is derived from the metrics.

The model is written in Dafny in the program's own form:
- Objects updated in place are classes: the verification result, the metrics, the result repository and the service. The verification result and the metrics each have a `Value()` snapshot of their fields. The repository's state is its list of stored rows. The service holds only constants.
- Loops are methods with loop invariants.
- Each imperative operation is proved equal to a pure specification function. The promised properties are lemmas about those functions.

The outside world is modelled as values:
- **SQL engine** (`QueryEngine.Engine`): for each statement text, the answer it gives or the exception it throws.
- **Retry callable**: the outcome of its k-th invocation.
- **Result database**: a `Repository.Sink` that says whether a connection is obtained and which inserts succeed.
- **Per-attempt world**: the engine and clock each attempt sees, in `Service.Environment`.

Modules follow the source files:

| module | models |
|---|---|
| `Wrappers`, `JavaStrings`, `JavaLists`, `Types` | `Option`/`Result`; Java's `String.split` (trailing empty fields dropped), `String.join`, `trim`, case mapping, `removeIf`; the enums, `VerificationConfig`, `TableMetadata`, exceptions |
| `Results`, `Metrics` | `VerificationResult`, `VerificationMetrics` |
| `Retry`, `ResultSets` | `RetryHelper`, `ResultSetConverter` |
| `QueryEngine`, `TableMetadataService` | the SQL engine as an oracle; `TableMetadataService` |
| `Strategy`, `FastStrategy`, `DetailedStrategy` | what both strategies share; `FastVerificationStrategy`; `DetailedVerificationStrategy` |
| `Repository`, `Service`, `Application` | `ResultRepository`; `DataVerificationService`; `DataVerificationApplication` |

Where a description of the tool and its code differ, the model follows the code:
- The retry helper backs off linearly (wait `delayMs * attempt`), not exponentially.
- An ERROR result built when a partition gives up is not saved.
- The statuses are `OK`/`NOT_OK`/`ERROR`.
- A partitioned table with no partitions makes the thread-pool constructor throw, and that exception is recorded and rethrown.

## Model

| member | source | states |
|---|---|---|
| Types.ModeValueOf | src/main/java/com/dataverification/DataVerificationApplication.java:41-43 | `VerificationMode.valueOf` succeeds exactly for "FAST" and "DETAILED", and the mode found has that name |
| Results.Completed | src/main/java/com/dataverification/model/VerificationResult.java:32-35 | completion sets the end time to the clock and `processingTimeMs` to end − start, and changes no other field |
| Results.VerificationResult.constructor | src/main/java/com/dataverification/model/VerificationResult.java:11-30 | a new result has an empty sample list, starts at the clock, has zero counts and differences, and no status, message, partition, end time, names, filter or mode |
| Results.VerificationResult.Complete | src/main/java/com/dataverification/model/VerificationResult.java:32-35 | the object's new state is the completed snapshot: end time and processing time set, nothing else changed |
| Results.VerificationResult.SetTableName | src/main/java/com/dataverification/model/VerificationResult.java:42-44 | only the table name changes |
| Results.VerificationResult.SetBaseDatabase | src/main/java/com/dataverification/model/VerificationResult.java:50-52 | only the base database changes |
| Results.VerificationResult.SetTargetDatabase | src/main/java/com/dataverification/model/VerificationResult.java:58-60 | only the target database changes |
| Results.VerificationResult.SetPartition | src/main/java/com/dataverification/model/VerificationResult.java:66-68 | only the partition changes |
| Results.VerificationResult.SetStatus | src/main/java/com/dataverification/model/VerificationResult.java:74-76 | only the status changes |
| Results.VerificationResult.SetMessage | src/main/java/com/dataverification/model/VerificationResult.java:82-84 | only the message changes |
| Results.VerificationResult.SetBaseRowCount | src/main/java/com/dataverification/model/VerificationResult.java:90-92 | only the base row count changes |
| Results.VerificationResult.SetTargetRowCount | src/main/java/com/dataverification/model/VerificationResult.java:98-100 | only the target row count changes |
| Results.VerificationResult.SetDifferencesFound | src/main/java/com/dataverification/model/VerificationResult.java:106-108 | only the difference count changes |
| Results.VerificationResult.SetSampleDifferences | src/main/java/com/dataverification/model/VerificationResult.java:114-116 | only the sample list changes |
| Results.VerificationResult.SetStartTime | src/main/java/com/dataverification/model/VerificationResult.java:122-124 | only the start time changes |
| Results.VerificationResult.SetEndTime | src/main/java/com/dataverification/model/VerificationResult.java:130-132 | only the end time changes |
| Results.VerificationResult.SetProcessingTimeMs | src/main/java/com/dataverification/model/VerificationResult.java:138-140 | only the processing time changes |
| Results.VerificationResult.SetWhereCondition | src/main/java/com/dataverification/model/VerificationResult.java:146-148 | only the filter changes |
| Results.VerificationResult.SetMode | src/main/java/com/dataverification/model/VerificationResult.java:154-156 | only the mode changes |
| Metrics.VerificationMetrics.constructor | src/main/java/com/dataverification/model/VerificationMetrics.java:20-27 | fresh metrics: all counters 0, no errors, no partition times |
| Metrics.VerificationMetrics.AddRowsProcessed | src/main/java/com/dataverification/model/VerificationMetrics.java:29-31 | adds exactly its argument to the row counter; nothing else changes |
| Metrics.VerificationMetrics.AddDifferences | src/main/java/com/dataverification/model/VerificationMetrics.java:33-35 | adds exactly its argument to the difference counter; nothing else changes |
| Metrics.VerificationMetrics.IncrementPartitionsProcessed | src/main/java/com/dataverification/model/VerificationMetrics.java:37-39 | adds exactly 1 to the partition counter; nothing else changes |
| Metrics.VerificationMetrics.AddError | src/main/java/com/dataverification/model/VerificationMetrics.java:41-43 | appends the (possibly null) message at the end and keeps every earlier entry |
| Metrics.VerificationMetrics.RecordPartitionTime | src/main/java/com/dataverification/model/VerificationMetrics.java:45-47 | afterwards the partition maps to the time, overwriting an earlier entry, and every other partition's time is unchanged |
| Retry.ExecuteWithRetry | src/main/java/com/dataverification/util/RetryHelper.java:23-54 | the loop's outcome, invocation count and waits equal the retry specification |
| Retry.ExecuteWithRetryDefaults | src/main/java/com/dataverification/util/RetryHelper.java:59-61 | the two-argument overload is 3 attempts with a 1000 ms base delay |
| Retry.FirstSuccessWins | src/main/java/com/dataverification/util/RetryHelper.java:31-43 | if attempts 1..k−1 fail and attempt k ≤ max succeeds, the result is attempt k's value, the callable ran exactly k times, and the waits were delay·1, …, delay·(k−1) |
| Retry.AllAttemptsFail | src/main/java/com/dataverification/util/RetryHelper.java:31-53 | when every attempt fails: max invocations, max−1 linear waits with none after the last, and the exception "Operation '<name>' failed after <max> attempts" with the last failure as cause |
| Retry.SuccessIsLastCall | src/main/java/com/dataverification/util/RetryHelper.java:31-34 | a successful retry returns the outcome of its last invocation, which is within the bound, and every earlier invocation failed |
| Retry.NoAttempts | src/main/java/com/dataverification/util/RetryHelper.java:29-53 | with max ≤ 0 the callable is never invoked, nothing waits, and the exception has no cause |
| Retry.InvocationsBounded | src/main/java/com/dataverification/util/RetryHelper.java:31 | the callable is invoked at most max times (0 when max ≤ 0) |
| Retry.WaitsIncrease | src/main/java/com/dataverification/util/RetryHelper.java:40-43 | with a positive delay the successive waits strictly increase |
| Retry.NegativeDelayStopsAfterFirstFailure | src/main/java/com/dataverification/util/RetryHelper.java:40-43 | with a negative delay the first failed attempt ends the loop: `Thread.sleep` throws IllegalArgumentException |
| ResultSets.RenderCell | src/main/java/com/dataverification/util/ResultSetConverter.java:32-44 | BLOB, BINARY, VARBINARY and LONGVARBINARY cells render as "[BLOB]" whatever their value; other cells render as their value, or "[NULL]" when null |
| ResultSets.RenderCells | src/main/java/com/dataverification/util/ResultSetConverter.java:31-47 | one rendered cell per column, in column order |
| ResultSets.RenderedRows | src/main/java/com/dataverification/util/ResultSetConverter.java:28-50 | one line per row, in row order |
| ResultSets.ConvertToStringList | src/main/java/com/dataverification/util/ResultSetConverter.java:23-53 | exactly one string per row, in row order, each the row's rendered cells joined by a tab |
| ResultSets.GetColumnNames | src/main/java/com/dataverification/util/ResultSetConverter.java:58-67 | one name per column, in column order |
| ResultSets.RowSplitsIntoCells | src/main/java/com/dataverification/util/ResultSetConverter.java:29-49 | when no value holds a tab, splitting a row's line at tabs gives back exactly its rendered cells |
| TableMetadataService.GetColumns | src/main/java/com/dataverification/service/TableMetadataService.java:54-91 | the read loop and the `removeIf` pass compute the column specification |
| TableMetadataService.SurvivingMembers | src/main/java/com/dataverification/service/TableMetadataService.java:74-84 | a column survives iff it was listed and its lower-cased, trimmed name is not an exclude entry |
| TableMetadataService.SurvivingAppend | src/main/java/com/dataverification/service/TableMetadataService.java:74-84 | exclusion works column by column, so survivors keep their spelling and relative order |
| TableMetadataService.BlankExcludesRemoveNothing | src/main/java/com/dataverification/service/TableMetadataService.java:73-88 | a null or blank exclude list removes nothing; the only failure is a table without columns |
| TableMetadataService.ExclusionOutcome | src/main/java/com/dataverification/service/TableMetadataService.java:73-90 | exclusion fails with IllegalStateException "No columns to compare after exclusions" iff nothing survives; otherwise there is at least one column, every column was listed, and none is excluded |
| TableMetadataService.PaddedEntryExcludesNothing | src/main/java/com/dataverification/service/TableMetadataService.java:74-82 | an exclude entry with a leading or trailing blank (as after "a, b") matches no column, since entries are not trimmed |
| TableMetadataService.PartitionedSpec | src/main/java/com/dataverification/service/TableMetadataService.java:96-109 | partitioned iff the partition listing has a row; a listing that throws SQLException means "not partitioned", not an error |
| TableMetadataService.KeysOfSegments | src/main/java/com/dataverification/service/TableMetadataService.java:130-135 | segment i gives level i+1 exactly when it splits on '=' into two fields, keyed by the field before '='; there are no other levels |
| TableMetadataService.GetPartitionKeys | src/main/java/com/dataverification/service/TableMetadataService.java:114-140 | the loop computes the keys of the first listed partition; no keys when nothing is listed |
| TableMetadataService.KeysOfDescriptor | src/main/java/com/dataverification/service/TableMetadataService.java:125-136 | for "k1=v1/…/kn=vn" of plain pairs, the levels are exactly 1..n and level i is ki |
| TableMetadataService.TwoLevelKeys | src/main/java/com/dataverification/service/TableMetadataService.java:125-136 | "year=2025/month=01"-shaped partitions give {1: year, 2: month} |
| TableMetadataService.TwoLevelDescriptors | src/main/java/com/dataverification/service/TableMetadataService.java:174-182 | one "k1=v1/k2=v2" per distinct row, in row order |
| TableMetadataService.OneLevelDescriptors | src/main/java/com/dataverification/service/TableMetadataService.java:195-201 | one "k1=v1" per distinct row, in row order |
| TableMetadataService.CollectTwoLevel | src/main/java/com/dataverification/service/TableMetadataService.java:174-182 | the row loop appends the two-level descriptors in row order |
| TableMetadataService.CollectOneLevel | src/main/java/com/dataverification/service/TableMetadataService.java:195-201 | the row loop appends the one-level descriptors in row order |
| TableMetadataService.GetPartitions | src/main/java/com/dataverification/service/TableMetadataService.java:146-207 | the method computes the partition specification |
| TableMetadataService.PartitionsWithoutKeys | src/main/java/com/dataverification/service/TableMetadataService.java:157-158 | with neither a level-1 nor a level-2 key, the listing is empty |
| TableMetadataService.TwoLevelPartitions | src/main/java/com/dataverification/service/TableMetadataService.java:162-183 | with a level-2 key: exactly one "k1=v1/k2=v2" per distinct row, in row order (null renders as "null"), and a failing query fails the listing with its exception |
| TableMetadataService.OneLevelPartitions | src/main/java/com/dataverification/service/TableMetadataService.java:184-202 | with only a level-1 key: exactly one "k1=v1" per distinct row, in row order, and a failing query fails the listing |
| TableMetadataService.BuildPartitionFilter | src/main/java/com/dataverification/service/TableMetadataService.java:212-230 | the condition loop computes the filter specification |
| TableMetadataService.NoPartitionKeepsFilter | src/main/java/com/dataverification/service/TableMetadataService.java:212-215 | a null partition and "NO_PARTITION" return the base filter unchanged |
| TableMetadataService.ConditionsAppend | src/main/java/com/dataverification/service/TableMetadataService.java:221-226 | each segment contributes its condition independently, in segment order |
| TableMetadataService.MalformedSegmentDropped | src/main/java/com/dataverification/service/TableMetadataService.java:222-225 | a segment that does not split on '=' into exactly two fields contributes nothing |
| TableMetadataService.EmptyValueDropsCondition | src/main/java/com/dataverification/service/TableMetadataService.java:218-229 | "k=" splits into one field, so it is dropped and the filter is " AND " + base |
| TableMetadataService.ConditionsOfSegments | src/main/java/com/dataverification/service/TableMetadataService.java:221-226 | plain pairs give exactly their "k='v'" conditions, in descriptor order |
| TableMetadataService.FilterOfDescriptor | src/main/java/com/dataverification/service/TableMetadataService.java:218-229 | "k1=v1/…/kn=vn" gives "k1='v1' AND … AND kn='vn' AND " + base |
| TableMetadataService.OneLevelPartitionFilter | src/main/java/com/dataverification/service/TableMetadataService.java:218-229 | the filter of a listed one-level partition is its single condition followed by " AND " + base |
| TableMetadataService.TwoPairFilter | src/main/java/com/dataverification/service/TableMetadataService.java:218-229 | "k1=v1/k2=v2" gives "k1='v1' AND k2='v2' AND " + base |
| TableMetadataService.TwoLevelPartitionFilter | src/main/java/com/dataverification/service/TableMetadataService.java:178-179 | the filter of a listed two-level partition is its two conditions followed by " AND " + base |
| TableMetadataService.AnalyzeTable | src/main/java/com/dataverification/service/TableMetadataService.java:22-49 | the method computes the analysis specification |
| TableMetadataService.AnalysisFacts | src/main/java/com/dataverification/service/TableMetadataService.java:22-49 | a successful analysis carries the given names and at least one listed column, is partitioned iff SHOW PARTITIONS lists a row, and has no keys when not partitioned |
| Strategy.Echoed | src/main/java/com/dataverification/strategy/FastVerificationStrategy.java:34-40 | a new result carries the table, both databases, the filter and the mode, has no status or samples, and starts at the clock |
| Strategy.CountPhaseDecides | src/main/java/com/dataverification/strategy/FastVerificationStrategy.java:48-70 | the count step settles the comparison iff a row came back with different or zero counts; with a row both counts are recorded; different counts give NOT_OK "Row count mismatch" with |base − target| differences; two zero counts give OK "Both tables are empty" with 0 differences; a settled result is completed and is OK iff it has no differences; the samples are untouched |
| Strategy.ApplyCountPhase | src/main/java/com/dataverification/strategy/DetailedVerificationStrategy.java:52-74 | the count step's setters produce the count verdict and report whether to return early |
| Strategy.EchoInputs | src/main/java/com/dataverification/strategy/DetailedVerificationStrategy.java:36-40 | only the echoed inputs change |
| Strategy.MarkFailed | src/main/java/com/dataverification/strategy/DetailedVerificationStrategy.java:117-123 | the catch block sets ERROR and "Verification error: " + the message, and completes the result |
| FastStrategy.Qualified | src/main/java/com/dataverification/strategy/FastVerificationStrategy.java:125-128 | one "alias.column" per column, in column order |
| FastStrategy.FullOuterJoinQuery | src/main/java/com/dataverification/strategy/FastVerificationStrategy.java:117-154 | building the join query fails iff there are no columns, with the IndexOutOfBoundsException of `columns.get(0)` |
| FastStrategy.BuildHash | src/main/java/com/dataverification/strategy/FastVerificationStrategy.java:122-135 | appending "alias.c," per column, cutting the last comma and closing with "))" gives `sha(CONCAT_WS('',a.c1,…,a.cn))` |
| FastStrategy.BuildFullOuterJoinQuery | src/main/java/com/dataverification/strategy/FastVerificationStrategy.java:117-154 | the builder computes the join query specification |
| FastStrategy.HashCoversColumns | src/main/java/com/dataverification/strategy/FastVerificationStrategy.java:125-132 | when no name holds a comma, the hash's argument list splits at commas into exactly the qualified columns in order: no trailing comma, none missing |
| FastStrategy.Verify | src/main/java/com/dataverification/strategy/FastVerificationStrategy.java:24-105 | the method's result state, rethrown exception and statements sent equal the FAST specification |
| FastStrategy.FastEchoesInputs | src/main/java/com/dataverification/strategy/FastVerificationStrategy.java:34-40 | every outcome has mode FAST, echoes the table, databases and filter, and is completed by the clock |
| FastStrategy.FastCountMismatch | src/main/java/com/dataverification/strategy/FastVerificationStrategy.java:51-62 | different counts: NOT_OK, "Row count mismatch", |base − target| > 0 differences, both counts recorded, and only the count query sent |
| FastStrategy.FastBothEmpty | src/main/java/com/dataverification/strategy/FastVerificationStrategy.java:64-69 | two empty tables: OK, "Both tables are empty", no differences or samples, and only the count query sent |
| FastStrategy.FastJoinVerdict | src/main/java/com/dataverification/strategy/FastVerificationStrategy.java:72-92 | when the join runs: no rows give OK with 0 differences; k rows give NOT_OK, k differences, those rows as samples in order, and "Found k sample differences" |
| FastStrategy.FastFailureMarksError | src/main/java/com/dataverification/strategy/FastVerificationStrategy.java:96-102 | every rethrown exception leaves the result ERROR with "Verification error: " + its message |
| FastStrategy.FastReturnStatus | src/main/java/com/dataverification/strategy/FastVerificationStrategy.java:56-104 | a normal return is OK with no differences or NOT_OK with some, never ERROR |
| DetailedStrategy.ExceptQuery | src/main/java/com/dataverification/strategy/DetailedVerificationStrategy.java:138-154 | building an EXCEPT query fails iff there are no columns, with the IndexOutOfBoundsException of `columns.get(0)` |
| DetailedStrategy.Labelled | src/main/java/com/dataverification/strategy/DetailedVerificationStrategy.java:107-109 | every row keeps its place and gains the side label |
| DetailedStrategy.PrefixAll | src/main/java/com/dataverification/strategy/DetailedVerificationStrategy.java:107-109 | the in-place rewrite labels every row and keeps the order |
| DetailedStrategy.Verify | src/main/java/com/dataverification/strategy/DetailedVerificationStrategy.java:24-126 | the method's result state, rethrown exception and statements sent equal the DETAILED specification |
| DetailedStrategy.RunExcepts | src/main/java/com/dataverification/strategy/DetailedVerificationStrategy.java:77-113 | the EXCEPT steps on the result object equal the EXCEPT-phase specification |
| DetailedStrategy.ApplyExceptVerdict | src/main/java/com/dataverification/strategy/DetailedVerificationStrategy.java:95-113 | the verdict setters produce the combined verdict, completed |
| DetailedStrategy.DetailedEchoesInputs | src/main/java/com/dataverification/strategy/DetailedVerificationStrategy.java:36-45 | every outcome has mode DETAILED, echoes the inputs, is completed by the clock, and sends the two SET statements first |
| DetailedStrategy.DetailedCountMismatch | src/main/java/com/dataverification/strategy/DetailedVerificationStrategy.java:60-66 | different counts: NOT_OK "Row count mismatch" with |base − target| differences, both counts recorded, and only the two SET statements and the count query sent (no EXCEPT) |
| DetailedStrategy.DetailedBothEmpty | src/main/java/com/dataverification/strategy/DetailedVerificationStrategy.java:68-73 | both counts 0: OK "Both tables are empty", no differences, no samples, and only the two SET statements and the count query sent (no EXCEPT) |
| DetailedStrategy.ExceptVerdictCombines | src/main/java/com/dataverification/strategy/DetailedVerificationStrategy.java:95-111 | OK "All rows are identical" iff both directions are empty; otherwise NOT_OK with a + b differences, "Found a+b differences (a in base, b in target)", and a + b samples: the base rows labelled "[BASE ONLY] " in order, then the target rows labelled "[TARGET ONLY] " in order |
| DetailedStrategy.DetailedExceptVerdict | src/main/java/com/dataverification/strategy/DetailedVerificationStrategy.java:77-113 | when both EXCEPT queries answer, five statements are sent (the count query third), the reverse query is the forward one with the databases swapped, and the result is the combined verdict on both answers, applied to the count step's result, completed |
| DetailedStrategy.DetailedFailureMarksError | src/main/java/com/dataverification/strategy/DetailedVerificationStrategy.java:117-123 | every rethrown exception leaves the result ERROR with "Verification error: " + its message |
| DetailedStrategy.DetailedReturnStatus | src/main/java/com/dataverification/strategy/DetailedVerificationStrategy.java:60-125 | a normal return is OK with no differences or NOT_OK with some, never ERROR |
| Repository.FormatSampleData | src/main/java/com/dataverification/repository/ResultRepository.java:67-86 | the loop with its counter and break computes the stored sample text |
| Repository.SampleTextEnding | src/main/java/com/dataverification/repository/ResultRepository.java:72-83 | with samples, the text ends in the marker's ')' iff there are more than ten, and otherwise in the newline after the last sample |
| Repository.TruncatedIffMoreThanTen | src/main/java/com/dataverification/repository/ResultRepository.java:76-81 | "... (truncated)" ends the text iff there are more than ten samples; exactly ten gives no marker |
| Repository.StoredSamplesRecoverable | src/main/java/com/dataverification/repository/ResultRepository.java:76-83 | when no sample holds a newline, the listing splits back into the first min(10, n) samples, in order, each followed by "\n" |
| Repository.SaveOutcome | src/main/java/com/dataverification/repository/ResultRepository.java:30-65 | without a connection the save is swallowed; a result without a status throws NullPointerException; otherwise the row is stored iff the insert succeeds, and a failing insert is swallowed |
| Repository.StoredRecordFaithful | src/main/java/com/dataverification/repository/ResultRepository.java:41-56 | a stored row carries the result's names, counts, times and filter unchanged, the status by name, "NO_PARTITION" for a null partition, "FAST" for a null mode, and the given odate and mid |
| Repository.ResultRepository.constructor | src/main/java/com/dataverification/repository/ResultRepository.java:23-25 | a new repository has stored no rows |
| Repository.ResultRepository.Save | src/main/java/com/dataverification/repository/ResultRepository.java:30-65 | appends the row exactly when it is stored, and rethrows only the missing-status failure |
| Service.CreateStrategy | src/main/java/com/dataverification/service/DataVerificationService.java:243-253 | DETAILED selects the EXCEPT strategy, and every other mode selects FAST |
| Service.StrategyReturnStatus | src/main/java/com/dataverification/service/DataVerificationService.java:180-183 | whichever strategy is chosen, a normal return is OK with no differences or NOT_OK with some |
| Service.CallStrategy | src/main/java/com/dataverification/service/DataVerificationService.java:180-183 | calling the chosen strategy gives the chosen strategy's specification |
| Service.UpdatedFoldsOne | src/main/java/com/dataverification/service/DataVerificationService.java:258-270 | one fold step adds the base rows, the differences and one processed unit, records the time under the partition ("NO_PARTITION" when null) and leaves other times alone, and appends the message iff the status is ERROR |
| Service.PartitionResults | src/main/java/com/dataverification/service/DataVerificationService.java:124-132 | one result per partition, in submission order |
| Service.PartitionResultNamesPartition | src/main/java/com/dataverification/service/DataVerificationService.java:163-203 | verifyPartition never throws: every partition gets a settled result (OK/0, NOT_OK/>0, or ERROR/0) carrying the table name and the partition; an ERROR result saves nothing; at most one row is saved |
| Service.PartitionGivesUp | src/main/java/com/dataverification/service/DataVerificationService.java:193-202 | when every attempt fails: an ERROR result for the table and the partition with "Error: Operation 'Verify partition: p' failed after N attempts", started and completed at the error clock's readings, not saved |
| Service.GiveUpMessage | src/main/java/com/dataverification/service/DataVerificationService.java:193-202 | the error result carries the table and the partition, its message is "Error: " + the retry helper's give-up message, and it is completed at the clock's second reading |
| Service.PartitionVerifiedWithFilter | src/main/java/com/dataverification/service/DataVerificationService.java:175-188 | a verified partition was verified by its last attempt, which had a connection and ran the strategy under `buildPartitionFilter(partition, baseFilter)`; the result is tagged with the partition and saved by that attempt |
| Service.PartitionStoredStatus | src/main/java/com/dataverification/service/DataVerificationService.java:180-187 | a row saved for a partition is the strategy's own OK or NOT_OK verdict, under that partition's key |
| Service.CollectedTotals | src/main/java/com/dataverification/service/DataVerificationService.java:135-151 | collecting n results adds n processed units, their rows and differences, and the ERROR results' messages in order |
| Service.CollectedTimes | src/main/java/com/dataverification/service/DataVerificationService.java:135-151 | every collected result's partition has a recorded time |
| Service.CleanFoldMeansAllOk | src/main/java/com/dataverification/service/DataVerificationService.java:135-151 | over settled results, the summed differences are non-negative, and no errors with no differences means every result is OK |
| Service.StoredRowsAppend | src/main/java/com/dataverification/service/DataVerificationService.java:124-132 | the saved rows of the partitions accumulate in submission order |
| Service.FailureRecordedLast | src/main/java/com/dataverification/service/DataVerificationService.java:85-89 | a verification that throws leaves the exception's message as the last recorded error |
| Service.NoPartitionsRejected | src/main/java/com/dataverification/service/DataVerificationService.java:117-120 | a partitioned table with no partitions: the pool of size 0 is rejected, nothing is processed or saved, and the one recorded error is the exception's null message |
| Service.PartitionedTotals | src/main/java/com/dataverification/service/DataVerificationService.java:110-151 | with P partitions: no exception, P processed units, every partition's time recorded, rows and differences summed over the results, the ERROR messages in order, and the rows saved in order |
| Service.NormalTableOnce | src/main/java/com/dataverification/service/DataVerificationService.java:222-234 | a table without partitions that verifies: one unit processed, its time under NO_PARTITION, at most one row saved, under NO_PARTITION |
| Service.NormalTableGivesUp | src/main/java/com/dataverification/service/DataVerificationService.java:222-230 | a table without partitions whose attempts all fail: the retry's exception propagates and is the only recorded error, and nothing is processed or saved |
| Service.StoredRowsNeverError | src/main/java/com/dataverification/service/DataVerificationService.java:193-202 | no row saved on the partitioned path is ever an ERROR result |
| Service.DataVerificationService.constructor | src/main/java/com/dataverification/service/DataVerificationService.java:30-34 | the service keeps its configuration and its repository |
| Service.DataVerificationService.UpdateMetrics | src/main/java/com/dataverification/service/DataVerificationService.java:258-270 | the metrics' new state is the one-step fold of the result |
| Service.DataVerificationService.AttemptPartition | src/main/java/com/dataverification/service/DataVerificationService.java:175-188 | one callable invocation: a fresh result equal to the attempt's outcome, and the saved rows of that attempt only on success |
| Service.DataVerificationService.VerifyPartition | src/main/java/com/dataverification/service/DataVerificationService.java:163-203 | the result and the saved rows are the partition specification's |
| Service.DataVerificationService.VerifyPartitionedTable | src/main/java/com/dataverification/service/DataVerificationService.java:98-158 | the metrics, the exception and the saved rows are the partitioned-path specification's |
| Service.DataVerificationService.SubmitAll | src/main/java/com/dataverification/service/DataVerificationService.java:124-132 | given the partitions' results `vs` (each the partition specification's), one future per partition whose result is the partition's, in submission order, and the saved rows of all of them in order |
| Service.DataVerificationService.SubmitOne | src/main/java/com/dataverification/service/DataVerificationService.java:125-131 | the future submitted for the i-th partition holds that partition's result, and its saved rows are appended |
| Service.DataVerificationService.CollectResults | src/main/java/com/dataverification/service/DataVerificationService.java:135-151 | folding the futures in order gives the collected metrics |
| Service.DataVerificationService.VerifyNormalTable | src/main/java/com/dataverification/service/DataVerificationService.java:208-238 | the metrics, the exception and the saved rows are the non-partitioned specification's |
| Service.DataVerificationService.VerifyTable | src/main/java/com/dataverification/service/DataVerificationService.java:39-93 | fresh metrics, the exception and the saved rows are the verifyTable specification's |
| Application.ExitCodeOf | src/main/java/com/dataverification/DataVerificationApplication.java:203-212 | 2 iff some error was recorded (even with differences); 1 iff there are no errors and differences > 0; 0 otherwise |
| Application.DetermineExitCode | src/main/java/com/dataverification/DataVerificationApplication.java:203-212 | the exit code read through the getters is the exit code of the metrics' value, always in {0, 1, 2} |
| Application.AbsentOptionsDefaults | src/main/java/com/dataverification/DataVerificationApplication.java:39-43 | without options, the filter is "1=1", the exclude list "" removes no column, and the mode is FAST |
| Application.ModeIgnoresCase | src/main/java/com/dataverification/DataVerificationApplication.java:41-43 | a mode option is accepted iff its upper case is "FAST" or "DETAILED", and selects the mode of that name |
| Application.LowerCaseDetailedAccepted | src/main/java/com/dataverification/DataVerificationApplication.java:41-43 | "detailed" selects DETAILED |
| Application.ThrowMeansExitTwo | src/main/java/com/dataverification/DataVerificationApplication.java:76-78 | a verification that throws never reaches determineExitCode; `main`'s catch exits with 2, and the lemma shows the model's metrics agree: an error is recorded, so they also give 2 |
| Application.ExitZeroMeansEveryPartitionOk | src/main/java/com/dataverification/DataVerificationApplication.java:203-211 | exit code 0 on a partitioned table means every partition's result was OK |

## Left out

- SQL semantics: what EXCEPT, FULL OUTER JOIN, `sha`/`CONCAT_WS`, SHOW COLUMNS/PARTITIONS and SELECT DISTINCT compute is not modelled. The engine is an oracle from statement text to answer, so one statement text always gets the same answer within an attempt's world.
- Concurrency: the thread pool, the futures, `awaitTermination`, `shutdownNow`, the 30-minute timeout, and `AtomicLong`/`synchronized` in the metrics. Partitions run as a sequential fold in submission order.
- The catch of a failed future (DataVerificationService.java:147-150) is unreachable in the model: `verifyPartition` catches every exception, and interruption is not modelled.
- Service.DataVerificationService.VerifyPartition: the save in the callable is performed once, after the retry loop, for the attempt that succeeded. This is equivalent as long as `close()` does not fail: an attempt that fails before its save stores nothing. If closing the connection threw after a save, the Java retry would run again and could save the partition twice; the model does not capture that.
- Connection pooling: `ConnectionManager` is not part of this model. Obtaining a connection is an input that may fail (`Environment.connection`, `Attempt.connection`, `Sink.connected`).
- `main`, `parseCommandLine`, `createOptions`, `printUsage` and `System.exit`. Configuration loading (`ApplicationConfig`) is also not part of this model; the configuration is a parameter.
- Wall-clock time: `LocalDateTime.now` and `System.currentTimeMillis` are explicit clock values (`Clock`, `now`). The millisecond duration is an integer difference. `getTotalDurationMs`/`getTotalDurationSeconds` (a double) and the date formatting in `save` are left out.
- `Thread.sleep` is represented by the list of waits it would perform. A negative wait is modelled as the IllegalArgumentException it throws. Interruption is not.
- `createTableIfNotExists`, the JDBC parameter binding and every logging call are not modelled.
- A failure to create a JDBC statement is not modelled separately; an engine answer that is an exception covers the same ground.
- A failure of `close()` on a Connection, Statement or ResultSet is not modelled; closing always succeeds. In the program such a failure would turn a strategy's OK/NOT_OK into ERROR and rethrow (the strategies' catch blocks), fail an attempt that already saved its row (so a retry could save it again), or be recorded and rethrown by `verifyTable`.
- 64-bit wrap-around of counts, differences and times is not modelled: integers are unbounded.
- Case mapping and `trim` cover ASCII only. Locale-dependent and non-ASCII case mapping is not modelled.
- A NullPointerException's message is None. The JVM's helpful-NPE text is not modelled.
- Service.Environment: each partition's attempts and error clocks are looked up by the partition's descriptor string. Two listed rows with the same descriptor (a NULL value and the string 'null' both give "k=null") therefore share one world, whereas the program runs them independently. No proved property depends on the two being different.
- Partition-key levels are `nat` keys 1, 2, … rather than the strings "1", "2".
- The non-partitioned path takes a fresh engine and clock for each attempt from the environment (`normalRuns`), although all its attempts share one connection.
- A null column name from SHOW COLUMNS is not modelled; names are strings.
- A NULL first row from SHOW PARTITIONS (which would make `split("/")` in `getPartitionKeys` throw a NullPointerException) is not modelled; the listing is a sequence of strings.
- The metrics getters return copies. Here the getters are functions of the fields, and sequences and maps are values, so no caller can change the metrics through them.
- `VerificationStatus.WARNING` is declared (with its name), but no modelled path produces it.
- A `VerificationMode` value that is neither FAST nor DETAILED cannot exist, so the `default` branch of `createStrategy` is merged with FAST.
