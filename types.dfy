/**
 * The value types of the verifier: its two enums, the verification settings with their
 * defaults, table metadata, exceptions, the no-partition sentinel and an explicit clock.
 */
module Types {
  import opened Wrappers
  import JavaStrings

  /** Outcome of one comparison. WARNING is declared but no code path produces it. */
  datatype VerificationStatus = OK | NOT_OK | ERROR | WARNING

  /** Enum.name() */
  function StatusName(s: VerificationStatus): string
  {
    match s
    case OK => "OK"
    case NOT_OK => "NOT_OK"
    case ERROR => "ERROR"
    case WARNING => "WARNING"
  }

  /** FAST: fingerprint + full outer join; DETAILED: the two set differences. */
  datatype VerificationMode = FAST | DETAILED

  function ModeName(m: VerificationMode): string
  {
    match m
    case FAST => "FAST"
    case DETAILED => "DETAILED"
  }

  /** The Java exception classes that the modelled code throws or catches. */
  datatype ExceptionKind =
    | SQLException
    | IllegalStateException
    | IllegalArgumentException
    | IndexOutOfBoundsException
    | NullPointerException
    | RuntimeException

  /** A thrown exception: its class, its (possibly null) message and its (possibly null) cause. */
  datatype JavaException = JavaException(kind: ExceptionKind, message: Option<string>, cause: Option<JavaException>)

  /** VerificationMode.valueOf: an unknown name throws IllegalArgumentException. */
  function ModeValueOf(name: string): (r: Result<VerificationMode, JavaException>)
    ensures r.Success? <==> name == "FAST" || name == "DETAILED"
    ensures r.Success? ==> ModeName(r.value) == name
  {
    if name == "FAST" then Success(FAST)
    else if name == "DETAILED" then Success(DETAILED)
    else Failure(JavaException(IllegalArgumentException,
                               Some("No enum constant com.dataverification.model.VerificationMode." + name), None))
  }

  /** Verification settings: parallelism, sample size, JDBC fetch size and retry policy. */
  datatype VerificationConfig = VerificationConfig(
    maxParallelPartitions: int,
    sampleLimit: int,
    jdbcFetchSize: int,
    retryAttempts: int,
    retryDelayMs: int)

  /** The field initialisers of the configuration class. */
  const DefaultVerificationConfig: VerificationConfig :=
    VerificationConfig(maxParallelPartitions := 100, sampleLimit := 5, jdbcFetchSize := 20000,
                       retryAttempts := 3, retryDelayMs := 1000)

  /** Partition descriptor of a table without partitions. */
  const NoPartition: string := "NO_PARTITION"

  /**
   * What the metadata service learns about a table: the compared columns (after exclusion)
   * and the partition keys by level (1 for the first key, 2 for the second, ...).
   */
  datatype TableMetadata = TableMetadata(
    tableName: string,
    database: string,
    partitioned: bool,
    columns: seq<string>,
    partitionKeys: map<nat, string>,
    partitionValues: seq<string>)

  /** Two readings of a wall clock in milliseconds: when a result was created and when it was completed. */
  datatype Clock = Clock(started: int, finished: int)

  /** Math.abs on longs, without the overflow at Long.MIN_VALUE. */
  function Abs(x: int): (r: nat)
    ensures r == x || r == -x
  {
    if x < 0 then -x else x
  }

  function Min(a: int, b: int): (r: int)
    ensures r <= a && r <= b && (r == a || r == b)
  {
    if a <= b then a else b
  }

  /** e.getMessage() of an exception, rendered as string concatenation renders it. */
  function MessageText(e: JavaException): string
  {
    JavaStrings.Str(e.message)
  }
}
