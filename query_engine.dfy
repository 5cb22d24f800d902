/**
 * The SQL engine behind a connection, seen only through its answers: for each statement
 * text, what the statement returns or which exception it throws. Nothing here says what the
 * SQL means; the modelled code only builds the texts and interprets the answers.
 */
module QueryEngine {
  import opened Wrappers
  import opened Types
  import opened ResultSets

  /** The single row of the count query: the base_count and target_count columns. */
  datatype CountRow = CountRow(baseCount: int, targetCount: int)

  /** A row of a SELECT DISTINCT over partition columns: getString(1) and getString(2). */
  datatype PartitionRow = PartitionRow(first: Option<string>, second: Option<string>)

  datatype Engine = Engine(
    /** Statement.execute of a SET statement: the exception it throws, if any. */
    execute: string -> Option<JavaException>,
    /** A SHOW statement: the first column of every row. */
    listing: string -> Result<seq<string>, JavaException>,
    /** A SELECT DISTINCT over one or two partition columns. */
    distinct: string -> Result<seq<PartitionRow>, JavaException>,
    /** The count query: its row, or None when the result has no row. */
    counts: string -> Result<Option<CountRow>, JavaException>,
    /** A differencing query (join or EXCEPT): its full result set. */
    select: string -> Result<ResultSet, JavaException>)
}
