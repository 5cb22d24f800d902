/**
 * Turning a query result into text: every row becomes its cells joined by a tab, where a
 * binary column always renders as "[BLOB]" and a SQL NULL as "[NULL]".
 */
module ResultSets {
  import opened Wrappers
  import JavaStrings

  /** java.sql.Types codes of the binary column types. */
  const BLOB: int := 2004
  const BINARY: int := -2
  const VARBINARY: int := -3
  const LONGVARBINARY: int := -4

  predicate IsBinary(sqlType: int)
  {
    sqlType == BLOB || sqlType == BINARY || sqlType == VARBINARY || sqlType == LONGVARBINARY
  }

  /** One column of the result metadata: its name and its java.sql.Types code. */
  datatype Column = Column(name: string, sqlType: int)

  /** Columns and rows; a cell is the value getString returns for it (None for SQL NULL). */
  datatype RawResultSet = RawResultSet(columns: seq<Column>, rows: seq<seq<Option<string>>>)

  /** A result set whose every row has one cell per column. */
  type ResultSet = rs: RawResultSet | forall r :: 0 <= r < |rs.rows| ==> |rs.rows[r]| == |rs.columns|
    witness RawResultSet([], [])

  const Tab: string := "\t"

  function RenderCell(c: Column, v: Option<string>): (s: string)
    ensures IsBinary(c.sqlType) ==> s == "[BLOB]"
    ensures !IsBinary(c.sqlType) && v.None? ==> s == "[NULL]"
    ensures !IsBinary(c.sqlType) && v.Some? ==> s == v.value
  {
    if IsBinary(c.sqlType) then "[BLOB]"
    else match v
      case None => "[NULL]"
      case Some(x) => x
  }

  /** The rendered cells of one row, in column order. */
  function RenderCells(columns: seq<Column>, row: seq<Option<string>>): (cells: seq<string>)
    requires |row| == |columns|
    ensures |cells| == |columns|
    ensures forall i :: 0 <= i < |columns| ==> cells[i] == RenderCell(columns[i], row[i])
  {
    seq(|columns|, i requires 0 <= i < |columns| => RenderCell(columns[i], row[i]))
  }

  function RenderRow(columns: seq<Column>, row: seq<Option<string>>): string
    requires |row| == |columns|
  {
    JavaStrings.Join(RenderCells(columns, row), Tab)
  }

  /** The rendering of the first n rows. */
  function RenderedRows(rs: ResultSet, n: nat): (lines: seq<string>)
    requires n <= |rs.rows|
    ensures |lines| == n
    ensures forall r :: 0 <= r < n ==> lines[r] == RenderRow(rs.columns, rs.rows[r])
  {
    seq(n, r requires 0 <= r < n => RenderRow(rs.columns, rs.rows[r]))
  }

  /** What convertToStringList returns: one string per row, in row order. */
  function Rendered(rs: ResultSet): seq<string>
  {
    RenderedRows(rs, |rs.rows|)
  }

  /** convertToStringList: walks the rows and, inside each row, the columns 1..n. */
  method ConvertToStringList(rs: ResultSet) returns (results: seq<string>)
    ensures |results| == |rs.rows|
    ensures forall r :: 0 <= r < |rs.rows| ==> results[r] == JavaStrings.Join(RenderCells(rs.columns, rs.rows[r]), Tab)
    ensures results == Rendered(rs)
  {
    var columnCount := |rs.columns|;
    results := [];
    var r := 0;
    while r < |rs.rows|
      invariant 0 <= r <= |rs.rows|
      invariant results == RenderedRows(rs, r)
    {
      var row := rs.rows[r];
      var joiner: seq<string> := [];
      for i := 1 to columnCount + 1
        invariant joiner == RenderCells(rs.columns, row)[..i - 1]
      {
        var value: string;
        var columnType := rs.columns[i - 1].sqlType;
        if IsBinary(columnType) {
          value := "[BLOB]";
        } else {
          var cell := row[i - 1];
          value := if cell.None? then "[NULL]" else cell.value;
        }
        joiner := joiner + [value];
      }
      assert joiner == RenderCells(rs.columns, row);
      results := results + [JavaStrings.Join(joiner, Tab)];
      r := r + 1;
    }
  }

  /** getColumnNames: the names of columns 1..n, in order. */
  method GetColumnNames(columns: seq<Column>) returns (names: seq<string>)
    ensures |names| == |columns|
    ensures forall i :: 0 <= i < |columns| ==> names[i] == columns[i].name
  {
    names := [];
    for i := 1 to |columns| + 1
      invariant |names| == i - 1
      invariant forall j :: 0 <= j < i - 1 ==> names[j] == columns[j].name
    {
      names := names + [columns[i - 1].name];
    }
  }

  /**
   * When no rendered cell contains a tab, splitting a rendered row on tabs gives its cells
   * back: one per column, "[BLOB]" for a binary column, "[NULL]" for a null, the value otherwise.
   */
  lemma RowSplitsIntoCells(columns: seq<Column>, row: seq<Option<string>>)
    requires |row| == |columns| >= 1
    requires forall i :: 0 <= i < |row| ==> row[i].Some? ==> '\t' !in row[i].value
    ensures JavaStrings.SplitAll(RenderRow(columns, row), '\t') == RenderCells(columns, row)
  {
    var cells := RenderCells(columns, row);
    forall i | 0 <= i < |cells|
      ensures '\t' !in cells[i]
    {
    }
    JavaStrings.SplitAllOfJoin(cells, '\t');
  }
}
