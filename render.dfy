/**
 * Building the leaderboard table: a header row of labels and one body row of
 * cell texts per data row. Nothing is sorted; both orders are kept.
 */
module Render {
  import opened Wrappers
  import opened Rows
  import opened Columns

  datatype Table = Table(header: seq<string>, body: seq<seq<string>>)

  /** `column.name === undefined ? column.col : column.name` */
  function Label(c: Column): string {
    if c.name.Some? then c.name.value else c.col
  }

  function DigitText(d: nat): string
    requires d < 10
  {
    ["0123456789"[d]]
  }

  function NatText(n: nat): string
    decreases n
  {
    if n < 10 then DigitText(n) else NatText(n / 10) + DigitText(n % 10)
  }

  /** `String(n)` for an integral number: its decimal digits, with a leading `-` when negative. */
  function NumText(n: int): string {
    if n < 0 then "-" + NatText(-n) else NatText(n)
  }

  /** `String(row[col])`: a string as is, a number in decimal, a missing key as `"undefined"`. */
  function CellText(v: Option<Value>): string {
    match v
    case None => "undefined"
    case Some(Str(s)) => s
    case Some(Num(n)) => NumText(n)
  }

  function Cell(row: Row, c: Column): string {
    CellText(Lookup(row, c.col))
  }

  function HeaderOf(cols: seq<Column>): seq<string> {
    seq(|cols|, j requires 0 <= j < |cols| => Label(cols[j]))
  }

  function RowCells(row: Row, cols: seq<Column>): seq<string> {
    seq(|cols|, j requires 0 <= j < |cols| => Cell(row, cols[j]))
  }

  /** The table that the plugin builds for `rows` and `cols`. */
  function Rendered(rows: seq<Row>, cols: seq<Column>): Table {
    Table(HeaderOf(cols), seq(|rows|, i requires 0 <= i < |rows| => RowCells(rows[i], cols)))
  }

  /** The two `forEach` passes: the header cells, then one `tr` of `td`s per row. */
  method BuildTable(rows: seq<Row>, cols: seq<Column>) returns (t: Table)
    ensures |t.header| == |cols|
    ensures forall j :: 0 <= j < |cols| ==>
      t.header[j] == (if cols[j].name.Some? then cols[j].name.value else cols[j].col)
    ensures |t.body| == |rows|
    ensures forall i :: 0 <= i < |rows| ==> |t.body[i]| == |cols|
    ensures forall i, j :: 0 <= i < |rows| && 0 <= j < |cols| ==>
      t.body[i][j] == CellText(Lookup(rows[i], cols[j].col))
    ensures forall i, j :: 0 <= i < |rows| && 0 <= j < |cols| && cols[j].col !in Keys(rows[i]) ==>
      t.body[i][j] == "undefined"
    ensures t == Rendered(rows, cols)
  {
    var header: seq<string> := [];
    for j := 0 to |cols|
      invariant |header| == j
      invariant forall k :: 0 <= k < j ==> header[k] == Label(cols[k])
    {
      header := header + [Label(cols[j])];
    }
    var body: seq<seq<string>> := [];
    for i := 0 to |rows|
      invariant |body| == i
      invariant forall k :: 0 <= k < i ==> body[k] == RowCells(rows[k], cols)
    {
      var tr: seq<string> := [];
      for j := 0 to |cols|
        invariant |tr| == j
        invariant forall k :: 0 <= k < j ==> tr[k] == Cell(rows[i], cols[k])
      {
        tr := tr + [Cell(rows[i], cols[j])];
      }
      body := body + [tr];
    }
    t := Table(header, body);
  }

  /** The text of each value of a row, in the row's key order. */
  function ValueTexts(row: Row): seq<string> {
    seq(|row|, j requires 0 <= j < |row| => CellText(Some(row[j].1)))
  }

  /**
   * With the default static columns, the header is the first row's keys and
   * the first body row shows that row's own values, in its key order.
   */
  lemma StaticDefaultTable(rows: seq<Row>)
    requires rows != [] && DistinctKeys(rows[0])
    ensures Rendered(rows, KeyColumns(rows[0])).header == Keys(rows[0])
    ensures Rendered(rows, KeyColumns(rows[0])).body[0] == ValueTexts(rows[0])
  {
    var row, cols := rows[0], KeyColumns(rows[0]);
    var t := Rendered(rows, cols);
    assert |ColumnKeys(cols)| == |Keys(row)|;
    forall j | 0 <= j < |row|
      ensures t.header[j] == Keys(row)[j] && t.body[0][j] == ValueTexts(row)[j]
    {
      assert ColumnKeys(cols)[j] == Keys(row)[j];
      LookupAt(row, j);
    }
  }
}
