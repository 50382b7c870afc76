/**
 * Column resolution: the columns to display are the supplied ones, or else
 * defaults that depend on where the rows come from.
 */
module Columns {
  import opened Wrappers
  import opened Rows
  import opened Params

  /** The row key that holds the participant's or group's public name. */
  function NameKey(level: Level): string {
    if level == Individual then "publicIndividualName" else "publicGroupName"
  }

  /** Columns for rows fetched from the leaderboard service. */
  function RemoteColumns(supplied: Option<seq<Column>>, level: Level): (cols: seq<Column>)
    ensures supplied.Some? ==> cols == supplied.value
    ensures supplied.None? && level == Individual ==>
      cols == [Column("publicIndividualName", Some("Name")), Column("score", Some("Score"))]
    ensures supplied.None? && level == Groups ==>
      cols == [Column("publicGroupName", Some("Name")), Column("score", Some("Score"))]
  {
    if supplied.Some? then supplied.value
    else [Column(NameKey(level), Some("Name")), Column("score", Some("Score"))]
  }

  /** `Object.keys(row).map(col => ({col}))`: one unlabelled column per key, in key order. */
  function KeyColumns(row: Row): (cols: seq<Column>)
    ensures ColumnKeys(cols) == Keys(row)
    ensures forall i :: 0 <= i < |cols| ==> cols[i].name.None?
  {
    if row == [] then []
    else
      var rest := KeyColumns(row[1..]);
      assert Keys(row) == [row[0].0] + Keys(row[1..]);
      assert ColumnKeys([Column(row[0].0, None)] + rest) == [row[0].0] + ColumnKeys(rest);
      [Column(row[0].0, None)] + rest
  }

  /**
   * Columns for static rows. With no supplied columns the keys of the first
   * row are used; when there is no first row the source fails at
   * `Object.keys(undefined)`, which is `None` here.
   */
  function StaticColumns(supplied: Option<seq<Column>>, rows: seq<Row>): (cols: Option<seq<Column>>)
    ensures cols.None? <==> supplied.None? && rows == []
    ensures supplied.Some? ==> cols == supplied
    ensures supplied.None? && rows != [] ==>
      cols.Some? && ColumnKeys(cols.value) == Keys(rows[0]) &&
      forall i :: 0 <= i < |cols.value| ==> cols.value[i].name.None?
  {
    if supplied.Some? then supplied
    else if rows == [] then None
    else Some(KeyColumns(rows[0]))
  }
}
