/**
 * Leaderboard rows and column descriptions.
 *
 * A row is a JavaScript object whose properties are strings or numbers. It is
 * kept as a sequence of (key, value) bindings listed in `Object.keys` order
 * (integer-like keys first, ascending, then the other keys in insertion order),
 * so that the default column order can be read off it.
 */
module Rows {
  import opened Wrappers

  /** A displayable scalar. Only integral numbers are modelled. */
  datatype Value = Str(s: string) | Num(n: int)

  type Row = seq<(string, Value)>

  /** `{col, name?}`: the key to display and an optional header label. */
  datatype Column = Column(col: string, name: Option<string>)

  /** `Object.keys(row)`: the keys in the order the bindings are listed. */
  function Keys(row: Row): seq<string> {
    seq(|row|, i requires 0 <= i < |row| => row[i].0)
  }

  /** The keys of a JavaScript object are pairwise different. */
  predicate DistinctKeys(row: Row) {
    forall i, j :: 0 <= i < j < |row| ==> row[i].0 != row[j].0
  }

  /** `row[key]` for the row's own keys; `None` stands for `undefined`, the value of a missing key. */
  function Lookup(row: Row, key: string): (v: Option<Value>)
    ensures v.None? <==> key !in Keys(row)
  {
    if row == [] then None
    else if row[0].0 == key then assert Keys(row)[0] == key; Some(row[0].1)
    else assert Keys(row) == [row[0].0] + Keys(row[1..]); Lookup(row[1..], key)
  }

  /** In an object, looking up the i-th key yields the i-th value. */
  lemma {:induction false} LookupAt(row: Row, i: nat)
    requires DistinctKeys(row) && i < |row|
    ensures Lookup(row, row[i].0) == Some(row[i].1)
  {
    if i > 0 {
      assert row[0].0 != row[i].0;
      assert row[1..][i - 1] == row[i];
      LookupAt(row[1..], i - 1);
    }
  }

  /** The keys of a column list, in column order. */
  function ColumnKeys(cols: seq<Column>): seq<string> {
    seq(|cols|, i requires 0 <= i < |cols| => cols[i].col)
  }
}
