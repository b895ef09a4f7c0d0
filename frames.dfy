/**
 * A small model of the pandas DataFrame operations the dashboard relies on:
 * cells that may be missing, rows keyed by column name, assigning a whole
 * column in place, and the two `dropna` variants.
 */
module Frames {

  /** One pandas cell: a missing value (NaN or None), a number, or text. */
  datatype Cell = Null | Num(x: real) | Text(s: string)

  /** A row maps each column name of its table to a cell. */
  type Row = map<string, Cell>

  predicate NoDuplicates(s: seq<string>) {
    forall i, j :: 0 <= i < j < |s| ==> s[i] != s[j]
  }

  function ColumnSet(columns: seq<string>): (r: set<string>) {
    set c | c in columns
  }

  /** Column names are unique and every row has exactly the table's columns. */
  predicate WellFormed(columns: seq<string>, rows: seq<Row>) {
    && NoDuplicates(columns)
    && forall i :: 0 <= i < |rows| ==> rows[i].Keys == ColumnSet(columns)
  }

  /** The cell of `row` under `column`, or Null when the row has no such column. */
  function CellAt(row: Row, column: string): (r: Cell) {
    if column in row then row[column] else Null
  }

  /**
   * `r` occurs in `s` in the same relative order, possibly with gaps.
   * Matching greedily against the earliest candidate is complete for this.
   */
  predicate IsSubsequence<T(==)>(r: seq<T>, s: seq<T>)
    decreases |s|
  {
    if r == [] then true
    else if s == [] then false
    else if r[0] == s[0] then IsSubsequence(r[1..], s[1..])
    else IsSubsequence(r, s[1..])
  }

  /** The elements of `s` that satisfy `keep`, in their original order. */
  function Filter<T(==,!new)>(s: seq<T>, keep: T -> bool): (r: seq<T>)
    ensures |r| <= |s|
    ensures forall x :: x in r <==> x in s && keep(x)
    ensures IsSubsequence(r, s)
    ensures forall x :: multiset(r)[x] == if keep(x) then multiset(s)[x] else 0
  {
    if s == [] then []
    else
      assert s == [s[0]] + s[1..];
      if keep(s[0]) then [s[0]] + Filter(s[1..], keep)
      else Filter(s[1..], keep)
  }

  /** Filtering is decided element by element: it distributes over concatenation. */
  lemma {:induction false} FilterConcat<T(!new)>(a: seq<T>, b: seq<T>, keep: T -> bool)
    ensures Filter(a + b, keep) == Filter(a, keep) + Filter(b, keep)
  {
    if a == [] {
      assert a + b == b;
    } else {
      assert (a + b)[0] == a[0];
      assert (a + b)[1..] == a[1..] + b;
      FilterConcat(a[1..], b, keep);
    }
  }

  /** pandas `+` on two cells: a sum of numbers, missing when either side is missing. */
  function AddCells(a: Cell, b: Cell): (r: Cell) {
    if a.Num? && b.Num? then Num(a.x + b.x) else Null
  }

  /** The element-wise sum of two columns, `df[a] + df[b]`. */
  function SumColumns(rows: seq<Row>, a: string, b: string): (r: seq<Cell>)
    ensures |r| == |rows|
    ensures forall i :: 0 <= i < |rows| ==> r[i] == AddCells(CellAt(rows[i], a), CellAt(rows[i], b))
  {
    seq(|rows|, i requires 0 <= i < |rows| => AddCells(CellAt(rows[i], a), CellAt(rows[i], b)))
  }

  /** The column order after `df[name] = ...`: a new name goes last, an existing one keeps its place. */
  function WithColumnName(columns: seq<string>, name: string): (r: seq<string>) {
    if name in columns then columns else columns + [name]
  }

  /** The rows after `df[name] = values`: row i gets `values[i]` under `name`, nothing else changes. */
  function AssignColumn(rows: seq<Row>, name: string, values: seq<Cell>): (r: seq<Row>)
    requires |values| == |rows|
    ensures |r| == |rows|
    ensures forall i :: 0 <= i < |rows| ==> r[i].Keys == rows[i].Keys + {name} && r[i][name] == values[i]
    ensures forall i, c :: 0 <= i < |rows| && c in rows[i] && c != name ==> r[i][c] == rows[i][c]
  {
    seq(|rows|, i requires 0 <= i < |rows| => rows[i][name := values[i]])
  }

  /** A row survives `dropna(how="all")` when at least one of its cells is present. */
  predicate HasValue(row: Row) {
    exists c :: c in row && row[c] != Null
  }

  /** A row survives `dropna()` on `columns` when every one of them is present. */
  predicate Complete(row: Row, columns: seq<string>) {
    forall c :: c in columns ==> c in row && row[c] != Null
  }

  /** `df[columns]` for one row: only the named columns are kept. */
  function Project(row: Row, columns: seq<string>): (r: Row)
    ensures r.Keys == row.Keys * ColumnSet(columns)
    ensures forall c :: c in r ==> r[c] == row[c]
  {
    map c | c in columns && c in row :: row[c]
  }

  /** `df[selected]` on rows: every row cut to the selected columns. */
  function ProjectRows(rows: seq<Row>, selected: seq<string>): (r: seq<Row>)
    ensures |r| == |rows|
    ensures forall i :: 0 <= i < |rows| ==> r[i] == Project(rows[i], selected)
  {
    seq(|rows|, i requires 0 <= i < |rows| => Project(rows[i], selected))
  }

  /** `df[selected].dropna()` on rows: the cut rows that have every selected column present. */
  function CompleteRows(rows: seq<Row>, selected: seq<string>): (r: seq<Row>)
    ensures IsSubsequence(r, ProjectRows(rows, selected))
    ensures forall row :: row in r <==> row in ProjectRows(rows, selected) && Complete(row, selected)
    ensures forall row :: multiset(r)[row] ==
                          (if Complete(row, selected) then multiset(ProjectRows(rows, selected))[row] else 0)
  {
    Filter(ProjectRows(rows, selected), row => Complete(row, selected))
  }

  lemma {:induction false} WithColumnNameNoDuplicates(columns: seq<string>, name: string)
    requires NoDuplicates(columns)
    ensures NoDuplicates(WithColumnName(columns, name))
    ensures ColumnSet(WithColumnName(columns, name)) == ColumnSet(columns) + {name}
  {
  }

  /** A pandas table whose columns and rows the dashboard's code updates in place. */
  class DataFrame {
    var columns: seq<string>
    var rows: seq<Row>

    ghost predicate Valid()
      reads this
    {
      WellFormed(columns, rows)
    }

    constructor (columns: seq<string>, rows: seq<Row>)
      requires WellFormed(columns, rows)
      ensures Valid() && this.columns == columns && this.rows == rows
    {
      this.columns := columns;
      this.rows := rows;
    }

    /** `df[name] = values`: a new column goes last, an existing one is overwritten in place. */
    method SetColumn(name: string, values: seq<Cell>)
      requires Valid() && |values| == |rows|
      modifies this
      ensures Valid()
      ensures columns == WithColumnName(old(columns), name)
      ensures rows == AssignColumn(old(rows), name, values)
    {
      WithColumnNameNoDuplicates(columns, name);
      columns := WithColumnName(columns, name);
      rows := AssignColumn(rows, name, values);
    }

    /** `df.dropna(how="all")`: a new table without the rows whose cells are all missing. */
    method DropEmptyRows() returns (r: DataFrame)
      requires Valid()
      ensures fresh(r) && r.Valid()
      ensures r.columns == columns && r.rows == Filter(rows, HasValue)
    {
      var kept := Filter(rows, HasValue);
      forall i | 0 <= i < |kept| ensures kept[i].Keys == ColumnSet(columns) {
        assert kept[i] in rows;
      }
      r := new DataFrame(columns, kept);
    }

    /** `df[selected].dropna()`: a new table of the selected columns and the rows complete in them. */
    method SelectComplete(selected: seq<string>) returns (r: DataFrame)
      requires Valid() && NoDuplicates(selected)
      requires forall c :: c in selected ==> c in columns
      ensures fresh(r) && r.Valid()
      ensures r.columns == selected
      ensures r.rows == CompleteRows(rows, selected)
    {
      var kept := CompleteRows(rows, selected);
      forall i | 0 <= i < |kept| ensures kept[i].Keys == ColumnSet(selected) {
        assert kept[i] in ProjectRows(rows, selected);
      }
      r := new DataFrame(selected, kept);
    }
  }
}
