/**
 * The cleaning that `load_data` applies to the freshly read booking table:
 * (re)compute `total_nights` from the two night counts, then drop the rows
 * whose cells are all missing. Reading the CSV file is not modelled; the
 * table it yields is the input.
 */
module Etl {
  import opened Frames

  const WeekendNights := "stays_in_weekend_nights"
  const WeekNights := "stays_in_week_nights"
  const TotalNights := "total_nights"

  predicate HasNightColumns(columns: seq<string>) {
    WeekendNights in columns && WeekNights in columns
  }

  /** The columns after the derivation step: `total_nights` is added when both night counts exist. */
  function DerivedColumns(columns: seq<string>): (r: seq<string>)
    requires NoDuplicates(columns)
    ensures NoDuplicates(r)
    ensures ColumnSet(r) == if HasNightColumns(columns) then ColumnSet(columns) + {TotalNights} else ColumnSet(columns)
    ensures |columns| <= |r| && r[..|columns|] == columns
  {
    WithColumnNameNoDuplicates(columns, TotalNights);
    if HasNightColumns(columns) then WithColumnName(columns, TotalNights) else columns
  }

  /** One row after the derivation step. */
  function DeriveRow(columns: seq<string>, row: Row): (r: Row)
    ensures HasNightColumns(columns) ==>
      TotalNights in r && r[TotalNights] == AddCells(CellAt(r, WeekendNights), CellAt(r, WeekNights))
    ensures !HasNightColumns(columns) ==> r == row
    ensures r.Keys == if HasNightColumns(columns) then row.Keys + {TotalNights} else row.Keys
    ensures forall c :: c in row && c != TotalNights ==> r[c] == row[c]
  {
    if HasNightColumns(columns)
    then row[TotalNights := AddCells(CellAt(row, WeekendNights), CellAt(row, WeekNights))]
    else row
  }

  function DerivedRows(columns: seq<string>, rows: seq<Row>): (r: seq<Row>)
    ensures |r| == |rows|
    ensures forall i :: 0 <= i < |rows| ==> r[i] == DeriveRow(columns, rows[i])
  {
    seq(|rows|, i requires 0 <= i < |rows| => DeriveRow(columns, rows[i]))
  }

  /** The rows `load_data` returns for a read table with these columns and rows. */
  function CleanedRows(columns: seq<string>, rows: seq<Row>): (r: seq<Row>)
    ensures IsSubsequence(r, DerivedRows(columns, rows))
    ensures forall row :: row in r <==> row in DerivedRows(columns, rows) && HasValue(row)
    ensures HasNightColumns(columns) ==> forall row :: row in r ==>
      TotalNights in row && row[TotalNights] == AddCells(CellAt(row, WeekendNights), CellAt(row, WeekNights))
    ensures !HasNightColumns(columns) ==> forall row :: row in r ==> row in rows
  {
    Filter(DerivedRows(columns, rows), HasValue)
  }

  /** Whether a row is kept is decided by that row alone, and kept rows stay in order. */
  lemma {:induction false} CleanedRowsConcat(columns: seq<string>, a: seq<Row>, b: seq<Row>)
    ensures CleanedRows(columns, a + b) == CleanedRows(columns, a) + CleanedRows(columns, b)
  {
    assert DerivedRows(columns, a + b) == DerivedRows(columns, a) + DerivedRows(columns, b);
    FilterConcat(DerivedRows(columns, a), DerivedRows(columns, b), HasValue);
  }

  /** A single row is kept, with `total_nights` derived, exactly when one of its derived cells is present. */
  lemma CleanedSingleRow(columns: seq<string>, row: Row)
    ensures CleanedRows(columns, [row]) ==
      if HasValue(DeriveRow(columns, row)) then [DeriveRow(columns, row)] else []
  {
  }

  /**
   * A row whose cells are all missing is always dropped; a row with a present
   * cell outside `total_nights` always survives. (A row whose only present cell
   * is a stale `total_nights` loses it to the recomputation and is dropped.)
   */
  lemma RowSurvival(columns: seq<string>, row: Row)
    ensures !HasValue(row) ==> !HasValue(DeriveRow(columns, row))
    ensures (exists c :: c in row && c != TotalNights && row[c] != Null) ==> HasValue(DeriveRow(columns, row))
  {
  }

  /**
   * `load_data` after the file read: `df` gains (or has overwritten) its
   * `total_nights` column in place, and the returned table is a new one
   * without the all-missing rows.
   */
  method LoadData(df: DataFrame) returns (cleaned: DataFrame)
    requires df.Valid()
    modifies df
    ensures df.Valid()
    ensures df.columns == DerivedColumns(old(df.columns))
    ensures df.rows == DerivedRows(old(df.columns), old(df.rows))
    ensures fresh(cleaned) && cleaned.Valid()
    ensures cleaned.columns == DerivedColumns(old(df.columns))
    ensures cleaned.rows == CleanedRows(old(df.columns), old(df.rows))
  {
    if HasNightColumns(df.columns) {
      df.SetColumn(TotalNights, SumColumns(df.rows, WeekendNights, WeekNights));
      assert df.rows == DerivedRows(old(df.columns), old(df.rows));
    }
    cleaned := df.DropEmptyRows();
  }
}
