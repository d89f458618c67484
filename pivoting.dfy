/**
 * `DataFrame.pivot(index='Account', columns='Month', values=...)` as its documentation describes
 * it: one cell per (account, month) pair, taken from the unique row with that pair; a missing
 * column raises `KeyError`, a repeated pair raises `ValueError`. Then the column selection
 * `pivot[available_months]` (app.py:49-60).
 */
module Pivoting {
  import opened Wrappers
  import opened Frames

  const IndexColumn := "Account"
  const ColumnsColumn := "Month"

  /** A pivot key: (account label, month label). */
  type Key = (Value, Value)

  function KeyOf(r: Row): Key {
    (Cell(r, IndexColumn), Cell(r, ColumnsColumn))
  }

  /** No two rows share an (account, month) pair. */
  ghost predicate UniqueKeys(rows: seq<Row>) {
    forall i, j :: 0 <= i < j < |rows| ==> KeyOf(rows[i]) != KeyOf(rows[j])
  }

  ghost function KeySet(rows: seq<Row>): set<Key> {
    set r | r in rows :: KeyOf(r)
  }

  /** The distinct account labels: the pivot's row index. */
  function Accounts(rows: seq<Row>): set<Value> {
    set r | r in rows :: Cell(r, IndexColumn)
  }

  /** The distinct month labels: the pivot's column labels before selection. */
  function MonthLabels(rows: seq<Row>): set<Value> {
    set r | r in rows :: Cell(r, ColumnsColumn)
  }

  /** The rows after the first are unique, and none of them repeats the first one's key. */
  lemma UniqueKeysCons(rows: seq<Row>)
    requires rows != []
    ensures UniqueKeys(rows) <==> UniqueKeys(rows[1..]) && KeyOf(rows[0]) !in KeySet(rows[1..])
  {
    var tail := rows[1..];
    if UniqueKeys(rows) {
      forall i, j | 0 <= i < j < |tail| ensures KeyOf(tail[i]) != KeyOf(tail[j]) {
        assert tail[i] == rows[i + 1] && tail[j] == rows[j + 1];
      }
    }
    if UniqueKeys(tail) && KeyOf(rows[0]) !in KeySet(tail) {
      forall i, j | 0 <= i < j < |rows| ensures KeyOf(rows[i]) != KeyOf(rows[j]) {
        assert rows[j] == tail[j - 1];
        if i > 0 {
          assert rows[i] == tail[i - 1];
        } else {
          assert rows[j] in tail;
        }
      }
    }
  }

  /**
   * The cells of the pivot on column `values`: the map from each row's key to its value, or
   * None when two rows share a key.
   */
  function Cells(rows: seq<Row>, values: string): (r: Option<map<Key, Value>>)
    ensures r.Some? ==> r.value.Keys == KeySet(rows)
    decreases |rows|
  {
    if rows == [] then Some(map[])
    else
      var tail := rows[1..];
      assert KeySet(rows) == KeySet(tail) + {KeyOf(rows[0])} by {
        assert forall r :: r in rows <==> r == rows[0] || r in tail;
      }
      match Cells(tail, values)
      case None => None
      case Some(m) =>
        var k := KeyOf(rows[0]);
        if k in m then None else Some(m[k := Cell(rows[0], values)])
  }

  /** The pivot succeeds exactly when no (account, month) pair repeats. */
  lemma {:induction false} CellsDefinedIffUnique(rows: seq<Row>, values: string)
    ensures Cells(rows, values).Some? <==> UniqueKeys(rows)
    decreases |rows|
  {
    if rows != [] {
      CellsDefinedIffUnique(rows[1..], values);
      UniqueKeysCons(rows);
    }
  }

  /** Each row's key holds that row's value. */
  lemma {:induction false} CellsHoldRowValues(rows: seq<Row>, values: string)
    requires Cells(rows, values).Some?
    ensures forall i :: 0 <= i < |rows| ==>
      Cells(rows, values).value[KeyOf(rows[i])] == Cell(rows[i], values)
    decreases |rows|
  {
    if rows != [] {
      var tail := rows[1..];
      CellsHoldRowValues(tail, values);
      forall i | 0 < i < |rows|
        ensures Cells(rows, values).value[KeyOf(rows[i])] == Cell(rows[i], values)
      {
        assert rows[i] == tail[i - 1];
      }
    }
  }

  datatype PivotError = MissingColumn(name: string) | DuplicateEntries

  /** A pivot before column selection: row labels, column labels and the filled cells. */
  datatype Pivot = Pivot(index: set<Value>, columns: set<Value>, cells: map<Key, Value>)

  /** `df.pivot(index='Account', columns='Month', values=values)`. */
  function PivotOn(df: Frame, values: string): (r: Result<Pivot, PivotError>)
    ensures r.Err? <==>
      IndexColumn !in df.columns || ColumnsColumn !in df.columns || values !in df.columns
      || !UniqueKeys(df.rows)
    ensures r.Err? && r.error.MissingColumn? ==>
      r.error.name in [IndexColumn, ColumnsColumn, values] && r.error.name !in df.columns
    ensures IndexColumn !in df.columns || ColumnsColumn !in df.columns || values !in df.columns ==>
      r.Err? && r.error.MissingColumn?
    ensures r.Err? && r.error.DuplicateEntries? ==> !UniqueKeys(df.rows)
    ensures r.Ok? ==> r.value.index == Accounts(df.rows) && r.value.columns == MonthLabels(df.rows)
    ensures r.Ok? ==> r.value.cells.Keys == KeySet(df.rows)
    ensures r.Ok? ==> forall i :: 0 <= i < |df.rows| ==>
      r.value.cells[KeyOf(df.rows[i])] == Cell(df.rows[i], values)
  {
    CellsDefinedIffUnique(df.rows, values);
    if IndexColumn !in df.columns then Err(MissingColumn(IndexColumn))
    else if ColumnsColumn !in df.columns then Err(MissingColumn(ColumnsColumn))
    else if values !in df.columns then Err(MissingColumn(values))
    else
      match Cells(df.rows, values)
      case None => Err(DuplicateEntries)
      case Some(cells) =>
        CellsHoldRowValues(df.rows, values);
        Ok(Pivot(Accounts(df.rows), MonthLabels(df.rows), cells))
  }

  /** A pivot after `pivot[months]`: its columns are exactly `months`, in that order. */
  datatype Table = Table(index: set<Value>, columns: seq<string>, cells: map<Key, Value>)

  /** The label `v` is one of the selected month names. */
  predicate Selected(v: Value, months: seq<string>) {
    v.Text? && v.s in months
  }

  /**
   * `pivot[months]`; every selected month must be a column label, or pandas raises `KeyError`.
   * Every row stays, the columns become `months` in that order, and exactly the cells under a
   * selected month are kept, unchanged.
   */
  function Select(p: Pivot, months: seq<string>): (t: Table)
    requires forall m :: m in months ==> Text(m) in p.columns
    ensures t.index == p.index && t.columns == months
    ensures forall k :: k in t.cells <==> k in p.cells && Selected(k.1, months)
    ensures forall k :: k in t.cells ==> t.cells[k] == p.cells[k]
  {
    Table(p.index, months, map k | k in p.cells && Selected(k.1, months) :: p.cells[k])
  }

  /** The displayed cell of a table: the pivoted value, or NaN where no row had that pair. */
  function At(t: Table, account: Value, month: string): (v: Value)
    ensures (account, Text(month)) in t.cells ==> v == t.cells[(account, Text(month))]
    ensures (account, Text(month)) !in t.cells ==> v == Missing
  {
    var k := (account, Text(month));
    if k in t.cells then t.cells[k] else Missing
  }
}
