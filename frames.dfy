/** The dataset as the rest of the app sees it after `pd.read_csv`: named columns and rows of cells. */
module Frames {

  /** A cell of the table. `Missing` is pandas' NaN, what a row without that column reads as. */
  datatype Value = Text(s: string) | Number(n: int) | Missing

  /** One row: the cells it holds, by column name. */
  type Row = map<string, Value>

  /** A data frame: its header and its rows in file order. */
  datatype Frame = Frame(columns: seq<string>, rows: seq<Row>)

  /** The cell of row `r` in column `c`. */
  function Cell(r: Row, c: string): Value {
    if c in r then r[c] else Missing
  }

  /** Column `c` of the frame, top to bottom, as `df[c]`. */
  function Column(df: Frame, c: string): (vs: seq<Value>)
    ensures |vs| == |df.rows|
    ensures forall i :: 0 <= i < |df.rows| ==> vs[i] == Cell(df.rows[i], c)
  {
    seq(|df.rows|, i requires 0 <= i < |df.rows| => Cell(df.rows[i], c))
  }

  /** The first `n` rows, as `df.head(n)`: a prefix, of length min(n, |rows|). */
  function Head(df: Frame, n: nat): (rows: seq<Row>)
    ensures rows <= df.rows
    ensures |rows| == if |df.rows| < n then |df.rows| else n
  {
    if |df.rows| <= n then df.rows else df.rows[..n]
  }
}
