/**
 * The "Data Preview" block (app.py:47-83): the Plan and Actuals pivots restricted to the
 * canonical months, the three summary metrics, and the raw-rows fallback when pivoting fails.
 */
module Preview {
  import opened Frames
  import opened Sequences
  import opened Months
  import opened Pivoting

  const PlanColumn := "Plan"
  const ActualsColumn := "Actuals"

  /** How many rows the fallback shows. */
  const PreviewRows := 20

  /** "Total Rows", "Account Types" and "Months". */
  datatype Metrics = Metrics(totalRows: nat, accountTypes: nat, months: nat)

  /** What the preview shows: both tables and the metrics, or the error and the first rows. */
  datatype View =
    | Pivoted(plan: Table, actual: Table, metrics: Metrics)
    | Fallback(error: PivotError, head: seq<Row>)

  /**
   * The three metrics: the number of rows, the number of distinct accounts (at most the number
   * of rows) and the number of months shown.
   */
  function SummaryMetrics(df: Frame, months: seq<string>): (r: Metrics)
    ensures r.totalRows == |df.rows|
    ensures r.accountTypes == |Accounts(df.rows)| <= |df.rows|
    ensures r.months == |months|
  {
    var u := Unique(Column(df, IndexColumn));
    UniqueAccountsAreIndex(df);
    NoDupCardinality(u);
    Metrics(|df.rows|, |u|, |months|)
  }

  /**
   * The whole `try`/`except` block of the preview: the tables when all four columns exist and no
   * (account, month) pair repeats, with the canonical months present as their columns; the
   * fallback otherwise.
   */
  function DataPreview(df: Frame): (v: View)
    ensures v.Pivoted? <==> HasRequiredColumns(df) && UniqueKeys(df.rows)
    ensures v.Pivoted? ==>
      && v.plan.index == v.actual.index == Accounts(df.rows)
      && v.plan.columns == v.actual.columns == AvailableMonths(MonthLabels(df.rows))
  {
    match PivotOn(df, PlanColumn)
    case Err(e) => Fallback(e, Head(df, PreviewRows))
    case Ok(plan) =>
      match PivotOn(df, ActualsColumn)
      case Err(e) => Fallback(e, Head(df, PreviewRows))
      case Ok(actual) =>
        var months := AvailableMonths(plan.columns);
        Pivoted(Select(plan, months), Select(actual, months), SummaryMetrics(df, months))
  }

  ghost predicate HasRequiredColumns(df: Frame) {
    IndexColumn in df.columns && ColumnsColumn in df.columns
    && PlanColumn in df.columns && ActualsColumn in df.columns
  }

  /**
   * The preview falls back exactly when a required column is missing or an (account, month)
   * pair repeats; the fallback shows the first min(20, |rows|) rows. The error is the missing
   * column when Account, Month or Plan is absent; a missing Actuals column is reported only when
   * the pairs are unique, since the Plan pivot runs first and fails on a repeated pair.
   */
  lemma FallbackIff(df: Frame)
    ensures DataPreview(df).Fallback? <==> !HasRequiredColumns(df) || !UniqueKeys(df.rows)
    ensures IndexColumn !in df.columns || ColumnsColumn !in df.columns || PlanColumn !in df.columns ==>
      DataPreview(df).Fallback? && DataPreview(df).error.MissingColumn?
    ensures ActualsColumn !in df.columns && UniqueKeys(df.rows) ==>
      DataPreview(df).Fallback? && DataPreview(df).error.MissingColumn?
    ensures DataPreview(df).Fallback? && DataPreview(df).error.DuplicateEntries? ==> !UniqueKeys(df.rows)
    ensures DataPreview(df).Fallback? ==>
      var head := DataPreview(df).head;
      head <= df.rows && |head| == (if |df.rows| < PreviewRows then |df.rows| else PreviewRows)
  {
  }

  /**
   * Both tables have the accounts as rows and the canonical months present as columns, in
   * calendar order, and hold a cell for the same (account, month) pairs: those of the rows whose
   * month is canonical.
   */
  lemma TablesAgree(df: Frame)
    requires HasRequiredColumns(df) && UniqueKeys(df.rows)
    ensures var v := DataPreview(df);
      && v.Pivoted?
      && v.plan.index == v.actual.index == Accounts(df.rows)
      && v.plan.columns == v.actual.columns == AvailableMonths(MonthLabels(df.rows))
      && v.plan.cells.Keys == v.actual.cells.Keys
      && (forall k :: k in v.plan.cells <==> k in KeySet(df.rows) && Selected(k.1, MonthOrder))
  {
    var v := DataPreview(df);
    var months := AvailableMonths(MonthLabels(df.rows));
    forall k | k in KeySet(df.rows) && Selected(k.1, MonthOrder)
      ensures Selected(k.1, months)
    {
      var r :| r in df.rows && KeyOf(r) == k;
      assert k.1 in MonthLabels(df.rows);
    }
  }

  /** For a row whose month is canonical, the Plan table shows its Plan and the Actuals table its Actuals. */
  lemma RowShownInBothTables(df: Frame, i: nat, m: string)
    requires HasRequiredColumns(df) && UniqueKeys(df.rows) && i < |df.rows|
    requires Cell(df.rows[i], ColumnsColumn) == Text(m) && m in MonthOrder
    ensures var v := DataPreview(df); var account := Cell(df.rows[i], IndexColumn);
      && v.Pivoted?
      && account in v.plan.index && m in v.plan.columns
      && At(v.plan, account, m) == Cell(df.rows[i], PlanColumn)
      && At(v.actual, account, m) == Cell(df.rows[i], ActualsColumn)
  {
    var r := df.rows[i];
    var plan := PivotOn(df, PlanColumn).value;
    var actual := PivotOn(df, ActualsColumn).value;
    var months := AvailableMonths(plan.columns);
    assert r in df.rows;
    assert Text(m) in plan.columns;
    assert m in months;
    var k := KeyOf(r);
    assert k == (Cell(r, IndexColumn), Text(m)) && Selected(k.1, months);
    assert plan.cells[k] == Cell(r, PlanColumn);
    assert actual.cells[k] == Cell(r, ActualsColumn);
    assert Select(plan, months).cells[k] == Cell(r, PlanColumn);
    assert Select(actual, months).cells[k] == Cell(r, ActualsColumn);
  }

  /**
   * A row whose month label is not one of the twelve is dropped from both tables, although its
   * account keeps its row.
   */
  lemma NonCanonicalMonthDropped(df: Frame, i: nat)
    requires HasRequiredColumns(df) && UniqueKeys(df.rows) && i < |df.rows|
    requires !Selected(Cell(df.rows[i], ColumnsColumn), MonthOrder)
    ensures var v := DataPreview(df);
      && v.Pivoted?
      && KeyOf(df.rows[i]) !in v.plan.cells && KeyOf(df.rows[i]) !in v.actual.cells
      && Cell(df.rows[i], IndexColumn) in v.plan.index
  {
    assert df.rows[i] in df.rows;
    TablesAgree(df);
  }

  /** The distinct values of a column are the accounts of the pivot. */
  lemma UniqueAccountsAreIndex(df: Frame)
    ensures Elements(Unique(Column(df, IndexColumn))) == Accounts(df.rows)
  {
    var col := Column(df, IndexColumn);
    var u := Unique(col);
    forall x | x in Elements(u) ensures x in Accounts(df.rows) {
      var k :| 0 <= k < |u| && u[k] == x;
      var i :| 0 <= i < |col| && col[i] == x;
      assert df.rows[i] in df.rows;
    }
    forall x | x in Accounts(df.rows) ensures x in Elements(u) {
      var r :| r in df.rows && Cell(r, IndexColumn) == x;
      var i :| 0 <= i < |df.rows| && df.rows[i] == r;
      assert col[i] == x;
      var k :| 0 <= k < |u| && u[k] == x;
    }
  }

  /**
   * "Total Rows" is the number of rows, "Account Types" the number of distinct accounts, which is
   * also the number of table rows and at most the number of rows, and "Months" the number of
   * table columns, at most twelve.
   */
  lemma MetricsSummarise(df: Frame)
    requires HasRequiredColumns(df) && UniqueKeys(df.rows)
    ensures var v := DataPreview(df);
      && v.Pivoted?
      && v.metrics.totalRows == |df.rows|
      && v.metrics.accountTypes == |v.plan.index| <= |df.rows|
      && v.metrics.months == |v.plan.columns| <= 12
  {
    var u := Unique(Column(df, IndexColumn));
    UniqueAccountsAreIndex(df);
    NoDupCardinality(u);
  }
}
