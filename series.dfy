/** The column-per-dataset branches of `labelsAndDatasets`: pie, bar, line
    and scatterline (chartjs.go:201-290). */
module Series {
  import opened ChartTypes
  import opened Text
  import opened Marshal

  /** `fmt.Sprintf("category %v", i)`. */
  function CategoryLabel(i: nat): string
  {
    "category " + NatToDecimal(i)
  }

  /** Different columns get different "category i" labels. */
  lemma CategoryLabelsDiffer(i: nat, j: nat)
    requires i != j
    ensures CategoryLabel(i) != CategoryLabel(j)
  {
    if CategoryLabel(i) == CategoryLabel(j) {
      assert NatToDecimal(i) == CategoryLabel(i)[9..];
      DecimalInjective(i, j);
    }
  }

  /** Number of columns of the first numeric row. */
  function Width<F, T>(d: InData<F, T>): nat
    requires |d.fss| > 0
  {
    |d.fss[0]|
  }

  /** The source reads FSS[0], so there is a numeric row, and it reads every
      column of the first row in every row. */
  predicate Covers<F, T>(d: InData<F, T>)
  {
    |d.fss| > 0 && forall i :: 0 <= i < |d.fss| ==> |d.fss[0]| <= |d.fss[i]|
  }

  /** The single dataset of a pie and of a one-column bar chart. */
  function SingleSeries<F, T>(env: Env<F, T>, d: InData<F, T>): Dataset
    requires RowsReach(d.fss, |d.fss|, 0)
  {
    Dataset(ColumnTokens(env, d.fss, 0), [], env.colorFirstN(|d.fss|), true, "", "")
  }

  /** Dataset i of a bar chart with several columns. */
  function BarSeries<F, T>(env: Env<F, T>, d: InData<F, T>, i: nat): Dataset
    requires Covers(d) && i < Width(d)
  {
    Dataset(ColumnTokens(env, d.fss, i), [], env.colorRepeat(i, |d.fss|), true, CategoryLabel(i), "")
  }

  /** Dataset i of a line chart. */
  function LineSeries<F, T>(env: Env<F, T>, d: InData<F, T>, i: nat): Dataset
    requires Covers(d) && i < Width(d)
  {
    Dataset(ColumnTokens(env, d.fss, i), [], env.colorIndex(i), false, CategoryLabel(i), env.colorIndex(i))
  }

  /** The multi-column bar loop of chartjs.go:225-233. */
  method BarDatasets<F, T>(env: Env<F, T>, d: InData<F, T>) returns (ds: seq<Dataset>)
    requires Covers(d)
    ensures |ds| == Width(d)
    ensures forall i :: 0 <= i < |ds| ==> ds[i] == BarSeries(env, d, i)
  {
    ds := [];
    for i := 0 to |d.fss[0]|
      invariant |ds| == i
      invariant forall k :: 0 <= k < i ==> ds[k] == BarSeries(env, d, k)
    {
      var data := MarshalSimpleData(env, d, i);
      ds := ds + [Dataset(data, [], env.colorRepeat(i, |d.fss|), true, "category " + NatToDecimal(i), "")];
    }
  }

  /** The line loop of chartjs.go:241-250. */
  method LineDatasets<F, T>(env: Env<F, T>, d: InData<F, T>) returns (ds: seq<Dataset>)
    requires Covers(d)
    ensures |ds| == Width(d)
    ensures forall i :: 0 <= i < |ds| ==> ds[i] == LineSeries(env, d, i)
  {
    ds := [];
    for i := 0 to |d.fss[0]|
      invariant |ds| == i
      invariant forall k :: 0 <= k < i ==> ds[k] == LineSeries(env, d, k)
    {
      var data := MarshalSimpleData(env, d, i);
      ds := ds + [Dataset(data, [], env.colorIndex(i), false, "category " + NatToDecimal(i), env.colorIndex(i))];
    }
  }

  /** One dataset per column: dataset i is column i of every row, in row
      order, labelled "category i", filled for bars and not for lines, and no
      two datasets share a label. */
  lemma ColumnSeriesShape<F, T>(env: Env<F, T>, d: InData<F, T>, i: nat, j: nat)
    requires Covers(d) && i < Width(d) && j < Width(d)
    ensures |BarSeries(env, d, i).simpleData| == |LineSeries(env, d, i).simpleData| == |d.fss|
    ensures forall r :: 0 <= r < |d.fss| ==>
      BarSeries(env, d, i).simpleData[r] == LineSeries(env, d, i).simpleData[r] == env.formatFloat(d.fss[r][i])
    ensures BarSeries(env, d, i).fill && !LineSeries(env, d, i).fill
    ensures i != j ==> BarSeries(env, d, i).seriesLabel != BarSeries(env, d, j).seriesLabel
    ensures i != j ==> LineSeries(env, d, i).seriesLabel != LineSeries(env, d, j).seriesLabel
  {
    if i != j {
      CategoryLabelsDiffer(i, j);
    }
  }

  /** What the scatterline branch reads: the first numeric row; every column
      of it in every row, except without time rows and with one column, when
      the break fires before any row is read; and, when there are time rows
      and at least one column, the first time stamp of each row. */
  predicate ScatterLineSafe<F, T>(d: InData<F, T>)
  {
    && |d.fss| > 0
    && (HasTimes(d) || Width(d) != 1 ==> Covers(d))
    && (HasTimes(d) && Width(d) > 0 ==> RowsReach(d.tss, |d.fss|, 0))
  }

  /** Point i of scatterline dataset n: against the row's first time stamp with
      y from column n, or else against column 0 with y from column n + 1. */
  function ScatterLinePoint<F, T>(env: Env<F, T>, d: InData<F, T>, n: nat, i: nat): Point
    requires ScatterLineSafe(d) && i < |d.fss|
    requires if HasTimes(d) then n < Width(d) else n + 1 < Width(d)
  {
    if HasTimes(d) then Point(QuotedTime(env, d.tss[i][0]), env.formatFloat(d.fss[i][n]), "", false)
    else Point(env.formatFloat(d.fss[i][0]), env.formatFloat(d.fss[i][n + 1]), "", false)
  }

  /** The number of scatterline datasets: every column against time, or every
      column but the first against column 0. */
  function ScatterLineCount<F, T>(d: InData<F, T>): nat
    requires |d.fss| > 0
  {
    if HasTimes(d) then Width(d) else if Width(d) == 0 then 0 else Width(d) - 1
  }

  /** Scatterline dataset n. */
  function ScatterLineSeries<F, T>(env: Env<F, T>, d: InData<F, T>, n: nat): Dataset
    requires ScatterLineSafe(d) && n < ScatterLineCount(d)
  {
    Dataset([], seq(|d.fss|, i requires 0 <= i < |d.fss| => ScatterLinePoint(env, d, n, i)),
            env.colorIndex(n), false, CategoryLabel(n), env.colorIndex(n))
  }

  /** The scatterline branch, chartjs.go:257-290. Without time rows the
      labelled break leaves the outer loop when n reaches the last column, so
      that column never gets a dataset of its own. */
  method ScatterLineDatasets<F, T>(env: Env<F, T>, d: InData<F, T>) returns (dss: seq<Dataset>, usesTimeScale: bool)
    requires ScatterLineSafe(d)
    ensures |dss| == ScatterLineCount(d)
    ensures forall n :: 0 <= n < |dss| ==> dss[n] == ScatterLineSeries(env, d, n)
    ensures usesTimeScale <==> HasTimes(d) && Width(d) > 0
  {
    usesTimeScale := false;
    dss := [];
    var width := |d.fss[0]|;
    label outerLoop:
    for n := 0 to width
      invariant |dss| == n
      invariant !HasTimes(d) && width > 0 ==> n < width
      invariant forall k :: 0 <= k < n ==> dss[k] == ScatterLineSeries(env, d, k)
      invariant usesTimeScale <==> HasTimes(d) && n > 0
    {
      var ds: seq<Point> := [];
      for i := 0 to |d.fss|
        invariant |ds| == i
        invariant !HasTimes(d) && i > 0 ==> n + 1 < width
        invariant HasTimes(d) && n == 0 ==> (usesTimeScale <==> i > 0)
        invariant HasTimes(d) && n > 0 ==> usesTimeScale
        invariant !HasTimes(d) ==> !usesTimeScale
        invariant forall k :: 0 <= k < i ==> ds[k] == ScatterLinePoint(env, d, n, k)
      {
        var p: Point;
        if HasTimes(d) {
          usesTimeScale := true;
          p := Point("'" + env.formatTime(d.tss[i][0]) + "'", env.formatFloat(d.fss[i][n]), "", false);
        } else {
          if n == width - 1 {
            break outerLoop;
          }
          p := Point(env.formatFloat(d.fss[i][0]), env.formatFloat(d.fss[i][n + 1]), "", false);
        }
        ds := ds + [p];
      }
      dss := dss + [Dataset([], ds, env.colorIndex(n), false, "category " + NatToDecimal(n), env.colorIndex(n))];
    }
  }

  /** Scatterline without time rows: width - 1 datasets, dataset n plotting
      column n + 1 against column 0, one point per row in row order. With time
      rows: one dataset per column, column n against each row's first time
      stamp. The "category n" labels are pairwise different. */
  lemma ScatterLineShape<F, T>(env: Env<F, T>, d: InData<F, T>, n: nat, m: nat)
    requires ScatterLineSafe(d) && n < ScatterLineCount(d) && m < ScatterLineCount(d)
    ensures !HasTimes(d) ==> ScatterLineCount(d) == Width(d) - 1
    ensures HasTimes(d) ==> ScatterLineCount(d) == Width(d)
    ensures |ScatterLineSeries(env, d, n).complexData| == |d.fss|
    ensures forall i :: 0 <= i < |d.fss| ==>
      var p := ScatterLineSeries(env, d, n).complexData[i];
      && !p.usesR
      && (!HasTimes(d) ==> p.x == env.formatFloat(d.fss[i][0]) && p.y == env.formatFloat(d.fss[i][n + 1]))
      && (HasTimes(d) ==> p.x == QuotedTime(env, d.tss[i][0]) && p.y == env.formatFloat(d.fss[i][n]))
    ensures n != m ==> ScatterLineSeries(env, d, n).seriesLabel != ScatterLineSeries(env, d, m).seriesLabel
  {
    if n != m {
      CategoryLabelsDiffer(n, m);
    }
  }
}
