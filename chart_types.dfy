/** The records of chartjs.go: the input table (`inData`), the chart
    description handed to the Chart.js template (`cjsData`, `cjsDataset`,
    `cjsDataPoint`), and the functions the builder calls but does not define. */
module ChartTypes {

  datatype Option<T> = None | Some(value: T)

  /** `inData`: numeric rows, time rows and string rows of one table, with the
      per-column minima and maxima and the display metadata. F stands for
      float64 and T for time.Time; cell values are only ever formatted. */
  datatype InData<F, T> = InData(
    chartType: string,
    fss: seq<seq<F>>,
    tss: seq<seq<T>>,
    sss: seq<seq<string>>,
    minFss: seq<F>,
    maxFss: seq<F>,
    title: string,
    scaleType: string,
    xLabel: string,
    yLabel: string,
    zeroBased: bool)

  /** The collaborators of the builder, taken as given functions:
      formatFloat is `fmt.Sprintf("%g", f)` (also `%v` of a float64),
      formatTime is `Format("2006-01-02T15:04:05.999999999")`,
      scatterRadius is the bubble radius of (value, min, max),
      and the palette helpers colorIndex, colorFirstN, colorRepeat. */
  datatype Env<!F, !T> = Env(
    formatFloat: F -> string,
    formatTime: T -> string,
    scatterRadius: (F, F, F) -> F,
    preprocessLabel: string -> string,
    colorIndex: int -> string,
    colorFirstN: int -> string,
    colorRepeat: (int, int) -> string)

  /** `cjsDataPoint`: pre-formatted coordinates and an optional radius. */
  datatype Point = Point(x: string, y: string, r: string, usesR: bool)

  /** `cjsDataset`: either simple data or complex data is used by a mode. */
  datatype Dataset = Dataset(
    simpleData: seq<string>,
    complexData: seq<Point>,
    backgroundColor: string,
    fill: bool,
    seriesLabel: string,
    borderColor: string)

  /** The JavaScript bodies of the tooltip callbacks, as opaque constants;
      NoTooltip is the empty body. */
  datatype Tooltip = NoTooltip | PieTooltip | LineTooltip | ScatterTooltip | BarTooltip

  /** `cjsData`: what the template renders. */
  datatype CjsData = CjsData(
    chartType: string,
    actualChartType: string,
    title: string,
    scaleType: string,
    xLabel: string,
    yLabel: string,
    zeroBased: bool,
    labels: string,
    datasets: seq<Dataset>,
    tooltipCallback: Tooltip,
    usesTimeScale: bool)

  /** A dataset with every field at Go's zero value. */
  const EmptyDataset := Dataset([], [], "", false, "", "")

  predicate HasFloats<F, T>(d: InData<F, T>) { |d.fss| > 0 }
  predicate HasStrings<F, T>(d: InData<F, T>) { |d.sss| > 0 }
  predicate HasTimes<F, T>(d: InData<F, T>) { |d.tss| > 0 }

  /** The width of the first time row, 0 without time rows. */
  function TimeFieldLen<F, T>(d: InData<F, T>): nat
  {
    if !HasTimes(d) then 0 else |d.tss[0]|
  }

  /** The width of the first numeric row, 0 without numeric rows. */
  function FloatFieldLen<F, T>(d: InData<F, T>): nat
  {
    if !HasFloats(d) then 0 else |d.fss[0]|
  }

  /** Every one of the first n rows has a cell in column c. */
  predicate RowsReach<X>(rows: seq<seq<X>>, n: nat, c: nat)
  {
    n <= |rows| && forall i :: 0 <= i < n ==> c < |rows[i]|
  }

  /** A time stamp between single quotes, as a JavaScript string literal. */
  function QuotedTime<F, T>(env: Env<F, T>, t: T): string
  {
    "'" + env.formatTime(t) + "'"
  }
}
