/** `labelsAndDatasets` and `data` (chartjs.go:180-406): resolve the chart
    kind, build the labels and datasets of that mode, then copy the display
    metadata and pick the tooltip. */
module Chart {
  import opened ChartTypes
  import opened Text
  import opened Grouping
  import opened Classifier
  import opened Marshal
  import opened Series
  import opened Denormalised
  import opened Scatter

  /** What each mode reads, so that no index is out of range. */
  predicate ModeSafe<F, T>(m: Mode, d: InData<F, T>)
  {
    match m
    case Pie => LabelsSafe(d) && RowsReach(d.fss, |d.fss|, 0)
    case Bar => Covers(d) && LabelsSafe(d)
    case Line => Covers(d) && LabelsSafe(d)
    case ScatterLine => ScatterLineSafe(d)
    case DenormalisedScatterLine => DenormSafe(d)
    case Scatter => ScatterSafe(d)
  }

  /** The table can be drawn in the mode it resolves to (or the kind is unknown). */
  predicate Safe<F, T>(d: InData<F, T>)
  {
    Classify(d).Some? ==> ModeSafe(Classify(d).value, d)
  }

  /** A cjsData with only the fields labelsAndDatasets sets. */
  function Bare(kind: string, actual: string, labels: string, datasets: seq<Dataset>, usesTimeScale: bool): CjsData
  {
    CjsData(kind, actual, "", "", "", "", false, labels, datasets, NoTooltip, usesTimeScale)
  }

  /** The datasets of a bar chart: the single series for one column, else one per column. */
  function BarReference<F, T>(env: Env<F, T>, d: InData<F, T>): seq<Dataset>
    requires Covers(d)
  {
    if Width(d) == 1 then [SingleSeries(env, d)]
    else seq(Width(d), i requires 0 <= i < Width(d) => BarSeries(env, d, i))
  }

  /** What labelsAndDatasets returns in mode m, with the denormalised
      datasets in first-seen order. */
  function ModeSpec<F, T>(env: Env<F, T>, d: InData<F, T>, m: Mode): CjsData
    requires ModeSafe(m, d)
  {
    match m
    case Pie => Bare("pie", "pie", LabelsText(env, d), [SingleSeries(env, d)], false)
    case Bar => Bare("bar", "bar", LabelsText(env, d), BarReference(env, d), false)
    case Line =>
      Bare("line", "line", LabelsText(env, d),
           seq(Width(d), i requires 0 <= i < Width(d) => LineSeries(env, d, i)), false)
    case ScatterLine =>
      Bare("line", "scatterline", "",
           seq(ScatterLineCount(d), n requires 0 <= n < ScatterLineCount(d) => ScatterLineSeries(env, d, n)),
           HasTimes(d) && Width(d) > 0)
    case DenormalisedScatterLine =>
      Bare("line", "scatterline", "", DenormReference(env, d), HasTimes(d) && |d.fss| > 0)
    case Scatter =>
      Bare("bubble", "scatter", "", ScatterReference(env, d), HasTimes(d) && |d.fss| > 0)
  }

  /** What labelsAndDatasets returns; None for an unknown kind. */
  function ChartSpec<F, T>(env: Env<F, T>, d: InData<F, T>): Option<CjsData>
    requires Safe(d)
  {
    match Classify(d)
    case None => None
    case Some(m) => Some(ModeSpec(env, d, m))
  }

  /** Equal, except that the datasets may come in another order. */
  predicate SameUpToOrder(a: CjsData, b: CjsData)
  {
    a.(datasets := []) == b.(datasets := []) && multiset(a.datasets) == multiset(b.datasets)
  }

  /** The pie case (chartjs.go:201-211). */
  method PieChart<F, T>(env: Env<F, T>, d: InData<F, T>) returns (c: CjsData)
    requires ModeSafe(Pie, d)
    ensures c == ModeSpec(env, d, Pie)
  {
    var labels := MarshalLabels(env, d);
    var data := MarshalSimpleData(env, d, 0);
    return Bare("pie", "pie", labels, [Dataset(data, [], env.colorFirstN(|d.fss|), true, "", "")], false);
  }

  /** The bar case (chartjs.go:212-239). */
  method BarChart<F, T>(env: Env<F, T>, d: InData<F, T>) returns (c: CjsData)
    requires ModeSafe(Bar, d)
    ensures c == ModeSpec(env, d, Bar)
  {
    if |d.fss[0]| == 1 {
      var labels := MarshalLabels(env, d);
      var data := MarshalSimpleData(env, d, 0);
      return Bare("bar", "bar", labels, [Dataset(data, [], env.colorFirstN(|d.fss|), true, "", "")], false);
    }
    var ds := BarDatasets(env, d);
    assert ds == BarReference(env, d);
    var labels := MarshalLabels(env, d);
    return Bare("bar", "bar", labels, ds, false);
  }

  /** The line case (chartjs.go:240-256). */
  method LineChart<F, T>(env: Env<F, T>, d: InData<F, T>) returns (c: CjsData)
    requires ModeSafe(Line, d)
    ensures c == ModeSpec(env, d, Line)
  {
    var ds := LineDatasets(env, d);
    assert ds == seq(Width(d), i requires 0 <= i < Width(d) => LineSeries(env, d, i));
    var labels := MarshalLabels(env, d);
    return Bare("line", "line", labels, ds, false);
  }

  /** The scatterline case (chartjs.go:257-290). */
  method ScatterLineChart<F, T>(env: Env<F, T>, d: InData<F, T>) returns (c: CjsData)
    requires ModeSafe(ScatterLine, d)
    ensures c == ModeSpec(env, d, ScatterLine)
  {
    var dss, usesTimeScale := ScatterLineDatasets(env, d);
    assert dss == seq(ScatterLineCount(d), n requires 0 <= n < ScatterLineCount(d) => ScatterLineSeries(env, d, n));
    return Bare("line", "scatterline", "", dss, usesTimeScale);
  }

  /** The denormalised-scatterline case (chartjs.go:291-330). */
  method DenormalisedChart<F, T>(env: Env<F, T>, d: InData<F, T>) returns (c: CjsData)
    requires ModeSafe(DenormalisedScatterLine, d)
    ensures SameUpToOrder(c, ModeSpec(env, d, DenormalisedScatterLine))
  {
    var dss, usesTimeScale := DenormDatasets(env, d);
    return Bare("line", "scatterline", "", dss, usesTimeScale);
  }

  /** The scatter case (chartjs.go:331-401). */
  method ScatterChart<F, T>(env: Env<F, T>, d: InData<F, T>) returns (c: CjsData)
    requires ModeSafe(Scatter, d)
    ensures c == ModeSpec(env, d, Scatter)
  {
    var dss, usesTimeScale := ScatterDatasets(env, d);
    return Bare("bubble", "scatter", "", dss, usesTimeScale);
  }

  /** `labelsAndDatasets`. The kind is reassigned on a local copy, as the
      source does on its value receiver, then the `switch` picks the case. */
  method LabelsAndDatasets<F, T>(env: Env<F, T>, d: InData<F, T>) returns (r: Option<CjsData>)
    requires Safe(d)
    ensures r.None? <==> Classify(d).None?
    ensures Classify(d) != Some(DenormalisedScatterLine) ==> r == ChartSpec(env, d)
    ensures Classify(d) == Some(DenormalisedScatterLine) ==> r.Some? && SameUpToOrder(r.value, ChartSpec(env, d).value)
  {
    var kind := d.chartType;
    if kind == "line" && (!HasStrings(d) || HasTimes(d)) {
      kind := "scatterline";
      if HasStrings(d) && FloatFieldLen(d) + TimeFieldLen(d) >= 2 {
        kind := "denormalised-scatterline";
      }
    }
    assert kind == EffectiveKind(d);
    var c;
    if kind == "pie" {
      c := PieChart(env, d);
    } else if kind == "bar" {
      c := BarChart(env, d);
    } else if kind == "line" {
      c := LineChart(env, d);
    } else if kind == "scatterline" {
      c := ScatterLineChart(env, d);
    } else if kind == "denormalised-scatterline" {
      c := DenormalisedChart(env, d);
    } else if kind == "scatter" {
      c := ScatterChart(env, d);
    } else {
      return None;
    }
    return Some(c);
  }

  /** `data`: the result of labelsAndDatasets with the metadata copied from
      the input and the tooltip of the requested kind. */
  function WithMetadata<F, T>(d: InData<F, T>, c: CjsData): CjsData
  {
    c.(title := d.title, scaleType := d.scaleType, xLabel := d.xLabel, yLabel := d.yLabel,
       zeroBased := d.zeroBased, tooltipCallback := TooltipCallback(d.chartType))
  }

  /** `data`. */
  method Data<F, T>(env: Env<F, T>, d: InData<F, T>) returns (r: Option<CjsData>)
    requires Safe(d)
    ensures r.None? <==> Classify(d).None?
    ensures r.Some? ==> SameUpToOrder(r.value, WithMetadata(d, ChartSpec(env, d).value))
    ensures r.Some? && Classify(d) != Some(DenormalisedScatterLine) ==> r.value == WithMetadata(d, ChartSpec(env, d).value)
  {
    var c := LabelsAndDatasets(env, d);
    if c.None? {
      return None;
    }
    var v := c.value;
    v := v.(title := d.title);
    v := v.(scaleType := d.scaleType);
    v := v.(xLabel := d.xLabel);
    v := v.(yLabel := d.yLabel);
    v := v.(zeroBased := d.zeroBased);
    v := v.(tooltipCallback := TooltipCallback(d.chartType));
    return Some(v);
  }

  /** The shape of each mode's result: the kind names handed to Chart.js,
      the number of datasets, where the labels come from and whether a time
      scale is used. Pie and one-column bar draw column 0 as one filled
      dataset coloured per slice; several bar columns and line draw one
      dataset per column; the point modes have no labels. */
  lemma ChartShape<F, T>(env: Env<F, T>, d: InData<F, T>)
    requires Safe(d) && Classify(d).Some?
    ensures var c := ChartSpec(env, d).value;
      var m := Classify(d).value;
      && (m == Pie || (m == Bar && Width(d) == 1) ==>
            |c.datasets| == 1 && c.datasets[0].fill && c.datasets[0].simpleData == ColumnTokens(env, d.fss, 0)
            && c.datasets[0].backgroundColor == env.colorFirstN(|d.fss|))
      && (m == Pie ==> c.chartType == c.actualChartType == "pie")
      && (m == Bar ==> c.chartType == c.actualChartType == "bar")
      && (m == Bar && Width(d) != 1 ==>
            |c.datasets| == Width(d) && forall i :: 0 <= i < Width(d) ==> c.datasets[i] == BarSeries(env, d, i))
      && (m == Line ==> c.chartType == c.actualChartType == "line")
      && (m == Line ==>
            |c.datasets| == Width(d) && forall i :: 0 <= i < Width(d) ==> c.datasets[i] == LineSeries(env, d, i))
      && (m == ScatterLine || m == DenormalisedScatterLine ==> c.chartType == "line" && c.actualChartType == "scatterline")
      && (m == ScatterLine ==> |c.datasets| == ScatterLineCount(d))
      && (m == ScatterLine ==> (c.usesTimeScale <==> HasTimes(d) && Width(d) > 0))
      && (m == DenormalisedScatterLine ==> |c.datasets| == |set k | k in RowKeys(d)|)
      && (m == Scatter ==> c.chartType == "bubble" && c.actualChartType == "scatter" && |c.datasets| == GroupCount(d))
      && (m == DenormalisedScatterLine || m == Scatter ==> (c.usesTimeScale <==> HasTimes(d) && |d.fss| > 0))
      && (m == Pie || m == Bar || m == Line ==> c.labels == LabelsText(env, d) && !c.usesTimeScale)
      && (m != Pie && m != Bar && m != Line ==> c.labels == "")
  {
    if Classify(d).value == DenormalisedScatterLine {
      DenormCategories(env, d);
    }
  }

  /** `data` copies the display metadata from the input and takes the
      tooltip from the requested kind; a requested line is always handed to
      Chart.js as a line with the line tooltip, whether it is drawn as a
      line or as a (denormalised) scatterline. */
  lemma DataMetadata<F, T>(env: Env<F, T>, d: InData<F, T>)
    requires Safe(d) && Classify(d).Some?
    ensures var c := WithMetadata(d, ChartSpec(env, d).value);
      && c.title == d.title && c.scaleType == d.scaleType && c.xLabel == d.xLabel
      && c.yLabel == d.yLabel && c.zeroBased == d.zeroBased
      && c.tooltipCallback == TooltipCallback(d.chartType)
      && (d.chartType == "line" ==>
            c.chartType == "line" && c.actualChartType in {"line", "scatterline"} && c.tooltipCallback == LineTooltip)
  {
    ClassifyCases(d);
  }
}
