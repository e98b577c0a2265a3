/** The chart-kind classifier of `labelsAndDatasets` (chartjs.go:194-200,
    402-404) and the tooltip dispatch of `tooltipCallback` (chartjs.go:440-473). */
module Classifier {
  import opened ChartTypes

  /** The cases of the `switch` on the chart kind. */
  datatype Mode = Pie | Bar | Line | ScatterLine | DenormalisedScatterLine | Scatter

  /** The kind string that selects each case. */
  function ModeName(m: Mode): string
  {
    match m
    case Pie => "pie"
    case Bar => "bar"
    case Line => "line"
    case ScatterLine => "scatterline"
    case DenormalisedScatterLine => "denormalised-scatterline"
    case Scatter => "scatter"
  }

  /** The case a kind string selects; None is the `default` branch, where the
      source calls log.Fatalf. */
  function ParseMode(kind: string): (m: Option<Mode>)
    ensures m.Some? ==> ModeName(m.value) == kind
    ensures m.None? ==> forall n: Mode :: ModeName(n) != kind
  {
    if kind == "pie" then Some(Pie)
    else if kind == "bar" then Some(Bar)
    else if kind == "line" then Some(Line)
    else if kind == "scatterline" then Some(ScatterLine)
    else if kind == "denormalised-scatterline" then Some(DenormalisedScatterLine)
    else if kind == "scatter" then Some(Scatter)
    else None
  }

  /** Every case name selects its own case: ModeName is a right inverse of ParseMode. */
  lemma ParseModeName(m: Mode)
    ensures ParseMode(ModeName(m)) == Some(m)
  {
  }

  /** The kind after the reclassification at the top of labelsAndDatasets.
      The source assigns to the ChartType field of its receiver, which is a
      copy, so the caller's inData keeps the requested kind. */
  function EffectiveKind<F, T>(d: InData<F, T>): string
  {
    if d.chartType == "line" && (!HasStrings(d) || HasTimes(d)) then
      if HasStrings(d) && FloatFieldLen(d) + TimeFieldLen(d) >= 2 then "denormalised-scatterline"
      else "scatterline"
    else d.chartType
  }

  /** The resolved mode, or None for a kind no case matches. */
  function Classify<F, T>(d: InData<F, T>): Option<Mode>
  {
    ParseMode(EffectiveKind(d))
  }

  /** Only a requested "line" is reclassified, exactly when there are no
      string rows or there are time rows; it becomes a denormalised
      scatterline exactly when string rows exist and the first numeric row
      and first time row together have at least two fields. */
  lemma Reclassification<F, T>(d: InData<F, T>)
    ensures EffectiveKind(d) != d.chartType <==> d.chartType == "line" && (!HasStrings(d) || HasTimes(d))
    ensures EffectiveKind(d) != d.chartType ==>
      (EffectiveKind(d) == "denormalised-scatterline" <==> HasStrings(d) && FloatFieldLen(d) + TimeFieldLen(d) >= 2)
    ensures EffectiveKind(d) != d.chartType ==>
      EffectiveKind(d) in {"scatterline", "denormalised-scatterline"}
  {
  }

  /** The mode as a function of the requested kind and the table's shape:
      a requested "line" is drawn as a plain line only when there are string
      rows and no time rows, and a requested kind outside the six case names
      is the fatal error. */
  lemma ClassifyCases<F, T>(d: InData<F, T>)
    ensures d.chartType == "line" ==> Classify(d).Some?
    ensures d.chartType == "line" ==>
      (Classify(d) == Some(Line) <==> HasStrings(d) && !HasTimes(d))
    ensures d.chartType == "line" ==>
      (Classify(d) == Some(DenormalisedScatterLine) <==>
         HasStrings(d) && HasTimes(d) && FloatFieldLen(d) + TimeFieldLen(d) >= 2)
    ensures d.chartType != "line" ==> Classify(d) == ParseMode(d.chartType)
    ensures Classify(d).None? <==> d.chartType != "line" && forall m: Mode :: ModeName(m) != d.chartType
  {
  }

  /** `tooltipCallback`: the tooltip body for a kind; unknown kinds get the empty body. */
  function TooltipCallback(kind: string): (t: Tooltip)
    ensures t == NoTooltip <==> kind !in {"pie", "line", "scatterline", "scatter", "bar"}
    ensures t == LineTooltip <==> kind == "line" || kind == "scatterline"
    ensures t == PieTooltip <==> kind == "pie"
    ensures t == ScatterTooltip <==> kind == "scatter"
    ensures t == BarTooltip <==> kind == "bar"
  {
    if kind == "pie" then PieTooltip
    else if kind == "line" || kind == "scatterline" then LineTooltip
    else if kind == "scatter" then ScatterTooltip
    else if kind == "bar" then BarTooltip
    else NoTooltip
  }

  /** The tooltip is chosen from the requested kind: a requested line keeps
      the line tooltip even when it is drawn as a denormalised scatterline,
      whose own kind name would select the empty body. */
  lemma TooltipOfRequestedKind<F, T>(d: InData<F, T>)
    ensures d.chartType == "line" ==> TooltipCallback(d.chartType) == LineTooltip
    ensures Classify(d) == Some(DenormalisedScatterLine) && d.chartType == "line" ==>
      TooltipCallback(EffectiveKind(d)) == NoTooltip != TooltipCallback(d.chartType)
    ensures TooltipCallback(d.chartType) != NoTooltip ==> ParseMode(d.chartType).Some?
  {
  }
}
