/** Small concrete tables worked through the model by proof, with numbers
    standing for the cells and the formatters left abstract. */
module Scenarios {
  import opened ChartTypes
  import opened Text
  import opened Marshal
  import opened Classifier
  import opened Chart
  import Series

  function Table(kind: string, fss: seq<seq<int>>): InData<int, int>
  {
    InData(kind, fss, [], [], [], [], "", "", "", "", false)
  }

  /** A pie of three one-column rows: one filled dataset holding column 0,
      coloured per slice, labelled "slice 0" to "slice 2". */
  lemma PieOfThreeRows(env: Env<int, int>)
    ensures var d := Table("pie", [[10], [20], [30]]);
      Safe(d) && ChartSpec(env, d) == Some(CjsData("pie", "pie", "", "", "", "", false,
        "slice 0,slice 1,slice 2",
        [Dataset([env.formatFloat(10), env.formatFloat(20), env.formatFloat(30)], [], env.colorFirstN(3), true, "", "")],
        NoTooltip, false))
  {
    var d := Table("pie", [[10], [20], [30]]);
    assert Classify(d) == Some(Pie);
    var tokens := LabelTokens(env, d);
    assert tokens == [SliceLabel(0), SliceLabel(1), SliceLabel(2)];
    ThreeSliceLabels();
    var col := ColumnTokens(env, d.fss, 0);
    assert col == [env.formatFloat(10), env.formatFloat(20), env.formatFloat(30)];
    assert Safe(d);
    assert ChartSpec(env, d) == Some(ModeSpec(env, d, Pie));
  }

  lemma ThreeSliceLabels()
    ensures Join([SliceLabel(0), SliceLabel(1), SliceLabel(2)], ",") == "slice 0,slice 1,slice 2"
  {
    SmallSliceLabels();
    var tokens := ["slice 0", "slice 1", "slice 2"];
    assert tokens[1..][1..] == ["slice 2"];
    assert Join(tokens[1..], ",") == "slice 1" + "," + "slice 2";
  }

  lemma SmallSliceLabels()
    ensures SliceLabel(0) == "slice 0" && SliceLabel(1) == "slice 1" && SliceLabel(2) == "slice 2"
  {
    assert NatToDecimal(0) == "0" && NatToDecimal(1) == "1" && NatToDecimal(2) == "2";
  }

  /** A line over two numeric columns without string rows is drawn as a
      scatterline with one dataset, column 1 against column 0. */
  lemma LineBecomesScatterLine(env: Env<int, int>)
    ensures var d := Table("line", [[0, 5], [1, 6], [2, 7]]);
      var f := env.formatFloat;
      && Classify(d) == Some(ScatterLine)
      && Safe(d)
      && ChartSpec(env, d) == Some(CjsData("line", "scatterline", "", "", "", "", false, "",
           [Dataset([], [Point(f(0), f(5), "", false), Point(f(1), f(6), "", false), Point(f(2), f(7), "", false)],
                    env.colorIndex(0), false, "category 0", env.colorIndex(0))],
           NoTooltip, false))
  {
    var d := Table("line", [[0, 5], [1, 6], [2, 7]]);
    var f := env.formatFloat;
    assert Classify(d) == Some(ScatterLine);
    assert Series.ScatterLineCount(d) == 1;
    assert Series.CategoryLabel(0) == "category 0";
    var ps := Series.ScatterLineSeries(env, d, 0).complexData;
    assert |ps| == 3;
    assert ps[0] == Point(f(0), f(5), "", false) && ps[1] == Point(f(1), f(6), "", false) && ps[2] == Point(f(2), f(7), "", false);
    assert ps == [Point(f(0), f(5), "", false), Point(f(1), f(6), "", false), Point(f(2), f(7), "", false)];
    var ds := seq(1, n requires 0 <= n < 1 => Series.ScatterLineSeries(env, d, n));
    assert ds == [Series.ScatterLineSeries(env, d, 0)];
    assert Safe(d);
    assert ChartSpec(env, d) == Some(ModeSpec(env, d, ScatterLine));
    assert ModeSpec(env, d, ScatterLine) == Bare("line", "scatterline", "", ds, false);
  }

  /** A one-column line without string rows is a scatterline whose break
      fires before any row is read, so a ragged second row is harmless and
      there is no dataset. */
  lemma OneColumnScatterLine(env: Env<int, int>)
    ensures var d := Table("line", [[1], []]);
      && Classify(d) == Some(ScatterLine)
      && Safe(d)
      && ChartSpec(env, d) == Some(CjsData("line", "scatterline", "", "", "", "", false, "", [], NoTooltip, false))
  {
    var d := Table("line", [[1], []]);
    assert Classify(d) == Some(ScatterLine);
    assert Series.ScatterLineCount(d) == 0;
    assert Safe(d);
    assert ChartSpec(env, d) == Some(ModeSpec(env, d, ScatterLine));
    assert |ModeSpec(env, d, ScatterLine).datasets| == 0;
  }
}
