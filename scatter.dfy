/** The scatter (bubble) branch of `labelsAndDatasets` (chartjs.go:331-401):
    categories are the distinct first strings of the leading non-empty
    string rows, numbered in first-seen order; every numeric row becomes one
    bubble in the dataset of its row's category. */
module Scatter {
  import opened ChartTypes
  import opened Grouping

  /** The number of string rows before the first empty one. */
  function LeadingRows(sss: seq<seq<string>>): (n: nat)
    ensures n <= |sss|
    ensures forall k :: 0 <= k < n ==> |sss[k]| > 0
    ensures n < |sss| ==> |sss[n]| == 0
  {
    if |sss| == 0 || |sss[0]| == 0 then 0
    else
      var n := LeadingRows(sss[1..]);
      assert forall k :: 1 <= k < n + 1 ==> sss[k] == sss[1..][k - 1];
      1 + n
  }

  /** The first strings of the first n string rows. */
  function KeyPrefix(sss: seq<seq<string>>, n: nat): seq<string>
    requires RowsReach(sss, n, 0)
  {
    seq(n, k requires 0 <= k < n => sss[k][0])
  }

  /** The categories: the distinct first strings of the leading non-empty
      string rows, in first-seen order. */
  function Categories(sss: seq<seq<string>>): seq<string>
  {
    Distinct(KeyPrefix(sss, LeadingRows(sss)))
  }

  /** `css` numbers the categories and `ils` names each number: the two Go
      maps of the discovery loop, with `count` categories. */
  ghost predicate Numbering(css: map<string, nat>, ils: map<nat, string>, count: nat, cats: seq<string>)
  {
    && count == |cats|
    && (forall c :: c in css <==> c in cats)
    && (forall c :: c in css ==> css[c] == IndexOf(cats, c))
    && (forall j :: j in ils <==> 0 <= j < count)
    && (forall j :: j in ils ==> ils[j] == cats[j])
  }

  /** One more key for the numbering. */
  lemma NumberingStep(css: map<string, nat>, ils: map<nat, string>, count: nat, cats: seq<string>, x: string)
    requires Numbering(css, ils, count, cats)
    requires x !in css
    ensures Numbering(css[x := count], ils[count := x], count + 1, cats + [x])
  {
    IndexOfAppended(cats, x);
    forall c | c in cats ensures IndexOf(cats + [x], c) == IndexOf(cats, c) {
      IndexOfSnoc(cats, x, c);
    }
  }

  lemma KeyPrefixNext(sss: seq<seq<string>>, n: nat)
    requires RowsReach(sss, n + 1, 0)
    ensures KeyPrefix(sss, n + 1) == KeyPrefix(sss, n) + [sss[n][0]]
  {
  }

  /** The discovery step for a first string not numbered yet. */
  lemma DiscoverNew(sss: seq<seq<string>>, r: nat, css: map<string, nat>, ils: map<nat, string>, count: nat)
    requires RowsReach(sss, r + 1, 0) && Numbering(css, ils, count, Distinct(KeyPrefix(sss, r)))
    requires sss[r][0] !in css
    ensures Numbering(css[sss[r][0] := count], ils[count := sss[r][0]], count + 1, Distinct(KeyPrefix(sss, r + 1)))
  {
    KeyPrefixNext(sss, r);
    DistinctSnoc(KeyPrefix(sss, r), sss[r][0]);
    NumberingStep(css, ils, count, Distinct(KeyPrefix(sss, r)), sss[r][0]);
  }

  /** The discovery step for a first string already numbered. */
  lemma DiscoverKnown(sss: seq<seq<string>>, r: nat, css: map<string, nat>, ils: map<nat, string>, count: nat)
    requires RowsReach(sss, r + 1, 0) && Numbering(css, ils, count, Distinct(KeyPrefix(sss, r)))
    requires sss[r][0] in css
    ensures Numbering(css, ils, count, Distinct(KeyPrefix(sss, r + 1)))
  {
    KeyPrefixNext(sss, r);
    DistinctSnoc(KeyPrefix(sss, r), sss[r][0]);
  }

  /** The discovery loop of chartjs.go:332-344: numbers the distinct first
      strings in first-seen order and stops at the first empty string row. */
  method DiscoverCategories(sss: seq<seq<string>>) returns (css: map<string, nat>, ils: map<nat, string>, count: nat)
    ensures Numbering(css, ils, count, Categories(sss))
  {
    css := map[];
    ils := map[];
    count := 0;
    ghost var seen := 0;
    assert KeyPrefix(sss, 0) == [];
    for r := 0 to |sss|
      invariant seen == r
      invariant forall k :: 0 <= k < r ==> |sss[k]| > 0
      invariant Numbering(css, ils, count, Distinct(KeyPrefix(sss, r)))
    {
      if |sss[r]| == 0 {
        break;
      }
      if sss[r][0] !in css {
        DiscoverNew(sss, r, css, ils, count);
        css := css[sss[r][0] := count];
        ils := ils[count := sss[r][0]];
        count := count + 1;
      } else {
        DiscoverKnown(sss, r, css, ils, count);
      }
      seen := seen + 1;
    }
    LeadingRowsAt(sss, seen);
  }

  /** The leading rows end exactly at the first empty row. */
  lemma {:induction false} LeadingRowsAt(sss: seq<seq<string>>, n: nat)
    requires n <= |sss| && (forall k :: 0 <= k < n ==> |sss[k]| > 0) && (n < |sss| ==> |sss[n]| == 0)
    ensures LeadingRows(sss) == n
  {
    if n > 0 {
      assert forall k :: 0 <= k < n - 1 ==> sss[1..][k] == sss[k + 1];
      LeadingRowsAt(sss[1..], n - 1);
    }
  }

  /** What the branch reads: a first column in every numeric row, the first
      time stamp of every such row when there are time rows, the minimum and
      maximum of the radius column when a row has one, and the first string
      of every such row when there are string rows. */
  predicate ScatterSafe<F, T>(d: InData<F, T>)
  {
    && RowsReach(d.fss, |d.fss|, 0)
    && (HasTimes(d) ==> RowsReach(d.tss, |d.fss|, 0))
    && (HasTimes(d) ==> forall i :: 0 <= i < |d.fss| && |d.fss[i]| >= 2 ==> |d.minFss| > 1 && |d.maxFss| > 1)
    && (!HasTimes(d) ==> forall i :: 0 <= i < |d.fss| && |d.fss[i]| >= 3 ==> |d.minFss| > 2 && |d.maxFss| > 2)
    && (HasStrings(d) ==> RowsReach(d.sss, |d.fss|, 0))
  }

  /** The bubble of row i: x is the first time stamp (or column 0), y is
      column 0 (or column 1, "0" when missing), and the radius comes from the
      next column (1 with time rows, 2 without), "4" when the row is too short. */
  function ScatterPoint<F, T>(env: Env<F, T>, d: InData<F, T>, i: nat): Point
    requires ScatterSafe(d) && i < |d.fss|
  {
    var row := d.fss[i];
    if HasTimes(d) then
      Point(QuotedTime(env, d.tss[i][0]), env.formatFloat(row[0]),
            if |row| >= 2 then env.formatFloat(env.scatterRadius(row[1], d.minFss[1], d.maxFss[1])) else "4", true)
    else
      Point(env.formatFloat(row[0]), if |row| >= 2 then env.formatFloat(row[1]) else "0",
            if |row| >= 3 then env.formatFloat(env.scatterRadius(row[2], d.minFss[2], d.maxFss[2])) else "4", true)
  }

  /** The bubbles of the given rows, in the given order. */
  function ScatterPoints<F, T>(env: Env<F, T>, d: InData<F, T>, rows: seq<nat>): seq<Point>
    requires ScatterSafe(d) && forall k :: 0 <= k < |rows| ==> rows[k] < |d.fss|
  {
    seq(|rows|, k requires 0 <= k < |rows| => ScatterPoint(env, d, rows[k]))
  }

  /** The number of datasets: one per category, or the one fallback dataset. */
  function GroupCount<F, T>(d: InData<F, T>): nat
  {
    var n := |Categories(d.sss)|;
    if n == 0 then 1 else n
  }

  /** The dataset row i goes to: its category's number, or 0 without string
      rows or for a key the map does not hold (Go's zero value). */
  function Target<F, T>(d: InData<F, T>, i: nat): nat
    requires ScatterSafe(d) && i < |d.fss|
  {
    var cats := Categories(d.sss);
    if HasStrings(d) && d.sss[i][0] in cats then IndexOf(cats, d.sss[i][0]) else 0
  }

  function Targets<F, T>(d: InData<F, T>): seq<nat>
    requires ScatterSafe(d)
  {
    seq(|d.fss|, i requires 0 <= i < |d.fss| => Target(d, i))
  }

  /** Dataset j before any bubble is added. */
  function Head<F, T>(env: Env<F, T>, d: InData<F, T>, j: nat): Dataset
    requires j < GroupCount(d)
  {
    var cats := Categories(d.sss);
    Dataset([], [], env.colorIndex(j), true, if |cats| == 0 then "category 0" else cats[j], env.colorIndex(j))
  }

  /** The datasets once the first n numeric rows are placed. */
  function Groups<F, T>(env: Env<F, T>, d: InData<F, T>, n: nat): seq<Dataset>
    requires ScatterSafe(d) && n <= |d.fss|
  {
    seq(GroupCount(d), j requires 0 <= j < GroupCount(d) =>
      Head(env, d, j).(complexData := ScatterPoints(env, d, IndicesOf<nat>(Targets(d)[..n], j))))
  }

  /** The datasets of the scatter branch. */
  function ScatterReference<F, T>(env: Env<F, T>, d: InData<F, T>): seq<Dataset>
    requires ScatterSafe(d)
  {
    Groups(env, d, |d.fss|)
  }

  /** With string rows, the first |fss| string rows are all leading rows. */
  lemma LeadingCoversRows<F, T>(d: InData<F, T>)
    requires ScatterSafe(d) && HasStrings(d)
    ensures LeadingRows(d.sss) >= |d.fss|
  {
  }

  /** Every row goes to an existing dataset; with string rows it is the
      dataset of the row's own first string. */
  lemma TargetInRange<F, T>(d: InData<F, T>, i: nat)
    requires ScatterSafe(d) && i < |d.fss|
    ensures Target(d, i) < GroupCount(d)
    ensures HasStrings(d) ==> Target(d, i) < |Categories(d.sss)| && Categories(d.sss)[Target(d, i)] == d.sss[i][0]
  {
    if HasStrings(d) {
      LeadingCoversRows(d);
      var keys := KeyPrefix(d.sss, LeadingRows(d.sss));
      assert keys[i] == d.sss[i][0];
    }
  }

  lemma TargetsPrefix<F, T>(d: InData<F, T>, n: nat)
    requires ScatterSafe(d) && n < |d.fss|
    ensures Targets(d)[..n + 1] == Targets(d)[..n] + [Target(d, n)]
  {
    assert Targets(d)[n] == Target(d, n);
  }

  lemma ScatterPointsAppend<F, T>(env: Env<F, T>, d: InData<F, T>, rows: seq<nat>, extra: seq<nat>)
    requires ScatterSafe(d)
    requires forall k :: 0 <= k < |rows| ==> rows[k] < |d.fss|
    requires forall k :: 0 <= k < |extra| ==> extra[k] < |d.fss|
    ensures ScatterPoints(env, d, rows + extra) == ScatterPoints(env, d, rows) + ScatterPoints(env, d, extra)
  {
  }

  /** Dataset j once the first n rows are placed. */
  lemma GroupAt<F, T>(env: Env<F, T>, d: InData<F, T>, n: nat, j: nat)
    requires ScatterSafe(d) && n <= |d.fss| && j < GroupCount(d)
    ensures |Groups(env, d, n)| == GroupCount(d)
    ensures Groups(env, d, n)[j] == Head(env, d, j).(complexData := ScatterPoints(env, d, IndicesOf<nat>(Targets(d)[..n], j)))
  {
  }

  /** Placing row n appends its bubble to group j exactly when j is its target. */
  lemma PointsNext<F, T>(env: Env<F, T>, d: InData<F, T>, n: nat, j: nat)
    requires ScatterSafe(d) && n < |d.fss|
    ensures ScatterPoints(env, d, IndicesOf<nat>(Targets(d)[..n + 1], j)) ==
      ScatterPoints(env, d, IndicesOf<nat>(Targets(d)[..n], j)) + if j == Target(d, n) then [ScatterPoint(env, d, n)] else []
  {
    TargetsPrefix(d, n);
    var t := Target(d, n);
    IndicesOfSnoc<nat>(Targets(d)[..n], t, j);
    var extra: seq<nat> := if t == j then [n] else [];
    ScatterPointsAppend(env, d, IndicesOf<nat>(Targets(d)[..n], j), extra);
  }

  /** Placing row n appends its bubble to its target dataset and leaves the others. */
  lemma GroupsNext<F, T>(env: Env<F, T>, d: InData<F, T>, n: nat)
    requires ScatterSafe(d) && n < |d.fss|
    ensures Target(d, n) < GroupCount(d)
    ensures var g := Groups(env, d, n);
      var t := Target(d, n);
      Groups(env, d, n + 1) == g[t := g[t].(complexData := g[t].complexData + [ScatterPoint(env, d, n)])]
  {
    TargetInRange(d, n);
    var g := Groups(env, d, n);
    var t := Target(d, n);
    var g' := g[t := g[t].(complexData := g[t].complexData + [ScatterPoint(env, d, n)])];
    forall j | 0 <= j < GroupCount(d) ensures Groups(env, d, n + 1)[j] == g'[j] {
      GroupAt(env, d, n, j);
      GroupAt(env, d, n + 1, j);
      PointsNext(env, d, n, j);
    }
  }

  /** The dataset allocation of chartjs.go:345-363: one empty dataset per
      category, or the single "category 0" fallback when there is none. */
  method InitialDatasets<F, T>(env: Env<F, T>, d: InData<F, T>, css: map<string, nat>, ils: map<nat, string>, count: nat)
    returns (out: array<Dataset>)
    requires ScatterSafe(d) && Numbering(css, ils, count, Categories(d.sss))
    ensures fresh(out)
    ensures out[..] == Groups(env, d, 0)
  {
    if count == 0 {
      out := new Dataset[1](_ => Dataset([], [], env.colorIndex(0), true, "category 0", env.colorIndex(0)));
    } else {
      out := new Dataset[count](_ => EmptyDataset);
    }
    for j := 0 to count
      invariant out.Length == GroupCount(d) && (count > 0 ==> count == out.Length)
      invariant forall k :: 0 <= k < out.Length && (k < j || count == 0) ==> out[k] == Head(env, d, k)
    {
      out[j] := Dataset([], [], env.colorIndex(j), true, ils[j], env.colorIndex(j));
    }
    GroupsInitially(env, d);
    assert out[..] == Groups(env, d, 0);
  }

  /** Before any row is placed every dataset is its empty head. */
  lemma GroupsInitially<F, T>(env: Env<F, T>, d: InData<F, T>)
    requires ScatterSafe(d)
    ensures |Groups(env, d, 0)| == GroupCount(d)
    ensures forall j :: 0 <= j < GroupCount(d) ==> Groups(env, d, 0)[j] == Head(env, d, j)
  {
    assert Targets(d)[..0] == [];
  }

  /** The bubble of row i, built field by field as chartjs.go:366-387 does. */
  method Bubble<F, T>(env: Env<F, T>, d: InData<F, T>, i: nat) returns (p: Point)
    requires ScatterSafe(d) && i < |d.fss|
    ensures p == ScatterPoint(env, d, i)
  {
    p := Point("", "", "", true);
    if HasTimes(d) {
      p := p.(x := "'" + env.formatTime(d.tss[i][0]) + "'", y := env.formatFloat(d.fss[i][0]));
      if |d.fss[i]| >= 2 {
        p := p.(r := env.formatFloat(env.scatterRadius(d.fss[i][1], d.minFss[1], d.maxFss[1])));
      } else {
        p := p.(r := "4");
      }
    } else {
      p := p.(x := env.formatFloat(d.fss[i][0]), y := "0");
      if |d.fss[i]| >= 2 {
        p := p.(y := env.formatFloat(d.fss[i][1]));
      }
      if |d.fss[i]| >= 3 {
        p := p.(r := env.formatFloat(env.scatterRadius(d.fss[i][2], d.minFss[2], d.maxFss[2])));
      } else {
        p := p.(r := "4");
      }
    }
  }

  /** The scatter branch: number the categories, allocate the datasets, then
      append every row's bubble to its dataset in place. */
  method ScatterDatasets<F, T>(env: Env<F, T>, d: InData<F, T>) returns (dss: seq<Dataset>, usesTimeScale: bool)
    requires ScatterSafe(d)
    ensures dss == ScatterReference(env, d)
    ensures usesTimeScale <==> HasTimes(d) && |d.fss| > 0
  {
    var css, ils, count := DiscoverCategories(d.sss);
    var out := InitialDatasets(env, d, css, ils, count);
    usesTimeScale := PlaceRows(env, d, css, ils, count, out);
    dss := out[..];
  }

  /** The dataset of row i: `css[SSS[i][0]]` with string rows (0 for a key
      the map lacks), else 0 (chartjs.go:388-391). */
  method TargetOf<F, T>(d: InData<F, T>, css: map<string, nat>, ils: map<nat, string>, count: nat, i: nat)
    returns (j: nat)
    requires ScatterSafe(d) && i < |d.fss| && Numbering(css, ils, count, Categories(d.sss))
    ensures j == Target(d, i)
  {
    j := 0;
    if HasStrings(d) {
      j := if d.sss[i][0] in css then css[d.sss[i][0]] else 0;
    }
  }

  /** The placement loop of chartjs.go:365-395: each row's bubble is
      appended to its dataset in place. */
  method PlaceRows<F, T>(env: Env<F, T>, d: InData<F, T>, css: map<string, nat>, ils: map<nat, string>, count: nat,
                         out: array<Dataset>)
    returns (usesTimeScale: bool)
    requires ScatterSafe(d) && Numbering(css, ils, count, Categories(d.sss))
    requires out[..] == Groups(env, d, 0)
    modifies out
    ensures out[..] == Groups(env, d, |d.fss|)
    ensures usesTimeScale <==> HasTimes(d) && |d.fss| > 0
  {
    usesTimeScale := false;
    for i := 0 to |d.fss|
      invariant out[..] == Groups(env, d, i)
      invariant usesTimeScale <==> HasTimes(d) && i > 0
    {
      if HasTimes(d) {
        usesTimeScale := true;
      }
      var p := Bubble(env, d, i);
      var j := TargetOf(d, css, ils, count, i);
      GroupsNext(env, d, i);
      var cd := out[j].complexData;
      cd := cd + [p];
      out[j] := out[j].(complexData := cd);
    }
  }

  /** Scatter dataset j is category j's head, holding the bubbles of the rows
      sent to j. */
  lemma ScatterReferenceAt<F, T>(env: Env<F, T>, d: InData<F, T>, j: nat)
    requires ScatterSafe(d) && j < GroupCount(d)
    ensures |ScatterReference(env, d)| == GroupCount(d)
    ensures ScatterReference(env, d)[j] ==
      Head(env, d, j).(complexData := ScatterPoints(env, d, IndicesOf(Targets(d), j)))
  {
    var all := Targets(d)[..|d.fss|];
    assert all == Targets(d);
    var g := Groups(env, d, |d.fss|);
    assert g[j] == Head(env, d, j).(complexData := ScatterPoints(env, d, IndicesOf(all, j)));
  }

  /** The categories and their datasets. There is no category exactly when
      there are no string rows or the first one is empty, and then the one
      dataset is "category 0". Otherwise dataset j is category j: one per
      distinct first string of the leading non-empty string rows, pairwise
      different, in first-seen order, coloured by position, filled. */
  lemma ScatterCategories<F, T>(env: Env<F, T>, d: InData<F, T>)
    requires ScatterSafe(d)
    ensures var ref := ScatterReference(env, d);
      var cats := Categories(d.sss);
      var keys := KeyPrefix(d.sss, LeadingRows(d.sss));
      && (|cats| == 0 <==> |d.sss| == 0 || |d.sss[0]| == 0)
      && (|cats| == 0 ==> |ref| == 1 && ref[0].seriesLabel == "category 0")
      && (|cats| > 0 ==> |ref| == |cats| == |set c | c in keys|)
      && (|cats| > 0 ==> forall j :: 0 <= j < |ref| ==> ref[j].seriesLabel == cats[j] && ref[j].seriesLabel in keys)
      && (|cats| > 0 ==> forall a, b :: 0 <= a < b < |ref| ==>
             ref[a].seriesLabel != ref[b].seriesLabel
             && IndexOf(keys, ref[a].seriesLabel) < IndexOf(keys, ref[b].seriesLabel))
      && (forall j :: 0 <= j < |ref| ==>
             ref[j].fill && ref[j].backgroundColor == ref[j].borderColor == env.colorIndex(j))
  {
    CategoryCount(env, d);
    CategoryLabels(env, d);
    CategoryColours(env, d);
  }

  /** How many scatter datasets there are, and the fallback. */
  lemma CategoryCount<F, T>(env: Env<F, T>, d: InData<F, T>)
    requires ScatterSafe(d)
    ensures var ref := ScatterReference(env, d);
      var cats := Categories(d.sss);
      var keys := KeyPrefix(d.sss, LeadingRows(d.sss));
      && (|cats| == 0 <==> |d.sss| == 0 || |d.sss[0]| == 0)
      && (|cats| == 0 ==> |ref| == 1 && ref[0].seriesLabel == "category 0")
      && (|cats| > 0 ==> |ref| == |cats| == |set c | c in keys|)
  {
    var keys := KeyPrefix(d.sss, LeadingRows(d.sss));
    DistinctCount(keys);
    ScatterReferenceAt(env, d, 0);
    if |d.sss| > 0 && |d.sss[0]| > 0 {
      assert keys[0] == d.sss[0][0];
    }
  }

  /** With categories, dataset j is labelled with category j, and the labels
      are pairwise different and in first-seen order. */
  lemma CategoryLabels<F, T>(env: Env<F, T>, d: InData<F, T>)
    requires ScatterSafe(d)
    ensures var ref := ScatterReference(env, d);
      var cats := Categories(d.sss);
      var keys := KeyPrefix(d.sss, LeadingRows(d.sss));
      && (|cats| > 0 ==> forall j :: 0 <= j < |ref| ==> ref[j].seriesLabel == cats[j] && ref[j].seriesLabel in keys)
      && (|cats| > 0 ==> forall a, b :: 0 <= a < b < |ref| ==>
             ref[a].seriesLabel != ref[b].seriesLabel
             && IndexOf(keys, ref[a].seriesLabel) < IndexOf(keys, ref[b].seriesLabel))
  {
    var ref := ScatterReference(env, d);
    var cats := Categories(d.sss);
    var keys := KeyPrefix(d.sss, LeadingRows(d.sss));
    if |cats| > 0 {
      forall j | 0 <= j < GroupCount(d) ensures ref[j].seriesLabel == cats[j] {
        ScatterReferenceAt(env, d, j);
      }
      forall a, b | 0 <= a < b < |ref|
        ensures IndexOf(keys, ref[a].seriesLabel) < IndexOf(keys, ref[b].seriesLabel)
      {
        DistinctFirstSeenOrder(keys, a, b);
      }
    }
  }

  /** Every scatter dataset is filled and coloured by its position. */
  lemma CategoryColours<F, T>(env: Env<F, T>, d: InData<F, T>)
    requires ScatterSafe(d)
    ensures var ref := ScatterReference(env, d);
      forall j :: 0 <= j < |ref| ==>
        ref[j].fill && ref[j].backgroundColor == ref[j].borderColor == env.colorIndex(j)
  {
    var ref := ScatterReference(env, d);
    forall j | 0 <= j < GroupCount(d)
      ensures ref[j].fill && ref[j].backgroundColor == ref[j].borderColor == env.colorIndex(j)
    {
      ScatterReferenceAt(env, d, j);
    }
  }

  /** Every numeric row's bubble lies in exactly one dataset, in row order:
      with string rows it is the dataset labelled with the row's first
      string, and without them every bubble is in dataset 0. */
  lemma ScatterPlacement<F, T>(env: Env<F, T>, d: InData<F, T>, i: nat, j: nat)
    requires ScatterSafe(d) && i < |d.fss| && j < |ScatterReference(env, d)|
    ensures var ref := ScatterReference(env, d);
      var rows := IndicesOf(Targets(d), j);
      && ref[j].complexData == ScatterPoints(env, d, rows)
      && (i in rows <==> j == Target(d, i))
      && (HasStrings(d) ==> (i in rows <==> ref[j].seriesLabel == d.sss[i][0]))
      && (!HasStrings(d) ==> (i in rows <==> j == 0))
      && (forall a, b :: 0 <= a < b < |rows| ==> rows[a] < rows[b])
  {
    ScatterReferenceAt(env, d, j);
    TargetInRange(d, i);
    assert Targets(d)[i] == Target(d, i);
    if HasStrings(d) {
      var cats := Categories(d.sss);
      assert |cats| > 0;
      assert Target(d, i) == j <==> cats[j] == d.sss[i][0];
    }
  }
}
