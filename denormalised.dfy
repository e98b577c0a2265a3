/** The denormalised-scatterline branch of `labelsAndDatasets`
    (chartjs.go:291-330): every row is one point, grouped into one dataset
    per distinct first string, through a Go map whose iteration order is
    not specified. */
module Denormalised {
  import opened ChartTypes
  import opened Grouping

  /** What the branch reads for every numeric row: the first string, and the
      first time stamp with column 0, or columns 0 and 1 without time rows. */
  predicate DenormSafe<F, T>(d: InData<F, T>)
  {
    && RowsReach(d.sss, |d.fss|, 0)
    && (HasTimes(d) ==> RowsReach(d.tss, |d.fss|, 0) && RowsReach(d.fss, |d.fss|, 0))
    && (!HasTimes(d) ==> RowsReach(d.fss, |d.fss|, 1))
  }

  /** The group key of every numeric row: its first string. */
  function RowKeys<F, T>(d: InData<F, T>): (keys: seq<string>)
    requires RowsReach(d.sss, |d.fss|, 0)
  {
    seq(|d.fss|, i requires 0 <= i < |d.fss| => d.sss[i][0])
  }

  /** The keys of the first i + 1 rows. */
  lemma RowKeysPrefix<F, T>(d: InData<F, T>, i: nat)
    requires RowsReach(d.sss, |d.fss|, 0) && i < |d.fss|
    ensures RowKeys(d)[..i + 1] == RowKeys(d)[..i] + [d.sss[i][0]]
  {
    var keys := RowKeys(d);
    assert keys[i] == d.sss[i][0];
  }

  /** The point of row i: against its first time stamp with y from column 0,
      or else column 1 against column 0. */
  function DenormPoint<F, T>(env: Env<F, T>, d: InData<F, T>, i: nat): Point
    requires DenormSafe(d) && i < |d.fss|
  {
    if HasTimes(d) then Point(QuotedTime(env, d.tss[i][0]), env.formatFloat(d.fss[i][0]), "", false)
    else Point(env.formatFloat(d.fss[i][0]), env.formatFloat(d.fss[i][1]), "", false)
  }

  /** The points of the given rows, in the given order. */
  function DenormPoints<F, T>(env: Env<F, T>, d: InData<F, T>, rows: seq<nat>): (ps: seq<Point>)
    requires DenormSafe(d) && forall k :: 0 <= k < |rows| ==> rows[k] < |d.fss|
  {
    seq(|rows|, k requires 0 <= k < |rows| => DenormPoint(env, d, rows[k]))
  }

  /** The dataset of key c once the rows with the given keys are grouped
      (keys is a prefix of the row keys): the points of the rows with that key
      in row order, coloured by the key's first-seen position. */
  function DenormGroup<F, T>(env: Env<F, T>, d: InData<F, T>, keys: seq<string>, c: string): Dataset
    requires DenormSafe(d) && |keys| <= |d.fss| && c in keys
  {
    var colour := env.colorIndex(IndexOf(Distinct(keys), c));
    Dataset([], DenormPoints(env, d, IndicesOf(keys, c)), colour, false, c, colour)
  }

  /** The datasets in first-seen order of their keys; the source emits some
      permutation of these. */
  function DenormReference<F, T>(env: Env<F, T>, d: InData<F, T>): seq<Dataset>
    requires DenormSafe(d)
  {
    var keys := RowKeys(d);
    var cats := Distinct(keys);
    seq(|cats|, j requires 0 <= j < |cats| => DenormGroup(env, d, keys, cats[j]))
  }

  /** Grouping a row with a new key adds a one-point dataset with the next colour. */
  lemma GroupNewKey<F, T>(env: Env<F, T>, d: InData<F, T>, keys: seq<string>, x: string)
    requires DenormSafe(d) && |keys| < |d.fss| && x !in keys
    ensures var colour := env.colorIndex(|Distinct(keys)|);
      DenormGroup(env, d, keys + [x], x) == Dataset([], [DenormPoint(env, d, |keys|)], colour, false, x, colour)
  {
    IndicesOfNew(keys, x);
    DistinctIndexOfNew(keys, x);
    DenormPointsAppend(env, d, [], [|keys|]);
  }

  /** Grouping a row leaves every known key's colour and appends the row's
      point to its own key's dataset only. */
  lemma GroupKnownKey<F, T>(env: Env<F, T>, d: InData<F, T>, keys: seq<string>, x: string, c: string)
    requires DenormSafe(d) && |keys| < |d.fss| && c in keys
    ensures var g := DenormGroup(env, d, keys, c);
      DenormGroup(env, d, keys + [x], c) ==
        g.(complexData := g.complexData + if c == x then [DenormPoint(env, d, |keys|)] else [])
  {
    DistinctIndexOfKnown(keys, x, c);
    PointsOfKeySnoc(env, d, keys, x, c);
  }

  /** One more row adds its point to the points of its own key only. */
  lemma PointsOfKeySnoc<F, T>(env: Env<F, T>, d: InData<F, T>, keys: seq<string>, x: string, c: string)
    requires DenormSafe(d) && |keys| < |d.fss|
    ensures DenormPoints(env, d, IndicesOf(keys + [x], c)) ==
      DenormPoints(env, d, IndicesOf(keys, c)) + if c == x then [DenormPoint(env, d, |keys|)] else []
  {
    IndicesOfSnoc(keys, x, c);
    var extra: seq<nat> := if c == x then [|keys|] else [];
    DenormPointsAppend(env, d, IndicesOf(keys, c), extra);
  }

  lemma DenormPointsAppend<F, T>(env: Env<F, T>, d: InData<F, T>, rows: seq<nat>, extra: seq<nat>)
    requires DenormSafe(d)
    requires forall k :: 0 <= k < |rows| ==> rows[k] < |d.fss|
    requires forall k :: 0 <= k < |extra| ==> extra[k] < |d.fss|
    ensures DenormPoints(env, d, rows + extra) == DenormPoints(env, d, rows) + DenormPoints(env, d, extra)
  {
  }

  /** The Go map after grouping the rows with the given keys. */
  ghost predicate GroupedRows<F, T>(env: Env<F, T>, d: InData<F, T>, keys: seq<string>, mdss: map<string, Dataset>)
    requires DenormSafe(d) && |keys| <= |d.fss|
  {
    && (forall c :: c in mdss <==> c in keys)
    && |mdss| == |Distinct(keys)|
    && (forall c :: c in mdss ==> mdss[c] == DenormGroup(env, d, keys, c))
  }

  /** Emitting every map value once, in any order, is a permutation of the reference. */
  lemma EmittedIsPermutation<F, T>(env: Env<F, T>, d: InData<F, T>, mdss: map<string, Dataset>,
                                   chosen: seq<string>, dss: seq<Dataset>)
    requires DenormSafe(d) && GroupedRows(env, d, RowKeys(d), mdss)
    requires |dss| == |chosen| && NoDuplicates(chosen)
    requires forall c :: c in mdss <==> c in chosen
    requires forall k :: 0 <= k < |chosen| ==> dss[k] == mdss[chosen[k]]
    ensures multiset(dss) == multiset(DenormReference(env, d))
  {
    var keys := RowKeys(d);
    var cats := Distinct(keys);
    var reference := DenormReference(env, d);
    forall c, e | c in mdss && e in mdss && c != e ensures mdss[c] != mdss[e] {
      assert mdss[c].seriesLabel == c && mdss[e].seriesLabel == e;
    }
    forall k | 0 <= k < |cats| ensures reference[k] == mdss[cats[k]] {
      assert cats[k] in keys;
    }
    KeyedPermutation(mdss, chosen, cats, dss, reference);
  }

  /** Grouping a row with a new key: insert its one-point dataset with the next colour. */
  lemma GroupedRowsInsert<F, T>(env: Env<F, T>, d: InData<F, T>, keys: seq<string>,
                                mdss: map<string, Dataset>, x: string)
    requires DenormSafe(d) && |keys| < |d.fss| && GroupedRows(env, d, keys, mdss) && x !in mdss
    ensures var p := DenormPoint(env, d, |keys|);
      GroupedRows(env, d, keys + [x], mdss[x := Dataset([], [p], env.colorIndex(|mdss|), false, x, env.colorIndex(|mdss|))])
  {
    var p := DenormPoint(env, d, |keys|);
    var v := Dataset([], [p], env.colorIndex(|mdss|), false, x, env.colorIndex(|mdss|));
    var mdss' := mdss[x := v];
    KeysAfterStore(keys, mdss, x, v);
    InsertedValues(env, d, keys, mdss, x, mdss');
    assert GroupedRows(env, d, keys + [x], mdss');
  }

  /** The values of the map after inserting a row's point under a new key. */
  lemma InsertedValues<F, T>(env: Env<F, T>, d: InData<F, T>, keys: seq<string>,
                             mdss: map<string, Dataset>, x: string, mdss': map<string, Dataset>)
    requires DenormSafe(d) && |keys| < |d.fss| && GroupedRows(env, d, keys, mdss) && x !in mdss
    requires var p := DenormPoint(env, d, |keys|);
      mdss' == mdss[x := Dataset([], [p], env.colorIndex(|mdss|), false, x, env.colorIndex(|mdss|))]
    ensures forall c :: c in mdss' ==> mdss'[c] == DenormGroup(env, d, keys + [x], c)
  {
    GroupNewKey(env, d, keys, x);
    forall c | c in mdss ensures mdss'[c] == DenormGroup(env, d, keys + [x], c) {
      GroupKnownKey(env, d, keys, x, c);
    }
  }

  /** Grouping a row with a known key: append its point to that key's dataset. */
  lemma GroupedRowsAppend<F, T>(env: Env<F, T>, d: InData<F, T>, keys: seq<string>,
                                mdss: map<string, Dataset>, x: string)
    requires DenormSafe(d) && |keys| < |d.fss| && GroupedRows(env, d, keys, mdss) && x in mdss
    ensures var p := DenormPoint(env, d, |keys|);
      GroupedRows(env, d, keys + [x], mdss[x := mdss[x].(complexData := mdss[x].complexData + [p])])
  {
    var p := DenormPoint(env, d, |keys|);
    var v := mdss[x].(complexData := mdss[x].complexData + [p]);
    var mdss' := mdss[x := v];
    KeysAfterStore(keys, mdss, x, v);
    AppendedValues(env, d, keys, mdss, x, mdss');
    assert GroupedRows(env, d, keys + [x], mdss');
  }

  /** The values of the map after appending a row's point under its known key. */
  lemma AppendedValues<F, T>(env: Env<F, T>, d: InData<F, T>, keys: seq<string>,
                             mdss: map<string, Dataset>, x: string, mdss': map<string, Dataset>)
    requires DenormSafe(d) && |keys| < |d.fss| && GroupedRows(env, d, keys, mdss) && x in mdss
    requires mdss' == mdss[x := mdss[x].(complexData := mdss[x].complexData + [DenormPoint(env, d, |keys|)])]
    ensures forall c :: c in mdss' ==> mdss'[c] == DenormGroup(env, d, keys + [x], c)
  {
    forall c | c in mdss' ensures mdss'[c] == DenormGroup(env, d, keys + [x], c) {
      AppendedValueAt(env, d, keys, mdss, x, mdss', c);
    }
  }

  lemma AppendedValueAt<F, T>(env: Env<F, T>, d: InData<F, T>, keys: seq<string>,
                              mdss: map<string, Dataset>, x: string, mdss': map<string, Dataset>, c: string)
    requires DenormSafe(d) && |keys| < |d.fss| && GroupedRows(env, d, keys, mdss) && x in mdss
    requires mdss' == mdss[x := mdss[x].(complexData := mdss[x].complexData + [DenormPoint(env, d, |keys|)])]
    requires c in mdss'
    ensures mdss'[c] == DenormGroup(env, d, keys + [x], c)
  {
    assert c in mdss && mdss[c] == DenormGroup(env, d, keys, c);
    GroupKnownKey(env, d, keys, x, c);
  }

  /** The grouping loop of the denormalised-scatterline branch: insert a
      row's point under a new key with the next colour, or read the key's
      dataset, append the point and write it back. */
  method GroupRows<F, T>(env: Env<F, T>, d: InData<F, T>) returns (mdss: map<string, Dataset>, usesTimeScale: bool)
    requires DenormSafe(d)
    ensures GroupedRows(env, d, RowKeys(d), mdss)
    ensures usesTimeScale <==> HasTimes(d) && |d.fss| > 0
  {
    usesTimeScale := false;
    mdss := map[];
    for i := 0 to |d.fss|
      invariant usesTimeScale <==> HasTimes(d) && i > 0
      invariant GroupedRows(env, d, RowKeys(d)[..i], mdss)
    {
      var p: Point;
      if HasTimes(d) {
        usesTimeScale := true;
        p := Point("'" + env.formatTime(d.tss[i][0]) + "'", env.formatFloat(d.fss[i][0]), "", false);
      } else {
        p := Point(env.formatFloat(d.fss[i][0]), env.formatFloat(d.fss[i][1]), "", false);
      }
      var ds := d.sss[i][0];
      if ds !in mdss {
        GroupedRowsNew(env, d, i, mdss);
        mdss := mdss[ds := Dataset([], [p], env.colorIndex(|mdss|), false, ds, env.colorIndex(|mdss|))];
      } else {
        GroupedRowsKnown(env, d, i, mdss);
        var m := mdss[ds];
        m := m.(complexData := m.complexData + [p]);
        mdss := mdss[ds := m];
      }
    }
    RowKeysWhole(d);
  }

  lemma RowKeysWhole<F, T>(d: InData<F, T>)
    requires RowsReach(d.sss, |d.fss|, 0)
    ensures RowKeys(d)[..|d.fss|] == RowKeys(d)
  {
  }

  /** The loop step of GroupRows for a row whose key is not in the map yet. */
  lemma GroupedRowsNew<F, T>(env: Env<F, T>, d: InData<F, T>, i: nat, mdss: map<string, Dataset>)
    requires DenormSafe(d) && i < |d.fss| && GroupedRows(env, d, RowKeys(d)[..i], mdss)
    requires d.sss[i][0] !in mdss
    ensures var x := d.sss[i][0];
      var p := DenormPoint(env, d, i);
      GroupedRows(env, d, RowKeys(d)[..i + 1],
        mdss[x := Dataset([], [p], env.colorIndex(|mdss|), false, x, env.colorIndex(|mdss|))])
  {
    RowKeysPrefix(d, i);
    GroupedRowsInsert(env, d, RowKeys(d)[..i], mdss, d.sss[i][0]);
  }

  /** The loop step of GroupRows for a row whose key is already in the map. */
  lemma GroupedRowsKnown<F, T>(env: Env<F, T>, d: InData<F, T>, i: nat, mdss: map<string, Dataset>)
    requires DenormSafe(d) && i < |d.fss| && GroupedRows(env, d, RowKeys(d)[..i], mdss)
    requires d.sss[i][0] in mdss
    ensures var x := d.sss[i][0];
      var p := DenormPoint(env, d, i);
      GroupedRows(env, d, RowKeys(d)[..i + 1], mdss[x := mdss[x].(complexData := mdss[x].complexData + [p])])
  {
    RowKeysPrefix(d, i);
    GroupedRowsAppend(env, d, RowKeys(d)[..i], mdss, d.sss[i][0]);
  }

  /** The export loop: each of the map's values once, in an order the map chooses. */
  method MapValues(mdss: map<string, Dataset>) returns (dss: seq<Dataset>, ghost chosen: seq<string>)
    ensures |dss| == |chosen| == |mdss| && NoDuplicates(chosen)
    ensures forall c :: c in mdss <==> c in chosen
    ensures forall k :: 0 <= k < |chosen| ==> dss[k] == mdss[chosen[k]]
    ensures |dss| == |mdss| && forall v :: v in dss <==> v in mdss.Values
  {
    var out := new Dataset[|mdss|];
    var rest := mdss.Keys;
    chosen := [];
    var i := 0;
    while rest != {}
      invariant i == |chosen| && i + |rest| == |mdss| == out.Length
      invariant rest <= mdss.Keys && NoDuplicates(chosen)
      invariant forall c :: c in mdss <==> c in rest || c in chosen
      invariant forall k :: 0 <= k < i ==> chosen[k] !in rest && out[k] == mdss[chosen[k]]
      decreases |rest|
    {
      var c :| c in rest;
      out[i] := mdss[c];
      rest := rest - {c};
      chosen := chosen + [c];
      i := i + 1;
    }
    dss := out[..];
    forall v | v in mdss.Values ensures v in dss {
      var c :| c in mdss && mdss[c] == v;
      assert c in chosen;
      var k :| 0 <= k < |chosen| && chosen[k] == c;
      assert dss[k] == v;
    }
  }

  /** The denormalised-scatterline branch: the datasets are the reference
      groups in the map's iteration order. */
  method DenormDatasets<F, T>(env: Env<F, T>, d: InData<F, T>) returns (dss: seq<Dataset>, usesTimeScale: bool)
    requires DenormSafe(d)
    ensures multiset(dss) == multiset(DenormReference(env, d))
    ensures |dss| == |DenormReference(env, d)|
    ensures usesTimeScale <==> HasTimes(d) && |d.fss| > 0
  {
    var mdss;
    mdss, usesTimeScale := GroupRows(env, d);
    ghost var chosen;
    dss, chosen := MapValues(mdss);
    EmittedIsPermutation(env, d, mdss, chosen, dss);
    assert |multiset(dss)| == |multiset(DenormReference(env, d))|;
  }

  /** Every row's point lies in exactly one dataset, the one labelled with
      that row's first string, and each dataset holds its rows in row order. */
  lemma DenormPartition<F, T>(env: Env<F, T>, d: InData<F, T>, i: nat, j: nat)
    requires DenormSafe(d) && i < |d.fss| && j < |DenormReference(env, d)|
    ensures var g := DenormReference(env, d)[j];
      var rows := IndicesOf(RowKeys(d), g.seriesLabel);
      && g.complexData == DenormPoints(env, d, rows)
      && (i in rows <==> g.seriesLabel == d.sss[i][0])
      && (forall a, b :: 0 <= a < b < |rows| ==> rows[a] < rows[b])
  {
  }

  /** Reference dataset j is the group of the j-th distinct key, in colour j. */
  lemma ReferenceAt<F, T>(env: Env<F, T>, d: InData<F, T>, j: nat)
    requires DenormSafe(d) && j < |DenormReference(env, d)|
    ensures DenormReference(env, d)[j].seriesLabel == Distinct(RowKeys(d))[j]
    ensures DenormReference(env, d)[j].backgroundColor == DenormReference(env, d)[j].borderColor == env.colorIndex(j)
  {
    var cats := Distinct(RowKeys(d));
    assert IndexOf(cats, cats[j]) == j;
  }

  /** One dataset per distinct first string, pairwise differently labelled,
      in the order in which the labels are first seen, each coloured by that
      position. */
  lemma DenormCategories<F, T>(env: Env<F, T>, d: InData<F, T>)
    requires DenormSafe(d)
    ensures var reference := DenormReference(env, d);
      var keys := RowKeys(d);
      && |reference| == |set c | c in keys|
      && (forall j :: 0 <= j < |reference| ==> reference[j].seriesLabel in keys)
      && (forall a, b :: 0 <= a < b < |reference| ==>
            reference[a].seriesLabel != reference[b].seriesLabel
            && IndexOf(keys, reference[a].seriesLabel) < IndexOf(keys, reference[b].seriesLabel))
      && (forall j :: 0 <= j < |reference| ==>
            reference[j].backgroundColor == reference[j].borderColor == env.colorIndex(j))
  {
    var reference := DenormReference(env, d);
    var keys := RowKeys(d);
    var cats := Distinct(keys);
    DistinctCount(keys);
    forall j | 0 <= j < |reference| ensures reference[j].seriesLabel == cats[j] {
      ReferenceAt(env, d, j);
    }
    forall a, b | 0 <= a < b < |reference|
      ensures IndexOf(keys, reference[a].seriesLabel) < IndexOf(keys, reference[b].seriesLabel)
    {
      DistinctFirstSeenOrder(keys, a, b);
    }
    forall j | 0 <= j < |reference|
      ensures reference[j].backgroundColor == reference[j].borderColor == env.colorIndex(j)
    {
      ReferenceAt(env, d, j);
    }
  }
}
