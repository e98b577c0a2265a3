/** `marshalSimpleData` and `marshalLabels` (chartjs.go:408-438): one token
    per row, filled into a preallocated slice by an index loop. */
module Marshal {
  import opened ChartTypes
  import opened Text

  /** Column col of every row, formatted. */
  function ColumnTokens<F, T>(env: Env<F, T>, fss: seq<seq<F>>, col: nat): seq<string>
    requires RowsReach(fss, |fss|, col)
  {
    seq(|fss|, i requires 0 <= i < |fss| => env.formatFloat(fss[i][col]))
  }

  /** `marshalSimpleData(col)`: one token per numeric row, in row order,
      token i being the formatted cell in column col of row i. */
  method MarshalSimpleData<F, T>(env: Env<F, T>, d: InData<F, T>, col: nat) returns (ds: seq<string>)
    requires RowsReach(d.fss, |d.fss|, col)
    ensures |ds| == |d.fss|
    ensures forall i :: 0 <= i < |d.fss| ==> ds[i] == env.formatFloat(d.fss[i][col])
    ensures ds == ColumnTokens(env, d.fss, col)
  {
    var a := new string[|d.fss|];
    for i := 0 to |d.fss|
      invariant forall k :: 0 <= k < i ==> a[k] == env.formatFloat(d.fss[k][col])
    {
      a[i] := env.formatFloat(d.fss[i][col]);
    }
    ds := a[..];
  }

  /** The time-label case: no string rows but some time rows. */
  predicate TimeLabels<F, T>(d: InData<F, T>)
  {
    !HasStrings(d) && HasTimes(d)
  }

  /** What marshalLabels reads must exist: the first time stamp of every time
      row, or the first string of every string row. */
  predicate LabelsSafe<F, T>(d: InData<F, T>)
  {
    && (TimeLabels(d) ==> RowsReach(d.tss, |d.tss|, 0))
    && (HasStrings(d) ==> RowsReach(d.sss, |d.sss|, 0))
  }

  /** "slice i" for the synthetic labels. */
  function SliceLabel(i: nat): string
  {
    "slice " + NatToDecimal(i)
  }

  /** The first time stamp of each time row, formatted. */
  function TimeTokens<F, T>(env: Env<F, T>, d: InData<F, T>): seq<string>
    requires RowsReach(d.tss, |d.tss|, 0)
  {
    seq(|d.tss|, i requires 0 <= i < |d.tss| => env.formatTime(d.tss[i][0]))
  }

  /** "slice i" for each numeric row. */
  function SliceTokens<F, T>(d: InData<F, T>): seq<string>
  {
    seq(|d.fss|, i requires 0 <= i < |d.fss| => SliceLabel(i))
  }

  /** The preprocessed first string of each string row. */
  function StringTokens<F, T>(env: Env<F, T>, d: InData<F, T>): seq<string>
    requires RowsReach(d.sss, |d.sss|, 0)
  {
    seq(|d.sss|, i requires 0 <= i < |d.sss| => env.preprocessLabel(d.sss[i][0]))
  }

  /** The labels before joining, one per row of the source they come from. */
  function LabelTokens<F, T>(env: Env<F, T>, d: InData<F, T>): seq<string>
    requires LabelsSafe(d)
  {
    if TimeLabels(d) then TimeTokens(env, d)
    else if !HasStrings(d) then SliceTokens(d)
    else StringTokens(env, d)
  }

  /** The Labels text: backtick-quoted time labels joined by "`,`", or the labels joined by ",". */
  function LabelsText<F, T>(env: Env<F, T>, d: InData<F, T>): string
    requires LabelsSafe(d)
  {
    if TimeLabels(d) then Backticked(Join(LabelTokens(env, d), "`,`"))
    else Join(LabelTokens(env, d), ",")
  }

  /** `marshalLabels`: each case fills its labels into a preallocated slice
      and joins them. */
  method MarshalLabels<F, T>(env: Env<F, T>, d: InData<F, T>) returns (s: string)
    requires LabelsSafe(d)
    ensures s == LabelsText(env, d)
  {
    if TimeLabels(d) {
      var ls := FillTimeLabels(env, d);
      return "`" + Join(ls, "`,`") + "`";
    }
    if !HasStrings(d) {
      var ls := FillSliceLabels(d);
      return Join(ls, ",");
    }
    var ls := FillStringLabels(env, d);
    return Join(ls, ",");
  }

  /** The time-label loop of marshalLabels. */
  method FillTimeLabels<F, T>(env: Env<F, T>, d: InData<F, T>) returns (ls: seq<string>)
    requires RowsReach(d.tss, |d.tss|, 0)
    ensures |ls| == |d.tss| && forall k :: 0 <= k < |d.tss| ==> ls[k] == env.formatTime(d.tss[k][0])
    ensures ls == TimeTokens(env, d)
  {
    var a := new string[|d.tss|];
    for i := 0 to |d.tss|
      invariant forall k :: 0 <= k < i ==> a[k] == env.formatTime(d.tss[k][0])
    {
      a[i] := env.formatTime(d.tss[i][0]);
    }
    ls := a[..];
  }

  /** The "slice i" loop of marshalLabels. */
  method FillSliceLabels<F, T>(d: InData<F, T>) returns (ls: seq<string>)
    ensures |ls| == |d.fss| && forall k :: 0 <= k < |d.fss| ==> ls[k] == SliceLabel(k)
    ensures ls == SliceTokens(d)
  {
    var a := new string[|d.fss|];
    for i := 0 to |d.fss|
      invariant forall k :: 0 <= k < i ==> a[k] == SliceLabel(k)
    {
      a[i] := "slice " + NatToDecimal(i);
    }
    ls := a[..];
  }

  /** The string-label loop of marshalLabels. */
  method FillStringLabels<F, T>(env: Env<F, T>, d: InData<F, T>) returns (ls: seq<string>)
    requires RowsReach(d.sss, |d.sss|, 0)
    ensures |ls| == |d.sss| && forall k :: 0 <= k < |d.sss| ==> ls[k] == env.preprocessLabel(d.sss[k][0])
    ensures ls == StringTokens(env, d)
  {
    var a := new string[|d.sss|];
    for i := 0 to |d.sss|
      invariant forall k :: 0 <= k < i ==> a[k] == env.preprocessLabel(d.sss[k][0])
    {
      a[i] := env.preprocessLabel(d.sss[i][0]);
    }
    ls := a[..];
  }

  lemma SliceLabelHasNoComma(i: nat)
    ensures ',' !in SliceLabel(i)
  {
    var s := SliceLabel(i);
    forall k | 0 <= k < |s| ensures s[k] != ',' {
      if k >= 6 {
        assert s[k] == NatToDecimal(i)[k - 6];
      }
    }
  }

  /** The Labels text lists one label per row of the source it is taken
      from, in row order, and splitting it at its commas gives that list back
      (backtick-quoted for time labels) whenever no label holds a comma:
      - no string rows, some time rows: the first time stamp of each time row;
      - neither: "slice i" for numeric row i (these never hold a comma);
      - otherwise: the preprocessed first string of each string row. */
  lemma LabelsTextLists<F, T>(env: Env<F, T>, d: InData<F, T>)
    requires LabelsSafe(d)
    requires TimeLabels(d) ==> forall i :: 0 <= i < |d.tss| ==> ',' !in Backticked(env.formatTime(d.tss[i][0]))
    requires HasStrings(d) ==> forall i :: 0 <= i < |d.sss| ==> ',' !in env.preprocessLabel(d.sss[i][0])
    ensures TimeLabels(d) ==>
      var ls := Split(LabelsText(env, d), ',');
      |ls| == |d.tss| && forall i :: 0 <= i < |d.tss| ==> ls[i] == Backticked(env.formatTime(d.tss[i][0]))
    ensures !HasStrings(d) && !HasTimes(d) && HasFloats(d) ==>
      var ls := Split(LabelsText(env, d), ',');
      |ls| == |d.fss| && forall i :: 0 <= i < |d.fss| ==> ls[i] == SliceLabel(i)
    ensures HasStrings(d) ==>
      var ls := Split(LabelsText(env, d), ',');
      |ls| == |d.sss| && forall i :: 0 <= i < |d.sss| ==> ls[i] == env.preprocessLabel(d.sss[i][0])
  {
    var tokens := LabelTokens(env, d);
    if TimeLabels(d) {
      JoinBackticked(tokens);
      SplitJoin(BacktickedAll(tokens), ',');
    } else if !HasStrings(d) {
      if HasFloats(d) {
        forall k | 0 <= k < |tokens| ensures ',' !in tokens[k] {
          SliceLabelHasNoComma(k);
        }
        SplitJoin(tokens, ',');
      }
    } else {
      SplitJoin(tokens, ',');
    }
  }
}
