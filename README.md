# chartjs.go in Dafny

A model of the Chart.js back end of a charting tool. It is one stateless
transformation. It takes a table of numeric rows (`FSS`), time-stamp rows
(`TSS`) and string rows (`SSS`) and produces the chart description
(`cjsData`, `cjsDataset`, `cjsDataPoint`) that the Chart.js template renders.

The model covers four parts:

- **the classifier**: a requested `"line"` is re-read as `"scatterline"` or
  `"denormalised-scatterline"`, depending on the table's shape, and a kind
  that matches no case is fatal;
- **the dataset builder**: one branch per mode (pie, bar, line, scatterline,
  denormalised scatterline, scatter/bubble);
- **the helpers** `marshalSimpleData` and `marshalLabels`;
- **`data()`**: copies the display metadata and picks the tooltip.

Cell values have no interpretation in the model. The numeric and time cells
are type parameters `F` and `T`. The collaborators below are fields of an
`Env` record of function values. Most are called by the file but not defined
in it:

- `%g` formatting (which is also `%v` of a `float64`);
- time formatting;
- `preprocessLabel`;
- the palette helpers `colorIndex`, `colorFirstN` and `colorRepeat`.

`scatterRadius` is defined in the file (chartjs.go:475-480), but its float
arithmetic is kept opaque as one more `Env` field.

The model keeps the source's own form:

- The classifier, tooltip dispatch and field copying are functions.
- The loops are methods with invariants, each proved against a reference
  function:
  - the `append` loops;
  - the labelled `break outerLoop`;
  - the preallocated slices of the marshal helpers, filled into arrays;
  - the read-modify-write on the Go map `mdss`;
  - the `css`/`ils` discovery loop with its `break`;
  - the in-place update of `dss[j].ComplexData`, on an array.
- The `inData` helpers `hasFloats`, `hasStrings`, `hasTimes`,
  `timeFieldLen` and `floatFieldLen` are the predicates and functions of the
  same names in `ChartTypes`.

Modules:

- `ChartTypes`: the records and collaborators.
- `Text`: decimal rendering, `strings.Join` and `Split`.
- `Grouping`: first-seen distinct keys, positions of a key, permutations.
- `Classifier`: the resolution of the requested kind and the tooltip dispatch.
- `Marshal` and `Series`: the marshal helpers, and pie, bar, line and scatterline.
- `Denormalised` and `Scatter`: the two grouping branches.
- `Chart`: `labelsAndDatasets` and `data`.
- `Scenarios`: three concrete tables (`PieOfThreeRows`, `LineBecomesScatterLine`, `OneColumnScatterLine`).

Preconditions state exactly what keeps each resolved mode free of Go
index panics (`Chart.ModeSafe`):

- Bar and line read `FSS[0]`, and every row up to its width.
- Scatterline reads `FSS[0]` and every row up to its width, except without
  time rows and with one column: there `break outerLoop` fires before any
  row is read (chartjs.go:269-271), so later rows may be ragged
  (`Scenarios.OneColumnScatterLine`). With time rows it also reads the
  first time stamp of each row.
- Denormalised mode reads `SSS[i][0]` for each numeric row.
- Scatter reads `MinFSS`/`MaxFSS` at index 1 or 2 when a row has a radius
  column.

Ragged rows are allowed wherever the code tolerates them.

Points of chartjs.go that are easy to misread:

- **Scatterline with time rows** makes one dataset per numeric column, with
  y taken from that column (chartjs.go:264-267).
- **Denormalised datasets** come out in Go's map iteration order
  (chartjs.go:321-324). The model specifies this output only up to
  permutation of the datasets in first-seen order of their keys.
- **Scatter categories**:
  - Discovery stops at the first empty string row (chartjs.go:335-338).
  - String rows after the numeric rows still add categories, and those
    categories can have no points.
  - The "category 0" fallback appears whenever no category is found
    (no string rows, or an empty first string row), not only for an
    empty table (chartjs.go:346-354).
- **The tooltip** is chosen from the requested kind, because `data()` and
  `labelsAndDatasets()` use value receivers (chartjs.go:180-192). So a
  requested line keeps the line tooltip when it is drawn as a denormalised
  scatterline. Requested directly, `"denormalised-scatterline"` gets the
  empty tooltip.
- **Kinds requested directly**: `"scatterline"` and
  `"denormalised-scatterline"` can be requested as such, since the `switch`
  accepts them (chartjs.go:257, 291).

## Model

| member | source | states |
|---|---|---|
| Classifier.ParseMode | chartjs.go:402-404 | a kind selects a case exactly when it is one of the six case names; any other kind is the fatal default (None) |
| Classifier.ParseModeName | chartjs.go:200-402 | each of the six case names selects its own case of the switch |
| Classifier.Reclassification | chartjs.go:194-199 | the kind changes exactly when it is "line" and there are no string rows or some time rows; it then becomes "scatterline", or "denormalised-scatterline" exactly when string rows exist and floatFieldLen + timeFieldLen >= 2 |
| Classifier.ClassifyCases | chartjs.go:194-200 | a requested line is a plain line exactly with strings and no times, denormalised exactly with strings, times and two fields; other kinds keep their case; None exactly for a non-line kind outside the six names |
| Classifier.TooltipCallback | chartjs.go:440-473 | the pie, scatter and bar bodies exactly for "pie", "scatter" and "bar", the line body exactly for "line" and "scatterline", and the empty body exactly for every other kind |
| Classifier.TooltipOfRequestedKind | chartjs.go:187 | the tooltip follows the requested kind: a requested line keeps the line tooltip even when drawn as a denormalised scatterline, whose own name selects the empty body |
| Marshal.MarshalSimpleData | chartjs.go:432-438 | exactly len(FSS) tokens, token i the formatted cell of row i in column col |
| Marshal.MarshalLabels | chartjs.go:408-430 | the labels text: backticked time stamps joined by "`,`" when there are times but no strings, "slice i" per numeric row with neither, else the preprocessed first string of each string row |
| Marshal.FillTimeLabels | chartjs.go:410-413 | one label per time row, label i the formatted first time stamp of time row i |
| Marshal.FillSliceLabels | chartjs.go:418-421 | one label per numeric row, label i being "slice i" |
| Marshal.FillStringLabels | chartjs.go:425-428 | one label per string row, label i the preprocessed first string of string row i |
| Marshal.SliceLabelHasNoComma | chartjs.go:420 | a "slice i" label never holds a comma |
| Marshal.LabelsTextLists | chartjs.go:408-430 | splitting the labels text at commas gives back one label per source row in row order (backticked time stamps, "slice i", or preprocessed strings) whenever no label holds a comma |
| Series.CategoryLabelsDiffer | chartjs.go:229 | different column numbers give different "category i" labels |
| Series.BarDatasets | chartjs.go:225-233 | one dataset per column of the first row, dataset i filled, holding column i of every row, labelled "category i", coloured colorRepeat(i, len(FSS)) |
| Series.LineDatasets | chartjs.go:241-250 | one dataset per column, dataset i unfilled, holding column i of every row, labelled "category i", border and background colorIndex(i) |
| Series.ColumnSeriesShape | chartjs.go:225-250 | a bar or line dataset has len(FSS) tokens, token r the formatted cell of row r; bar datasets are filled and line datasets not; labels of different columns differ |
| Series.ScatterLineDatasets | chartjs.go:257-290 | with times, one dataset per column; without, one fewer, the break dropping the last column; dataset n is ScatterLineSeries n; usesTimeScale exactly with times and at least one column |
| Series.ScatterLineShape | chartjs.go:257-284 | without times dataset n plots column n+1 against column 0, with times column n against each row's first time stamp; one point per row in row order; labels pairwise different |
| Denormalised.GroupNewKey | chartjs.go:304-311 | a row with an unseen key adds a one-point dataset labelled with the key and coloured by the number of keys seen so far |
| Denormalised.GroupKnownKey | chartjs.go:312-316 | grouping a row leaves every other key's dataset and all colours unchanged and appends the row's point to its own key's dataset |
| Denormalised.GroupedRowsInsert | chartjs.go:304-311 | inserting a new key's one-point dataset, coloured by the map's size, keeps the map the grouping of the rows seen, one row more |
| Denormalised.GroupedRowsAppend | chartjs.go:312-316 | reading a known key's dataset, appending the row's point and writing it back keeps the map the grouping of the rows seen, one row more |
| Denormalised.GroupRows | chartjs.go:292-317 | after the loop the map holds, for each distinct first string, the points of its rows in row order, coloured by first-seen position; usesTimeScale exactly with times and rows |
| Denormalised.MapValues | chartjs.go:319-324 | the copied slice has len(mdss) entries, exactly the map's values, one per key in some order of the keys |
| Denormalised.EmittedIsPermutation | chartjs.go:319-324 | any such emission order is a permutation of the first-seen reference datasets |
| Denormalised.DenormDatasets | chartjs.go:291-330 | the datasets are a permutation of the first-seen reference; usesTimeScale exactly with times and rows |
| Denormalised.DenormPartition | chartjs.go:293-317 | a dataset's points are those of the rows whose first string is its label, in ascending row order; so each row lies in exactly one dataset |
| Denormalised.DenormCategories | chartjs.go:303-311 | as many datasets as distinct first strings, pairwise differently labelled, in first-seen order, dataset j coloured colorIndex(j) on border and background |
| Denormalised.ReferenceAt | chartjs.go:304-311 | reference dataset j is labelled with the j-th distinct first string and coloured colorIndex(j) on border and background |
| Scatter.LeadingRows | chartjs.go:335-338 | the count of string rows before the first empty one: all of them are non-empty, and the next is empty |
| Scatter.LeadingRowsAt | chartjs.go:335-338 | when n rows are non-empty and the next is empty or missing, the discovery loop reads exactly n rows |
| Scatter.DiscoverCategories | chartjs.go:332-344 | css numbers the distinct first strings of the leading non-empty rows by first-seen position, ils names each number, and count is their number |
| Scatter.InitialDatasets | chartjs.go:345-363 | one empty filled dataset per category, labelled and coloured by its number, or the single "category 0" fallback with colorIndex(0) |
| Scatter.Bubble | chartjs.go:366-387 | the point of row i is ScatterPoint: UsesR; with times x the quoted first time stamp, y column 0, radius from column 1 with MinFSS/MaxFSS index 1 else "4"; without, x column 0, y column 1 or "0", radius from column 2 with index 2 else "4" |
| Scatter.TargetInRange | chartjs.go:388-391 | every row's target dataset exists; with string rows it is the category of the row's own first string |
| Scatter.TargetOf | chartjs.go:388-391 | the dataset index of row i: 0 without string rows, else the css number of the row's first string, 0 (Go's zero value) when css lacks it |
| Scatter.GroupsNext | chartjs.go:388-394 | placing row n appends its point to its target dataset and leaves every other dataset as it was |
| Scatter.PlaceRows | chartjs.go:365-395 | updating dss[j].ComplexData in place row by row turns the initial datasets into the datasets with every row placed; usesTimeScale exactly with times and rows |
| Scatter.ScatterDatasets | chartjs.go:331-401 | the datasets equal the reference: categories in first-seen order with every row's point appended in row order; usesTimeScale exactly with times and rows |
| Scatter.ScatterCategories | chartjs.go:332-363 | no category exactly when there are no string rows or the first is empty, leaving the one dataset "category 0"; else one dataset per distinct leading first string, pairwise different, first-seen order, dataset j coloured colorIndex(j), all filled |
| Scatter.ScatterPlacement | chartjs.go:365-395 | each row's point lies in exactly one dataset, in row order: the one labelled with the row's first string when there are strings, else dataset 0 |
| Chart.LabelsAndDatasets | chartjs.go:192-406 | None exactly for a kind no case matches; otherwise the result of the resolved mode, exact except for denormalised datasets, which match up to order |
| Chart.PieChart | chartjs.go:201-211 | the pie case: the marshalled labels and one filled dataset of column 0 coloured colorFirstN(len(FSS)) |
| Chart.BarChart | chartjs.go:212-239 | the bar case: one colorFirstN dataset for a one-column first row, else one dataset per column as BarDatasets states |
| Chart.LineChart | chartjs.go:240-256 | the line case: the marshalled labels and one dataset per column as LineDatasets states |
| Chart.ScatterLineChart | chartjs.go:257-290 | the scatterline case: no labels, the datasets of ScatterLineDatasets and its time-scale flag |
| Chart.DenormalisedChart | chartjs.go:291-330 | the denormalised case: the first-seen reference datasets up to order |
| Chart.ScatterChart | chartjs.go:331-401 | the scatter case, drawn as "bubble": the datasets of ScatterDatasets and its time-scale flag |
| Chart.ChartShape | chartjs.go:200-401 | per mode: the Chart.js and actual kind names, the dataset count (one for pie and one-column bar, width for bar and line, width or width-1 for scatterline, distinct keys for denormalised, categories or 1 for scatter), labels only for pie, bar and line, and when the time scale is used |
| Chart.Data | chartjs.go:180-190 | the labelsAndDatasets result with the metadata and the requested kind's tooltip filled in; None exactly for an unknown kind |
| Chart.DataMetadata | chartjs.go:180-190 | title, scale type, axis labels and zeroBased are copied from the input, the tooltip follows the requested kind, and a requested line is always handed to Chart.js as "line" with the line tooltip |
| Scenarios.PieOfThreeRows | chartjs.go:201-211 | rows 10, 20, 30 as a pie give one filled dataset of the three formatted values with colorFirstN(3), labelled "slice 0,slice 1,slice 2" |
| Scenarios.LineBecomesScatterLine | chartjs.go:257-290 | a line over rows (0,5), (1,6), (2,7) without strings is a scatterline with one dataset "category 0" of the points (0,5), (1,6), (2,7) and no time scale |
| Scenarios.OneColumnScatterLine | chartjs.go:257-290 | a one-column line over the ragged rows [1], [] without strings is a safe scatterline with no dataset, since the break fires before any row is read |

## Left out

- The Chart.js template text, its parsing in `init` and its execution (chartjs.go:13-110), and the `chart()` method returning it. This is text rendering by a foreign library.
- `fmt.Sprintf("%g")`, `%v` of a float64, and `time.Format`. They are the uninterpreted `Env` functions `formatFloat` and `formatTime`. Go's float formatting is not modelled. `"category %v"` and `"slice %v"` of an int use the model's own decimal rendering. `Sprintf("%v", 4)` is the literal "4".
- The arithmetic of `scatterRadius` (chartjs.go:475-480). It is float64 numerics, so `scatterRadius` is an uninterpreted function of (value, min, max). The model fixes only which column and which MinFSS/MaxFSS index are passed.
- `colorIndex`, `colorFirstN`, `colorRepeat` and `preprocessLabel`. They are defined outside chartjs.go, so they are uninterpreted functions.
- The JavaScript text of the tooltip bodies. They are distinct constants of `Tooltip`, and `NoTooltip` is the empty body.
- `log.Fatalf` ending the process (chartjs.go:403). It is the `None` result.
- Go's map iteration order (chartjs.go:321). It is a nondeterministic choice of the next key, so denormalised output is specified only up to permutation.
- Index-out-of-range panics. None exists in the model: they are excluded by `Chart.ModeSafe` / `Chart.Safe`, which state what each mode reads.
- Denormalised.DenormDatasets: the datasets are related to the reference by multiset equality, not element by element, because the source's order is unspecified.
