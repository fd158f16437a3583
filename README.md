# EDA dashboard: column classifier, aggregation-result validator and chart adapter

A verified Dafny model of the decision layer of a browser dashboard for
exploratory data analysis (`src/App.jsx`). A user uploads a CSV. The backend
parses it and returns per-column metadata. The user then asks for a
categorical-by-continuous aggregation, which the dashboard draws as a bar,
pie or line chart. The model covers these parts of the dashboard:

- **Column classifier** (`columns.dfy`, module `ColumnClassifier`). It decides
  which columns the "Categorical Column" and "Continuous Column" drop-downs
  offer. Before a summary exists, both offer every uploaded column. After
  that, they offer the string-typed (`String`, `Utf8`, `Categorical`) and the
  numeric-typed (`Int8`…`Int64`, `Float32`, `Float64`) columns, in summary
  order and without deduplication. The same module holds the filter behind
  the missing-values chart.
- **Aggregation-result validator** (`validation.dfy`, module
  `ResponseValidator`). These are the guards the aggregation chart runs
  before it touches `data`. Each result gets exactly one verdict: nothing
  drawn, invalid structure, invalid format, length mismatch, or renderable.
  A renderable verdict names the category column, the value column and
  their two arrays.
- **Chart adapter** (`chart.dfy`, module `ChartAdapter`). It builds the
  Plotly trace and layout for a validated result and a chart type.
- **Input guards** (`controls.dfy`, module `ViewGuards`). They decide which
  file selections are kept, and when an aggregation request may be sent.
- **JavaScript values** (`js_value.dfy`, module `JsValue`). The backend's
  JSON is a `Value` datatype. An object is a sequence of (key, value) pairs
  in `Object.keys` order. The module also models truthiness (`!x`), own
  property lookup (`v[key]`), `Object.keys`, `findIndex` and `String(v)`.
  The model follows the checks through results of other JSON shapes too:
  `data` may be an array, whose own keys are index strings and whose
  `__proto__` is `Array.prototype` (an empty array), or a string of
  code points (see "## Left out" for characters beyond them). `group_by` may
  be a number, in which case its text becomes the property key.

Two conversions are parameters of the functions that need them:
`numText` (JavaScript's number-to-string) and `toFixed2`
(`Number.prototype.toFixed(2)`). No property depends on the digits they
produce.

Two behaviours of the code worth noting:

- `getLayout` gives every non-pie chart an x-axis `tickangle`, the line
  chart included (`src/App.jsx:369-379`). The model does the same.
- A chart type other than `"pie"` or `"line"` is drawn as a bar chart.

## Model

| member | source | states |
|---|---|---|
| `JsValue.FindIndex` | src/App.jsx:236-238 | the position found satisfies the test and no earlier element does; None only when no element does |
| `JsValue.IndexKeyRoundTrip` | src/App.jsx:236-238 | an array index printed as a key is a canonical index key and parses back to the same index |
| `JsValue.ParseIndexRoundTrip` | src/App.jsx:236-238 | every canonical index key is the printed form of the index it denotes, so index keys and indices correspond one to one |
| `JsValue.MemberOfObject` | src/App.jsx:254-255 | `obj[key]` is the value of the first field named `key` |
| `JsValue.OwnKeysResolve` | src/App.jsx:236-255 | every key `Object.keys` lists is present on the value; on an array the j-th key reads the j-th element |
| `ColumnClassifier.StringColumns` | src/App.jsx:162-172 | with no summary, the uploaded column list unchanged; with one, the names of exactly the string-typed columns, one entry per column, in summary order |
| `ColumnClassifier.NumericColumns` | src/App.jsx:174-183 | with no summary, the uploaded column list unchanged; with one, the names of exactly the numeric-typed columns, one entry per column, in summary order |
| `ColumnClassifier.NoSummaryOffersSameColumns` | src/App.jsx:162-183 | before a summary exists, both drop-downs offer the same list, the uploaded columns |
| `ColumnClassifier.FilterSelects` | src/App.jsx:164-171 | the filter keeps exactly the entries that pass, in their original order, and keeps nothing exactly when no entry passes |
| `ColumnClassifier.CategoricalCandidateIff` | src/App.jsx:164-171 | a name is offered as categorical if and only if some column of that name has dtype String, Utf8 or Categorical |
| `ColumnClassifier.NumericCandidateIff` | src/App.jsx:176-182 | a name is offered as continuous if and only if some column of that name has one of the six numeric dtypes |
| `ColumnClassifier.DtypeSetsDisjoint` | src/App.jsx:164-182 | no dtype tag is both string-like and numeric |
| `ColumnClassifier.CandidatesDisjoint` | src/App.jsx:162-183 | when column names are unique, no column is offered in both drop-downs |
| `ColumnClassifier.UnclassifiedColumnExcluded` | src/App.jsx:162-183 | when column names are unique, a column whose dtype is in neither set (boolean, date, …) is offered in neither drop-down |
| `ColumnClassifier.ScenarioCitySales` | src/App.jsx:162-183 | a Utf8 "city" column and a Float64 "sales" column give ["city"] and ["sales"] |
| `ColumnClassifier.MissingValuesChart` | src/App.jsx:185-223 | no chart without a summary or when no column has a missing value; otherwise one bar per column with missing values, in summary order, whose height is that column's missing count, on a 400-pixel chart titled "Missing Values by Column" |
| `ResponseValidator.ValueColumn` | src/App.jsx:236-238 | the value column is the first own key of `data` that is not the group key; there is none exactly when every key is the group key |
| `ResponseValidator.Validate` | src/App.jsx:233-279 | every result gets exactly one verdict, decided by the first failing check in this order: no result or data, then a falsy group key or value key, then a non-array column, then unequal lengths. A renderable verdict carries the group key and the value column `ValueColumn` picks (the first own key of `data` that differs from the group key, non-empty), and the two arrays found under them, of equal length |
| `ResponseValidator.DrawnValueColumnIsFirstOtherKey` | src/App.jsx:236-238 | the value column of a drawn verdict is an own key of `data` and every key before it is the group key |
| `ResponseValidator.TwoColumnResultLookups` | src/App.jsx:233-268 | with a non-empty string group key and a `data` object holding that key and one other, in either order, both keys are truthy, the category column is the group key, the value column is the other key, and the two lookups return exactly those two fields |
| `ResponseValidator.WellFormedResultRenders` | src/App.jsx:233-279 | a result shaped as the backend promises renders from exactly its two arrays: a non-empty string group key, and `data` holding that key and one other, with arrays of equal length in either order |
| `ResponseValidator.FirstOtherKeyIsDrawn` | src/App.jsx:236-238 | when `data` has more than two keys, the first key that differs from the group key is used, whatever follows |
| `ResponseValidator.StringGroupKeyDrawsTwoColumns` | src/App.jsx:235-255 | with a string group key, the value column is never the category column |
| `ResponseValidator.MissingCategoryArrayIsFormatError` | src/App.jsx:254-268 | a `data` without the group key's property fails as a format error, not a structure error |
| `ResponseValidator.OnlyGroupKeyIsStructureError` | src/App.jsx:236-252 | a `data` whose only key is the group key fails as a structure error |
| `ResponseValidator.ScenarioTwoCities` | src/App.jsx:233-279 | the city/sales result renders with group key "city" and value key "sales" |
| `ResponseValidator.ScenarioProtoGroupKey` | src/App.jsx:233-279 | with group key "__proto__" and `data` = [[]], `data["__proto__"]` is the empty `Array.prototype` and `data["0"]` is [], so the result is drawn with value column "0" and no points |
| `ResponseValidator.ScenarioLengthMismatch` | src/App.jsx:270-279 | three cities against two sales figures give the length-mismatch error |
| `ChartAdapter.ChartData` | src/App.jsx:291-349 | one trace. "pie" gives labels = categories, values = values and the 8-colour palette. "line" gives a scatter trace and anything else a bar trace; both have x = categories, y = values, and one label per value: the two-decimal text of a number, any other value unchanged |
| `ChartAdapter.FirstKeyText` | src/App.jsx:362-364 | reading the first key of `aggregate` throws exactly when `aggregate` is missing or null |
| `ChartAdapter.ChartLayout` | src/App.jsx:351-380 | height 500, margins 50/80/60/50 and transparent backgrounds on every layout; the title is the aggregation title. A pie layout, exactly for "pie", shows the legend. Every other layout titles the x axis by the category column and the y axis by the value column, with tick angle −45 if and only if there are more than 5 categories, else 0 |
| `ChartAdapter.TraceAndLayoutAgree` | src/App.jsx:291-380 | the trace is a pie if and only if the layout is a pie layout |
| `ChartAdapter.TitleSameForEveryChartType` | src/App.jsx:359-373 | the title does not depend on the chart type |
| `ChartAdapter.TickAngleBoundary` | src/App.jsx:374-377 | on non-pie charts, 5 categories are drawn level and 6 slanted by −45 degrees |
| `ChartAdapter.TitleOfWellFormedAggregate` | src/App.jsx:371-373 | with `aggregate` = {column: function}, the title reads "function(column) by group" |
| `ChartAdapter.TracePairsInOrder` | src/App.jsx:291-347 | for every chart type, the trace pairs the i-th category with the i-th value, one point per category |
| `ChartAdapter.ChartPairsValidatedColumns` | src/App.jsx:254-347 | for a renderable result and any chart type, the drawn points are exactly the pairs (data[group][i], data[value][i]) in order: none added, dropped, reordered or re-paired |
| `ChartAdapter.ScenarioTwoCitiesBarChart` | src/App.jsx:291-380 | the two cities and sales figures of the city/sales result (see `ScenarioTwoCities`) give two bars labelled with the two-decimal texts of 10.5 and 20.25, under the title "mean(sales) by city" |
| `ViewGuards.Dashboard.constructor` | src/App.jsx:16-27 | no file, idle status, empty message, no columns selected, function "mean" |
| `ViewGuards.Dashboard.HandleFileChange` | src/App.jsx:44-53 | a selection is kept, with the status reset to idle and the message cleared, if and only if a file was chosen and its type is text/csv; otherwise an alert and no change |
| `ViewGuards.Dashboard.PerformAggregation` | src/App.jsx:108-112 | no request is sent if and only if either column is unselected; otherwise the request carries both columns and one of the eight functions |

## Left out

- Network I/O is not modelled: the `fetch` calls in `uploadFile`, `fetchSummary` and `performAggregation`, how their responses and failures are handled, and the race between overlapping requests. The same goes for the `!file` guard in `uploadFile` and the `loading` flag.
- `alert` and `console` output are not modelled. An alert appears only as the `alerted` result or an absent request.
- All JSX rendering is left out, including icons, status colours, `toLocaleString`, the show/hide chart toggle and the `disabled` state of buttons.
- The digits of `toFixed(2)` and of number-to-string are not modelled. They are the parameters `toFixed2` and `numText`, and JSON numbers are reals with no floating-point rounding.
- Plotly's own behaviour is not modelled: colour cycling past eight slices, how `textinfo`/`hovertemplate` are read, and the mode-bar configuration.
- The results table (`src/App.jsx:656-685`) is left out. It takes its header from the first `data` key containing "_" and its cells from `Object.values(data)[1]`, and no validation guards it. For `data = {city: [...], sales: [...]}` its header is `undefined` while the chart uses "sales". The table is rendered before the chart and throws, taking the page down before any of the chart's verdicts is shown, in these cases:
  - on a result without `data` or `aggregate` (the header on line 652 and `Object.keys` on line 664 throw);
  - whenever `data[group_by]` is not an array (line 671 calls `.map` on it). This includes every input of `MissingCategoryArrayIsFormatError`, so the "Invalid data format" message is never displayed for it;
  - whenever `data` has fewer than two values and the category array is non-empty (line 678 indexes `Object.values(data)[1]`, which is `undefined`). This includes every input of `OnlyGroupKeyIsStructureError` with a non-empty array.

  So the validator's verdicts state what the chart function returns, not what the page displays.
- React state hooks and re-rendering are left out. The form state the guards touch is a `Dashboard` object.
- Object key order: JavaScript lists integer-like keys first, in ascending order. The model takes an object's field sequence to be in that enumeration order already.
- Duplicate JSON keys: `JSON.parse` keeps the last value. The model reads the first field of a name, which is the same whenever keys are distinct, as parsed objects' keys are.
- Inherited properties other than an array's `__proto__` read as absent. They are prototype methods, `Object.prototype` and `String.prototype`, none of which is an array, so no verdict changes.
- Strings are sequences of code points, while JavaScript indexes them by UTF-16 code units. A string `data` holding a character beyond the Basic Multilingual Plane therefore has fewer index keys and a smaller `length` in the model. For example, with `group_by` "0" and `data` "😀", JavaScript finds the value column "1" and reports a format error, while the model finds no value column and reports a structure error.
- The limit of 2^32 − 2 on array indices is not modelled.
- Summaries are typed records: `ColumnMeta` fields are always present. The `!summary.columns` guard therefore reduces to "no summary", and `num_rows`/`num_columns` play no part.
- `ColumnClassifier.CandidatesDisjoint` and `ColumnClassifier.UnclassifiedColumnExcluded` assume unique column names, as summaries promise. With a name used twice, once as Utf8 and once as Int64, the classifier offers that name in both lists.
