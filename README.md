# Lake water-quality dashboard — a Dafny model

The dashboard shows measurements of two Kashmir lakes, Dal Lake and Wular
Lake. A feed of yearly rows (lake name, year label, source, and a minimum and
maximum for temperature, dissolved oxygen, pH, conductivity and BOD) is
loaded once. Selecting a lake does the following:

- it filters the feed by lake name, ignoring letter case;
- it builds five summary cards from the last matching row;
- it draws a radar chart of that row, scaled per axis;
- it draws a bar chart and a "heatmap" bar chart of per-row averages;
- it fills a table whose numeric cells are coloured `safe`, `caution` or
  `unsafe` against a fixed table of inclusive bands;
- it draws one line chart per parameter.

Chart instances live in a registry keyed by canvas id. The radar, bar and
heatmap builders destroy the instance their id holds before they register a
new one. A lake without rows gets a "No data" row, and every registered
chart is destroyed.

The model has six modules:

- `Wrappers`: `Option`.
- `Standards`: the band table and the classifier `GetColorClass`.
- `Text`: ASCII `toLowerCase` and the `\s+` stripping of canvas ids.
- `Feed`: rows, the lake filter and the latest row.
- `Metrics`: averages, radar scaling, chart series, summary cards, table
  rows with their CSS classes, and canvas ids.
- `Dashboard`: the page.

Every step of the page is a pure function on a `PageState` value:
`Replace`, `Store`, `Cleared`, `WithCards`, `WithTable`, `WithLines`,
`Rendered`, `ShowLake` and `Loaded`. The page's behaviour is proved as
lemmas about these steps. The class `Dashboard.Dashboard` holds the page's
mutable globals as fields. Each of its methods performs one step in place
and ensures that its new `State()` is that step applied to the old one. A
chart instance is a `Handle`: a serial number from a counter, plus the
canvas it was created on. That lets the model tell a new instance from the
one it displaces, and record which instances have been destroyed.

`parseFloat` is modelled as a parse into `Option<real>`, where `None` stands
for NaN. NaN fails every comparison in `getColorClass`, so it falls through to
`unsafe` (frontend/static/script.js:103) for every known parameter
(`Standards.NaNIsUnsafe`).

The radar, bar and heatmap builders destroy the instance their id holds
(frontend/static/script.js:277-282, 332-334, 401-403). `createLineCharts`
does not: it stores a new instance over the canvas id without destroying the
old one (frontend/static/script.js:585). `Store`, `StoreOrphans`,
`WithLinesOrphans` and `RenderedOrphansLines` state that the displaced
instance is left neither live nor destroyed.

## Model

| member | source | states |
|---|---|---|
| Standards.GetColorClass | frontend/static/script.js:87-105 | `''` exactly for a parameter outside the table; otherwise exactly one of the three tiers, and each tier holds iff its band test holds, with safe checked before caution |
| Standards.NaNIsUnsafe | frontend/static/script.js:91-104 | an unparseable value fails both band tests and is `unsafe` for every known parameter |
| Standards.TemperatureClasses | frontend/static/script.js:59-63 | temperature: safe iff 10 ≤ v ≤ 25, caution iff 5 ≤ v < 10 or 25 < v ≤ 30, unsafe otherwise |
| Standards.DissolvedOxygenClasses | frontend/static/script.js:64-68 | DO: safe iff 6 ≤ v ≤ 14 (the shared endpoint 6 is safe), caution iff 4 ≤ v < 6, unsafe below 4 or above 14 |
| Standards.PHClasses | frontend/static/script.js:69-73 | pH: safe iff 6.5 ≤ v ≤ 8.5, caution in [6, 6.5) or (8.5, 9], unsafe otherwise |
| Standards.ConductivityClasses | frontend/static/script.js:74-78 | conductivity: safe iff 0 ≤ v ≤ 300 (300 is safe), caution iff 300 < v ≤ 500, unsafe otherwise |
| Standards.BodClasses | frontend/static/script.js:79-83 | BOD: safe iff 0 ≤ v ≤ 3 (3 is safe), caution iff 3 < v ≤ 6, unsafe otherwise |
| Standards.ClassifierExamples | frontend/static/script.js:87-105 | temperature 25 safe, 25.01 caution; DO 6 safe, 5 caution, 3 unsafe; conductivity 300 and BOD 3 safe; a mis-cased key gives `''` |
| Text.Lower | frontend/static/script.js:216 | `toLowerCase` keeps the length and lower-cases each character in place |
| Text.LowerIdempotent | frontend/static/script.js:216 | lower-casing twice equals lower-casing once |
| Text.LowersToIsLower | frontend/static/script.js:487 | the character-by-character test used for the source cell holds iff the lower-cased string equals the target |
| Text.StripWhitespaceClean | frontend/static/script.js:577 | no whitespace character survives `replace(/\s+/g, '')` |
| Text.StripWhitespaceKeeps | frontend/static/script.js:577 | a string without whitespace is unchanged by stripping |
| Text.StripWhitespaceAppend | frontend/static/script.js:577 | stripping distributes over concatenation, so the kept characters keep their order |
| Text.StripWhitespaceDrops | frontend/static/script.js:577 | a run of whitespace strips to the empty string |
| Text.StripWhitespaceAtSpace | frontend/static/script.js:577 | a space between two words is dropped and the words are joined |
| Feed.SelectLake | frontend/static/script.js:216 | the selection is no longer than the feed and every selected row's name matches the lake, ignoring case |
| Feed.Latest | frontend/static/script.js:246 | the latest row is absent exactly for an empty selection, and otherwise is a row of the selection |
| Feed.SelectLakeMembership | frontend/static/script.js:216 | a row is selected iff it is in the feed and its name matches (both directions) |
| Feed.SelectLakeCount | frontend/static/script.js:216 | a matching row is kept as many times as the feed holds it, and a non-matching row never |
| Feed.SelectLakeAppend | frontend/static/script.js:216 | filtering a concatenation is the concatenation of the filtered parts, so feed order is kept |
| Feed.SelectLakeIgnoresCase | frontend/static/script.js:216 | two lake names equal up to case select identical rows |
| Feed.SelectLakeLowered | frontend/static/script.js:216 | requesting the lower-cased name selects the same rows as the name itself |
| Feed.SelectLakeEmpty | frontend/static/script.js:216-218 | the selection is empty iff no feed row matches, an empty feed included |
| Feed.LatestIsLastMatch | frontend/static/script.js:245-246 | the latest row is a feed row that matches the lake, and no later feed row matches |
| Feed.SelectionIsRepeatable | frontend/static/script.js:128-130 | filtering and taking the latest row with names equal up to case gives the same answer |
| Metrics.Average | frontend/static/script.js:262 | the average is defined iff both ends parse, and then twice it is their sum |
| Metrics.AverageBetween | frontend/static/script.js:262 | the average of min ≤ max lies between them |
| Metrics.AverageExamples | frontend/static/script.js:262 | (10, 25) averages to 17.5, (0, 3) to 1.5, and a NaN end gives NaN |
| Metrics.Years | frontend/static/script.js:336 | one year label per row, in row order |
| Metrics.AverageSeries | frontend/static/script.js:337-339 | one average per row, in row order, each being that row's average for the parameter |
| Metrics.MinSeries | frontend/static/script.js:574 | one entry per row, in row order, each being that row's minimum |
| Metrics.MaxSeries | frontend/static/script.js:575 | one entry per row, in row order, each being that row's maximum |
| Metrics.AverageSeriesAligned | frontend/static/script.js:412-424 | every averaged series has one entry per year label; the i-th is defined iff row i's pair parses, and then is its midpoint |
| Metrics.Cards | frontend/static/script.js:250-258 | one card per requested parameter, in order, each built from the latest row's pair |
| Metrics.SummaryCards | frontend/static/script.js:245-270 | five cards; each shows the latest row's pair for its parameter and, when both ends parse, an average that is their midpoint |
| Metrics.RadarMagnitude | frontend/static/script.js:288-294 | scaling keeps NaN, and otherwise multiplies by the axis factor: 1, 3, 10, 1/10, 5 |
| Metrics.RadarRoundTrip | frontend/static/script.js:288-305 | a sanity property of the scaling, not something the page does: dividing by the axis factor recovers the raw reading, so no two readings share a radar point |
| Metrics.RadarKeepsOrder | frontend/static/script.js:288-305 | every factor is positive, so scaling keeps the order of two readings |
| Metrics.RadarExamples | frontend/static/script.js:291-292 | pH 7 is drawn at 70, conductivity 300 at 30, temperature 22 at 22 |
| Metrics.RadarAxes | frontend/static/script.js:288-305 | one scaled entry per axis, in axis order, taken from the latest row's maxima or minima |
| Metrics.RadarDatasets | frontend/static/script.js:286-310 | the max and min datasets each have five entries, the i-th being the latest row's max (min) scaled for axis i |
| Metrics.RadarMinInsideMax | frontend/static/script.js:288-305 | where the latest row has min ≤ max on an axis, the min polygon is inside the max polygon there |
| Metrics.BarDatasets | frontend/static/script.js:336-346 | the labels and the three averaged series all have one entry per row |
| Metrics.HeatmapSeries | frontend/static/script.js:408-443 | one dataset per parameter, in order, titled with its label and holding that parameter's averaged series |
| Metrics.HeatmapDatasets | frontend/static/script.js:405-450 | the labels are the rows' years; five datasets, titled in parameter order, the i-th holding parameter i's averaged series, one entry per year label |
| Metrics.BarAgreesWithHeatmap | frontend/static/script.js:336-424 | the bar chart's labels and its temperature, DO and pH series equal the heatmap's |
| Metrics.CanvasId | frontend/static/script.js:577 | every canvas id ends in `_chart` |
| Metrics.CanvasIdIsStripped | frontend/static/script.js:577 | the part of a canvas id before `_chart` is `keyMin` with every whitespace character removed |
| Metrics.CanvasIdHasNoWhitespace | frontend/static/script.js:577 | a canvas id holds no whitespace before its suffix |
| Metrics.BuilderIdsDistinct | frontend/static/script.js:277-282 | the radar, bar and heatmap ids are distinct |
| Metrics.CanvasIdIsNotBuilderId | frontend/static/script.js:577 | no line-chart id collides with the radar, bar or heatmap id |
| Metrics.CanvasIdOfPH | frontend/static/script.js:567-577 | the pH feature's canvas id is `MinpH_chart` |
| Metrics.CanvasIdDropsTab | frontend/static/script.js:577 | a tab is stripped like a space: `Min\tBOD` gives `MinBOD_chart` |
| Metrics.LineChartOf | frontend/static/script.js:573-575 | the labels and the raw max and min series have one entry per row, in row order, each being that row's year or value |
| Metrics.LineChartOnItsCanvas | frontend/static/script.js:577-585 | a line chart is drawn on the canvas whose id is built from its feature's `keyMin` |
| Metrics.SourceClassIgnoresCase | frontend/static/script.js:487 | the source cell is `source-actual` iff the source equals "actual" ignoring case, and `source-forecast` otherwise |
| Metrics.SourceClassExamples | frontend/static/script.js:487 | "Actual" and "ACTUAL" are actual; "Forecast" and "" are forecast |
| Metrics.ParameterKey | frontend/static/script.js:494-552 | every key the table passes to the classifier is in the standards table |
| Metrics.ClassifiedCell | frontend/static/script.js:492-494 | a cell keeps its parsed value and always carries one of the three tier classes |
| Metrics.CellPairs | frontend/static/script.js:491-553 | one min/max cell pair per parameter, in order |
| Metrics.TableRowOf | frontend/static/script.js:474-555 | a table row repeats the feed row's name, year and source, and holds ten cells with the row's values in parameter order |
| Metrics.TableCellsAlwaysClassified | frontend/static/script.js:491-553 | no numeric cell gets the empty class of an unknown parameter |
| Metrics.TableCellClassified | frontend/static/script.js:491-553 | each cell's class is the classifier's tier for its value under its own parameter's bands |
| Metrics.TableBody | frontend/static/script.js:474-556 | one table row per selected row, in order |
| Metrics.DalLakeScenario | frontend/static/script.js:216-262 | a one-row Dal Lake feed selects that row; temperature averages 17 and BOD 1.5; both DO and both BOD cells are safe |
| Dashboard.CanvasIds | frontend/static/script.js:572-577 | one canvas id per feature, in feature order |
| Dashboard.CanvasIdsAreNotBuilderIds | frontend/static/script.js:577 | no line-chart canvas id is a builder id |
| Dashboard.LineCharts | frontend/static/script.js:572-616 | one line chart per feature |
| Dashboard.LineChartsInFeatureOrder | frontend/static/script.js:572-575 | the i-th line chart is feature i's chart over the whole selection |
| Dashboard.ChartsFor | frontend/static/script.js:218-241 | no chart data is produced exactly when the selection is empty |
| Dashboard.AlertContext | frontend/static/script.js:122-130 | with no lake selected the name is "Unknown Lake" and there is no row; otherwise the name is the lake's own, a row is reported iff some feed row matches it, and that row is the last matching feed row |
| Dashboard.StoreAllKeys | frontend/static/script.js:572-585 | registering a list of ids adds exactly those ids |
| Dashboard.StoreAllKeeps | frontend/static/script.js:585 | ids not registered keep their instance |
| Dashboard.StoreAllFresh | frontend/static/script.js:585 | each registered id holds an instance created during the call on its own canvas |
| Dashboard.CanvasKeyedDistinct | frontend/static/script.js:53 | on a consistent page two different ids never share an instance |
| Dashboard.ReplaceSwapsInstance | frontend/static/script.js:277-282 | replacing keeps the page consistent; the id gets an instance never seen before; the displaced one is destroyed and live nowhere; other ids are untouched; only it joins the destroyed set |
| Dashboard.StoreOrphans | frontend/static/script.js:585 | storing gives the id a new instance and leaves the other ids alone; the displaced instance is neither live nor destroyed |
| Dashboard.ClearedDestroysAll | frontend/static/script.js:220-221 | the reset empties the registry, destroys every instance that was live, and destroys nothing else |
| Dashboard.WithLinesRegisters | frontend/static/script.js:572-585 | adding the canvases lists exactly the ids, registers each with a new instance, keeps other ids and destroys nothing |
| Dashboard.WithLinesOrphans | frontend/static/script.js:585 | a canvas that already had an instance loses it without destroying it |
| Dashboard.BuildersReplace | frontend/static/script.js:229-235 | the radar, bar and heatmap builders register serials n, n+1, n+2, keep the other ids, and destroy exactly the three displaced instances |
| Dashboard.RenderedPage | frontend/static/script.js:225-241 | a non-empty selection shows the latest row's cards, the selection's table and the canvases; every id it draws holds an instance from this call; other ids keep theirs; only the builders' old instances are destroyed |
| Dashboard.RenderedOrphansLines | frontend/static/script.js:585 | redrawing a line chart leaves its previous instance neither live nor destroyed |
| Dashboard.EmptySelectionResets | frontend/static/script.js:218-223 | a lake without rows shows the "No data" row, empties the registry and destroys every live instance; cards and canvases stay |
| Dashboard.ShowLakeSelects | frontend/static/script.js:202-216 | showing a lake selects it, keeps the feed, and the alert then reports that lake's latest row |
| Dashboard.ShowLakeConsistent | frontend/static/script.js:202-242 | showing a lake keeps the page consistent |
| Dashboard.ShowLakeAgainSamePage | frontend/static/script.js:202-242 | showing the same lake twice draws the same cards, table, canvases and set of registered ids |
| Dashboard.LoadedShowsFirstLake | frontend/static/script.js:184-197 | the loaded feed is stored and Dal Lake selected; with no rows the registry is empty, otherwise the table shows Dal Lake's rows |
| Dashboard.Dashboard.constructor | frontend/static/script.js:53-55 | the page starts with an empty feed, no lake and an empty registry |
| Dashboard.Dashboard.NewChart | frontend/static/script.js:282 | `new Chart` returns an instance with the next serial on the given canvas |
| Dashboard.Dashboard.ReplaceChart | frontend/static/script.js:277-282 | the destroy-then-register step in place, keeping the page consistent |
| Dashboard.Dashboard.StoreChart | frontend/static/script.js:585 | the register-over step in place, keeping the page consistent |
| Dashboard.Dashboard.DestroyAll | frontend/static/script.js:220-221 | the loop destroys every registered instance, then empties the registry |
| Dashboard.Dashboard.CreateSummaryCards | frontend/static/script.js:245-270 | the cards on the page become the latest row's summary cards |
| Dashboard.Dashboard.CreateRadarChart | frontend/static/script.js:274-328 | returns the radar datasets of the latest row and replaces the radar id's instance |
| Dashboard.Dashboard.CreateBarChart | frontend/static/script.js:331-397 | returns the bar datasets and replaces the bar id's instance |
| Dashboard.Dashboard.CreateHeatmap | frontend/static/script.js:400-467 | returns the heatmap datasets and replaces the heatmap id's instance |
| Dashboard.Dashboard.PopulateTable | frontend/static/script.js:470-557 | the loop leaves the table body holding one row per selected row, in order |
| Dashboard.Dashboard.CreateLineCharts | frontend/static/script.js:560-617 | returns one chart per feature and registers a new instance under each canvas id |
| Dashboard.Dashboard.AddCanvases | frontend/static/script.js:572-585 | the loop lists the canvases in order and registers one new instance per id |
| Dashboard.Dashboard.RenderLake | frontend/static/script.js:225-241 | the six builders in source order perform the `Rendered` step and return its chart data |
| Dashboard.Dashboard.ShowLakeDetails | frontend/static/script.js:202-242 | performs the `ShowLake` step, returning no chart data for an empty selection |
| Dashboard.Dashboard.LoadFeed | frontend/static/script.js:182-197 | stores the feed and shows the first lake |

## Left out

- The Leaflet map, its tile layers, the lake markers and their click handlers
  (frontend/static/script.js:1-17, 186-194) belong to a foreign rendering
  library. `Lake` keeps only a name and a short description; coordinates and
  the long descriptions are not modelled.
- Chart.js configuration (colours, axes, titles, dataset labels) and all DOM
  creation are presentation. The model keeps the data handed to each chart,
  the cards and table rows, and the canvas list. Which canvas a chart is
  drawn on is kept as the `canvas` of its `Handle`.
- The `fetch('/api/data')` request and its promise chain are asynchronous
  I/O. `LoadFeed` takes the decoded feed as a parameter. A failed fetch, and
  the log line, are not modelled.
- The alert-mail composer (frontend/static/script.js:109-176) depends on the
  DOM, the clock, time zones, URL encoding and `window.location`. Only the
  lake name and latest row it reports are modelled, by `AlertContext`.
- `toFixed(2)` and IEEE floating point are not modelled. Values are `real`,
  and `parseFloat` is an opaque parse into `Option<real>`.
- The radar's `Number` coercion and the line charts' raw values are not
  modelled. The radar passes the raw temperature field and multiplies the
  other four raw fields by their factors, and the line charts receive the raw
  field values. The model gives both the already-parsed value.
- Text.Lower: only ASCII `A`–`Z` are lower-cased. JavaScript's
  `toLowerCase` also maps other Unicode letters.
- The feed's string-keyed JSON records are modelled as a `Row` datatype with
  one field per column. Missing keys and prototype-chain lookups are not
  modelled.
- Dashboard.Dashboard.CreateLineCharts: the list of line-chart features is a
  parameter, and the page passes `LineFeatures`, the five features of
  frontend/static/script.js:564-570.
- Dashboard.LineCharts: the function states only the number of charts. Their
  contents are stated by `LineChartsInFeatureOrder`.
- Metrics.BarDatasets: the function states only that the series line up. Their
  values are stated by `BarAgreesWithHeatmap`: they equal the heatmap's first
  three datasets, which `HeatmapDatasets` states are the averaged series.
- Standards.GetColorClass: the standards table is a map with only the five
  keys. The source looks the parameter up on a plain object, so a name
  inherited from its prototype (`constructor`, `toString`, `__proto__`)
  would pass the check at frontend/static/script.js:89 and make line 94
  throw. The model returns `''` for such a name instead. No caller in the
  source passes one.
- The chart library's destruction is modelled as recording the instance in a
  `destroyed` set. Releasing its resources is not modelled.
- backend/routes.py and backend/app.py (CSV loading and the Flask route) are
  not part of this model.
