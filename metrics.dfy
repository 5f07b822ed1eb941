/**
 * The values the dashboard derives from one lake's rows before handing them
 * to the chart library and the table: per-row averages, radar scaling,
 * year-aligned series, summary cards, table rows with their CSS classes,
 * and the canvas ids of the line charts.
 */
module Metrics {
  import opened Wrappers
  import opened Feed
  import Text
  import Standards

  // ---------------------------------------------------------------- averages

  /** `(parseFloat(min) + parseFloat(max)) / 2`; NaN in, NaN out. */
  function Average(min: Option<real>, max: Option<real>): (r: Option<real>)
    ensures r.Some? <==> min.Some? && max.Some?
    ensures r.Some? ==> 2.0 * r.value == min.value + max.value
  {
    if min.Some? && max.Some? then Some((min.value + max.value) / 2.0) else None
  }

  /** The average of an ordered pair lies between its ends. */
  lemma AverageBetween(min: real, max: real)
    requires min <= max
    ensures min <= Average(Some(min), Some(max)).value <= max
  {
  }

  /** Worked values of the average. */
  lemma AverageExamples()
    ensures Average(Some(10.0), Some(25.0)) == Some(17.5)
    ensures Average(Some(0.0), Some(3.0)) == Some(1.5)
    ensures Average(None, Some(3.0)) == None
  {
  }

  /** The average of one parameter of one row. */
  function RowAverage(row: Row, f: Feature): Option<real>
  {
    Average(row.Reading(f).min, row.Reading(f).max)
  }

  // ------------------------------------------------------------------ series

  /** The year labels of the charts: `lakeRows.map(row => row.year)`. */
  function Years(rows: seq<Row>): (r: seq<string>)
    ensures |r| == |rows|
    ensures forall i :: 0 <= i < |rows| ==> r[i] == rows[i].year
  {
    if rows == [] then [] else [rows[0].year] + Years(rows[1..])
  }

  /** The averaged series of one parameter, one entry per row. */
  function AverageSeries(rows: seq<Row>, f: Feature): (r: seq<Option<real>>)
    ensures |r| == |rows|
    ensures forall i :: 0 <= i < |rows| ==> r[i] == RowAverage(rows[i], f)
  {
    if rows == [] then [] else [RowAverage(rows[0], f)] + AverageSeries(rows[1..], f)
  }

  /** The raw minimum series of one parameter. */
  function MinSeries(rows: seq<Row>, f: Feature): (r: seq<Option<real>>)
    ensures |r| == |rows|
    ensures forall i :: 0 <= i < |rows| ==> r[i] == rows[i].Reading(f).min
  {
    if rows == [] then [] else [rows[0].Reading(f).min] + MinSeries(rows[1..], f)
  }

  /** The raw maximum series of one parameter. */
  function MaxSeries(rows: seq<Row>, f: Feature): (r: seq<Option<real>>)
    ensures |r| == |rows|
    ensures forall i :: 0 <= i < |rows| ==> r[i] == rows[i].Reading(f).max
  {
    if rows == [] then [] else [rows[0].Reading(f).max] + MaxSeries(rows[1..], f)
  }

  /**
   * Every averaged series lines up with the year labels, and its entry for
   * a row is the midpoint of that row's minimum and maximum.
   */
  lemma AverageSeriesAligned(rows: seq<Row>, f: Feature, i: int)
    requires 0 <= i < |rows|
    ensures |AverageSeries(rows, f)| == |Years(rows)| == |rows|
    ensures Years(rows)[i] == rows[i].year
    ensures AverageSeries(rows, f)[i].Some? <==> rows[i].Reading(f).min.Some? && rows[i].Reading(f).max.Some?
    ensures AverageSeries(rows, f)[i].Some? ==>
      2.0 * AverageSeries(rows, f)[i].value == rows[i].Reading(f).min.value + rows[i].Reading(f).max.value
  {
  }

  // ---------------------------------------------------------- summary cards

  /** One summary card: title, CSS modifier, unit, average and range. */
  datatype Card = Card(title: string, cssClass: string, unit: string, average: Option<real>, range: MinMax)

  /** The parameters in the order of the cards, the radar axes and the heatmap. */
  const ParameterOrder: seq<Feature> := [Temperature, DissolvedOxygen, PH, Conductivity, BOD]

  function CardLabel(f: Feature): string
  {
    match f
    case Temperature => "Temperature"
    case DissolvedOxygen => "Dissolved Oxygen"
    case PH => "pH"
    case Conductivity => "Conductivity"
    case BOD => "BOD"
  }

  function CardClass(f: Feature): string
  {
    match f
    case Temperature => "temperature"
    case DissolvedOxygen => "oxygen"
    case PH => "ph"
    case Conductivity => "conductivity"
    case BOD => "bod"
  }

  function Unit(f: Feature): string
  {
    match f
    case Temperature => "°C"
    case DissolvedOxygen => "mg/L"
    case PH => ""
    case Conductivity => "μS/cm"
    case BOD => "mg/L"
  }

  /** The card of one parameter of the latest row. */
  function CardOf(latest: Row, f: Feature): Card
  {
    Card(CardLabel(f), CardClass(f), Unit(f), RowAverage(latest, f), latest.Reading(f))
  }

  /** The cards of the parameters `fs`, in order. */
  function Cards(latest: Row, fs: seq<Feature>): (cards: seq<Card>)
    ensures |cards| == |fs|
    ensures forall i :: 0 <= i < |fs| ==> cards[i] == CardOf(latest, fs[i])
  {
    if fs == [] then [] else [CardOf(latest, fs[0])] + Cards(latest, fs[1..])
  }

  /** The five cards built from the latest row. */
  function SummaryCards(latest: Row): (cards: seq<Card>)
    ensures |cards| == |ParameterOrder|
    ensures forall i :: 0 <= i < |cards| ==>
      && cards[i].range == latest.Reading(ParameterOrder[i])
      && (cards[i].average.Some? <==> cards[i].range.min.Some? && cards[i].range.max.Some?)
      && (cards[i].average.Some? ==>
            2.0 * cards[i].average.value == cards[i].range.min.value + cards[i].range.max.value)
  {
    Cards(latest, ParameterOrder)
  }

  // ------------------------------------------------------------------- radar

  /** The display factor of each radar axis. */
  function RadarFactor(f: Feature): real
  {
    match f
    case Temperature => 1.0
    case DissolvedOxygen => 3.0
    case PH => 10.0
    case Conductivity => 0.1
    case BOD => 5.0
  }

  /** A raw reading scaled for its radar axis. */
  function RadarMagnitude(f: Feature, v: Option<real>): (r: Option<real>)
    ensures r.Some? <==> v.Some?
    ensures r.Some? ==> r.value == v.value * RadarFactor(f)
  {
    match v
    case None => None
    case Some(x) =>
      Some(match f
        case Temperature => x
        case DissolvedOxygen => x * 3.0
        case PH => x * 10.0
        case Conductivity => x / 10.0
        case BOD => x * 5.0)
  }

  /** Undoes the radar scaling. */
  function RadarValue(f: Feature, m: Option<real>): Option<real>
  {
    match m
    case None => None
    case Some(y) => Some(y / RadarFactor(f))
  }

  /** The scaling loses nothing: the raw reading can be read back off the chart. */
  lemma RadarRoundTrip(f: Feature, v: Option<real>)
    ensures RadarValue(f, RadarMagnitude(f, v)) == v
  {
  }

  /** Every factor is positive, so the scaling keeps the order of two readings. */
  lemma RadarKeepsOrder(f: Feature, a: real, b: real)
    requires a <= b
    ensures RadarMagnitude(f, Some(a)).value <= RadarMagnitude(f, Some(b)).value
  {
  }

  /** Worked values of the radar scaling. */
  lemma RadarExamples()
    ensures RadarMagnitude(PH, Some(7.0)) == Some(70.0)
    ensures RadarMagnitude(Conductivity, Some(300.0)) == Some(30.0)
    ensures RadarMagnitude(Temperature, Some(22.0)) == Some(22.0)
  {
  }

  /** The two radar datasets, one entry per axis of `ParameterOrder`. */
  datatype RadarData = RadarData(maxValues: seq<Option<real>>, minValues: seq<Option<real>>)

  /** The scaled maxima (`upper`) or minima of the latest row on the axes `fs`, in order. */
  function RadarAxes(latest: Row, fs: seq<Feature>, upper: bool): (r: seq<Option<real>>)
    ensures |r| == |fs|
    ensures forall i :: 0 <= i < |fs| ==>
      r[i] == RadarMagnitude(fs[i], if upper then latest.Reading(fs[i]).max else latest.Reading(fs[i]).min)
  {
    if fs == [] then []
    else
      var v := if upper then latest.Reading(fs[0]).max else latest.Reading(fs[0]).min;
      [RadarMagnitude(fs[0], v)] + RadarAxes(latest, fs[1..], upper)
  }

  function RadarDatasets(latest: Row): (r: RadarData)
    ensures |r.maxValues| == |r.minValues| == |ParameterOrder|
    ensures forall i :: 0 <= i < |ParameterOrder| ==>
      && r.maxValues[i] == RadarMagnitude(ParameterOrder[i], latest.Reading(ParameterOrder[i]).max)
      && r.minValues[i] == RadarMagnitude(ParameterOrder[i], latest.Reading(ParameterOrder[i]).min)
  {
    RadarData(RadarAxes(latest, ParameterOrder, true), RadarAxes(latest, ParameterOrder, false))
  }

  /**
   * Both datasets are scaled alike: where the latest row's minimum is at
   * most its maximum, the minimum polygon lies inside the maximum polygon.
   */
  lemma RadarMinInsideMax(latest: Row, i: int)
    requires 0 <= i < |ParameterOrder|
    requires latest.Reading(ParameterOrder[i]).min.Some? && latest.Reading(ParameterOrder[i]).max.Some?
    requires latest.Reading(ParameterOrder[i]).min.value <= latest.Reading(ParameterOrder[i]).max.value
    ensures RadarDatasets(latest).minValues[i].value <= RadarDatasets(latest).maxValues[i].value
  {
    var f := ParameterOrder[i];
    RadarKeepsOrder(f, latest.Reading(f).min.value, latest.Reading(f).max.value);
  }

  // ----------------------------------------------------- bar chart, heatmap

  /** The bar chart: year labels and the averaged temperature, DO and pH series. */
  datatype BarData = BarData(labels: seq<string>, avgTemperature: seq<Option<real>>,
                             avgDissolvedOxygen: seq<Option<real>>, avgPH: seq<Option<real>>)

  function BarDatasets(rows: seq<Row>): (r: BarData)
    ensures |r.labels| == |r.avgTemperature| == |r.avgDissolvedOxygen| == |r.avgPH| == |rows|
  {
    BarData(Years(rows), AverageSeries(rows, Temperature), AverageSeries(rows, DissolvedOxygen),
            AverageSeries(rows, PH))
  }

  /** One labelled series of the heatmap. */
  datatype Dataset = Dataset(title: string, data: seq<Option<real>>)

  function HeatmapLabel(f: Feature): string
  {
    match f
    case Temperature => "Temperature"
    case DissolvedOxygen => "DO"
    case PH => "pH"
    case Conductivity => "Conductivity"
    case BOD => "BOD"
  }

  /** The heatmap (drawn as a bar chart): year labels and five averaged series. */
  datatype HeatmapData = HeatmapData(labels: seq<string>, datasets: seq<Dataset>)

  /** One labelled averaged series per parameter of `fs`, in order. */
  function HeatmapSeries(rows: seq<Row>, fs: seq<Feature>): (r: seq<Dataset>)
    ensures |r| == |fs|
    ensures forall i :: 0 <= i < |fs| ==> r[i] == Dataset(HeatmapLabel(fs[i]), AverageSeries(rows, fs[i]))
  {
    if fs == [] then [] else [Dataset(HeatmapLabel(fs[0]), AverageSeries(rows, fs[0]))] + HeatmapSeries(rows, fs[1..])
  }

  function HeatmapDatasets(rows: seq<Row>): (r: HeatmapData)
    ensures r.labels == Years(rows)
    ensures |r.datasets| == |ParameterOrder|
    ensures forall i :: 0 <= i < |ParameterOrder| ==>
      r.datasets[i].title == HeatmapLabel(ParameterOrder[i]) && |r.datasets[i].data| == |r.labels| == |rows|
    ensures forall i :: 0 <= i < |ParameterOrder| ==> r.datasets[i].data == AverageSeries(rows, ParameterOrder[i])
  {
    HeatmapData(Years(rows), HeatmapSeries(rows, ParameterOrder))
  }

  /** The bar chart and the heatmap show the same averages for the parameters they share. */
  lemma BarAgreesWithHeatmap(rows: seq<Row>)
    ensures BarDatasets(rows).labels == HeatmapDatasets(rows).labels
    ensures BarDatasets(rows).avgTemperature == HeatmapDatasets(rows).datasets[0].data
    ensures BarDatasets(rows).avgDissolvedOxygen == HeatmapDatasets(rows).datasets[1].data
    ensures BarDatasets(rows).avgPH == HeatmapDatasets(rows).datasets[2].data
  {
  }

  // ------------------------------------------------------------- line charts

  /** One entry of the line-chart feature list: which pair, its `keyMin` text and title. */
  datatype LineFeature = LineFeature(feature: Feature, keyMin: string, title: string)

  const LineFeatures: seq<LineFeature> := [
    LineFeature(DissolvedOxygen, "Min Dissolved Oxygen", "Dissolved Oxygen"),
    LineFeature(Temperature, "Min Temperature", "Temperature (°C)"),
    LineFeature(PH, "Min pH", "pH"),
    LineFeature(Conductivity, "Min Conductivity", "Conductivity"),
    LineFeature(BOD, "Min BOD", "BOD")
  ]

  /** `keyMin.replace(/\s+/g, '') + '_chart'`. */
  function CanvasId(keyMin: string): (r: string)
    ensures |r| >= 6 && r[|r| - 6..] == "_chart"
  {
    Text.StripWhitespace(keyMin) + "_chart"
  }

  /** The part of a canvas id before `_chart` is `keyMin` with its whitespace removed. */
  lemma CanvasIdIsStripped(keyMin: string)
    ensures CanvasId(keyMin)[..|CanvasId(keyMin)| - 6] == Text.StripWhitespace(keyMin)
  {
    var s := Text.StripWhitespace(keyMin);
    assert (s + "_chart")[..|s|] == s;
  }

  /** A canvas id holds no whitespace before its `_chart` suffix. */
  lemma CanvasIdHasNoWhitespace(keyMin: string)
    ensures forall i :: 0 <= i < |CanvasId(keyMin)| - 6 ==> !Text.IsJsWhitespace(CanvasId(keyMin)[i])
  {
    Text.StripWhitespaceClean(keyMin);
  }

  /** The ids of the other three chart builders. */
  const RadarId := "radarChart"
  const BarId := "barChart"
  const HeatmapId := "heatmapChart"

  /** The three builder ids are distinct (they differ in their first character). */
  lemma BuilderIdsDistinct()
    ensures RadarId != BarId && RadarId != HeatmapId && BarId != HeatmapId
  {
    assert RadarId[0] == 'r' && BarId[0] == 'b' && HeatmapId[0] == 'h';
  }

  /** A line-chart id never collides with the radar, bar or heatmap id. */
  lemma CanvasIdIsNotBuilderId(keyMin: string)
    ensures CanvasId(keyMin) !in {RadarId, BarId, HeatmapId}
  {
  }

  /** The canvas id of the pH feature. */
  lemma CanvasIdOfPH()
    ensures CanvasId("Min pH") == "MinpH_chart"
  {
  }

  /** Any whitespace is dropped, not only a single space. */
  lemma CanvasIdDropsTab()
    ensures CanvasId("Min\tBOD") == "MinBOD_chart"
  {
    assert Text.StripWhitespace("BOD") == "BOD";
    assert Text.StripWhitespace("\tBOD") == "BOD";
    assert Text.StripWhitespace("Min\tBOD") == "MinBOD";
  }

  /** What one line chart is handed: its id, the year labels and the raw series. */
  datatype LineChart = LineChart(canvasId: string, labels: seq<string>,
                                 maxValues: seq<Option<real>>, minValues: seq<Option<real>>)

  function LineChartOf(rows: seq<Row>, lf: LineFeature): (r: LineChart)
    ensures |r.labels| == |r.maxValues| == |r.minValues| == |rows|
    ensures forall i :: 0 <= i < |rows| ==>
      r.labels[i] == rows[i].year &&
      r.minValues[i] == rows[i].Reading(lf.feature).min && r.maxValues[i] == rows[i].Reading(lf.feature).max
  {
    LineChart(CanvasId(lf.keyMin), Years(rows), MaxSeries(rows, lf.feature), MinSeries(rows, lf.feature))
  }

  /** A line chart is drawn on the canvas named after its feature's `keyMin`. */
  lemma LineChartOnItsCanvas(rows: seq<Row>, lf: LineFeature)
    ensures LineChartOf(rows, lf).canvasId == CanvasId(lf.keyMin)
  {
  }

  // ------------------------------------------------------------------- table

  /** The CSS class of the source cell: only a case-insensitive "actual" is actual. */
  function SourceClass(source: string): (r: string)
  {
    if Text.LowersTo(source, "actual") then "source-actual" else "source-forecast"
  }

  /** The source cell is marked actual exactly when the source reads "actual" in any case. */
  lemma SourceClassIgnoresCase(source: string)
    ensures SourceClass(source) == "source-actual" <==> Text.SameIgnoringCase(source, "actual")
    ensures SourceClass(source) == "source-forecast" <==> !Text.SameIgnoringCase(source, "actual")
  {
    Text.LowersToIsLower(source, "actual");
    assert Text.Lower("actual") == "actual";
  }

  /** Worked values of the source class. */
  lemma SourceClassExamples()
    ensures SourceClass("Actual") == "source-actual"
    ensures SourceClass("ACTUAL") == "source-actual"
    ensures SourceClass("Forecast") == "source-forecast"
    ensures SourceClass("") == "source-forecast"
  {
  }

  /** The standards key the table passes for each parameter. */
  function ParameterKey(f: Feature): (k: string)
    ensures k in Standards.WaterQualityStandards
  {
    match f
    case Temperature => "temperature"
    case DissolvedOxygen => "dissolvedOxygen"
    case PH => "pH"
    case Conductivity => "conductivity"
    case BOD => "bod"
  }

  /** One numeric table cell: the parsed value and the tier class added to it. */
  datatype Cell = Cell(value: Option<real>, cssClass: string)

  /** The minimum and maximum cells of one parameter. */
  datatype CellPair = CellPair(min: Cell, max: Cell)

  /** A table row: the feed row's columns, or the single "No data found" row. */
  datatype TableRow =
    | DataRow(name: string, year: string, source: string, sourceClass: string, cells: seq<CellPair>)
    | NoDataRow(lakeName: string)

  /** The classified cell of a value of parameter `f`. */
  function ClassifiedCell(f: Feature, v: Option<real>): (c: Cell)
    ensures c.value == v && c.cssClass in {"safe", "caution", "unsafe"}
  {
    Cell(v, Standards.GetColorClass(ParameterKey(f), v))
  }

  /** The minimum and maximum cells of parameter `f` in a feed row. */
  function CellPairOf(row: Row, f: Feature): CellPair
  {
    CellPair(ClassifiedCell(f, row.Reading(f).min), ClassifiedCell(f, row.Reading(f).max))
  }

  /** The cell pairs of the parameters `fs`, in order. */
  function CellPairs(row: Row, fs: seq<Feature>): (r: seq<CellPair>)
    ensures |r| == |fs|
    ensures forall k :: 0 <= k < |fs| ==> r[k] == CellPairOf(row, fs[k])
  {
    if fs == [] then [] else [CellPairOf(row, fs[0])] + CellPairs(row, fs[1..])
  }

  /** The table row of a feed row: the min and max cells of each parameter, in `ParameterOrder`. */
  function TableRowOf(row: Row): (r: TableRow)
    ensures r.DataRow? && r.name == row.name && r.year == row.year && r.source == row.source
    ensures r.sourceClass == SourceClass(row.source)
    ensures |r.cells| == |ParameterOrder|
    ensures forall k :: 0 <= k < |ParameterOrder| ==>
      r.cells[k].min.value == row.Reading(ParameterOrder[k]).min &&
      r.cells[k].max.value == row.Reading(ParameterOrder[k]).max
  {
    DataRow(row.name, row.year, row.source, SourceClass(row.source), CellPairs(row, ParameterOrder))
  }

  /**
   * No numeric cell is left unclassified: every class the table adds is one
   * of the three tiers, never the empty class of an unknown parameter.
   */
  lemma TableCellsAlwaysClassified(row: Row, k: int)
    requires 0 <= k < |ParameterOrder|
    ensures TableRowOf(row).cells[k].min.cssClass in {"safe", "caution", "unsafe"}
    ensures TableRowOf(row).cells[k].max.cssClass in {"safe", "caution", "unsafe"}
  {
  }

  /** Each cell's class is the tier of its value under its own parameter's bands. */
  lemma TableCellClassified(row: Row, k: int)
    requires 0 <= k < |ParameterOrder|
    ensures TableRowOf(row).cells[k].min.cssClass ==
      Standards.GetColorClass(ParameterKey(ParameterOrder[k]), row.Reading(ParameterOrder[k]).min)
    ensures TableRowOf(row).cells[k].max.cssClass ==
      Standards.GetColorClass(ParameterKey(ParameterOrder[k]), row.Reading(ParameterOrder[k]).max)
  {
  }

  /** The table body of a selection: one row per feed row, in order. */
  function TableBody(rows: seq<Row>): (r: seq<TableRow>)
    ensures |r| == |rows|
    ensures forall i :: 0 <= i < |rows| ==> r[i] == TableRowOf(rows[i])
  {
    if rows == [] then [] else [TableRowOf(rows[0])] + TableBody(rows[1..])
  }

  // ---------------------------------------------------------------- scenario

  /**
   * One Dal Lake row: selecting the lake yields that row; its temperature
   * averages 17 and its BOD 1.5; both DO cells and both BOD cells are safe.
   */
  lemma DalLakeScenario()
    ensures var row := Row("Dal Lake", "2020", "Actual",
                           MinMax(Some(12.0), Some(22.0)), MinMax(Some(7.0), Some(9.0)),
                           MinMax(Some(7.0), Some(7.8)), MinMax(Some(150.0), Some(250.0)),
                           MinMax(Some(1.0), Some(2.0)));
      var selection := SelectLake([row], "Dal Lake");
      && selection == [row]
      && RowAverage(Latest(selection).value, Temperature) == Some(17.0)
      && RowAverage(Latest(selection).value, BOD) == Some(1.5)
      && TableRowOf(row).cells[1].min.cssClass == "safe" && TableRowOf(row).cells[1].max.cssClass == "safe"
      && TableRowOf(row).cells[4].min.cssClass == "safe" && TableRowOf(row).cells[4].max.cssClass == "safe"
  {
    var row := Row("Dal Lake", "2020", "Actual",
                   MinMax(Some(12.0), Some(22.0)), MinMax(Some(7.0), Some(9.0)),
                   MinMax(Some(7.0), Some(7.8)), MinMax(Some(150.0), Some(250.0)),
                   MinMax(Some(1.0), Some(2.0)));
    assert [row][1..] == [];
    assert SelectLake([row], "Dal Lake") == [row];
    assert ParameterOrder[1] == DissolvedOxygen && ParameterOrder[4] == BOD;
    assert RowAverage(row, BOD) == Some(1.5);
    assert row.Reading(DissolvedOxygen) == MinMax(Some(7.0), Some(9.0));
    assert row.Reading(BOD) == MinMax(Some(1.0), Some(2.0));
    TableCellClassified(row, 1);
    TableCellClassified(row, 4);
    Standards.DissolvedOxygenClasses(7.0);
    Standards.DissolvedOxygenClasses(9.0);
    Standards.BodClasses(1.0);
    Standards.BodClasses(2.0);
  }
}
