/**
 * The page state of the dashboard: the loaded feed, the selected lake, the
 * registry of live chart instances keyed by canvas id, and the summary
 * cards, table body and line-chart canvases currently on the page.
 * `showLakeDetails` recomputes everything from the feed and replaces the
 * registry entries it draws.
 *
 * Each operation of the page is a pure step on `PageState`; the methods of
 * `Dashboard` carry out the steps on the page's fields, and the lemmas
 * state what the steps promise.
 */
module Dashboard {
  import opened Wrappers
  import opened Feed
  import opened Metrics

  /**
   * A chart instance: the serial number tells instances apart, and `canvas`
   * is the id of the canvas whose 2D context it was created on.
   */
  datatype Handle = Handle(serial: nat, canvas: string)

  /** A lake marker: its name and short description (coordinates are not modelled). */
  datatype Lake = Lake(name: string, desc: string)

  /** The two lakes with markers; the first is shown once the feed arrives. */
  const Lakes: seq<Lake> := [
    Lake("Dal Lake", "Dal Lake is a famous urban lake in Srinagar."),
    Lake("Wular Lake", "Wular Lake is one of the largest freshwater lakes in Asia.")
  ]

  // ------------------------------------------------------ what is drawn

  /** The canvas ids of the line charts of `features`, in feature order. */
  function CanvasIds(features: seq<LineFeature>): (ids: seq<string>)
    ensures |ids| == |features|
    ensures forall i :: 0 <= i < |features| ==> ids[i] == CanvasId(features[i].keyMin)
  {
    if features == [] then [] else [CanvasId(features[0].keyMin)] + CanvasIds(features[1..])
  }

  /** No line-chart id is one of the three builder ids. */
  lemma CanvasIdsAreNotBuilderIds(features: seq<LineFeature>)
    ensures forall id :: id in CanvasIds(features) ==> id !in {RadarId, BarId, HeatmapId}
  {
    forall i | 0 <= i < |features|
      ensures CanvasIds(features)[i] !in {RadarId, BarId, HeatmapId}
    {
      CanvasIdIsNotBuilderId(features[i].keyMin);
    }
  }

  /** The line charts of a selection, one per feature, in feature order. */
  function LineCharts(rows: seq<Row>, features: seq<LineFeature>): (r: seq<LineChart>)
    ensures |r| == |features|
  {
    if features == [] then [] else [LineChartOf(rows, features[0])] + LineCharts(rows, features[1..])
  }

  /** The i-th line chart is the chart of the i-th feature over the whole selection. */
  lemma {:induction false} LineChartsInFeatureOrder(rows: seq<Row>, features: seq<LineFeature>, i: int)
    requires 0 <= i < |features|
    ensures LineCharts(rows, features)[i] == LineChartOf(rows, features[i])
  {
    assert LineCharts(rows, features) == [LineChartOf(rows, features[0])] + LineCharts(rows, features[1..]);
    if i > 0 {
      LineChartsInFeatureOrder(rows, features[1..], i - 1);
    }
  }

  /** The data one call of `showLakeDetails` hands to the chart library. */
  datatype Charts =
    | NoCharts
    | Charts(radar: RadarData, bar: BarData, heatmap: HeatmapData, lines: seq<LineChart>)

  /** The charts of a non-empty selection: the latest row on the radar, every row on the others. */
  function Render(rows: seq<Row>, features: seq<LineFeature>): Charts
    requires |rows| > 0
  {
    Charts(RadarDatasets(rows[|rows| - 1]), BarDatasets(rows), HeatmapDatasets(rows), LineCharts(rows, features))
  }

  /** The charts drawn for a selection: none for an empty one. */
  function ChartsFor(rows: seq<Row>, features: seq<LineFeature>): (c: Charts)
    ensures c.NoCharts? <==> rows == []
  {
    if rows == [] then NoCharts else Render(rows, features)
  }

  /**
   * The lake name and latest row the alert composer reports: "Unknown Lake"
   * and no row without a current lake, otherwise the lake's own name and the
   * last feed row that matches it, present whenever any row matches.
   */
  function AlertContext(lakeData: seq<Row>, currentLake: Option<Lake>): (r: (string, Option<Row>))
    ensures currentLake.None? ==> r == ("Unknown Lake", None)
    ensures currentLake.Some? ==> r.0 == currentLake.value.name
    ensures currentLake.Some? ==>
      (r.1.Some? <==> exists i :: 0 <= i < |lakeData| && NameMatches(lakeData[i], r.0))
    ensures r.1.Some? ==> NameMatches(r.1.value, r.0) && r.1.value in lakeData
    ensures r.1.Some? ==> exists k :: IsLastMatch(lakeData, r.0, k) && lakeData[k] == r.1.value
  {
    match currentLake
    case None => ("Unknown Lake", None)
    case Some(lake) =>
      var latest := Latest(SelectLake(lakeData, lake.name));
      assert latest.Some? ==> latest.value in lakeData by {
        if latest.Some? {
          SelectLakeMembership(lakeData, lake.name, latest.value);
        }
      }
      assert latest.Some? <==> exists i :: 0 <= i < |lakeData| && NameMatches(lakeData[i], lake.name) by {
        SelectLakeEmpty(lakeData, lake.name);
      }
      assert latest.Some? ==> exists k :: IsLastMatch(lakeData, lake.name, k) && lakeData[k] == latest.value by {
        if latest.Some? {
          LatestIsLastMatch(lakeData, lake.name);
        }
      }
      (lake.name, latest)
  }

  // ------------------------------------------------------------ registry

  /**
   * The registry after registering new instances under `ids`, in order, the
   * i-th with serial `serial + i`, each replacing whatever the id held.
   */
  function StoreAll(m: map<string, Handle>, ids: seq<string>, serial: nat): map<string, Handle>
    decreases |ids|
  {
    if ids == [] then m else StoreAll(m[ids[0] := Handle(serial, ids[0])], ids[1..], serial + 1)
  }

  /** The instance `id` holds in `m`, if any. */
  function Evicted(m: map<string, Handle>, id: string): set<Handle>
  {
    if id in m then {m[id]} else {}
  }

  /** Registering adds exactly the new ids. */
  lemma {:induction false} StoreAllKeys(m: map<string, Handle>, ids: seq<string>, serial: nat)
    ensures forall id :: id in StoreAll(m, ids, serial) <==> id in m || id in ids
    decreases |ids|
  {
    if ids != [] {
      StoreAllKeys(m[ids[0] := Handle(serial, ids[0])], ids[1..], serial + 1);
      assert ids == [ids[0]] + ids[1..];
    }
  }

  /** Ids not registered keep their instance. */
  lemma {:induction false} StoreAllKeeps(m: map<string, Handle>, ids: seq<string>, serial: nat, id: string)
    requires id in m && id !in ids
    ensures id in StoreAll(m, ids, serial) && StoreAll(m, ids, serial)[id] == m[id]
    decreases |ids|
  {
    if ids != [] {
      StoreAllKeeps(m[ids[0] := Handle(serial, ids[0])], ids[1..], serial + 1, id);
    }
  }

  /** Every registered id holds one of the new instances, created on its own canvas. */
  lemma {:induction false} StoreAllFresh(m: map<string, Handle>, ids: seq<string>, serial: nat, id: string)
    requires id in ids
    ensures id in StoreAll(m, ids, serial)
    ensures StoreAll(m, ids, serial)[id].canvas == id
    ensures serial <= StoreAll(m, ids, serial)[id].serial < serial + |ids|
    decreases |ids|
  {
    if ids[0] == id && id !in ids[1..] {
      StoreAllKeeps(m[id := Handle(serial, id)], ids[1..], serial + 1, id);
    } else {
      StoreAllFresh(m[ids[0] := Handle(serial, ids[0])], ids[1..], serial + 1, id);
    }
  }

  // ---------------------------------------------------------- page state

  /** Everything the page holds: the feed, the selection, the registry and the DOM it draws. */
  datatype PageState = PageState(
    lakeData: seq<Row>,
    currentLake: Option<Lake>,
    registry: map<string, Handle>,
    destroyed: set<Handle>,
    nextSerial: nat,
    cards: seq<Card>,
    table: seq<TableRow>,
    plots: seq<string>)

  /**
   * Registered instances were created by the library on the canvas they are
   * registered under and are still alive; destroyed ones were created too.
   */
  predicate Tracked(registry: map<string, Handle>, destroyed: set<Handle>, nextSerial: nat)
  {
    && (forall id :: id in registry ==>
          registry[id].canvas == id && registry[id].serial < nextSerial && registry[id] !in destroyed)
    && (forall h :: h in destroyed ==> h.serial < nextSerial)
  }

  predicate Consistent(s: PageState)
  {
    Tracked(s.registry, s.destroyed, s.nextSerial)
  }

  /** Distinct canvas ids never share an instance. */
  lemma CanvasKeyedDistinct(s: PageState, a: string, b: string)
    requires Consistent(s) && a in s.registry && b in s.registry && a != b
    ensures s.registry[a] != s.registry[b]
  {
    assert s.registry[a].canvas == a && s.registry[b].canvas == b;
  }

  /** The page before the feed arrives. */
  const Initial := PageState([], None, map[], {}, 0, [], [], [])

  /**
   * The radar, bar and heatmap discipline: destroy the instance the id
   * holds, then register a new instance under it.
   */
  function Replace(s: PageState, id: string): PageState
  {
    s.(registry := s.registry[id := Handle(s.nextSerial, id)],
       destroyed := s.destroyed + Evicted(s.registry, id),
       nextSerial := s.nextSerial + 1)
  }

  /** The line-chart discipline: register a new instance over the id, destroying nothing. */
  function Store(s: PageState, id: string): PageState
  {
    s.(registry := s.registry[id := Handle(s.nextSerial, id)], nextSerial := s.nextSerial + 1)
  }

  /** The empty-selection reset: every registered instance destroyed, the registry emptied. */
  function Cleared(s: PageState): PageState
  {
    s.(registry := map[], destroyed := s.destroyed + s.registry.Values)
  }

  function WithCards(s: PageState, latest: Row): PageState
  {
    s.(cards := SummaryCards(latest))
  }

  function WithTable(s: PageState, rows: seq<Row>): PageState
  {
    s.(table := TableBody(rows))
  }

  /** The line-chart container emptied and one canvas per id added, each with a new instance. */
  function WithLines(s: PageState, ids: seq<string>): PageState
  {
    s.(plots := ids, registry := StoreAll(s.registry, ids, s.nextSerial), nextSerial := s.nextSerial + |ids|)
  }

  /** A non-empty selection shown: cards, radar, bar, heatmap, table, line charts, in that order. */
  function Rendered(s: PageState, rows: seq<Row>, features: seq<LineFeature>): PageState
    requires |rows| > 0
  {
    var charted := Replace(Replace(Replace(WithCards(s, rows[|rows| - 1]), RadarId), BarId), HeatmapId);
    WithLines(WithTable(charted, rows), CanvasIds(features))
  }

  /** `showLakeDetails`: the lake's rows shown, or the "No data" row and every chart destroyed. */
  function ShowLake(s: PageState, lake: Lake, features: seq<LineFeature>): PageState
  {
    var selected := s.(currentLake := Some(lake));
    var rows := SelectLake(s.lakeData, lake.name);
    if rows == [] then Cleared(selected.(table := [NoDataRow(lake.name)]))
    else Rendered(selected, rows, features)
  }

  /** The feed arrives: it is stored and the first lake is shown. */
  function Loaded(s: PageState, data: seq<Row>): PageState
  {
    ShowLake(s.(lakeData := data), Lakes[0], LineFeatures)
  }

  // -------------------------------------------------- what the steps keep

  /**
   * Replacing gives the id an instance that never existed before, destroys
   * the one it displaces (which is then live nowhere), and leaves every
   * other id's instance alone.
   */
  lemma ReplaceSwapsInstance(s: PageState, id: string)
    requires Consistent(s)
    ensures Consistent(Replace(s, id))
    ensures Replace(s, id).registry.Keys == s.registry.Keys + {id}
    ensures Replace(s, id).registry[id] !in s.registry.Values && Replace(s, id).registry[id] !in s.destroyed
    ensures id in s.registry ==>
      s.registry[id] in Replace(s, id).destroyed && s.registry[id] !in Replace(s, id).registry.Values
    ensures forall k :: k in s.registry && k != id ==> Replace(s, id).registry[k] == s.registry[k]
    ensures forall h :: h in Replace(s, id).destroyed <==> h in s.destroyed || (id in s.registry && h == s.registry[id])
  {
    var t := Replace(s, id);
    forall k | k in t.registry
      ensures t.registry[k].canvas == k && t.registry[k].serial < t.nextSerial && t.registry[k] !in t.destroyed
    {
      if k != id && id in s.registry {
        CanvasKeyedDistinct(s, k, id);
      }
    }
  }

  /**
   * Storing over an id gives it a new instance but neither destroys nor
   * keeps the one it displaces: that instance is orphaned.
   */
  lemma StoreOrphans(s: PageState, id: string)
    requires Consistent(s)
    ensures Consistent(Store(s, id))
    ensures Store(s, id).registry[id] !in s.registry.Values && Store(s, id).registry[id] !in s.destroyed
    ensures Store(s, id).destroyed == s.destroyed
    ensures Store(s, id).registry.Keys == s.registry.Keys + {id}
    ensures forall k :: k in s.registry && k != id ==> Store(s, id).registry[k] == s.registry[k]
    ensures id in s.registry ==>
      s.registry[id] !in Store(s, id).registry.Values && s.registry[id] !in Store(s, id).destroyed
  {
    var t := Store(s, id);
    forall k | k in t.registry
      ensures t.registry[k].canvas == k && t.registry[k].serial < t.nextSerial && t.registry[k] !in t.destroyed
    {
    }
    if id in s.registry {
      forall k | k in t.registry
        ensures t.registry[k] != s.registry[id]
      {
        if k != id {
          CanvasKeyedDistinct(s, k, id);
        }
      }
    }
  }

  /** The reset destroys every instance that was live and leaves none registered. */
  lemma ClearedDestroysAll(s: PageState)
    requires Consistent(s)
    ensures Consistent(Cleared(s))
    ensures Cleared(s).registry == map[]
    ensures forall id :: id in s.registry ==> s.registry[id] in Cleared(s).destroyed
    ensures forall h :: h in Cleared(s).destroyed ==> h in s.destroyed || h in s.registry.Values
  {
  }

  /**
   * Adding the canvases registers each id with an instance created on it
   * during the call, keeps every other id's instance and destroys nothing.
   */
  lemma WithLinesRegisters(s: PageState, ids: seq<string>)
    requires Consistent(s)
    ensures Consistent(WithLines(s, ids))
    ensures WithLines(s, ids).plots == ids && WithLines(s, ids).destroyed == s.destroyed
    ensures forall id :: id in WithLines(s, ids).registry <==> id in s.registry || id in ids
    ensures forall id :: id in ids ==> s.nextSerial <= WithLines(s, ids).registry[id].serial
    ensures forall id :: id in s.registry && id !in ids ==> WithLines(s, ids).registry[id] == s.registry[id]
  {
    var t := WithLines(s, ids);
    StoreAllKeys(s.registry, ids, s.nextSerial);
    forall id | id in t.registry
      ensures t.registry[id].canvas == id && t.registry[id].serial < t.nextSerial && t.registry[id] !in t.destroyed
    {
      if id in ids {
        StoreAllFresh(s.registry, ids, s.nextSerial, id);
      } else {
        StoreAllKeeps(s.registry, ids, s.nextSerial, id);
      }
    }
    forall id | id in ids
      ensures s.nextSerial <= t.registry[id].serial
    {
      StoreAllFresh(s.registry, ids, s.nextSerial, id);
    }
    forall id | id in s.registry && id !in ids
      ensures t.registry[id] == s.registry[id]
    {
      StoreAllKeeps(s.registry, ids, s.nextSerial, id);
    }
  }

  /**
   * A canvas that already had an instance gets a new one, and the old one
   * is neither live nor destroyed afterwards.
   */
  lemma WithLinesOrphans(s: PageState, ids: seq<string>, id: string)
    requires Consistent(s) && id in s.registry && id in ids
    ensures s.registry[id] !in WithLines(s, ids).registry.Values
    ensures s.registry[id] !in WithLines(s, ids).destroyed
  {
    var t := WithLines(s, ids);
    StoreAllKeys(s.registry, ids, s.nextSerial);
    forall k | k in t.registry
      ensures t.registry[k] != s.registry[id]
    {
      if k in ids {
        StoreAllFresh(s.registry, ids, s.nextSerial, k);
      } else {
        StoreAllKeeps(s.registry, ids, s.nextSerial, k);
        CanvasKeyedDistinct(s, k, id);
      }
    }
  }

  /** The three builders each replace their id, in turn, over a consistent page. */
  lemma BuildersReplace(s: PageState)
    requires Consistent(s)
    ensures var t := Replace(Replace(Replace(s, RadarId), BarId), HeatmapId);
      && Consistent(t)
      && t.nextSerial == s.nextSerial + 3
      && t.registry.Keys == s.registry.Keys + {RadarId, BarId, HeatmapId}
      && t.registry[RadarId].serial == s.nextSerial
      && t.registry[BarId].serial == s.nextSerial + 1
      && t.registry[HeatmapId].serial == s.nextSerial + 2
      && (forall id :: id in s.registry && id !in {RadarId, BarId, HeatmapId} ==> t.registry[id] == s.registry[id])
      && t.destroyed == s.destroyed + Evicted(s.registry, RadarId) + Evicted(s.registry, BarId) + Evicted(s.registry, HeatmapId)
  {
    BuilderIdsDistinct();
    var s1 := Replace(s, RadarId);
    var s2 := Replace(s1, BarId);
    ReplaceSwapsInstance(s, RadarId);
    ReplaceSwapsInstance(s1, BarId);
    ReplaceSwapsInstance(s2, HeatmapId);
    assert Evicted(s1.registry, BarId) == Evicted(s.registry, BarId);
    assert Evicted(s2.registry, HeatmapId) == Evicted(s.registry, HeatmapId);
  }

  /**
   * A non-empty selection puts its cards, table and canvases on the page;
   * the builder ids and every canvas id hold instances created by the call,
   * the builders' previous instances are destroyed, and ids the call does
   * not draw keep theirs.
   */
  lemma RenderedPage(s: PageState, rows: seq<Row>, features: seq<LineFeature>)
    requires Consistent(s) && |rows| > 0
    ensures var t := Rendered(s, rows, features);
      && Consistent(t)
      && t.lakeData == s.lakeData && t.currentLake == s.currentLake
      && t.cards == SummaryCards(rows[|rows| - 1])
      && t.table == TableBody(rows)
      && t.plots == CanvasIds(features)
      && (forall id :: id in t.registry <==> id in s.registry || id in {RadarId, BarId, HeatmapId} || id in t.plots)
      && (forall id :: (id in {RadarId, BarId, HeatmapId} || id in t.plots) ==> s.nextSerial <= t.registry[id].serial)
      && (forall id :: id in s.registry && id !in {RadarId, BarId, HeatmapId} && id !in t.plots ==>
            t.registry[id] == s.registry[id])
      && t.destroyed == s.destroyed + Evicted(s.registry, RadarId) + Evicted(s.registry, BarId) + Evicted(s.registry, HeatmapId)
  {
    var ids := CanvasIds(features);
    var c := WithCards(s, rows[|rows| - 1]);
    var b := Replace(Replace(Replace(c, RadarId), BarId), HeatmapId);
    BuildersReplace(c);
    var u := WithTable(b, rows);
    WithLinesRegisters(u, ids);
    CanvasIdsAreNotBuilderIds(features);
  }

  /**
   * A line chart drawn again over a canvas that already had an instance
   * leaves the old instance neither live nor destroyed.
   */
  lemma RenderedOrphansLines(s: PageState, rows: seq<Row>, features: seq<LineFeature>, id: string)
    requires Consistent(s) && |rows| > 0
    requires id in s.registry && id in CanvasIds(features)
    ensures s.registry[id] !in Rendered(s, rows, features).registry.Values
    ensures s.registry[id] !in Rendered(s, rows, features).destroyed
  {
    var ids := CanvasIds(features);
    var c := WithCards(s, rows[|rows| - 1]);
    var b := Replace(Replace(Replace(c, RadarId), BarId), HeatmapId);
    BuildersReplace(c);
    CanvasIdsAreNotBuilderIds(features);
    assert b.registry[id] == s.registry[id];
    WithLinesOrphans(WithTable(b, rows), ids, id);
    assert s.registry[id] !in Evicted(s.registry, RadarId) + Evicted(s.registry, BarId) + Evicted(s.registry, HeatmapId) by {
      if RadarId in s.registry { CanvasKeyedDistinct(s, RadarId, id); }
      if BarId in s.registry { CanvasKeyedDistinct(s, BarId, id); }
      if HeatmapId in s.registry { CanvasKeyedDistinct(s, HeatmapId, id); }
    }
  }

  /**
   * A lake without rows shows the "No data" row and leaves no chart
   * registered: every instance that was live is destroyed. The cards and
   * the line-chart canvases stay as they were.
   */
  lemma EmptySelectionResets(s: PageState, lake: Lake, features: seq<LineFeature>)
    requires Consistent(s) && SelectLake(s.lakeData, lake.name) == []
    ensures var t := ShowLake(s, lake, features);
      && Consistent(t)
      && t.table == [NoDataRow(lake.name)]
      && t.registry == map[]
      && (forall id :: id in s.registry ==> s.registry[id] in t.destroyed)
      && t.cards == s.cards && t.plots == s.plots
  {
    ClearedDestroysAll(s.(currentLake := Some(lake), table := [NoDataRow(lake.name)]));
  }

  /** Showing a lake selects it, keeps the feed, and the alert reports its latest row. */
  lemma ShowLakeSelects(s: PageState, lake: Lake, features: seq<LineFeature>)
    ensures var t := ShowLake(s, lake, features);
      && t.currentLake == Some(lake) && t.lakeData == s.lakeData
      && AlertContext(t.lakeData, t.currentLake) == (lake.name, Latest(SelectLake(s.lakeData, lake.name)))
  {
  }

  /** Showing a lake keeps the page consistent. */
  lemma ShowLakeConsistent(s: PageState, lake: Lake, features: seq<LineFeature>)
    requires Consistent(s)
    ensures Consistent(ShowLake(s, lake, features))
  {
    var rows := SelectLake(s.lakeData, lake.name);
    if rows == [] {
      EmptySelectionResets(s, lake, features);
    } else {
      RenderedPage(s.(currentLake := Some(lake)), rows, features);
    }
  }

  /**
   * Showing the same lake again draws the same page: the cards, the table,
   * the canvases and the set of registered ids do not change; only the
   * instances are new.
   */
  lemma ShowLakeAgainSamePage(s: PageState, lake: Lake, features: seq<LineFeature>)
    requires Consistent(s)
    ensures var t := ShowLake(s, lake, features);
      var u := ShowLake(t, lake, features);
      && u.cards == t.cards && u.table == t.table && u.plots == t.plots
      && u.registry.Keys == t.registry.Keys
      && u.lakeData == t.lakeData && u.currentLake == t.currentLake
  {
    var t := ShowLake(s, lake, features);
    var rows := SelectLake(s.lakeData, lake.name);
    if rows != [] {
      RenderedPage(s.(currentLake := Some(lake)), rows, features);
      RenderedPage(t.(currentLake := Some(lake)), rows, features);
    }
  }

  /** The feed arrives: it is stored, the first lake is selected, and charts are drawn exactly when it has rows. */
  lemma LoadedShowsFirstLake(s: PageState, data: seq<Row>)
    requires Consistent(s)
    ensures var t := Loaded(s, data);
      && Consistent(t)
      && t.lakeData == data && t.currentLake == Some(Lakes[0])
      && (SelectLake(data, Lakes[0].name) == [] ==> t.registry == map[])
      && (SelectLake(data, Lakes[0].name) != [] ==> t.table == TableBody(SelectLake(data, Lakes[0].name)))
  {
    var rows := SelectLake(data, Lakes[0].name);
    ShowLakeConsistent(s.(lakeData := data), Lakes[0], LineFeatures);
    if rows != [] {
      RenderedPage(s.(lakeData := data, currentLake := Some(Lakes[0])), rows, LineFeatures);
    }
  }

  // ------------------------------------------------------------- the page

  class Dashboard {
    var lakeData: seq<Row>
    var currentLake: Option<Lake>
    /** The live chart instance of each canvas id. */
    var chartInstances: map<string, Handle>
    /** Every instance whose `destroy()` has been called. */
    var destroyed: set<Handle>
    /** The serial the chart library gives its next instance. */
    var nextSerial: nat
    var cards: seq<Card>
    var table: seq<TableRow>
    /** The canvas ids in the line-chart container, in order. */
    var plots: seq<string>

    /** The page's fields as one value. */
    function State(): PageState
      reads this
    {
      PageState(lakeData, currentLake, chartInstances, destroyed, nextSerial, cards, table, plots)
    }

    ghost predicate Valid()
      reads this`chartInstances, this`destroyed, this`nextSerial
    {
      Tracked(chartInstances, destroyed, nextSerial)
    }

    constructor ()
      ensures Valid() && State() == Initial
    {
      lakeData, currentLake := [], None;
      chartInstances, destroyed, nextSerial := map[], {}, 0;
      cards, table, plots := [], [], [];
    }

    /** `new Chart(...)`: a fresh instance on the given canvas. */
    method NewChart(canvas: string) returns (h: Handle)
      modifies this`nextSerial
      ensures h == Handle(old(nextSerial), canvas) && nextSerial == old(nextSerial) + 1
    {
      h := Handle(nextSerial, canvas);
      nextSerial := nextSerial + 1;
    }

    /** Destroys the id's instance, if any, then registers a new one. */
    method ReplaceChart(id: string)
      requires Valid()
      modifies this`chartInstances, this`destroyed, this`nextSerial
      ensures Valid() && State() == Replace(old(State()), id)
    {
      ReplaceSwapsInstance(State(), id);
      if id in chartInstances {
        destroyed := destroyed + {chartInstances[id]};
      }
      var h := NewChart(id);
      chartInstances := chartInstances[id := h];
    }

    /** Registers a new instance over the id without destroying the one it displaces. */
    method StoreChart(id: string)
      requires Valid()
      modifies this`chartInstances, this`nextSerial
      ensures Valid() && State() == Store(old(State()), id)
    {
      StoreOrphans(State(), id);
      var h := NewChart(id);
      chartInstances := chartInstances[id := h];
    }

    /** The empty-selection reset: destroys every registered instance and empties the registry. */
    method DestroyAll()
      requires Valid()
      modifies this`chartInstances, this`destroyed
      ensures Valid() && State() == Cleared(old(State()))
    {
      ClearedDestroysAll(State());
      var pending := chartInstances.Keys;
      while pending != {}
        invariant chartInstances == old(chartInstances)
        invariant old(destroyed) <= destroyed
        invariant forall id :: id in chartInstances && id !in pending ==> chartInstances[id] in destroyed
        invariant forall h :: h in destroyed ==> h in old(destroyed) || h in chartInstances.Values
        decreases pending
      {
        var id :| id in pending;
        destroyed := destroyed + {chartInstances[id]};
        pending := pending - {id};
      }
      chartInstances := map[];
    }

    /** `createSummaryCards`: the five cards of the latest row. */
    method CreateSummaryCards(rows: seq<Row>)
      requires |rows| > 0
      modifies this`cards
      ensures State() == WithCards(old(State()), rows[|rows| - 1])
    {
      cards := SummaryCards(rows[|rows| - 1]);
    }

    /** `createRadarChart`: the scaled latest row, under the radar id. */
    method CreateRadarChart(rows: seq<Row>) returns (data: RadarData)
      requires Valid() && |rows| > 0
      modifies this`chartInstances, this`destroyed, this`nextSerial
      ensures Valid() && State() == Replace(old(State()), RadarId)
      ensures data == RadarDatasets(rows[|rows| - 1])
    {
      ReplaceChart(RadarId);
      data := RadarDatasets(rows[|rows| - 1]);
    }

    /** `createBarChart`: the averaged temperature, DO and pH series, under the bar id. */
    method CreateBarChart(rows: seq<Row>) returns (data: BarData)
      requires Valid()
      modifies this`chartInstances, this`destroyed, this`nextSerial
      ensures Valid() && State() == Replace(old(State()), BarId)
      ensures data == BarDatasets(rows)
    {
      ReplaceChart(BarId);
      data := BarDatasets(rows);
    }

    /** `createHeatmap`: the five averaged series, under the heatmap id. */
    method CreateHeatmap(rows: seq<Row>) returns (data: HeatmapData)
      requires Valid()
      modifies this`chartInstances, this`destroyed, this`nextSerial
      ensures Valid() && State() == Replace(old(State()), HeatmapId)
      ensures data == HeatmapDatasets(rows)
    {
      ReplaceChart(HeatmapId);
      data := HeatmapDatasets(rows);
    }

    /** `populateTable`: empties the table body, then appends one row per feed row, in order. */
    method PopulateTable(rows: seq<Row>)
      modifies this`table
      ensures State() == WithTable(old(State()), rows)
    {
      table := [];
      var i := 0;
      while i < |rows|
        invariant 0 <= i <= |rows|
        invariant |table| == i
        invariant forall j :: 0 <= j < i ==> table[j] == TableRowOf(rows[j])
      {
        table := table + [TableRowOf(rows[i])];
        i := i + 1;
      }
    }

    /**
     * `createLineCharts`: empties the container, then for each feature adds
     * its canvas and registers a new instance under the canvas id, destroying
     * nothing. The feature table is a parameter; the page passes `LineFeatures`.
     */
    method CreateLineCharts(rows: seq<Row>, features: seq<LineFeature>) returns (lines: seq<LineChart>)
      requires Valid()
      modifies this`chartInstances, this`nextSerial, this`plots
      ensures Valid() && State() == WithLines(old(State()), CanvasIds(features))
      ensures lines == LineCharts(rows, features)
    {
      lines := AddCanvases(CanvasIds(features), LineCharts(rows, features));
    }

    /** Adds one canvas per id to the emptied container and registers a new instance under it. */
    method AddCanvases(ids: seq<string>, all: seq<LineChart>) returns (lines: seq<LineChart>)
      requires Valid() && |ids| == |all|
      modifies this`chartInstances, this`nextSerial, this`plots
      ensures Valid() && State() == WithLines(old(State()), ids)
      ensures lines == all
    {
      plots, lines := [], [];
      var i := 0;
      while i < |ids|
        invariant 0 <= i <= |ids|
        invariant Valid()
        invariant plots == ids[..i]
        invariant lines == all[..i]
        invariant nextSerial == old(nextSerial) + i
        invariant StoreAll(chartInstances, ids[i..], nextSerial) == StoreAll(old(chartInstances), ids, old(nextSerial))
      {
        assert ids[..i + 1] == ids[..i] + [ids[i]];
        assert ids[i..][0] == ids[i] && ids[i..][1..] == ids[i + 1..];
        assert StoreAll(chartInstances, ids[i..], nextSerial) ==
          StoreAll(chartInstances[ids[i] := Handle(nextSerial, ids[i])], ids[i + 1..], nextSerial + 1);
        plots := plots + [ids[i]];
        StoreChart(ids[i]);
        assert all[..i + 1] == all[..i] + [all[i]];
        lines := lines + [all[i]];
        i := i + 1;
      }
      assert ids[..i] == ids && all[..i] == all;
    }

    /** The body of `showLakeDetails` for a non-empty selection. */
    method RenderLake(rows: seq<Row>, features: seq<LineFeature>) returns (charts: Charts)
      requires Valid() && |rows| > 0
      modifies this`cards, this`chartInstances, this`destroyed, this`nextSerial, this`table, this`plots
      ensures Valid() && State() == Rendered(old(State()), rows, features)
      ensures charts == Render(rows, features)
    {
      CreateSummaryCards(rows);
      var radar := CreateRadarChart(rows);
      var bar := CreateBarChart(rows);
      var heatmap := CreateHeatmap(rows);
      PopulateTable(rows);
      var lines := CreateLineCharts(rows, features);
      charts := Charts(radar, bar, heatmap, lines);
    }

    /**
     * `showLakeDetails`: selects the lake's rows; with none, shows the
     * "No data" row and destroys every chart; otherwise rebuilds the cards,
     * charts and table from the selection.
     */
    method ShowLakeDetails(lake: Lake, features: seq<LineFeature>) returns (charts: Charts)
      requires Valid()
      modifies this
      ensures Valid() && State() == ShowLake(old(State()), lake, features)
      ensures charts == ChartsFor(SelectLake(lakeData, lake.name), features)
    {
      currentLake := Some(lake);
      var rows := SelectLake(lakeData, lake.name);
      if |rows| == 0 {
        table := [NoDataRow(lake.name)];
        DestroyAll();
        charts := NoCharts;
      } else {
        charts := RenderLake(rows, features);
      }
    }

    /** The feed arrives: store it and show the first lake. */
    method LoadFeed(data: seq<Row>) returns (charts: Charts)
      requires Valid()
      modifies this
      ensures Valid() && State() == Loaded(old(State()), data)
      ensures charts == ChartsFor(SelectLake(data, Lakes[0].name), LineFeatures)
    {
      lakeData := data;
      charts := ShowLakeDetails(Lakes[0], LineFeatures);
    }
  }
}
