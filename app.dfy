/** The application controller: the map as a table of sources and layers,
    the per-dataset layer registry (`currentLayers`), loading a dataset's
    style into the map, and the visibility and opacity mutators. */
module App {
  import opened Wrappers
  import opened Json
  import opened Schema
  import TileSource

  // ---------------------------------------------------------------------
  // The map, as a table of sources and layers

  /** The source types the MapLibre style specification defines. */
  const SourceTypes: set<string> := {"vector", "raster", "raster-dem", "geojson", "image", "video"}

  /** The layer types the MapLibre style specification defines. */
  const LayerTypes: set<string> :=
    {"background", "fill", "line", "symbol", "circle", "heatmap", "fill-extrusion", "raster", "hillshade"}

  /** The map's style: its sources and layers by id, and the layers in
      drawing order. */
  datatype MapState = MapState(sources: map<string, JsonObject>, layers: map<string, Layer>, order: seq<string>)

  /** The style the map is created with: no sources and the background layer. */
  const InitialMap: MapState :=
    MapState(map[], map["background" := TileSource.BackgroundLayer], ["background"])

  /** A source MapLibre accepts: one whose `type` is a known source type. */
  predicate SourceAccepted(src: JsonObject) {
    "type" in src && src["type"].JStr? && src["type"].s in SourceTypes
  }

  /** `map.addSource`; `None` where MapLibre throws: the id is taken, or the
      source is undefined or of no known type. */
  function WithSource(m: MapState, id: string, src: Option<JsonObject>): Option<MapState> {
    if id in m.sources || src.None? || !SourceAccepted(src.value) then None
    else Some(m.(sources := m.sources[id := src.value]))
  }

  /** A layer MapLibre's `map.addLayer` accepts: its id is free, its type
      is known, and it names a source the map has (a background needs none). */
  predicate LayerAccepted(m: MapState, layer: Layer) {
    layer.id !in m.layers && layer.kind in LayerTypes && (layer.kind == "background" || layer.source in m.sources)
  }

  /** `map.addLayer`: a refused layer is reported as an `error` event and
      changes nothing; an accepted one is drawn on top. */
  function WithLayer(m: MapState, layer: Layer): MapState {
    if LayerAccepted(m, layer) then MapState(m.sources, m.layers[layer.id := layer], m.order + [layer.id]) else m
  }

  /** `map.setLayoutProperty`: no change for a missing layer. */
  function WithLayout(m: MapState, id: string, name: string, value: Json): MapState {
    if id in m.layers then m.(layers := m.layers[id := m.layers[id].(layout := m.layers[id].layout[name := value])])
    else m
  }

  /** `map.setPaintProperty`: no change for a missing layer. */
  function WithPaint(m: MapState, id: string, name: string, value: Json): MapState {
    if id in m.layers then m.(layers := m.layers[id := m.layers[id].(paint := m.layers[id].paint[name := value])])
    else m
  }

  /** The map object. Each method applies its change or, where MapLibre
      refuses it, changes nothing; `AddSource` reports the refusals MapLibre
      throws for. */
  class MapView {
    var sources: map<string, JsonObject>
    var layers: map<string, Layer>
    var order: seq<string>

    function State(): MapState
      reads this
    {
      MapState(sources, layers, order)
    }

    constructor()
      ensures State() == InitialMap
    {
      sources := InitialMap.sources;
      layers := InitialMap.layers;
      order := InitialMap.order;
    }

    method AddSource(id: string, src: Option<JsonObject>) returns (ok: bool)
      modifies this
      ensures ok == WithSource(old(State()), id, src).Some?
      ensures State() == if ok then WithSource(old(State()), id, src).value else old(State())
    {
      ok := id !in sources && src.Some? && SourceAccepted(src.value);
      if ok {
        sources := sources[id := src.value];
      }
    }

    method AddLayer(layer: Layer)
      modifies this
      ensures State() == WithLayer(old(State()), layer)
    {
      if layer.id !in layers && layer.kind in LayerTypes && (layer.kind == "background" || layer.source in sources) {
        layers := layers[layer.id := layer];
        order := order + [layer.id];
      }
    }

    method SetLayoutProperty(id: string, name: string, value: Json)
      modifies this
      ensures State() == WithLayout(old(State()), id, name, value)
    {
      if id in layers {
        layers := layers[id := layers[id].(layout := layers[id].layout[name := value])];
      }
    }

    method SetPaintProperty(id: string, name: string, value: Json)
      modifies this
      ensures State() == WithPaint(old(State()), id, name, value)
    {
      if id in layers {
        layers := layers[id := layers[id].(paint := layers[id].paint[name := value])];
      }
    }
  }

  // ---------------------------------------------------------------------
  // The layer registry and dataset loading

  /** What `currentLayers` records for a loaded dataset. */
  datatype LayerEntry = LayerEntry(dataset: Dataset, sourceId: string, layerIds: seq<string>, visible: bool, opacity: real)

  type Registry = map<string, LayerEntry>

  /** Every entry is filed under its dataset's id, and its source is in
      the map. (Its layer ids need not be: a refused layer is still listed.) */
  predicate RegistryValid(m: MapState, reg: Registry) {
    forall id :: id in reg ==>
      && reg[id].dataset.id == id
      && reg[id].sourceId == SourceIdOf(id) && reg[id].sourceId in m.sources
  }

  /** `Object.values(style.sources)[0]`: the first source of the style;
      `None` where that is undefined or throws. */
  function FirstSource(doc: StyleDoc): Option<JsonObject> {
    if doc.sources.Some? && |doc.sources.value| > 0 then Some(doc.sources.value[0].1) else None
  }

  /** The loop of `loadDatasetLayer` over the style's layers: each layer,
      renamed for the dataset and bound to its source, is added unless its
      id is present; a refused layer is passed over. */
  function AddStyleLayers(m: MapState, datasetId: string, ls: seq<Layer>): MapState
    decreases |ls|
  {
    if ls == [] then m
    else
      var layer := Rebind(datasetId, ls[0]);
      AddStyleLayers(if layer.id in m.layers then m else WithLayer(m, layer), datasetId, ls[1..])
  }

  /** The map after the source step of `loadDatasetLayer`: unchanged when
      the source is present, `None` where adding it throws. */
  function WithDatasetSource(m: MapState, datasetId: string, doc: StyleDoc): Option<MapState> {
    if SourceIdOf(datasetId) in m.sources then Some(m) else WithSource(m, SourceIdOf(datasetId), FirstSource(doc))
  }

  /** The registry entry of a dataset loaded from `doc`. */
  function Entry(d: Dataset, doc: StyleDoc): LayerEntry
    requires doc.layers.Some?
  {
    LayerEntry(d, SourceIdOf(d.id), DerivedIds(d.id, NonBackground(doc.layers.value)), true, 1.0)
  }

  /** `loadDatasetLayer(d)` runs to the end: the style arrives, its source
      is present or can be added, and it has layers. */
  predicate Loads(m: MapState, d: Dataset, resp: Fetched<StyleDoc>) {
    && resp.Delivered()
    && WithDatasetSource(m, d.id, resp.body.value).Some?
    && resp.body.value.layers.Some?
  }

  /** `loadDatasetLayer(d)` with the style response `resp`, every thrown
      error caught: a failed fetch changes nothing; a source that cannot be
      added changes nothing; a style without layers keeps the added source;
      otherwise the layers are added and the registry entry is written. */
  function LoadDataset(m: MapState, reg: Registry, d: Dataset, resp: Fetched<StyleDoc>): (MapState, Registry) {
    if !resp.Delivered() then (m, reg)
    else
      var doc := resp.body.value;
      var m1 := WithDatasetSource(m, d.id, doc);
      if m1.None? then (m, reg)
      else if doc.layers.None? then (m1.value, reg)
      else
        (AddStyleLayers(m1.value, d.id, NonBackground(doc.layers.value)), reg[d.id := Entry(d, doc)])
  }

  /** `loadInitialLayers`: the datasets loaded one after the other. */
  function LoadAll(m: MapState, reg: Registry, ds: seq<Dataset>, styles: map<string, Fetched<StyleDoc>>): (MapState, Registry)
    decreases |ds|
  {
    if ds == [] then (m, reg)
    else
      var r := LoadDataset(m, reg, ds[0], TileSource.StyleFetch(styles, ds[0].id));
      LoadAll(r.0, r.1, ds[1..], styles)
  }

  /** Adding style layers keeps the sources and every layer already in
      the map. */
  lemma {:induction false} AddStyleLayersGrows(m: MapState, datasetId: string, ls: seq<Layer>)
    ensures var r := AddStyleLayers(m, datasetId, ls);
      r.sources == m.sources && forall k :: k in m.layers ==> k in r.layers && r.layers[k] == m.layers[k]
    decreases |ls|
  {
    if ls != [] {
      var layer := Rebind(datasetId, ls[0]);
      AddStyleLayersGrows(if layer.id in m.layers then m else WithLayer(m, layer), datasetId, ls[1..]);
    }
  }

  /** With the dataset's source in the map, every style layer of a known
      type ends up in the map under its derived id: a refused layer does
      not stop the ones after it. */
  lemma {:induction false} AddStyleLayersComplete(m: MapState, datasetId: string, ls: seq<Layer>)
    requires SourceIdOf(datasetId) in m.sources
    ensures forall k :: 0 <= k < |ls| && ls[k].kind in LayerTypes ==>
      DerivedLayerId(datasetId, ls[k].id) in AddStyleLayers(m, datasetId, ls).layers
    decreases |ls|
  {
    if ls != [] {
      var layer := Rebind(datasetId, ls[0]);
      var m' := if layer.id in m.layers then m else WithLayer(m, layer);
      assert ls[0].kind in LayerTypes ==> layer.id in m'.layers;
      AddStyleLayersComplete(m', datasetId, ls[1..]);
      AddStyleLayersGrows(m', datasetId, ls[1..]);
      forall k | 0 < k < |ls| && ls[k].kind in LayerTypes
        ensures DerivedLayerId(datasetId, ls[k].id) in AddStyleLayers(m, datasetId, ls).layers
      {
        assert ls[k] == ls[1..][k - 1];
      }
    }
  }

  /** Only renamed style layers bound to the dataset's source are added. */
  lemma {:induction false} AddStyleLayersOnlyRebound(m: MapState, datasetId: string, ls: seq<Layer>)
    ensures var r := AddStyleLayers(m, datasetId, ls);
      forall key :: key in r.layers && key !in m.layers ==>
        exists k :: 0 <= k < |ls| && key == DerivedLayerId(datasetId, ls[k].id) && r.layers[key] == Rebind(datasetId, ls[k])
    decreases |ls|
  {
    if ls != [] {
      var layer := Rebind(datasetId, ls[0]);
      var m' := if layer.id in m.layers then m else WithLayer(m, layer);
      AddStyleLayersOnlyRebound(m', datasetId, ls[1..]);
      AddStyleLayersGrows(m', datasetId, ls[1..]);
      var r := AddStyleLayers(m, datasetId, ls);
      forall key | key in r.layers && key !in m.layers
        ensures exists k :: 0 <= k < |ls| && key == DerivedLayerId(datasetId, ls[k].id) && r.layers[key] == Rebind(datasetId, ls[k])
      {
        if key in m'.layers {
          assert key == DerivedLayerId(datasetId, ls[0].id) && r.layers[key] == Rebind(datasetId, ls[0]);
        } else {
          var k :| 0 <= k < |ls[1..]| && key == DerivedLayerId(datasetId, ls[1..][k].id) && r.layers[key] == Rebind(datasetId, ls[1..][k]);
          assert ls[1..][k] == ls[k + 1];
        }
      }
    }
  }

  /** Running the layer loop again over its own result changes nothing:
      what was added is skipped, and what was refused is refused again. */
  lemma {:induction false} AddStyleLayersIdempotent(m: MapState, datasetId: string, ls: seq<Layer>)
    ensures var r := AddStyleLayers(m, datasetId, ls);
      AddStyleLayers(r, datasetId, ls) == r
    decreases |ls|
  {
    if ls != [] {
      var layer := Rebind(datasetId, ls[0]);
      var m' := if layer.id in m.layers then m else WithLayer(m, layer);
      var r := AddStyleLayers(m', datasetId, ls[1..]);
      AddStyleLayersIdempotent(m', datasetId, ls[1..]);
      AddStyleLayersGrows(m', datasetId, ls[1..]);
      assert layer.id !in r.layers ==> !LayerAccepted(r, layer);
    }
  }

  /** Loading a dataset twice with the same response leaves the map and
      the registry as one load does: existing sources and layers are
      skipped, and a load that failed fails again at the same point. */
  lemma LoadDatasetIdempotent(m: MapState, reg: Registry, d: Dataset, resp: Fetched<StyleDoc>)
    ensures var r := LoadDataset(m, reg, d, resp);
      LoadDataset(r.0, r.1, d, resp) == r
  {
    if resp.Delivered() {
      var doc := resp.body.value;
      var m1 := WithDatasetSource(m, d.id, doc);
      if m1.Some? && doc.layers.Some? {
        var ls := NonBackground(doc.layers.value);
        AddStyleLayersIdempotent(m1.value, d.id, ls);
        AddStyleLayersGrows(m1.value, d.id, ls);
        var r := AddStyleLayers(m1.value, d.id, ls);
        assert SourceIdOf(d.id) in m1.value.sources;
        assert WithDatasetSource(r, d.id, doc) == Some(r);
        var reg1 := reg[d.id := Entry(d, doc)];
        assert LoadDataset(m, reg, d, resp) == (r, reg1);
        assert reg1[d.id := Entry(d, doc)] == reg1;
      } else if m1.Some? {
        assert SourceIdOf(d.id) in m1.value.sources;
      }
    }
  }

  /** The registry entry is written exactly when the load runs to the end,
      with the derived ids in style order, visible and at full opacity; no
      other entry changes. */
  lemma LoadDatasetRegistry(m: MapState, reg: Registry, d: Dataset, resp: Fetched<StyleDoc>)
    ensures Loads(m, d, resp) ==> LoadDataset(m, reg, d, resp).1 == reg[d.id := Entry(d, resp.body.value)]
    ensures !Loads(m, d, resp) ==> LoadDataset(m, reg, d, resp).1 == reg
  {
  }

  /** A load that runs to the end leaves the dataset's source in the map,
      and every style layer of a known type under its listed id. */
  lemma LoadDatasetComplete(m: MapState, reg: Registry, d: Dataset, resp: Fetched<StyleDoc>)
    requires Loads(m, d, resp)
    ensures var r := LoadDataset(m, reg, d, resp).0;
      var ls := NonBackground(resp.body.value.layers.value);
      && SourceIdOf(d.id) in r.sources
      && forall k :: 0 <= k < |ls| && ls[k].kind in LayerTypes ==> Entry(d, resp.body.value).layerIds[k] in r.layers
  {
    var doc := resp.body.value;
    var m1 := WithDatasetSource(m, d.id, doc).value;
    var ls := NonBackground(doc.layers.value);
    assert SourceIdOf(d.id) in m1.sources;
    AddStyleLayersComplete(m1, d.id, ls);
    AddStyleLayersGrows(m1, d.id, ls);
  }

  /** Loading one dataset never removes or changes a source or layer that
      is already in the map, so it cannot disturb the datasets loaded
      before it; every layer it does add is a renamed layer of its own
      style, so "background" is never added again. */
  lemma LoadDatasetIsolated(m: MapState, reg: Registry, d: Dataset, resp: Fetched<StyleDoc>)
    ensures var r := LoadDataset(m, reg, d, resp).0;
      && (forall k :: k in m.sources ==> k in r.sources && r.sources[k] == m.sources[k])
      && (forall k :: k in m.layers ==> k in r.layers && r.layers[k] == m.layers[k])
      && (forall k :: k in r.layers && k !in m.layers ==> k != "background" && r.layers[k].source == SourceIdOf(d.id))
  {
    if resp.Delivered() {
      var doc := resp.body.value;
      var m1 := WithDatasetSource(m, d.id, doc);
      if m1.Some? && doc.layers.Some? {
        var ls := NonBackground(doc.layers.value);
        AddStyleLayersGrows(m1.value, d.id, ls);
        AddStyleLayersOnlyRebound(m1.value, d.id, ls);
        var r := AddStyleLayers(m1.value, d.id, ls);
        forall k | k in r.layers && k !in m.layers
          ensures k != "background" && r.layers[k].source == SourceIdOf(d.id)
        {
          var j :| 0 <= j < |ls| && k == DerivedLayerId(d.id, ls[j].id) && r.layers[k] == Rebind(d.id, ls[j]);
          DerivedLayerIdIsNotBackground(d.id, ls[j].id);
        }
      }
    }
  }

  /** A load keeps the registry valid. */
  lemma LoadDatasetValid(m: MapState, reg: Registry, d: Dataset, resp: Fetched<StyleDoc>)
    requires RegistryValid(m, reg)
    ensures RegistryValid(LoadDataset(m, reg, d, resp).0, LoadDataset(m, reg, d, resp).1)
  {
    LoadDatasetIsolated(m, reg, d, resp);
    LoadDatasetRegistry(m, reg, d, resp);
    if Loads(m, d, resp) {
      LoadDatasetComplete(m, reg, d, resp);
    }
  }

  /** A dataset whose style request fails changes nothing. */
  lemma LoadDatasetFailedFetch(m: MapState, reg: Registry, d: Dataset, resp: Fetched<StyleDoc>)
    requires !resp.Delivered()
    ensures LoadDataset(m, reg, d, resp) == (m, reg)
  {
  }

  lemma {:induction false} LoadAllAppend(m: MapState, reg: Registry, a: seq<Dataset>, b: seq<Dataset>, styles: map<string, Fetched<StyleDoc>>)
    ensures var r := LoadAll(m, reg, a, styles);
      LoadAll(m, reg, a + b, styles) == LoadAll(r.0, r.1, b, styles)
    decreases |a|
  {
    if a != [] {
      var r := LoadDataset(m, reg, a[0], TileSource.StyleFetch(styles, a[0].id));
      assert (a + b)[0] == a[0] && (a + b)[1..] == a[1..] + b;
      LoadAllAppend(r.0, r.1, a[1..], b, styles);
    } else {
      assert a + b == b;
    }
  }

  /** Failure isolation: a dataset whose style request fails is as if it
      were not in the list; the datasets after it are still loaded. */
  lemma LoadAllSkipsFailedFetch(m: MapState, reg: Registry, ds: seq<Dataset>, styles: map<string, Fetched<StyleDoc>>, i: nat)
    requires i < |ds| && !TileSource.StyleFetch(styles, ds[i].id).Delivered()
    ensures LoadAll(m, reg, ds, styles) == LoadAll(m, reg, ds[..i] + ds[i + 1..], styles)
  {
    assert ds == ds[..i] + ([ds[i]] + ds[i + 1..]);
    LoadAllAppend(m, reg, ds[..i], [ds[i]] + ds[i + 1..], styles);
    LoadAllAppend(m, reg, ds[..i], ds[i + 1..], styles);
    var r := LoadAll(m, reg, ds[..i], styles);
    assert ([ds[i]] + ds[i + 1..])[1..] == ds[i + 1..];
  }

  // ---------------------------------------------------------------------
  // Visibility and opacity

  /** The `visibility` layout value for a checkbox state. */
  function VisibilityValue(visible: bool): Json {
    JStr(if visible then "visible" else "none")
  }

  /** The layers' visibility set one id after the other. */
  function SetVisibility(m: MapState, ids: seq<string>, visible: bool): MapState
    decreases |ids|
  {
    if ids == [] then m
    else WithLayout(SetVisibility(m, ids[..|ids| - 1], visible), ids[|ids| - 1], "visibility", VisibilityValue(visible))
  }

  /** Setting visibility touches only the listed layers, and only their
      `visibility` layout property. */
  lemma {:induction false} SetVisibilityAt(m: MapState, ids: seq<string>, visible: bool)
    ensures var r := SetVisibility(m, ids, visible);
      && r.sources == m.sources && r.order == m.order && r.layers.Keys == m.layers.Keys
      && forall k :: k in m.layers ==>
           r.layers[k] == if k in ids then m.layers[k].(layout := m.layers[k].layout["visibility" := VisibilityValue(visible)])
                          else m.layers[k]
    decreases |ids|
  {
    if ids != [] {
      var init := ids[..|ids| - 1];
      SetVisibilityAt(m, init, visible);
      assert forall k :: k in ids <==> k in init || k == ids[|ids| - 1];
    }
  }

  /** Hiding a dataset's layers and showing them again leaves each of them
      `visible`, with everything else as it was. */
  lemma VisibilityRestored(m: MapState, ids: seq<string>)
    ensures var r := SetVisibility(SetVisibility(m, ids, false), ids, true);
      && r.sources == m.sources && r.layers.Keys == m.layers.Keys
      && forall k :: k in m.layers ==>
           r.layers[k] == if k in ids then m.layers[k].(layout := m.layers[k].layout["visibility" := JStr("visible")])
                          else m.layers[k]
  {
    SetVisibilityAt(m, ids, false);
    SetVisibilityAt(SetVisibility(m, ids, false), ids, true);
  }

  /** The paint property that carries a layer type's opacity. */
  function OpacityProperty(kind: string): (p: Option<string>)
    ensures p.Some? <==> kind in {"line", "fill", "circle"}
    ensures p.Some? ==> p.value == kind + "-opacity"
  {
    if kind == "line" then Some("line-opacity")
    else if kind == "fill" then Some("fill-opacity")
    else if kind == "circle" then Some("circle-opacity")
    else None
  }

  /** One iteration of `setLayerOpacity`'s loop. */
  function WithOpacity(m: MapState, id: string, opacity: real): MapState {
    if id in m.layers && OpacityProperty(m.layers[id].kind).Some? then
      WithPaint(m, id, OpacityProperty(m.layers[id].kind).value, JNum(opacity))
    else m
  }

  /** The opacity of the layers set one id after the other. */
  function SetOpacity(m: MapState, ids: seq<string>, opacity: real): MapState
    decreases |ids|
  {
    if ids == [] then m else WithOpacity(SetOpacity(m, ids[..|ids| - 1], opacity), ids[|ids| - 1], opacity)
  }

  /** Setting opacity touches only the listed line, fill and circle
      layers, and only their `<type>-opacity` paint property. */
  lemma {:induction false} SetOpacityAt(m: MapState, ids: seq<string>, opacity: real)
    ensures var r := SetOpacity(m, ids, opacity);
      && r.sources == m.sources && r.order == m.order && r.layers.Keys == m.layers.Keys
      && forall k :: k in m.layers ==>
           r.layers[k] == if k in ids && OpacityProperty(m.layers[k].kind).Some? then
                            m.layers[k].(paint := m.layers[k].paint[OpacityProperty(m.layers[k].kind).value := JNum(opacity)])
                          else m.layers[k]
    decreases |ids|
  {
    if ids != [] {
      var init := ids[..|ids| - 1];
      SetOpacityAt(m, init, opacity);
      assert forall k :: k in ids <==> k in init || k == ids[|ids| - 1];
    }
  }

  /** The loop of `setLayerOpacity` over a dataset's layer ids. */
  method ApplyOpacity(m: MapView, ids: seq<string>, opacity: real)
    modifies m
    ensures m.State() == SetOpacity(old(m.State()), ids, opacity)
  {
    var k := 0;
    while k < |ids|
      invariant 0 <= k <= |ids|
      invariant m.State() == SetOpacity(old(m.State()), ids[..k], opacity)
    {
      ghost var before := m.State();
      var layerId := ids[k];
      if layerId in m.layers {
        var property := OpacityProperty(m.layers[layerId].kind);
        if property.Some? {
          m.SetPaintProperty(layerId, property.value, JNum(opacity));
        }
      }
      assert m.State() == WithOpacity(before, layerId, opacity);
      assert ids[..k + 1][..k] == ids[..k];
      k := k + 1;
    }
    assert ids[..k] == ids;
  }

  // ---------------------------------------------------------------------
  // Layer ids shared between datasets

  /** As written, an entry lists every derived id, also one whose add was
      skipped because the map already holds a layer of that id bound to
      another dataset's source: the entry then names that layer, and
      hiding this dataset hides it. */
  lemma LoadListsForeignLayer(m: MapState, reg: Registry, d: Dataset, resp: Fetched<StyleDoc>, k: nat)
    requires Loads(m, d, resp)
    requires k < |NonBackground(resp.body.value.layers.value)|
    requires var id := DerivedLayerId(d.id, NonBackground(resp.body.value.layers.value)[k].id);
      id in m.layers && m.layers[id].source != SourceIdOf(d.id)
    ensures var r := LoadDataset(m, reg, d, resp);
      var id := DerivedLayerId(d.id, NonBackground(resp.body.value.layers.value)[k].id);
      && d.id in r.1 && id in r.1[d.id].layerIds
      && id in r.0.layers && r.0.layers[id] == m.layers[id] && r.0.layers[id].source != SourceIdOf(d.id)
      && var hidden := SetVisibility(r.0, r.1[d.id].layerIds, false).layers;
         id in hidden && "visibility" in hidden[id].layout && hidden[id].layout["visibility"] == JStr("none")
  {
    LoadDatasetIsolated(m, reg, d, resp);
    LoadDatasetRegistry(m, reg, d, resp);
    var r := LoadDataset(m, reg, d, resp);
    var ls := NonBackground(resp.body.value.layers.value);
    assert r.1[d.id].layerIds[k] == DerivedLayerId(d.id, ls[k].id);
    SetVisibilityAt(r.0, r.1[d.id].layerIds, false);
  }

  /** The collision from an empty map: dataset "a", whose style has a line
      layer "b-c", then dataset "a-b", whose style has a layer "c". The
      entry of "a-b" lists "a-b-c", which is "a"'s layer. */
  lemma CollidingLoads(a: Dataset, ab: Dataset, respA: Fetched<StyleDoc>, respAB: Fetched<StyleDoc>, la: Layer, lc: Layer)
    requires a.id == "a" && ab.id == "a-b"
    requires respA.Delivered() && respAB.Delivered()
    requires FirstSource(respA.body.value).Some? && SourceAccepted(FirstSource(respA.body.value).value)
    requires FirstSource(respAB.body.value).Some? && SourceAccepted(FirstSource(respAB.body.value).value)
    requires respA.body.value.layers == Some([la]) && la.id == "b-c" && la.kind == "line"
    requires respAB.body.value.layers == Some([lc]) && lc.id == "c"
    ensures var r1 := LoadDataset(InitialMap, map[], a, respA);
      var r2 := LoadDataset(r1.0, r1.1, ab, respAB);
      && "a-b" in r2.1 && r2.1["a-b"].layerIds == ["a-b-c"]
      && "a-b-c" in r2.0.layers && r2.0.layers["a-b-c"].source == "a-source"
  {
    assert SourceIdOf("a") == "a-source" && SourceIdOf("a-b") == "a-b-source";
    assert DerivedLayerId("a", "b-c") == "a-b-c" == DerivedLayerId("a-b", "c");
    assert NonBackground([la]) == [la] && NonBackground([lc]) == [lc];
    var m1 := InitialMap.(sources := map["a-source" := FirstSource(respA.body.value).value]);
    assert WithDatasetSource(InitialMap, "a", respA.body.value) == Some(m1);
    var layer := Rebind("a", la);
    assert LayerAccepted(m1, layer);
    assert [la][1..] == [];
    assert AddStyleLayers(m1, "a", [la]) == AddStyleLayers(WithLayer(m1, layer), "a", []) == WithLayer(m1, layer);
    var r1 := LoadDataset(InitialMap, map[], a, respA);
    assert r1.0 == AddStyleLayers(m1, "a", NonBackground([la]));
    assert "a-b-c" in r1.0.layers && r1.0.layers["a-b-c"].source == "a-source";
    assert r1.0.sources.Keys == {"a-source"};
    LoadDatasetIsolated(r1.0, r1.1, ab, respAB);
    LoadDatasetRegistry(r1.0, r1.1, ab, respAB);
  }

  /** Every listed layer is in the map and bound to its own dataset's source. */
  predicate RegistryOwned(m: MapState, reg: Registry) {
    forall id, l :: id in reg && l in reg[id].layerIds ==> l in m.layers && m.layers[l].source == SourceIdOf(id)
  }

  /** The ids whose layer in the map is bound to the dataset's source. */
  function OwnedIds(m: MapState, datasetId: string, ids: seq<string>): (r: seq<string>)
    ensures forall l :: l in r <==> l in ids && l in m.layers && m.layers[l].source == SourceIdOf(datasetId)
    decreases |ids|
  {
    if ids == [] then []
    else
      var head := if ids[0] in m.layers && m.layers[ids[0]].source == SourceIdOf(datasetId) then [ids[0]] else [];
      head + OwnedIds(m, datasetId, ids[1..])
  }

  /** `loadDatasetLayer` as evidently intended: the entry lists only those
      of its derived ids whose layer in the map is its own. */
  function LoadDatasetOwned(m: MapState, reg: Registry, d: Dataset, resp: Fetched<StyleDoc>): (MapState, Registry) {
    var r := LoadDataset(m, reg, d, resp);
    if Loads(m, d, resp) then
      var e := Entry(d, resp.body.value);
      (r.0, r.1[d.id := e.(layerIds := OwnedIds(r.0, d.id, e.layerIds))])
    else r
  }

  /** The corrected load keeps every entry's layers its own, and still
      lists each layer of a known type that the load itself added. */
  lemma LoadDatasetOwnedKeepsOwnership(m: MapState, reg: Registry, d: Dataset, resp: Fetched<StyleDoc>)
    requires RegistryOwned(m, reg)
    ensures var r := LoadDatasetOwned(m, reg, d, resp);
      RegistryOwned(r.0, r.1)
    ensures Loads(m, d, resp) ==>
      var r := LoadDatasetOwned(m, reg, d, resp);
      var ls := NonBackground(resp.body.value.layers.value);
      && d.id in r.1
      && forall k :: 0 <= k < |ls| && ls[k].kind in LayerTypes && DerivedLayerId(d.id, ls[k].id) !in m.layers ==>
           DerivedLayerId(d.id, ls[k].id) in r.1[d.id].layerIds
  {
    LoadDatasetIsolated(m, reg, d, resp);
    LoadDatasetRegistry(m, reg, d, resp);
    if Loads(m, d, resp) {
      LoadDatasetComplete(m, reg, d, resp);
      var ls := NonBackground(resp.body.value.layers.value);
      var e := Entry(d, resp.body.value);
      forall k | 0 <= k < |ls| && ls[k].kind in LayerTypes && DerivedLayerId(d.id, ls[k].id) !in m.layers
        ensures DerivedLayerId(d.id, ls[k].id) in e.layerIds
      {
        assert e.layerIds[k] == DerivedLayerId(d.id, ls[k].id);
      }
    }
  }

  /** With every entry's layers its own, showing, hiding or fading one
      dataset leaves every layer another entry lists as it was. */
  lemma OwnedMutatorsIsolated(m: MapState, reg: Registry, id: string, other: string, visible: bool, opacity: real)
    requires RegistryOwned(m, reg) && id in reg && other in reg && id != other
    ensures forall l :: l in reg[other].layerIds ==>
      && (var shown := SetVisibility(m, reg[id].layerIds, visible).layers;
          l in shown && shown[l] == m.layers[l])
      && (var faded := SetOpacity(m, reg[id].layerIds, opacity).layers;
          l in faded && faded[l] == m.layers[l])
  {
    SetVisibilityAt(m, reg[id].layerIds, visible);
    SetOpacityAt(m, reg[id].layerIds, opacity);
    forall l | l in reg[other].layerIds
      ensures l !in reg[id].layerIds
    {
      if l in reg[id].layerIds {
        SourceIdOfInjective(id, other);
        assert false;
      }
    }
  }

  // ---------------------------------------------------------------------
  // The application

  datatype Phase = Starting | Failed(message: string) | Ready

  const InitError: string := "Failed to initialize application. Please refresh the page."

  /** The parsed answer of the dataset listing: `data.datasets`, `None`
      when the member is missing. */
  type Listing = Option<seq<Dataset>>

  class TileViewerApp {
    var mapView: MapView?
    var datasets: seq<Dataset>
    var currentLayers: Registry
    var phase: Phase

    /** There is no registry before the map exists, and afterwards every
        entry's source is in the map. */
    predicate Valid()
      reads this, mapView
    {
      (mapView == null ==> currentLayers == map[]) &&
      (mapView != null ==> RegistryValid(mapView.State(), currentLayers))
    }

    constructor()
      ensures Valid() && mapView == null && datasets == [] && currentLayers == map[] && phase == Starting
    {
      mapView := null;
      datasets := [];
      currentLayers := map[];
      phase := Starting;
    }

    /** `init`: load the dataset list, create the map, load every dataset.
        A failed listing stops before the map is created; a listing
        without `datasets` fails once the map exists. */
    method Init(listing: Fetched<Listing>, styles: map<string, Fetched<StyleDoc>>)
      requires Valid() && mapView == null && phase == Starting
      modifies this
      ensures Valid()
      ensures !listing.Delivered() ==> mapView == null && phase == Failed(InitError) && currentLayers == map[]
      ensures listing.Delivered() ==> mapView != null && fresh(mapView)
      ensures listing.Delivered() && listing.body.value.None? ==>
        mapView.State() == InitialMap && currentLayers == map[] && phase == Failed(InitError)
      ensures listing.Delivered() && listing.body.value.Some? ==>
        && datasets == listing.body.value.value && phase == Ready
        && (mapView.State(), currentLayers) == LoadAll(InitialMap, map[], datasets, styles)
    {
      if !listing.Delivered() {
        phase := Failed(InitError);
        return;
      }
      var m := new MapView();
      mapView := m;
      if listing.body.value.None? {
        phase := Failed(InitError);
        return;
      }
      datasets := listing.body.value.value;
      LoadInitialLayers(styles);
      phase := Ready;
    }

    /** `loadDatasetLayer`, with the style response as an input. */
    method LoadDatasetLayer(d: Dataset, resp: Fetched<StyleDoc>)
      requires Valid() && mapView != null
      modifies this, mapView
      ensures Valid() && mapView == old(mapView) && datasets == old(datasets) && phase == old(phase)
      ensures (mapView.State(), currentLayers) == LoadDataset(old(mapView.State()), old(currentLayers), d, resp)
    {
      var m := mapView;
      LoadDatasetValid(m.State(), currentLayers, d, resp);
      if !resp.Delivered() {
        return;
      }
      var doc := resp.body.value;
      var sourceId := SourceIdOf(d.id);
      if sourceId !in m.sources {
        var ok := m.AddSource(sourceId, FirstSource(doc));
        if !ok {
          return;
        }
      }
      if doc.layers.None? {
        return;
      }
      var layers := NonBackground(doc.layers.value);
      ghost var m1 := m.State();
      var k := 0;
      while k < |layers|
        invariant 0 <= k <= |layers|
        invariant AddStyleLayers(m.State(), d.id, layers[k..]) == AddStyleLayers(m1, d.id, layers)
        modifies m
      {
        assert layers[k..][1..] == layers[k + 1..];
        var layerId := DerivedLayerId(d.id, layers[k].id);
        if layerId !in m.layers {
          m.AddLayer(Rebind(d.id, layers[k]));
        }
        k := k + 1;
      }
      assert layers[k..] == [];
      currentLayers := currentLayers[d.id := LayerEntry(d, sourceId, DerivedIds(d.id, layers), true, 1.0)];
    }

    /** `loadInitialLayers`: every dataset in list order, one at a time. */
    method LoadInitialLayers(styles: map<string, Fetched<StyleDoc>>)
      requires Valid() && mapView != null
      modifies this, mapView
      ensures Valid() && mapView == old(mapView) && datasets == old(datasets) && phase == old(phase)
      ensures (mapView.State(), currentLayers) == LoadAll(old(mapView.State()), old(currentLayers), datasets, styles)
    {
      var i := 0;
      while i < |datasets|
        invariant 0 <= i <= |datasets|
        invariant Valid() && mapView == old(mapView) && datasets == old(datasets) && phase == old(phase)
        invariant LoadAll(mapView.State(), currentLayers, datasets[i..], styles) ==
                  LoadAll(old(mapView.State()), old(currentLayers), datasets, styles)
      {
        assert datasets[i..][1..] == datasets[i + 1..];
        LoadDatasetLayer(datasets[i], TileSource.StyleFetch(styles, datasets[i].id));
        i := i + 1;
      }
    }

    /** `toggleLayerVisibility`: no change for an unknown dataset;
        otherwise every layer of the dataset is shown or hidden and the
        entry records the flag. */
    method ToggleLayerVisibility(datasetId: string, visible: bool)
      requires Valid()
      modifies this, mapView
      ensures Valid() && mapView == old(mapView) && datasets == old(datasets) && phase == old(phase)
      ensures datasetId !in old(currentLayers) ==>
        currentLayers == old(currentLayers) && (mapView != null ==> mapView.State() == old(mapView.State()))
      ensures datasetId in old(currentLayers) ==>
        && mapView != null
        && mapView.State() == SetVisibility(old(mapView.State()), old(currentLayers)[datasetId].layerIds, visible)
        && currentLayers == old(currentLayers)[datasetId := old(currentLayers)[datasetId].(visible := visible)]
    {
      if datasetId in currentLayers {
        var m := mapView;
        var info := currentLayers[datasetId];
        var ids := info.layerIds;
        var k := 0;
        while k < |ids|
          invariant 0 <= k <= |ids|
          invariant m.State() == SetVisibility(old(m.State()), ids[..k], visible)
          modifies m
        {
          m.SetLayoutProperty(ids[k], "visibility", VisibilityValue(visible));
          assert ids[..k + 1][..k] == ids[..k];
          k := k + 1;
        }
        assert ids[..k] == ids;
        SetVisibilityAt(old(m.State()), ids, visible);
        currentLayers := currentLayers[datasetId := info.(visible := visible)];
      }
    }

    /** `setLayerOpacity`: no change for an unknown dataset; otherwise
        each line, fill and circle layer of the dataset gets the opacity
        and the entry records it. */
    method SetLayerOpacity(datasetId: string, opacity: real)
      requires Valid()
      modifies this, mapView
      ensures Valid() && mapView == old(mapView) && datasets == old(datasets) && phase == old(phase)
      ensures datasetId !in old(currentLayers) ==>
        currentLayers == old(currentLayers) && (mapView != null ==> mapView.State() == old(mapView.State()))
      ensures datasetId in old(currentLayers) ==>
        && mapView != null
        && mapView.State() == SetOpacity(old(mapView.State()), old(currentLayers)[datasetId].layerIds, opacity)
        && currentLayers == old(currentLayers)[datasetId := old(currentLayers)[datasetId].(opacity := opacity)]
    {
      if datasetId in currentLayers {
        var info := currentLayers[datasetId];
        ghost var before := mapView.State();
        ApplyOpacity(mapView, info.layerIds, opacity);
        SetOpacityAt(before, info.layerIds, opacity);
        currentLayers := currentLayers[datasetId := info.(opacity := opacity)];
      }
    }
  }
}
