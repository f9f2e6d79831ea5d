/** The records exchanged between the backend and the frontend: dataset
    descriptors and style documents. */
module Schema {
  import opened Wrappers
  import opened Json

  /** One entry of an MBTiles file's `vector_layers` list: its `id` ("" when
      the entry has none) and all of its members. */
  datatype VectorLayer = VectorLayer(id: string, members: JsonObject)

  /** The `styling_options` a dataset's configuration declares. */
  datatype StylingOptions = StylingOptions(
    categoricalFields: seq<string>,
    numericFields: seq<string>,
    availableTemplates: seq<string>)

  /** A dataset descriptor as `/api/datasets` lists it. */
  datatype Dataset = Dataset(
    id: string,
    name: string,
    kind: string,
    format: string,
    bounds: seq<real>,
    minzoom: int,
    maxzoom: int,
    vectorLayers: seq<VectorLayer>,
    stylingOptions: StylingOptions)

  /** A style layer: its id, `type`, `source` and `source-layer` ("" when
      absent), its `paint` and `layout` objects, and every other member. */
  datatype Layer = Layer(
    id: string,
    kind: string,
    source: string,
    sourceLayer: string,
    paint: JsonObject,
    layout: JsonObject,
    rest: JsonObject)

  /** A style document as parsed from JSON. `sources` keeps the order of its
      members, since the frontend takes the first one; a missing `version`,
      `sources` or `layers` member is `None`; `rest` holds every other
      top-level member. */
  datatype StyleDoc = StyleDoc(
    version: Option<Json>,
    sources: Option<seq<(string, JsonObject)>>,
    layers: Option<seq<Layer>>,
    rest: JsonObject)

  /** The keys of an ordered member list. */
  function Keys<V>(members: seq<(string, V)>): (ks: seq<string>)
    ensures |ks| == |members|
    ensures forall i :: 0 <= i < |members| ==> ks[i] == members[i].0
  {
    seq(|members|, i requires 0 <= i < |members| => members[i].0)
  }

  // ---------------------------------------------------------------------
  // Ids derived from a dataset id (shared by the composite style and the
  // layer registry)

  /** `${datasetId}-source`. */
  function SourceIdOf(datasetId: string): string {
    datasetId + "-source"
  }

  /** Different datasets get different source ids. */
  lemma SourceIdOfInjective(a: string, b: string)
    requires SourceIdOf(a) == SourceIdOf(b)
    ensures a == b
  {
    assert |a| == |b|;
    assert a == SourceIdOf(a)[..|a|];
  }

  /** `${datasetId}-${styleLayerId}`. */
  function DerivedLayerId(datasetId: string, styleLayerId: string): (id: string)
    ensures |id| == |datasetId| + 1 + |styleLayerId|
    ensures id[..|datasetId|] == datasetId && id[|datasetId|] == '-'
  {
    datasetId + "-" + styleLayerId
  }

  /** A derived id always holds a '-', so it is never "background". */
  lemma DerivedLayerIdIsNotBackground(datasetId: string, styleLayerId: string)
    ensures DerivedLayerId(datasetId, styleLayerId) != "background"
  {
    var id := DerivedLayerId(datasetId, styleLayerId);
    assert id[|datasetId|] == '-';
    assert forall i :: 0 <= i < |"background"| ==> "background"[i] != '-';
  }

  /** Two datasets can derive the same layer id: "a" with style layer "b-c"
      and "a-b" with style layer "c" both give "a-b-c". */
  lemma DerivedLayerIdsCanCollide()
    ensures DerivedLayerId("a", "b-c") == DerivedLayerId("a-b", "c")
  {
  }

  /** `layers.filter(layer => layer.id !== 'background')`. */
  function NonBackground(layers: seq<Layer>): (r: seq<Layer>)
    ensures |r| <= |layers|
    decreases |layers|
  {
    if layers == [] then []
    else if layers[0].id != "background" then [layers[0]] + NonBackground(layers[1..])
    else NonBackground(layers[1..])
  }

  /** The filter keeps exactly the layers not called "background". */
  lemma {:induction false} NonBackgroundMembers(layers: seq<Layer>)
    ensures forall l :: l in NonBackground(layers) <==> l in layers && l.id != "background"
    decreases |layers|
  {
    if layers != [] {
      NonBackgroundMembers(layers[1..]);
      assert forall l :: l in layers <==> l == layers[0] || l in layers[1..];
    }
  }

  /** ... and keeps their order. */
  lemma {:induction false} NonBackgroundOrder(layers: seq<Layer>, i: nat, j: nat)
    requires i < j < |NonBackground(layers)|
    ensures exists p, q :: 0 <= p < q < |layers| && layers[p] == NonBackground(layers)[i] && layers[q] == NonBackground(layers)[j]
    decreases |layers|
  {
    var nb := NonBackground(layers);
    var rest := NonBackground(layers[1..]);
    if layers[0].id != "background" {
      if i == 0 {
        NonBackgroundMembers(layers[1..]);
        assert nb[j] == rest[j - 1] && rest[j - 1] in rest;
        var q :| 0 <= q < |layers[1..]| && layers[1..][q] == nb[j];
        assert layers[0] == nb[0] && layers[q + 1] == nb[j];
      } else {
        NonBackgroundOrder(layers[1..], i - 1, j - 1);
        var p, q :| 0 <= p < q < |layers[1..]| && layers[1..][p] == rest[i - 1] && layers[1..][q] == rest[j - 1];
        assert layers[p + 1] == nb[i] && layers[q + 1] == nb[j];
      }
    } else {
      NonBackgroundOrder(layers[1..], i, j);
      var p, q :| 0 <= p < q < |layers[1..]| && layers[1..][p] == rest[i] && layers[1..][q] == rest[j];
      assert layers[p + 1] == nb[i] && layers[q + 1] == nb[j];
    }
  }

  /** A style layer re-identified for a dataset and bound to its source:
      `{...layer, id: ${datasetId}-${layer.id}, source: ${datasetId}-source}`. */
  function Rebind(datasetId: string, layer: Layer): (r: Layer)
    ensures r.id == DerivedLayerId(datasetId, layer.id) && r.source == SourceIdOf(datasetId)
    ensures r.kind == layer.kind && r.sourceLayer == layer.sourceLayer
    ensures r.paint == layer.paint && r.layout == layer.layout && r.rest == layer.rest
  {
    layer.(id := DerivedLayerId(datasetId, layer.id), source := SourceIdOf(datasetId))
  }

  /** The derived ids of a dataset's layers, in style order. */
  function DerivedIds(datasetId: string, layers: seq<Layer>): (ids: seq<string>)
    ensures |ids| == |layers|
    ensures forall k :: 0 <= k < |layers| ==> ids[k] == DerivedLayerId(datasetId, layers[k].id)
  {
    seq(|layers|, k requires 0 <= k < |layers| => DerivedLayerId(datasetId, layers[k].id))
  }
}
