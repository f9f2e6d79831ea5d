/** The tile source manager: tile and style URLs, source configurations,
    style validation, the composite map style, and format switching. It
    keeps no state of its own; every fetch result is an input. */
module TileSource {
  import opened Wrappers
  import opened Text
  import opened Json
  import opened Schema

  const BaseUrl: string := "http://localhost:8080"
  const ApiUrl: string := "http://localhost:8000/api"
  const TilePrefix: string := BaseUrl + "/data/"
  const TileSuffix: string := "/{z}/{x}/{y}.pbf"

  // ---------------------------------------------------------------------
  // Tile URLs

  /** `getTileUrl`: the dataset id between a fixed prefix and the fixed
      `{z}/{x}/{y}` template. */
  function TileUrl(datasetId: string): (url: string)
    ensures |url| == |TilePrefix| + |datasetId| + |TileSuffix|
    ensures url[..|TilePrefix|] == TilePrefix
    ensures url[|TilePrefix|..|url| - |TileSuffix|] == datasetId
    ensures url[|url| - |TileSuffix|..] == TileSuffix
  {
    TilePrefix + datasetId + TileSuffix
  }

  /** Different datasets get different tile URLs. */
  lemma TileUrlInjective(a: string, b: string)
    requires TileUrl(a) == TileUrl(b)
    ensures a == b
  {
    var u := TileUrl(a);
    assert a == u[|TilePrefix|..|u| - |TileSuffix|];
  }

  // ---------------------------------------------------------------------
  // Style URLs and the query string

  /** Characters `URLSearchParams` writes as they are. */
  predicate Unreserved(c: char) {
    ('a' <= c <= 'z') || ('A' <= c <= 'Z') || ('0' <= c <= '9') || c == '*' || c == '-' || c == '.' || c == '_'
  }

  /** The UTF-8 bytes of a character. */
  function Utf8(c: char): (bytes: seq<nat>)
    ensures 1 <= |bytes| <= 4 && forall i :: 0 <= i < |bytes| ==> bytes[i] < 256
  {
    var n := c as int;
    if n < 0x80 then [n]
    else if n < 0x800 then [0xC0 + n / 64, 0x80 + n % 64]
    else if n < 0x10000 then [0xE0 + n / 4096, 0x80 + (n / 64) % 64, 0x80 + n % 64]
    else [0xF0 + n / 262144, 0x80 + (n / 4096) % 64, 0x80 + (n / 64) % 64, 0x80 + n % 64]
  }

  function HexDigit(d: nat): (c: char)
    requires d < 16
    ensures ('0' <= c <= '9') || ('A' <= c <= 'F')
  {
    if d < 10 then (d + '0' as int) as char else (d - 10 + 'A' as int) as char
  }

  /** `%XY` for each byte. */
  function PercentBytes(bytes: seq<nat>): (s: string)
    requires forall i :: 0 <= i < |bytes| ==> bytes[i] < 256
    ensures forall i :: 0 <= i < |s| ==> s[i] == '%' || ('0' <= s[i] <= '9') || ('A' <= s[i] <= 'F')
  {
    if bytes == [] then ""
    else ['%', HexDigit(bytes[0] / 16), HexDigit(bytes[0] % 16)] + PercentBytes(bytes[1..])
  }

  /** The application/x-www-form-urlencoded serialisation of one name or value. */
  function FormEncode(s: string): string
    decreases |s|
  {
    if s == [] then ""
    else
      var head := if Unreserved(s[0]) then [s[0]] else if s[0] == ' ' then "+" else PercentBytes(Utf8(s[0]));
      head + FormEncode(s[1..])
  }

  /** An encoded name or value holds none of the characters that delimit
      the parts of a URL or of its query. */
  lemma {:induction false} FormEncodeSafe(s: string)
    ensures forall i :: 0 <= i < |FormEncode(s)| ==>
              FormEncode(s)[i] !in {'&', '=', '?', '#', ' '}
    decreases |s|
  {
    if s != [] {
      FormEncodeSafe(s[1..]);
    }
  }

  /** Names made of unreserved characters are written as they are. */
  lemma {:induction false} FormEncodeUnreserved(s: string)
    requires forall i :: 0 <= i < |s| ==> Unreserved(s[i])
    ensures FormEncode(s) == s
    decreases |s|
  {
    if s != [] {
      FormEncodeUnreserved(s[1..]);
      assert s == [s[0]] + s[1..];
    }
  }

  /** One `name=value` pair. */
  function Param(p: (string, string)): string {
    FormEncode(p.0) + "=" + FormEncode(p.1)
  }

  /** `params.toString()`: the pairs joined with '&'. */
  function QueryString(params: seq<(string, string)>): string {
    if params == [] then ""
    else if |params| == 1 then Param(params[0])
    else Param(params[0]) + "&" + QueryString(params[1..])
  }

  /** The style URL: no query without a template or field; otherwise the
      template parameter, then the field parameter. An empty string stands
      for an absent (null) argument. */
  function StyleUrl(datasetId: string, template: string, field: string): string {
    var base := ApiUrl + "/styles/" + datasetId;
    if template == "" && field == "" then base
    else if field == "" then base + "?template=" + FormEncode(template)
    else if template == "" then base + "?field=" + FormEncode(field)
    else base + "?template=" + FormEncode(template) + "&field=" + FormEncode(field)
  }

  lemma ParamTemplate(v: string)
    ensures Param(("template", v)) == "template=" + FormEncode(v)
  {
    FormEncodeUnreserved("template");
  }

  lemma ParamField(v: string)
    ensures Param(("field", v)) == "field=" + FormEncode(v)
  {
    FormEncodeUnreserved("field");
  }

  lemma QueryBoth(base: string, t: string, f: string)
    ensures base + "?" + QueryString([("template", t), ("field", f)]) ==
            base + "?template=" + FormEncode(t) + "&field=" + FormEncode(f)
  {
    ParamTemplate(t);
    ParamField(f);
    var ps := [("template", t), ("field", f)];
    assert ps[1..] == [("field", f)];
    assert QueryString(ps) == "template=" + FormEncode(t) + "&" + ("field=" + FormEncode(f));
    QueryBothText(base, FormEncode(t), FormEncode(f));
  }

  lemma QueryBothText(base: string, x: string, y: string)
    ensures base + "?" + ("template=" + x + "&" + ("field=" + y)) == base + "?template=" + x + "&field=" + y
  {
    assert "?template=" == "?" + "template=";
    assert "&field=" == "&" + "field=";
  }

  /** The parameters `getStyleUrl` sets, in the order it sets them. */
  function StyleParams(template: string, field: string): seq<(string, string)> {
    (if template != "" then [("template", template)] else []) + (if field != "" then [("field", field)] else [])
  }

  /** The style URL is the base followed by the serialised parameters,
      with a '?' only when there is something to serialise. */
  lemma StyleUrlFromParams(datasetId: string, template: string, field: string)
    ensures var base, q := ApiUrl + "/styles/" + datasetId, QueryString(StyleParams(template, field));
      StyleUrl(datasetId, template, field) == if q == "" then base else base + "?" + q
  {
    if template != "" && field != "" {
      StyleUrlBoth(datasetId, template, field);
    } else if template != "" {
      StyleUrlTemplate(datasetId, template);
    } else if field != "" {
      StyleUrlField(datasetId, field);
    } else {
      assert StyleParams(template, field) == [];
    }
  }

  lemma StyleUrlBoth(datasetId: string, template: string, field: string)
    requires template != "" && field != ""
    ensures var q := QueryString(StyleParams(template, field));
      q != "" && StyleUrl(datasetId, template, field) == ApiUrl + "/styles/" + datasetId + "?" + q
  {
    var ps := StyleParams(template, field);
    assert ps == [("template", template), ("field", field)];
    QueryBoth(ApiUrl + "/styles/" + datasetId, template, field);
    ParamTemplate(template);
  }

  lemma StyleUrlTemplate(datasetId: string, template: string)
    requires template != ""
    ensures var q := QueryString(StyleParams(template, ""));
      q != "" && StyleUrl(datasetId, template, "") == ApiUrl + "/styles/" + datasetId + "?" + q
  {
    assert StyleParams(template, "") == [("template", template)];
    ParamTemplate(template);
  }

  lemma StyleUrlField(datasetId: string, field: string)
    requires field != ""
    ensures var q := QueryString(StyleParams("", field));
      q != "" && StyleUrl(datasetId, "", field) == ApiUrl + "/styles/" + datasetId + "?" + q
  {
    assert StyleParams("", field) == [("field", field)];
    ParamField(field);
  }

  /** `getStyleUrl`: builds the parameter list, then appends its
      serialisation when it is not empty. */
  method GetStyleUrl(datasetId: string, template: string, field: string) returns (url: string)
    ensures url == StyleUrl(datasetId, template, field)
  {
    url := ApiUrl + "/styles/" + datasetId;
    var params: seq<(string, string)> := [];
    if template != "" {
      params := params + [("template", template)];
    }
    if field != "" {
      params := params + [("field", field)];
    }
    assert params == StyleParams(template, field);
    var query := QueryString(params);
    if query != "" {
      url := url + "?" + query;
    }
    StyleUrlFromParams(datasetId, template, field);
  }

  /** For a dataset id without '?', the style URL has a query part exactly
      when a template or a field is given, and the parameter values cannot
      be mistaken for separators. */
  lemma StyleUrlQueryMark(datasetId: string, template: string, field: string)
    requires '?' !in datasetId
    ensures ('?' in StyleUrl(datasetId, template, field)) <==> (template != "" || field != "")
  {
    var base := ApiUrl + "/styles/" + datasetId;
    assert '?' !in ApiUrl + "/styles/";
    assert '?' !in base;
    var url := StyleUrl(datasetId, template, field);
    if template != "" || field != "" {
      assert url[|base|] == '?';
    }
  }

  // ---------------------------------------------------------------------
  // Source configuration

  /** JSON numbers for a list of coordinates. */
  function JsonNumbers(xs: seq<real>): (j: seq<Json>)
    ensures |j| == |xs| && forall i :: 0 <= i < |xs| ==> j[i] == JNum(xs[i])
  {
    seq(|xs|, i requires 0 <= i < |xs| => JNum(xs[i]))
  }

  /** `createSourceConfig`: a vector source with the dataset's one tile URL;
      zoom levels that are 0 (falsy) default to 0 and 14. */
  function CreateSourceConfig(d: Dataset): (src: JsonObject)
    ensures src.Keys == {"type", "tiles", "minzoom", "maxzoom", "bounds"}
    ensures src["type"] == JStr("vector")
    ensures src["tiles"] == JArr([JStr(TileUrl(d.id))])
    ensures src["minzoom"] == JNum(d.minzoom as real)
    ensures src["maxzoom"] == JNum(if d.maxzoom == 0 then 14.0 else d.maxzoom as real)
    ensures src["bounds"] == JArr(JsonNumbers(d.bounds))
  {
    map[
      "type" := JStr("vector"),
      "tiles" := JArr([JStr(TileUrl(d.id))]),
      "minzoom" := JNum((if d.minzoom != 0 then d.minzoom else 0) as real),
      "maxzoom" := JNum((if d.maxzoom != 0 then d.maxzoom else 14) as real),
      "bounds" := JArr(JsonNumbers(d.bounds))
    ]
  }

  // ---------------------------------------------------------------------
  // Style loading

  /** `loadStyle` after its fetch: rejects a failed request, a non-ok
      response, an unparsable body and a document without a truthy
      `version` or without `layers`; otherwise yields the document as it is. */
  function LoadStyle(fetched: Fetched<StyleDoc>): (r: Result<StyleDoc>)
    ensures r.Ok? <==>
      fetched.Delivered() && fetched.body.value.version.Some? &&
      Truthy(fetched.body.value.version.value) && fetched.body.value.layers.Some?
    ensures r.Ok? ==> r.value == fetched.body.value
  {
    match fetched
    case NetworkError => Err("Failed to fetch")
    case Response(ok, status, body) =>
      if !ok then Err("HTTP error! status: " + IntToString(status))
      else if body.None? then Err("Invalid JSON")
      else if body.value.version.None? || !Truthy(body.value.version.value) || body.value.layers.None? then
        Err("Invalid style format")
      else Ok(body.value)
  }

  // ---------------------------------------------------------------------
  // The composite map style

  datatype MapStyle = MapStyle(version: int, name: string, sources: map<string, JsonObject>, layers: seq<Layer>)

  const BackgroundLayer: Layer :=
    Layer("background", "background", "", "", map["background-color" := JStr("#2C3E50")], map[], map[])

  /** The style response the server gives for a dataset id. */
  function StyleFetch(styles: map<string, Fetched<StyleDoc>>, datasetId: string): Fetched<StyleDoc> {
    if datasetId in styles then styles[datasetId] else NetworkError
  }

  /** `guessSourceLayer`: the first declared vector layer, else a name
      guessed from the id (road, then power, then rail), else "default". */
  function GuessSourceLayer(d: Dataset): (name: string)
    ensures |d.vectorLayers| > 0 ==> name == d.vectorLayers[0].id
    ensures |d.vectorLayers| == 0 ==> name in {"roads", "power_lines", "railways", "default"}
    ensures |d.vectorLayers| == 0 && Contains(d.id, "road") ==> name == "roads"
    ensures |d.vectorLayers| == 0 && !Contains(d.id, "road") && Contains(d.id, "power") ==> name == "power_lines"
    ensures |d.vectorLayers| == 0 && !Contains(d.id, "road") && !Contains(d.id, "power") && Contains(d.id, "rail") ==>
              name == "railways"
    ensures |d.vectorLayers| == 0 && !Contains(d.id, "road") && !Contains(d.id, "power") && !Contains(d.id, "rail") ==>
              name == "default"
  {
    if |d.vectorLayers| > 0 then d.vectorLayers[0].id
    else if Contains(d.id, "road") then "roads"
    else if Contains(d.id, "power") then "power_lines"
    else if Contains(d.id, "rail") then "railways"
    else "default"
  }

  /** The single grey line layer used when a dataset's style does not load. */
  function FallbackLayer(d: Dataset): Layer {
    Layer(d.id + "-fallback", "line", SourceIdOf(d.id), GuessSourceLayer(d),
          map["line-color" := JStr("#95a5a6"), "line-width" := JNum(2.0), "line-opacity" := JNum(0.8)],
          map[], map[])
  }

  /** Every style layer rebound to the dataset, in order. */
  function RebindAll(datasetId: string, layers: seq<Layer>): (r: seq<Layer>)
    ensures |r| == |layers| && forall k :: 0 <= k < |layers| ==> r[k] == Rebind(datasetId, layers[k])
  {
    seq(|layers|, k requires 0 <= k < |layers| => Rebind(datasetId, layers[k]))
  }

  /** The layers one dataset contributes to the composite style. */
  function DatasetLayers(d: Dataset, styles: map<string, Fetched<StyleDoc>>): seq<Layer> {
    match LoadStyle(StyleFetch(styles, d.id))
    case Ok(doc) => RebindAll(d.id, NonBackground(doc.layers.value))
    case Err(_) => [FallbackLayer(d)]
  }

  /** The layers of all datasets, dataset after dataset. */
  function AllDatasetLayers(ds: seq<Dataset>, styles: map<string, Fetched<StyleDoc>>): seq<Layer>
    decreases |ds|
  {
    if ds == [] then [] else AllDatasetLayers(ds[..|ds| - 1], styles) + DatasetLayers(ds[|ds| - 1], styles)
  }

  /** The sources the loop assigns; a later dataset with the same id wins. */
  function SourcesFor(ds: seq<Dataset>): map<string, JsonObject>
    decreases |ds|
  {
    if ds == [] then map[]
    else SourcesFor(ds[..|ds| - 1])[SourceIdOf(ds[|ds| - 1].id) := CreateSourceConfig(ds[|ds| - 1])]
  }

  /** The inner `forEach` of `createMapStyle`: appends the style layers,
      each rebound to the dataset. */
  method AppendRebound(layers: seq<Layer>, datasetId: string, styleLayers: seq<Layer>) returns (r: seq<Layer>)
    ensures r == layers + RebindAll(datasetId, styleLayers)
  {
    r := layers;
    var k := 0;
    while k < |styleLayers|
      invariant 0 <= k <= |styleLayers|
      invariant r == layers + RebindAll(datasetId, styleLayers[..k])
    {
      assert RebindAll(datasetId, styleLayers[..k + 1]) == RebindAll(datasetId, styleLayers[..k]) + [Rebind(datasetId, styleLayers[k])];
      r := r + [Rebind(datasetId, styleLayers[k])];
      k := k + 1;
    }
    assert styleLayers[..k] == styleLayers;
  }

  /** The layers one dataset adds: its style's layers when the style
      loads, else the fallback layer. */
  method AppendDatasetLayers(layers: seq<Layer>, dataset: Dataset, styles: map<string, Fetched<StyleDoc>>)
    returns (r: seq<Layer>)
    ensures r == layers + DatasetLayers(dataset, styles)
  {
    var loaded := LoadStyle(StyleFetch(styles, dataset.id));
    if loaded.Ok? {
      r := AppendRebound(layers, dataset.id, NonBackground(loaded.value.layers.value));
    } else {
      r := layers + [FallbackLayer(dataset)];
    }
  }

  /** One more dataset of the loop: its source is assigned and its layers
      are appended. */
  lemma PrefixStep(ds: seq<Dataset>, i: nat, styles: map<string, Fetched<StyleDoc>>)
    requires i < |ds|
    ensures [BackgroundLayer] + AllDatasetLayers(ds[..i + 1], styles) ==
            ([BackgroundLayer] + AllDatasetLayers(ds[..i], styles)) + DatasetLayers(ds[i], styles)
    ensures SourcesFor(ds[..i + 1]) == SourcesFor(ds[..i])[SourceIdOf(ds[i].id) := CreateSourceConfig(ds[i])]
  {
    assert ds[..i + 1][..i] == ds[..i];
    Associative([BackgroundLayer], AllDatasetLayers(ds[..i], styles), DatasetLayers(ds[i], styles));
  }

  lemma Associative<T>(a: seq<T>, b: seq<T>, c: seq<T>)
    ensures a + (b + c) == (a + b) + c
  {
  }

  /** `createMapStyle`: a background layer, then for each dataset its source
      and either its style's layers or the fallback layer. */
  method CreateMapStyle(datasets: seq<Dataset>, styles: map<string, Fetched<StyleDoc>>) returns (style: MapStyle)
    ensures style.version == 8 && style.name == "Colorado Infrastructure"
    ensures style.layers == [BackgroundLayer] + AllDatasetLayers(datasets, styles)
    ensures style.sources == SourcesFor(datasets)
  {
    var sources: map<string, JsonObject> := map[];
    var layers: seq<Layer> := [BackgroundLayer];
    var i := 0;
    while i < |datasets|
      invariant 0 <= i <= |datasets|
      invariant sources == SourcesFor(datasets[..i])
      invariant layers == [BackgroundLayer] + AllDatasetLayers(datasets[..i], styles)
    {
      var dataset := datasets[i];
      sources := sources[SourceIdOf(dataset.id) := CreateSourceConfig(dataset)];
      layers := AppendDatasetLayers(layers, dataset, styles);
      PrefixStep(datasets, i, styles);
      i := i + 1;
    }
    assert datasets[..i] == datasets;
    style := MapStyle(8, "Colorado Infrastructure", sources, layers);
  }

  /** Dataset order is kept: the layers of a concatenation are the
      concatenation of the layers. */
  lemma {:induction false} AllDatasetLayersAppend(a: seq<Dataset>, b: seq<Dataset>, styles: map<string, Fetched<StyleDoc>>)
    ensures AllDatasetLayers(a + b, styles) == AllDatasetLayers(a, styles) + AllDatasetLayers(b, styles)
    decreases |b|
  {
    if b == [] {
      assert a + b == a;
    } else {
      var init, last := b[..|b| - 1], b[|b| - 1];
      AllDatasetLayersAppend(a, init, styles);
      assert (a + b)[..|a + b| - 1] == a + init;
      assert (a + b)[|a + b| - 1] == last;
      assert AllDatasetLayers(a + b, styles) == AllDatasetLayers(a + init, styles) + DatasetLayers(last, styles);
      assert AllDatasetLayers(b, styles) == AllDatasetLayers(init, styles) + DatasetLayers(last, styles);
      Associative(AllDatasetLayers(a, styles), AllDatasetLayers(init, styles), DatasetLayers(last, styles));
    }
  }

  /** A dataset whose style loads contributes its non-background layers in
      order, each renamed `${id}-${layer.id}` and bound to `${id}-source`;
      one whose style fails contributes exactly the fallback line layer. */
  lemma DatasetLayersShape(d: Dataset, styles: map<string, Fetched<StyleDoc>>)
    ensures LoadStyle(StyleFetch(styles, d.id)).Ok? ==>
      var nb := NonBackground(LoadStyle(StyleFetch(styles, d.id)).value.layers.value);
      var r := DatasetLayers(d, styles);
      && |r| == |nb|
      && forall k :: 0 <= k < |r| ==>
           r[k].id == DerivedLayerId(d.id, nb[k].id) && r[k].source == SourceIdOf(d.id)
           && r[k].kind == nb[k].kind && r[k].paint == nb[k].paint && r[k].layout == nb[k].layout
    ensures LoadStyle(StyleFetch(styles, d.id)).Err? ==>
      var r := DatasetLayers(d, styles);
      |r| == 1 && r[0].id == d.id + "-fallback" && r[0].kind == "line" && r[0].source == SourceIdOf(d.id)
  {
  }

  /** Every dataset gets its source, loaded style or not, and no other
      source is added. */
  lemma {:induction false} SourcesForKeys(ds: seq<Dataset>)
    ensures SourcesFor(ds).Keys == set d | d in ds :: SourceIdOf(d.id)
    decreases |ds|
  {
    if ds != [] {
      var init := ds[..|ds| - 1];
      SourcesForKeys(init);
      assert forall d :: d in ds <==> d in init || d == ds[|ds| - 1];
    }
  }

  /** A dataset's source holds its own configuration unless a later dataset
      has the same id. */
  lemma {:induction false} SourcesForValue(ds: seq<Dataset>, i: nat)
    requires i < |ds|
    requires forall j :: i < j < |ds| ==> ds[j].id != ds[i].id
    ensures SourceIdOf(ds[i].id) in SourcesFor(ds)
    ensures SourcesFor(ds)[SourceIdOf(ds[i].id)] == CreateSourceConfig(ds[i])
    decreases |ds|
  {
    if i < |ds| - 1 {
      var init := ds[..|ds| - 1];
      SourcesForValue(init, i);
      assert ds[|ds| - 1].id != ds[i].id;
      if SourceIdOf(ds[|ds| - 1].id) == SourceIdOf(ds[i].id) {
        SourceIdOfInjective(ds[|ds| - 1].id, ds[i].id);
      }
    }
  }

  /** Every dataset layer of the composite style is bound to a source the
      style defines, and none of them is called "background". */
  lemma {:induction false} AllDatasetLayersBound(ds: seq<Dataset>, styles: map<string, Fetched<StyleDoc>>)
    ensures forall l :: l in AllDatasetLayers(ds, styles) ==>
              l.source in SourcesFor(ds) && l.id != "background"
    decreases |ds|
  {
    if ds != [] {
      var init, last := ds[..|ds| - 1], ds[|ds| - 1];
      AllDatasetLayersBound(init, styles);
      forall l | l in DatasetLayers(last, styles)
        ensures l.source == SourceIdOf(last.id) && l.id != "background"
      {
        match LoadStyle(StyleFetch(styles, last.id))
        case Ok(doc) =>
          var nb := NonBackground(doc.layers.value);
          var k :| 0 <= k < |nb| && l == Rebind(last.id, nb[k]);
          DerivedLayerIdIsNotBackground(last.id, nb[k].id);
        case Err(_) =>
          assert l == FallbackLayer(last);
          assert l.id[|last.id|] == '-';
      }
    }
  }

  // ---------------------------------------------------------------------
  // Formats

  /** The answer of `/api/formats/{id}/available`. */
  datatype FormatsDoc = FormatsDoc(formats: seq<string>, current: string, endpoints: map<string, string>)

  /** `getAvailableFormats`: the server's answer, or the single-format
      fallback when the request fails. */
  function AvailableFormats(datasetId: string, fetched: Fetched<FormatsDoc>): (f: FormatsDoc)
    ensures fetched.Delivered() ==> f == fetched.body.value
    ensures !fetched.Delivered() ==>
      f.formats == ["mbtiles"] && f.current == "mbtiles" && f.endpoints == map["mbtiles" := TileUrl(datasetId)]
  {
    if fetched.Delivered() then fetched.body.value
    else FormatsDoc(["mbtiles"], "mbtiles", map["mbtiles" := TileUrl(datasetId)])
  }

  /** `switchFormat`: the endpoint of a listed format, or an error when the
      format is not listed or has no (truthy) endpoint. */
  function SwitchFormat(datasetId: string, format: string, fetched: Fetched<FormatsDoc>): (r: Result<string>)
    ensures var f := AvailableFormats(datasetId, fetched);
      && (r.Ok? <==> format in f.formats && format in f.endpoints && f.endpoints[format] != "")
      && (r.Ok? ==> r.value == f.endpoints[format])
  {
    var f := AvailableFormats(datasetId, fetched);
    if format !in f.formats then Err("Format " + format + " not available for " + datasetId)
    else if format !in f.endpoints || f.endpoints[format] == "" then Err("No endpoint available for format " + format)
    else Ok(f.endpoints[format])
  }

  /** After a failed discovery only "mbtiles" is accepted, and it yields the
      dataset's tile URL. */
  lemma SwitchFormatFallback(datasetId: string, format: string, fetched: Fetched<FormatsDoc>)
    requires !fetched.Delivered()
    ensures SwitchFormat(datasetId, format, fetched).Ok? <==> format == "mbtiles"
    ensures format == "mbtiles" ==> SwitchFormat(datasetId, format, fetched) == Ok(TileUrl(datasetId))
  {
  }
}
