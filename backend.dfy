/** The metadata API: the dataset listing built from the configured
    datasets whose MBTiles file exists, the metadata read from each file,
    and the style endpoint that points vector sources at the tile server.
    The files are inputs: a table from dataset id to the file's metadata
    rows (absent when the file does not exist), a JSON decoder, and the
    parsed style file. */
module Backend {
  import opened Wrappers
  import opened Text
  import opened Json
  import opened Schema
  import TileSource

  // ---------------------------------------------------------------------
  // Configuration

  datatype ConfigEntry = ConfigEntry(name: string, stylingOptions: StylingOptions)

  /** `DATASET_CONFIG`, in its declaration order. */
  const DatasetConfig: seq<(string, ConfigEntry)> := [
    ("co_power_lines", ConfigEntry("Power Lines",
      StylingOptions(["voltage", "line_type"], ["voltage"], ["power_by_voltage"]))),
    ("co_railways", ConfigEntry("Railways",
      StylingOptions(["usage", "type"], [], ["railways_by_usage"]))),
    ("co_roads", ConfigEntry("Roads",
      StylingOptions(["highway", "surface"], ["lanes"], ["roads_by_type"])))
  ]

  const DefaultBounds: seq<real> := [-109.05, 36.99, -102.04, 41.00]

  // ---------------------------------------------------------------------
  // Python's int() and float() on strings

  /** `int(s)`: optional white space around an optional sign and decimal
      digits; `None` where Python raises `ValueError`. */
  function PyInt(s: string): Option<int> {
    SignedInt(Strip(s))
  }

  /** An optional sign and decimal digits, nothing else. */
  function SignedInt(t: string): Option<int> {
    var negative := t != [] && t[0] == '-';
    var body := if t != [] && (t[0] == '-' || t[0] == '+') then t[1..] else t;
    if body == [] || !AllDigits(body) then None
    else
      var v: int := DigitsValue(body);
      Some(if negative then -v else v)
  }

  /** A decimal rendering has no white space at either end. */
  lemma StripIntToString(n: int)
    ensures Strip(IntToString(n)) == IntToString(n)
  {
    var s := IntToString(n);
    var m: nat := if n < 0 then -n else n;
    assert s[|s| - 1] == NatToString(m)[|NatToString(m)| - 1];
    assert !IsSpace(s[0]) && TrimStart(s) == s;
    assert !IsSpace(s[|s| - 1]) && TrimEnd(s) == s;
  }

  /** A decimal rendering reads back as its number. */
  lemma SignedIntOfIntToString(n: int)
    ensures SignedInt(IntToString(n)) == Some(n)
  {
    var m: nat := if n < 0 then -n else n;
    var digits := NatToString(m);
    DigitsValueOfNatToString(m);
    var s := IntToString(n);
    if n < 0 {
      assert s == "-" + digits && s[1..] == digits;
    } else {
      assert s == digits && IsDigit(s[0]);
    }
  }

  /** A zoom level written in decimal is read back as that number. */
  lemma PyIntOfIntToString(n: int)
    ensures PyInt(IntToString(n)) == Some(n)
  {
    StripIntToString(n);
    SignedIntOfIntToString(n);
  }

  function Pow10(n: nat): (p: nat)
    ensures p >= 1
  {
    if n == 0 then 1 else 10 * Pow10(n - 1)
  }

  /** `float(s)` for decimal notation: optional white space around an
      optional sign, digits, and an optional fraction, with at least one
      digit in all; `None` where Python raises `ValueError`. */
  function PyFloat(s: string): Option<Decimal> {
    SignedDecimal(Strip(s))
  }

  /** A number as `float` reads it from decimal notation: its sign, the
      value of its whole digits, and the value and count of its fraction
      digits. */
  datatype Decimal = Decimal(negative: bool, whole: nat, fraction: nat, places: nat)

  /** The number a `Decimal` stands for. */
  function ValueOf(d: Decimal): real {
    var v := d.whole as real + d.fraction as real / Pow10(d.places) as real;
    if d.negative then -v else v
  }

  /** An optional sign, digits and an optional fraction, nothing else. */
  function SignedDecimal(t: string): Option<Decimal> {
    var negative := t != [] && t[0] == '-';
    var body := if t != [] && (t[0] == '-' || t[0] == '+') then t[1..] else t;
    match UnsignedDecimal(body)
    case None => None
    case Some(d) => Some(d.(negative := negative))
  }

  /** Digits and an optional fraction, with at least one digit in all. */
  function UnsignedDecimal(body: string): Option<Decimal> {
    var whole := if '.' in body then body[..IndexOf(body, '.')] else body;
    var fraction := if '.' in body then body[IndexOf(body, '.') + 1..] else "";
    if !AllDigits(whole) || !AllDigits(fraction) || (whole == [] && fraction == []) then None
    else Some(Decimal(false, DigitsValue(whole), DigitsValue(fraction), |fraction|))
  }

  /** The numbers `float` reads from pieces it accepts. */
  function Decimals(pieces: seq<string>): (ds: seq<Decimal>)
    ensures |ds| == |pieces|
    ensures forall k :: 0 <= k < |pieces| && PyFloat(pieces[k]).Some? ==> ds[k] == PyFloat(pieces[k]).value
  {
    seq(|pieces|, k requires 0 <= k < |pieces| => var x := PyFloat(pieces[k]); if x.Some? then x.value else Decimal(false, 0, 0, 0))
  }

  function Values(ds: seq<Decimal>): (vs: seq<real>)
    ensures |vs| == |ds| && forall k :: 0 <= k < |ds| ==> vs[k] == ValueOf(ds[k])
  {
    seq(|ds|, k requires 0 <= k < |ds| => ValueOf(ds[k]))
  }

  /** `[float(x) for x in pieces]`; `None` where a piece raises. */
  function ParsePieces(pieces: seq<string>): Option<seq<real>> {
    if forall k :: 0 <= k < |pieces| ==> PyFloat(pieces[k]).Some? then Some(Values(Decimals(pieces))) else None
  }

  /** `[float(x) for x in s.split(',')]`. */
  function ParseBounds(s: string): Option<seq<real>> {
    ParsePieces(Split(s, ','))
  }

  // ---------------------------------------------------------------------
  // extract_mbtiles_metadata

  /** What `json.loads` makes of the `json` metadata entry. */
  datatype JsonText = Malformed | Parsed(value: Json)

  /** The `vector_layers` step: `None` where Python raises something other
      than a decoding error (`'vector_layers' in v` on a number, boolean
      or null, or indexing a string or list with a string). */
  function VectorLayersOf(decoded: JsonText): Option<Json> {
    match decoded
    case Malformed => Some(JArr([]))
    case Parsed(v) =>
      match v
      case JObj(fields) => Some(if "vector_layers" in fields then fields["vector_layers"] else JArr([]))
      case JStr(s) => if Contains(s, "vector_layers") then None else Some(JArr([]))
      case JArr(items) => if JStr("vector_layers") in items then None else Some(JArr([]))
      case JNull => None
      case JBool(_) => None
      case JNum(_) => None
  }

  /** The record `extract_mbtiles_metadata` returns. */
  datatype Metadata = Metadata(bounds: seq<real>, minzoom: int, maxzoom: int, vectorLayers: Json, rows: map<string, string>)

  /** The record returned when reading fails. */
  const FailureMetadata: Metadata := Metadata(DefaultBounds, 0, 14, JArr([]), map[])

  /** `extract_mbtiles_metadata`: `rows` is the `metadata` table, `None`
      where sqlite fails; `decode` is `json.loads`. Absent keys take the
      defaults; a malformed `json` entry only empties the vector layers;
      any other error gives the failure record. */
  function ExtractMbtilesMetadata(rows: Option<map<string, string>>, decode: string -> JsonText): (r: Metadata)
    ensures rows.None? ==> r == FailureMetadata
  {
    if rows.None? then FailureMetadata
    else
      var md := rows.value;
      var bounds := if "bounds" in md then ParseBounds(md["bounds"]) else Some(DefaultBounds);
      var minzoom := if "minzoom" in md then PyInt(md["minzoom"]) else Some(0);
      var maxzoom := if "maxzoom" in md then PyInt(md["maxzoom"]) else Some(14);
      var layers := if "json" in md then VectorLayersOf(decode(md["json"])) else Some(JArr([]));
      if bounds.None? || minzoom.None? || maxzoom.None? || layers.None? then FailureMetadata
      else Metadata(bounds.value, minzoom.value, maxzoom.value, layers.value, md)
  }

  /** Without `bounds`, `minzoom`, `maxzoom` and `json` rows, the record
      holds the defaults and the rows. */
  lemma MetadataDefaults(md: map<string, string>, decode: string -> JsonText)
    requires "bounds" !in md && "minzoom" !in md && "maxzoom" !in md && "json" !in md
    ensures ExtractMbtilesMetadata(Some(md), decode) == Metadata(DefaultBounds, 0, 14, JArr([]), md)
  {
  }

  /** Present zoom rows written in decimal are read as those numbers. */
  lemma MetadataZooms(md: map<string, string>, decode: string -> JsonText, minzoom: int, maxzoom: int)
    requires "bounds" !in md && "json" !in md
    requires "minzoom" in md && md["minzoom"] == IntToString(minzoom)
    requires "maxzoom" in md && md["maxzoom"] == IntToString(maxzoom)
    ensures ExtractMbtilesMetadata(Some(md), decode) == Metadata(DefaultBounds, minzoom, maxzoom, JArr([]), md)
  {
    PyIntOfIntToString(minzoom);
    PyIntOfIntToString(maxzoom);
  }

  /** Each absent row takes its own default, whatever the other rows hold:
      the Colorado bounds, zoom 0 to 14 and no vector layers. */
  lemma MetadataDefaultPerKey(md: map<string, string>, decode: string -> JsonText)
    ensures var r := ExtractMbtilesMetadata(Some(md), decode);
      && ("bounds" !in md ==> r.bounds == DefaultBounds)
      && ("minzoom" !in md ==> r.minzoom == 0)
      && ("maxzoom" !in md ==> r.maxzoom == 14)
      && ("json" !in md ==> r.vectorLayers == JArr([]))
  {
  }

  /** A `bounds` row `float` cannot read gives the whole failure record. */
  lemma BadBoundsGivesFailure(md: map<string, string>, decode: string -> JsonText)
    requires "bounds" in md && ParseBounds(md["bounds"]).None?
    ensures ExtractMbtilesMetadata(Some(md), decode) == FailureMetadata
  {
  }

  /** Unless reading fails, each present row is read as written: the
      bounds by `ParseBounds`, the zooms by `int`, and the rows are kept. */
  lemma MetadataReadsPresentRows(md: map<string, string>, decode: string -> JsonText)
    ensures var r := ExtractMbtilesMetadata(Some(md), decode);
      r != FailureMetadata ==>
        && r.rows == md
        && ("bounds" in md ==> ParseBounds(md["bounds"]) == Some(r.bounds))
        && ("minzoom" in md ==> PyInt(md["minzoom"]) == Some(r.minzoom))
        && ("maxzoom" in md ==> PyInt(md["maxzoom"]) == Some(r.maxzoom))
        && ("json" in md ==> VectorLayersOf(decode(md["json"])) == Some(r.vectorLayers))
  {
  }

  /** A malformed `json` row empties the vector layers and keeps the rest:
      the bounds and zooms are those read without that row. */
  lemma MalformedJsonKeepsRest(md: map<string, string>, decode: string -> JsonText)
    requires "json" in md && decode(md["json"]) == Malformed
    ensures var r := ExtractMbtilesMetadata(Some(md), decode);
      var without := ExtractMbtilesMetadata(Some(md - {"json"}), decode);
      r.vectorLayers == JArr([]) &&
      (without != FailureMetadata ==> r.bounds == without.bounds && r.minzoom == without.minzoom && r.maxzoom == without.maxzoom)
  {
    var without := md - {"json"};
    assert forall k :: k != "json" ==> (k in without <==> k in md) && (k in md ==> without[k] == md[k]);
  }

  /** A zoom row that is not an integer gives the whole failure record,
      metadata rows included. */
  lemma BadZoomGivesFailure(md: map<string, string>, decode: string -> JsonText)
    requires ("minzoom" in md && PyInt(md["minzoom"]).None?) || ("maxzoom" in md && PyInt(md["maxzoom"]).None?)
    ensures ExtractMbtilesMetadata(Some(md), decode) == FailureMetadata
  {
  }

  /** A string with no white space at its ends is its own strip. */
  lemma StripPlain(s: string)
    requires s != [] && !IsSpace(s[0]) && !IsSpace(s[|s| - 1])
    ensures Strip(s) == s
  {
    assert TrimStart(s) == s;
  }

  /** A number in decimal notation with a point: an optional minus sign,
      the whole digits, '.', the fraction digits. */
  function DecimalText(negative: bool, whole: string, fraction: string): string {
    (if negative then "-" else "") + (whole + "." + fraction)
  }

  /** A decimal with a point has no white space at either end. */
  lemma StripDecimalText(negative: bool, whole: string, fraction: string)
    requires whole != [] && AllDigits(whole) && AllDigits(fraction)
    ensures Strip(DecimalText(negative, whole, fraction)) == DecimalText(negative, whole, fraction)
  {
    var s := DecimalText(negative, whole, fraction);
    var body := whole + "." + fraction;
    assert IsDigit(whole[0]);
    if negative {
      assert s == "-" + body && s[1..] == body;
    } else {
      assert s == body;
    }
    assert s[|s| - 1] == body[|body| - 1];
    assert !IsSpace(body[|body| - 1]) by {
      if fraction == [] {
        assert body[|body| - 1] == '.';
      } else {
        assert body[|body| - 1] == fraction[|fraction| - 1];
      }
    }
    StripPlain(s);
  }

  lemma UnsignedDecimalOfText(whole: string, fraction: string)
    requires whole != [] && AllDigits(whole) && AllDigits(fraction)
    ensures UnsignedDecimal(whole + "." + fraction) == Some(Decimal(false, DigitsValue(whole), DigitsValue(fraction), |fraction|))
  {
    assert '.' !in whole;
    assert whole + "." + fraction == whole + ['.'] + fraction;
    IndexOfCons(whole, fraction, '.');
  }

  /** A leading minus sign marks what follows it as negative. */
  lemma SignedDecimalMinus(body: string, d: Decimal)
    requires UnsignedDecimal(body) == Some(d)
    ensures SignedDecimal("-" + body) == Some(d.(negative := true))
  {
    assert ("-" + body)[1..] == body;
  }

  /** Without a sign, the digits are read as they are. */
  lemma SignedDecimalPlain(body: string)
    requires body != [] && IsDigit(body[0])
    ensures SignedDecimal(body) == UnsignedDecimal(body)
  {
  }

  /** `float` reads a decimal with a point back as the number it denotes:
      its sign, the values of its two runs of digits and the length of the
      fraction. */
  lemma PyFloatOfDecimal(negative: bool, whole: string, fraction: string)
    requires whole != [] && AllDigits(whole) && AllDigits(fraction)
    ensures PyFloat(DecimalText(negative, whole, fraction)) == Some(Decimal(negative, DigitsValue(whole), DigitsValue(fraction), |fraction|))
  {
    StripDecimalText(negative, whole, fraction);
    UnsignedDecimalOfText(whole, fraction);
    var body := whole + "." + fraction;
    if negative {
      SignedDecimalMinus(body, Decimal(false, DigitsValue(whole), DigitsValue(fraction), |fraction|));
    } else {
      assert "" + body == body;
      assert body[0] == whole[0] && IsDigit(whole[0]);
      SignedDecimalPlain(body);
    }
  }

  /** A row of comma-separated numbers each `float` reads is read as the
      list of their values. */
  lemma ParseBoundsOfJoin(pieces: seq<string>, ds: seq<Decimal>)
    requires |pieces| == |ds| >= 1
    requires forall k :: 0 <= k < |pieces| ==> ',' !in pieces[k] && PyFloat(pieces[k]) == Some(ds[k])
    ensures ParseBounds(Join(pieces, ',')) == Some(Values(ds))
  {
    SplitJoin(pieces, ',');
    assert Decimals(pieces) == ds;
  }

  /** A row holding a piece `float` rejects is rejected. */
  lemma ParseBoundsRejects(s: string, k: nat)
    requires k < |Split(s, ',')| && PyFloat(Split(s, ',')[k]).None?
    ensures ParseBounds(s).None?
  {
  }

  // ---------------------------------------------------------------------
  // get_datasets

  /** Pydantic's check of `vector_layers: List[Dict[str, Any]]`. */
  function AsVectorLayers(j: Json): (r: Option<seq<VectorLayer>>)
    ensures r.Some? <==> j.JArr? && forall k :: 0 <= k < |j.items| ==> j.items[k].JObj?
    ensures r.Some? ==> |r.value| == |j.items| && forall k :: 0 <= k < |j.items| ==> r.value[k].members == j.items[k].fields
  {
    if j.JArr? && forall k :: 0 <= k < |j.items| ==> j.items[k].JObj? then Some(LayersOf(j.items)) else None
  }

  /** A `vector_layers` entry: its `id` when that is a string, "" otherwise. */
  function LayerOf(item: Json): VectorLayer {
    var fields := if item.JObj? then item.fields else map[];
    VectorLayer(if "id" in fields && fields["id"].JStr? then fields["id"].s else "", fields)
  }

  function LayersOf(items: seq<Json>): (ls: seq<VectorLayer>)
    ensures |ls| == |items| && forall k :: 0 <= k < |items| ==> ls[k] == LayerOf(items[k])
  {
    seq(|items|, k requires 0 <= k < |items| => LayerOf(items[k]))
  }

  /** The listing entry for a configured dataset whose file exists;
      `None` where the record does not validate. */
  function MakeDataset(id: string, config: ConfigEntry, rows: Option<map<string, string>>, decode: string -> JsonText): Option<Dataset> {
    var md := ExtractMbtilesMetadata(rows, decode);
    match AsVectorLayers(md.vectorLayers)
    case None => None
    case Some(layers) => Some(Dataset(id, config.name, "vector", "mbtiles", md.bounds, md.minzoom, md.maxzoom, layers, config.stylingOptions))
  }

  /** The configured ids whose file exists, in configuration order. */
  function PresentIds(config: seq<(string, ConfigEntry)>, files: map<string, Option<map<string, string>>>): (ids: seq<string>)
    ensures forall id :: id in ids <==> id in files && id in Keys(config)
    decreases |config|
  {
    if config == [] then []
    else
      var init := config[..|config| - 1];
      var last := config[|config| - 1];
      assert Keys(config) == Keys(init) + [last.0];
      var rest := PresentIds(init, files);
      if last.0 in files then rest + [last.0] else rest
  }

  /** The present ids keep configuration order: any two of them are
      configured in the order they are listed. */
  lemma {:induction false} PresentIdsOrder(config: seq<(string, ConfigEntry)>, files: map<string, Option<map<string, string>>>, i: nat, j: nat)
    requires i < j < |PresentIds(config, files)|
    ensures exists p, q ::
      0 <= p < q < |config| && config[p].0 == PresentIds(config, files)[i] && config[q].0 == PresentIds(config, files)[j]
    decreases |config|
  {
    var init := config[..|config| - 1];
    var last := config[|config| - 1];
    var rest := PresentIds(init, files);
    if j < |rest| {
      PresentIdsOrder(init, files, i, j);
      var p, q :| 0 <= p < q < |init| && init[p].0 == rest[i] && init[q].0 == rest[j];
      assert config[p] == init[p] && config[q] == init[q];
    } else {
      assert rest[i] in rest;
      var p :| 0 <= p < |init| && Keys(init)[p] == rest[i];
      assert config[p] == init[p];
    }
  }

  /** `get_datasets` over a prefix of the configuration: `Err` once an
      entry fails validation (the request then fails). */
  function ListDatasets(config: seq<(string, ConfigEntry)>, files: map<string, Option<map<string, string>>>, decode: string -> JsonText): Result<seq<Dataset>>
    decreases |config|
  {
    if config == [] then Ok([])
    else
      match ListDatasets(config[..|config| - 1], files, decode)
      case Err(e) => Err(e)
      case Ok(ds) =>
        var (id, entry) := config[|config| - 1];
        if id !in files then Ok(ds)
        else match MakeDataset(id, entry, files[id], decode)
          case None => Err("validation error")
          case Some(d) => Ok(ds + [d])
  }

  /** The listing holds one dataset per configured id whose file exists,
      in configuration order, each a vector dataset in MBTiles format with
      the configured name and styling options. */
  lemma {:induction false} ListDatasetsShape(config: seq<(string, ConfigEntry)>, files: map<string, Option<map<string, string>>>, decode: string -> JsonText)
    ensures var r := ListDatasets(config, files, decode);
      r.Ok? ==>
        && |r.value| == |PresentIds(config, files)|
        && forall i :: 0 <= i < |r.value| ==>
             && r.value[i].id == PresentIds(config, files)[i]
             && r.value[i].kind == "vector" && r.value[i].format == "mbtiles"
             && exists k :: 0 <= k < |config| && config[k].0 == r.value[i].id &&
                  r.value[i].name == config[k].1.name && r.value[i].stylingOptions == config[k].1.stylingOptions &&
                  config[k].0 in files && MakeDataset(config[k].0, config[k].1, files[config[k].0], decode) == Some(r.value[i])
    decreases |config|
  {
    if config != [] {
      var init := config[..|config| - 1];
      ListDatasetsShape(init, files, decode);
      var r := ListDatasets(config, files, decode);
      if r.Ok? {
        var ds := ListDatasets(init, files, decode).value;
        forall i | 0 <= i < |r.value|
          ensures exists k :: 0 <= k < |config| && config[k].0 == r.value[i].id &&
                    r.value[i].name == config[k].1.name && r.value[i].stylingOptions == config[k].1.stylingOptions &&
                    config[k].0 in files && MakeDataset(config[k].0, config[k].1, files[config[k].0], decode) == Some(r.value[i])
        {
          if i < |ds| {
            var k :| 0 <= k < |init| && init[k].0 == ds[i].id &&
                     ds[i].name == init[k].1.name && ds[i].stylingOptions == init[k].1.stylingOptions &&
                     init[k].0 in files && MakeDataset(init[k].0, init[k].1, files[init[k].0], decode) == Some(ds[i]);
            assert config[k] == init[k];
          } else {
            var (id, entry) := config[|config| - 1];
            assert id in files && i == |ds| && r.value == ds + [MakeDataset(id, entry, files[id], decode).value];
            assert config[|config| - 1].0 == r.value[i].id;
          }
        }
      }
    }
  }

  /** A missing file removes only its own dataset from the listing. */
  lemma ListDatasetsMissing(config: seq<(string, ConfigEntry)>, files: map<string, Option<map<string, string>>>, decode: string -> JsonText)
    requires config != [] && config[|config| - 1].0 !in files
    ensures ListDatasets(config, files, decode) == ListDatasets(config[..|config| - 1], files, decode)
  {
  }

  /** `get_datasets`: the configured datasets whose file exists, in
      configuration order. */
  method GetDatasets(files: map<string, Option<map<string, string>>>, decode: string -> JsonText) returns (r: Result<seq<Dataset>>)
    ensures r == ListDatasets(DatasetConfig, files, decode)
  {
    var datasets: seq<Dataset> := [];
    var i := 0;
    while i < |DatasetConfig|
      invariant 0 <= i <= |DatasetConfig|
      invariant ListDatasets(DatasetConfig[..i], files, decode) == Ok(datasets)
    {
      var (id, config) := DatasetConfig[i];
      assert DatasetConfig[..i + 1][..i] == DatasetConfig[..i];
      if id in files {
        var d := MakeDataset(id, config, files[id], decode);
        if d.None? {
          return Err("validation error");
        }
        datasets := datasets + [d.value];
      }
      i := i + 1;
    }
    assert DatasetConfig[..i] == DatasetConfig;
    r := Ok(datasets);
  }

  // ---------------------------------------------------------------------
  // get_style

  /** The style file of a dataset: missing, not JSON, or its contents. */
  datatype StyleFile = Missing | Unparsable | Contents(value: Json)

  datatype StyleResponse = StyleOk(style: Json) | NotFound | ServerError

  /** The tile URL the backend writes into a style. */
  function BackendTileUrl(datasetId: string): string {
    "http://localhost:8080/data/" + datasetId + "/{z}/{x}/{y}.pbf"
  }

  /** The backend and the frontend agree on a dataset's tile URL. */
  lemma BackendTileUrlAgrees(datasetId: string)
    ensures BackendTileUrl(datasetId) == TileSource.TileUrl(datasetId)
  {
    assert TileSource.TilePrefix == "http://localhost:8080/data/";
  }

  /** The source record that replaces every vector source. */
  function VectorSource(datasetId: string): Json {
    JObj(map["type" := JStr("vector"), "tiles" := JArr([JStr(BackendTileUrl(datasetId))]),
             "minzoom" := JNum(0.0), "maxzoom" := JNum(14.0)])
  }

  predicate IsVectorSource(source: Json) {
    source.JObj? && "type" in source.fields && source.fields["type"] == JStr("vector")
  }

  /** The rewritten sources: every vector source replaced, every other
      source kept; `None` where a source is not an object (`source.get`
      raises). */
  function RewriteSources(datasetId: string, sources: map<string, Json>): (r: Option<map<string, Json>>)
    ensures r.Some? <==> forall k :: k in sources ==> sources[k].JObj?
    ensures r.Some? ==> r.value.Keys == sources.Keys
    ensures r.Some? ==> forall k :: k in sources ==>
      r.value[k] == if IsVectorSource(sources[k]) then VectorSource(datasetId) else sources[k]
  {
    if forall k :: k in sources ==> sources[k].JObj? then
      Some(map k | k in sources :: if IsVectorSource(sources[k]) then VectorSource(datasetId) else sources[k])
    else None
  }

  /** Rewriting is idempotent: a replaced source is a vector source
      again and is replaced by itself. */
  lemma RewriteSourcesIdempotent(datasetId: string, sources: map<string, Json>)
    requires RewriteSources(datasetId, sources).Some?
    ensures RewriteSources(datasetId, RewriteSources(datasetId, sources).value) == RewriteSources(datasetId, sources)
  {
    var once := RewriteSources(datasetId, sources).value;
    assert IsVectorSource(VectorSource(datasetId));
    assert forall k :: k in once ==> once[k].JObj?;
    var twice := RewriteSources(datasetId, once).value;
    assert forall k :: k in once ==> twice[k] == once[k];
    assert twice == once;
  }

  /** `get_style` after reading the file: 404 for a missing file; an
      error for a document that is not an object or whose sources are
      not objects; otherwise the document with its vector sources
      rewritten (no `sources` member: the document unchanged). */
  function Style(datasetId: string, file: StyleFile): StyleResponse {
    match file
    case Missing => NotFound
    case Unparsable => ServerError
    case Contents(doc) =>
      if !doc.JObj? then ServerError
      else if "sources" !in doc.fields then StyleOk(doc)
      else if !doc.fields["sources"].JObj? then ServerError
      else match RewriteSources(datasetId, doc.fields["sources"].fields)
        case None => ServerError
        case Some(sources) => StyleOk(JObj(doc.fields["sources" := JObj(sources)]))
  }

  /** Only `sources` changes in a served style: the layers and every
      other top-level member are the file's. */
  lemma StyleKeepsLayers(datasetId: string, doc: Json)
    requires Style(datasetId, Contents(doc)).StyleOk?
    ensures var out := Style(datasetId, Contents(doc)).style;
      out.JObj? && doc.JObj? && out.fields.Keys == doc.fields.Keys &&
      forall k :: k in doc.fields && k != "sources" ==> out.fields[k] == doc.fields[k]
  {
  }

  /** `get_style`: the loop over the sources replaces each vector source
      in place. */
  method GetStyle(datasetId: string, file: StyleFile) returns (response: StyleResponse)
    ensures response == Style(datasetId, file)
  {
    if file.Missing? {
      return NotFound;
    }
    if file.Unparsable? || !file.value.JObj? {
      return ServerError;
    }
    var style := file.value.fields;
    if "sources" !in style {
      return StyleOk(file.value);
    }
    if !style["sources"].JObj? {
      return ServerError;
    }
    var sources := style["sources"].fields;
    var remaining := sources.Keys;
    var rewritten := sources;
    while remaining != {}
      invariant remaining <= sources.Keys && rewritten.Keys == sources.Keys
      invariant forall k :: k in sources && k !in remaining ==>
        sources[k].JObj? && rewritten[k] == (if IsVectorSource(sources[k]) then VectorSource(datasetId) else sources[k])
      invariant forall k :: k in remaining ==> rewritten[k] == sources[k]
      decreases remaining
    {
      var k :| k in remaining;
      if !sources[k].JObj? {
        return ServerError;
      }
      if IsVectorSource(sources[k]) {
        rewritten := rewritten[k := VectorSource(datasetId)];
      }
      remaining := remaining - {k};
    }
    assert forall k :: k in sources ==> sources[k].JObj?;
    assert RewriteSources(datasetId, sources).value == rewritten;
    response := StyleOk(JObj(style["sources" := JObj(rewritten)]));
  }
}
