/** The feature popup: how a clicked or hovered map feature is presented
    (title, subtitle, hover text, property rows, placement) and the popup's
    shown/hidden state. */
module FeaturePopup {
  import opened Wrappers
  import opened Text

  // ---------------------------------------------------------------------
  // Feature properties

  /** A feature property value. Numbers are integers in this model. */
  datatype PropValue = Null | Undefined | Bool(b: bool) | Num(n: int) | Str(s: string)

  /** A feature's properties, in enumeration order. */
  type Properties = seq<(string, PropValue)>

  /** A rendered feature: `sourceLayer` and the `source-layer` of its style
      layer ("" when absent), and its properties. */
  datatype Feature = Feature(sourceLayer: string, layerSourceLayer: string, properties: Properties)

  /** `properties[key]`: the value of the first entry with that key, or
      `undefined`. */
  function Lookup(props: Properties, key: string): (v: PropValue)
    ensures v != Undefined ==> exists i :: 0 <= i < |props| && props[i] == (key, v)
  {
    if props == [] then Undefined
    else if props[0].0 == key then props[0].1
    else Lookup(props[1..], key)
  }

  /** JavaScript truthiness of a property value. */
  predicate Truthy(v: PropValue) {
    match v
    case Null => false
    case Undefined => false
    case Bool(b) => b
    case Num(n) => n != 0
    case Str(s) => s != ""
  }

  /** `String(v)`. */
  function ToJsString(v: PropValue): string {
    match v
    case Null => "null"
    case Undefined => "undefined"
    case Bool(b) => if b then "true" else "false"
    case Num(n) => IntToString(n)
    case Str(s) => s
  }

  /** A field's value can be used when it is truthy and is not `avoid`
      (compared with `!==`: a number never equals a string). */
  predicate Usable(v: PropValue, avoid: PropValue) {
    Truthy(v) && v != avoid
  }

  /** The position of the first field in `fields` whose value is usable;
      `|fields|` when there is none. */
  function FirstUsable(props: Properties, fields: seq<string>, avoid: PropValue): (i: nat)
    ensures i <= |fields|
    ensures i < |fields| ==> Usable(Lookup(props, fields[i]), avoid)
    ensures forall j :: 0 <= j < i ==> !Usable(Lookup(props, fields[j]), avoid)
    decreases |fields|
  {
    if fields == [] then 0
    else if Usable(Lookup(props, fields[0]), avoid) then 0
    else 1 + FirstUsable(props, fields[1..], avoid)
  }

  // ---------------------------------------------------------------------
  // Title and subtitle

  const TitleFields: seq<string> := ["name", "title", "label", "highway", "voltage", "type", "owner"]
  const SubtitleFields: seq<string> := ["type", "class", "subtype", "highway", "surface"]

  /** `feature.sourceLayer || feature.layer['source-layer'] || ''`. */
  function SourceLayerName(f: Feature): string {
    if f.sourceLayer != "" then f.sourceLayer else f.layerSourceLayer
  }

  /** The title the field loop settles on: the first truthy title field,
      as a string, or "Feature". */
  function FieldTitle(props: Properties): string {
    var i := FirstUsable(props, TitleFields, Undefined);
    if i < |TitleFields| then ToJsString(Lookup(props, TitleFields[i])) else "Feature"
  }

  /** The title drawn from the source-layer name. */
  function KeywordTitle(sourceLayer: string): string {
    if Contains(sourceLayer, "power") then "Power Line"
    else if Contains(sourceLayer, "road") then "Road"
    else if Contains(sourceLayer, "rail") then "Railway"
    else if sourceLayer != "" then sourceLayer
    else "Feature"
  }

  /** The popup title; the keyword rule applies whenever the field loop
      left the title equal to "Feature". */
  function Title(props: Properties, sourceLayer: string): string {
    var t := FieldTitle(props);
    if t == "Feature" then KeywordTitle(sourceLayer) else t
  }

  /** The popup subtitle: the first truthy subtitle field whose value is not
      the (field-loop) title string, else the source-layer name. */
  function Subtitle(props: Properties, sourceLayer: string): string {
    var i := FirstUsable(props, SubtitleFields, Str(FieldTitle(props)));
    if i < |SubtitleFields| then ToJsString(Lookup(props, SubtitleFields[i])) else sourceLayer
  }

  /** `getFeatureTitle`: two loops over the candidate field lists, each
      stopping at the first field it can use, then the keyword fallback. */
  method GetFeatureTitle(feature: Feature, properties: Properties) returns (title: string, subtitle: string)
    ensures title == Title(properties, SourceLayerName(feature))
    ensures subtitle == Subtitle(properties, SourceLayerName(feature))
  {
    var sourceLayer := SourceLayerName(feature);
    title := "Feature";
    subtitle := sourceLayer;

    var k := 0;
    while k < |TitleFields|
      invariant 0 <= k <= |TitleFields|
      invariant forall j :: 0 <= j < k ==> !Truthy(Lookup(properties, TitleFields[j]))
      invariant title == "Feature"
    {
      var v := Lookup(properties, TitleFields[k]);
      if Truthy(v) {
        title := ToJsString(v);
        break;
      }
      k := k + 1;
    }
    assert k == FirstUsable(properties, TitleFields, Undefined);
    assert title == FieldTitle(properties);

    k := 0;
    while k < |SubtitleFields|
      invariant 0 <= k <= |SubtitleFields|
      invariant forall j :: 0 <= j < k ==> !Usable(Lookup(properties, SubtitleFields[j]), Str(title))
      invariant subtitle == sourceLayer
    {
      var v := Lookup(properties, SubtitleFields[k]);
      if Truthy(v) && v != Str(title) {
        subtitle := ToJsString(v);
        break;
      }
      k := k + 1;
    }
    assert k == FirstUsable(properties, SubtitleFields, Str(title));

    if title == "Feature" {
      if Contains(sourceLayer, "power") {
        title := "Power Line";
      } else if Contains(sourceLayer, "road") {
        title := "Road";
      } else if Contains(sourceLayer, "rail") {
        title := "Railway";
      } else {
        title := if sourceLayer != "" then sourceLayer else "Feature";
      }
    }
  }

  /** The title is the first truthy title field, in list order, unless that
      value reads "Feature". */
  lemma TitleIsFirstTruthyField(props: Properties, sourceLayer: string, k: nat)
    requires k < |TitleFields| && Truthy(Lookup(props, TitleFields[k]))
    requires forall j :: 0 <= j < k ==> !Truthy(Lookup(props, TitleFields[j]))
    requires ToJsString(Lookup(props, TitleFields[k])) != "Feature"
    ensures Title(props, sourceLayer) == ToJsString(Lookup(props, TitleFields[k]))
  {
    assert FirstUsable(props, TitleFields, Undefined) == k;
  }

  /** With no truthy title field, the source-layer keywords decide, checked
      in the order power, road, rail. */
  lemma TitleKeywordFallback(props: Properties, sourceLayer: string)
    requires forall j :: 0 <= j < |TitleFields| ==> !Truthy(Lookup(props, TitleFields[j]))
    ensures Contains(sourceLayer, "power") ==> Title(props, sourceLayer) == "Power Line"
    ensures !Contains(sourceLayer, "power") && Contains(sourceLayer, "road") ==>
              Title(props, sourceLayer) == "Road"
    ensures !Contains(sourceLayer, "power") && !Contains(sourceLayer, "road") && Contains(sourceLayer, "rail") ==>
              Title(props, sourceLayer) == "Railway"
    ensures !Contains(sourceLayer, "power") && !Contains(sourceLayer, "road") && !Contains(sourceLayer, "rail") ==>
              Title(props, sourceLayer) == (if sourceLayer == "" then "Feature" else sourceLayer)
  {
    assert FirstUsable(props, TitleFields, Undefined) == |TitleFields|;
  }

  /** The subtitle is the first truthy subtitle field whose value is not the
      field-loop title, in list order. */
  lemma SubtitleIsFirstDifferentField(props: Properties, sourceLayer: string, k: nat)
    requires k < |SubtitleFields|
    requires Truthy(Lookup(props, SubtitleFields[k])) && Lookup(props, SubtitleFields[k]) != Str(FieldTitle(props))
    requires forall j :: 0 <= j < k ==>
               !Truthy(Lookup(props, SubtitleFields[j])) || Lookup(props, SubtitleFields[j]) == Str(FieldTitle(props))
    ensures Subtitle(props, sourceLayer) == ToJsString(Lookup(props, SubtitleFields[k]))
  {
    assert FirstUsable(props, SubtitleFields, Str(FieldTitle(props))) == k;
  }

  /** Otherwise the subtitle is the source-layer name. */
  lemma SubtitleDefaultsToSourceLayer(props: Properties, sourceLayer: string)
    requires forall j :: 0 <= j < |SubtitleFields| ==>
               !Truthy(Lookup(props, SubtitleFields[j])) || Lookup(props, SubtitleFields[j]) == Str(FieldTitle(props))
    ensures Subtitle(props, sourceLayer) == sourceLayer
  {
    assert FirstUsable(props, SubtitleFields, Str(FieldTitle(props))) == |SubtitleFields|;
  }

  // ---------------------------------------------------------------------
  // Field names

  /** `word.charAt(0).toUpperCase() + word.slice(1)`. */
  function Capitalize(w: string): string {
    if w == "" then "" else [UpperAscii(w[0])] + w[1..]
  }

  function CapitalizeAll(ws: seq<string>): (r: seq<string>)
    ensures |r| == |ws| && forall i :: 0 <= i < |ws| ==> r[i] == Capitalize(ws[i])
  {
    seq(|ws|, i requires 0 <= i < |ws| => Capitalize(ws[i]))
  }

  /** `formatFieldName`: split on '_', capitalise each piece, join with ' '. */
  function FormatFieldName(name: string): string {
    Join(CapitalizeAll(Split(name, '_')), ' ')
  }

  /** What `formatFieldName` puts at position `k`: a space for '_', the
      upper-cased character at the start of a piece, the character itself
      elsewhere. */
  function PrettyChar(s: string, k: nat): char
    requires k < |s|
  {
    if s[k] == '_' then ' '
    else if k == 0 || s[k - 1] == '_' then UpperAscii(s[k])
    else s[k]
  }

  lemma FormatFieldNameSplits(s: string)
    ensures '_' !in s ==> FormatFieldName(s) == Capitalize(s)
    ensures '_' in s ==>
      var i := IndexOf(s, '_');
      FormatFieldName(s) == Capitalize(s[..i]) + [' '] + FormatFieldName(s[i + 1..])
  {
    if '_' in s {
      var i := IndexOf(s, '_');
      var rest := CapitalizeAll(Split(s[i + 1..], '_'));
      var parts := CapitalizeAll(Split(s, '_'));
      assert parts == [Capitalize(s[..i])] + rest;
      assert parts[1..] == rest;
    }
  }

  /** `formatFieldName` keeps the length and rewrites each position as
      `PrettyChar` says. */
  lemma {:induction false} FormatFieldNameAt(s: string)
    ensures |FormatFieldName(s)| == |s|
    ensures forall k :: 0 <= k < |s| ==> FormatFieldName(s)[k] == PrettyChar(s, k)
    decreases |s|
  {
    FormatFieldNameSplits(s);
    var r := FormatFieldName(s);
    if '_' in s {
      var i := IndexOf(s, '_');
      var w, t := s[..i], s[i + 1..];
      FormatFieldNameAt(t);
      var ft := FormatFieldName(t);
      assert r == Capitalize(w) + [' '] + ft;
      forall k | 0 <= k < |s|
        ensures r[k] == PrettyChar(s, k)
      {
        if k < i {
          assert s[k] == w[k] && s[k] != '_';
          if k > 0 {
            assert s[k - 1] == w[k - 1] && s[k - 1] != '_';
          }
        } else if k > i {
          var j := k - i - 1;
          assert r[k] == ft[j] && t[j] == s[k];
          if j > 0 {
            assert t[j - 1] == s[k - 1];
          }
        }
      }
    } else {
      forall k | 0 <= k < |s|
        ensures r[k] == PrettyChar(s, k)
      {
        if k > 0 {
          assert s[k - 1] != '_';
        }
      }
    }
  }

  /** No underscore is left in a formatted field name. */
  lemma FormatFieldNameHasNoUnderscore(s: string)
    ensures '_' !in FormatFieldName(s)
  {
    FormatFieldNameAt(s);
    forall k | 0 <= k < |s|
      ensures FormatFieldName(s)[k] != '_'
    {
      assert FormatFieldName(s)[k] == PrettyChar(s, k);
    }
  }

  // ---------------------------------------------------------------------
  // Field values

  /** The field is a length or distance field. */
  predicate IsDistanceField(field: string) {
    Contains(field, "length") || Contains(field, "distance")
  }

  /** The number of tenths of a kilometre closest to `metres` (ties upward). */
  function TenthsOfKm(metres: nat): (t: nat)
    ensures t * 100 <= metres + 50 < t * 100 + 100
  {
    (metres + 50) / 100
  }

  /** `(value / 1000).toFixed(1)` for a distance above 1000 m. */
  function Kilometres(metres: nat): string {
    var t := TenthsOfKm(metres);
    NatToString(t / 10) + "." + [DigitChar(t % 10)]
  }

  /** `formatFieldValue`. Numbers render with en-US grouping; a voltage gets
      " V"; a distance above 1000 m is kilometres to one decimal, else metres. */
  function FormatFieldValue(field: string, v: PropValue): (r: string)
    ensures v.Bool? ==> r == (if v.b then "Yes" else "No")
    ensures v.Str? && |v.s| <= 50 ==> r == v.s
    ensures v.Str? && |v.s| > 50 ==> |r| == 50 && r[..47] == v.s[..47] && EndsWith(r, "...")
    ensures v.Num? && field == "voltage" ==>
              EndsWith(r, " V") && Without(r[..|r| - 2], ',') == IntToString(v.n)
    ensures v.Num? && field != "voltage" && IsDistanceField(field) && v.n > 1000 ==>
              EndsWith(r, " km") && r == Kilometres(v.n) + " km"
    ensures v.Num? && field != "voltage" && IsDistanceField(field) && v.n <= 1000 ==>
              r == IntToString(v.n) + " m"
    ensures v.Num? && field != "voltage" && !IsDistanceField(field) ==> Without(r, ',') == IntToString(v.n)
  {
    match v
    case Num(n) =>
      if field == "voltage" then
        var g := LocaleInt(n);
        assert (g + " V")[..|g + " V"| - 2] == g;
        g + " V"
      else if IsDistanceField(field) then
        if n > 1000 then Kilometres(n) + " km" else IntToString(n) + " m"
      else LocaleInt(n)
    case Bool(b) => if b then "Yes" else "No"
    case Str(s) => if |s| > 50 then s[..47] + "..." else s
    case Null => "null"
    case Undefined => "undefined"
  }

  /** A voltage of 138000 renders as "138,000 V". */
  lemma VoltageExample()
    ensures FormatFieldValue("voltage", Num(138000)) == "138,000 V"
  {
    assert NatToString(13) == "13";
    assert NatToString(138) == "138";
    assert NatToString(1380) == "1380";
    assert NatToString(13800) == "13800";
    assert NatToString(138000) == "138000";
    assert GroupThousands("138000") == "138,000" by {
      assert "138000"[..3] == "138" && "138000"[3..] == "000";
    }
    assert LocaleInt(138000) == "138,000";
  }

  /** Distances of 1500 and 500 render as "1.5 km" and "500 m". */
  lemma DistanceExamples()
    ensures FormatFieldValue("distance", Num(1500)) == "1.5 km"
    ensures FormatFieldValue("distance", Num(500)) == "500 m"
  {
    assert IsDistanceField("distance") by {
      ContainsAt("distance", "distance", 0);
    }
    assert NatToString(50) == "50";
    assert NatToString(500) == "500";
    assert TenthsOfKm(1500) == 15;
    assert Kilometres(1500) == "1.5";
  }

  // ---------------------------------------------------------------------
  // The hover text's main property

  const RoadFields: seq<string> := ["highway", "name", "surface"]
  const PowerFields: seq<string> := ["voltage", "line_type", "owner"]
  const RailFields: seq<string> := ["usage", "type", "name"]

  /** The priority list for a source layer: road before power before rail. */
  function PriorityFields(sourceLayer: string): seq<string> {
    if Contains(sourceLayer, "road") then RoadFields
    else if Contains(sourceLayer, "power") then PowerFields
    else if Contains(sourceLayer, "rail") then RailFields
    else []
  }

  datatype MainProperty = MainProperty(fieldLabel: string, value: PropValue)

  /** The first truthy priority field, with its prettified name. */
  function MainPropertyOf(props: Properties, sourceLayer: string): Option<MainProperty> {
    var fields := PriorityFields(sourceLayer);
    var i := FirstUsable(props, fields, Undefined);
    if i < |fields| then Some(MainProperty(FormatFieldName(fields[i]), Lookup(props, fields[i])))
    else None
  }

  /** `getMainProperty`: a loop over the priority list returning at the
      first truthy field. Only `feature.sourceLayer` is consulted. */
  method GetMainProperty(feature: Feature, properties: Properties) returns (r: Option<MainProperty>)
    ensures r == MainPropertyOf(properties, feature.sourceLayer)
  {
    var fields := PriorityFields(feature.sourceLayer);
    var k := 0;
    while k < |fields|
      invariant 0 <= k <= |fields|
      invariant forall j :: 0 <= j < k ==> !Truthy(Lookup(properties, fields[j]))
    {
      var v := Lookup(properties, fields[k]);
      if Truthy(v) {
        assert FirstUsable(properties, fields, Undefined) == k;
        return Some(MainProperty(FormatFieldName(fields[k]), v));
      }
      k := k + 1;
    }
    assert FirstUsable(properties, fields, Undefined) == |fields|;
    r := None;
  }

  /** There is no main property exactly when no keyword matches or none of
      the listed fields is truthy. */
  lemma MainPropertyAbsent(props: Properties, sourceLayer: string)
    ensures MainPropertyOf(props, sourceLayer).None? <==>
              forall j :: 0 <= j < |PriorityFields(sourceLayer)| ==>
                !Truthy(Lookup(props, PriorityFields(sourceLayer)[j]))
  {
    var fields := PriorityFields(sourceLayer);
    var i := FirstUsable(props, fields, Undefined);
    if i < |fields| {
      assert Truthy(Lookup(props, fields[i]));
    }
  }

  /** A main property is the first truthy listed field, labelled with its
      prettified name. */
  lemma MainPropertyIsFirstTruthy(props: Properties, sourceLayer: string, k: nat)
    requires k < |PriorityFields(sourceLayer)|
    requires Truthy(Lookup(props, PriorityFields(sourceLayer)[k]))
    requires forall j :: 0 <= j < k ==> !Truthy(Lookup(props, PriorityFields(sourceLayer)[j]))
    ensures MainPropertyOf(props, sourceLayer) ==
              Some(MainProperty(FormatFieldName(PriorityFields(sourceLayer)[k]),
                                Lookup(props, PriorityFields(sourceLayer)[k])))
  {
    assert FirstUsable(props, PriorityFields(sourceLayer), Undefined) == k;
  }

  /** The hover text `${label}: ${value}`. */
  function HoverText(m: MainProperty): string {
    m.fieldLabel + ": " + ToJsString(m.value)
  }

  // ---------------------------------------------------------------------
  // The property list

  const ExcludeFields: seq<string> := ["id", "_id", "osm_id", "way_id"]
  const MaxRows := 8

  /** An entry survives the filter: its value is not null, undefined or ''
      and its key is not an identifier field. */
  predicate Listed(e: (string, PropValue)) {
    e.1 != Null && e.1 != Undefined && e.1 != Str("") && e.0 !in ExcludeFields
  }

  /** The entries that survive the filter, in their original order. */
  function Listable(props: Properties): (r: Properties)
    ensures |r| <= |props|
    ensures forall e :: e in r <==> e in props && Listed(e)
    decreases |props|
  {
    if props == [] then []
    else if Listed(props[0]) then [props[0]] + Listable(props[1..])
    else Listable(props[1..])
  }

  /** Filtering distributes over concatenation, so it keeps the original order. */
  lemma {:induction false} ListableAppend(a: Properties, b: Properties)
    ensures Listable(a + b) == Listable(a) + Listable(b)
    decreases |a|
  {
    if a == [] {
      assert a + b == b;
    } else {
      var ab := a + b;
      assert ab[0] == a[0] && ab[1..] == a[1..] + b;
      ListableAppend(a[1..], b);
      assert Listable(ab) == (if Listed(a[0]) then [a[0]] else []) + Listable(a[1..] + b);
    }
  }

  /** The entries shown: the first eight that survive the filter. */
  function ShownEntries(props: Properties): (r: Properties)
    ensures |r| <= MaxRows && |r| <= |Listable(props)| && r == Listable(props)[..|r|]
    ensures |Listable(props)| <= MaxRows ==> r == Listable(props)
  {
    var l := Listable(props);
    if |l| <= MaxRows then l else l[..MaxRows]
  }

  datatype Row = Row(caption: string, value: string)

  /** The rendered list, or the "No properties available" message. */
  datatype PropertyView = NoProperties | PropertyRows(rows: seq<Row>)

  function PropertyRow(e: (string, PropValue)): Row {
    Row(FormatFieldName(e.0), FormatFieldValue(e.0, e.1))
  }

  /** The property list of a feature: a 'Type' row for a non-empty
      subtitle, then one row per shown entry; the message when that leaves
      no row at all. */
  function PropertyViewOf(properties: Properties, subtitle: string): (view: PropertyView)
    ensures view.NoProperties? <==> subtitle == "" && Listable(properties) == []
    ensures view.PropertyRows? ==>
      var shown := ShownEntries(properties);
      var head := if subtitle != "" then 1 else 0;
      && |view.rows| == head + |shown|
      && (subtitle != "" ==> view.rows[0] == Row("Type", subtitle))
      && forall k :: 0 <= k < |shown| ==> view.rows[head + k] == PropertyRow(shown[k])
  {
    var shown := ShownEntries(properties);
    var rows := TypeRows(subtitle) + EntryRows(shown);
    assert |Listable(properties)| > 0 ==> |shown| > 0;
    if subtitle == "" && |shown| == 0 then NoProperties else PropertyRows(rows)
  }

  /** The 'Type' row, present for a non-empty subtitle. */
  function TypeRows(subtitle: string): (rows: seq<Row>)
    ensures |rows| == if subtitle != "" then 1 else 0
    ensures subtitle != "" ==> rows[0] == Row("Type", subtitle)
  {
    if subtitle != "" then [Row("Type", subtitle)] else []
  }

  /** One row per entry, in order. */
  function EntryRows(entries: Properties): (rows: seq<Row>)
    ensures |rows| == |entries|
    ensures forall k :: 0 <= k < |entries| ==> rows[k] == PropertyRow(entries[k])
  {
    seq(|entries|, k requires 0 <= k < |entries| => PropertyRow(entries[k]))
  }

  /** `renderFeatureProperties`, producing rows instead of markup. */
  method RenderFeatureProperties(properties: Properties, subtitle: string) returns (view: PropertyView)
    ensures view == PropertyViewOf(properties, subtitle)
    ensures view.NoProperties? <==> subtitle == "" && Listable(properties) == []
    ensures view.PropertyRows? ==>
      var shown := ShownEntries(properties);
      var head := if subtitle != "" then 1 else 0;
      && |view.rows| == head + |shown|
      && (subtitle != "" ==> view.rows[0] == Row("Type", subtitle))
      && forall k :: 0 <= k < |shown| ==> view.rows[head + k] == PropertyRow(shown[k])
  {
    var items: seq<Row> := [];
    if subtitle != "" {
      items := items + [Row("Type", subtitle)];
    }
    var head := |items|;
    var shown := ShownEntries(properties);
    var k := 0;
    while k < |shown|
      invariant 0 <= k <= |shown|
      invariant |items| == head + k
      invariant subtitle != "" ==> items[0] == Row("Type", subtitle)
      invariant forall j :: 0 <= j < k ==> items[head + j] == PropertyRow(shown[j])
    {
      items := items + [PropertyRow(shown[k])];
      k := k + 1;
    }
    assert items == TypeRows(subtitle) + EntryRows(shown);
    if |items| == 0 {
      assert |Listable(properties)| > 0 ==> |shown| > 0;
      view := NoProperties;
    } else {
      view := PropertyRows(items);
    }
  }

  // ---------------------------------------------------------------------
  // Placement

  /** The popup's final `left` and `top`, and whether it renders below the
      point (`translateY(0)`) rather than above it (`translateY(-100%)`). */
  datatype Placement = Placement(left: int, top: int, below: bool)

  function Max(a: int, b: int): int {
    if a >= b then a else b
  }

  /** `positionPopup`'s arithmetic for a click at (x, y), a popup of the given
      size and a map of the given width. */
  function Place(x: int, y: int, width: int, height: int, mapWidth: int): (p: Placement)
    ensures p.left >= 10
    ensures x + width <= mapWidth - 20 ==> p.left == Max(10, x)
    ensures x + width > mapWidth - 20 ==> p.left == Max(10, x - width)
    ensures p.below <==> y - height < 20
    ensures p.below ==> p.top == y + 20 && p.top > y
    ensures !p.below ==> p.top == y && p.top - height >= 20
  {
    var adjustedX := if x + width > mapWidth - 20 then x - width else x;
    var below := y - height < 20;
    var adjustedY := if below then y + 20 else y;
    Placement(Max(10, adjustedX), adjustedY, below)
  }

  /** When the popup fits to the right of a point at least 10 px from the
      left edge, its right edge stays 20 px inside the map; when it is
      flipped and room is left, its right edge sits on the point. */
  lemma PlaceKeepsHorizontalEdges(x: int, y: int, width: int, height: int, mapWidth: int)
    requires x >= 10
    ensures x + width <= mapWidth - 20 ==> Place(x, y, width, height, mapWidth).left + width <= mapWidth - 20
    ensures x + width > mapWidth - 20 && x - width >= 10 ==> Place(x, y, width, height, mapWidth).left + width == x
  {
  }

  // ---------------------------------------------------------------------
  // The popup's state

  class Popup {
    /** Whether the page has the popup element at all. */
    const hasElement: bool
    /** The 'hidden' class on the popup element. */
    var hidden: bool
    var currentFeature: Option<Feature>
    var titleText: string
    var content: PropertyView
    var placement: Placement
    /** The map canvas shows the hand cursor. */
    var handCursor: bool
    /** The map canvas's `title` attribute, the hover text. */
    var hoverText: string

    constructor (hasElement: bool, hidden: bool)
      ensures this.hasElement == hasElement && this.hidden == hidden
      ensures currentFeature == None && !handCursor && hoverText == ""
    {
      this.hasElement := hasElement;
      this.hidden := hidden;
      currentFeature := None;
      titleText := "";
      content := NoProperties;
      placement := Placement(0, 0, false);
      handCursor := false;
      hoverText := "";
    }

    /** `isVisible`. */
    function IsVisible(): bool
      reads this
    {
      hasElement && !hidden
    }

    /** `hide`. */
    method Hide()
      modifies this
      ensures hasElement ==> hidden && currentFeature == None
      ensures !hasElement ==> hidden == old(hidden) && currentFeature == old(currentFeature)
      ensures !IsVisible()
      ensures titleText == old(titleText) && content == old(content) && placement == old(placement)
      ensures handCursor == old(handCursor) && hoverText == old(hoverText)
    {
      if hasElement {
        hidden := true;
        currentFeature := None;
      }
    }

    /** `showFeaturePopup` for a click at (x, y); the popup's measured size
        and the map's width are inputs. */
    method ShowFeaturePopup(feature: Feature, x: int, y: int, popupWidth: int, popupHeight: int, mapWidth: int)
      modifies this
      ensures hasElement ==> currentFeature == Some(feature) && IsVisible()
      ensures hasElement ==> titleText == Title(feature.properties, SourceLayerName(feature))
      ensures hasElement ==> content == PropertyViewOf(feature.properties, Subtitle(feature.properties, SourceLayerName(feature)))
      ensures hasElement ==> placement == Place(x, y, popupWidth, popupHeight, mapWidth)
      ensures !hasElement ==>
        hidden == old(hidden) && currentFeature == old(currentFeature) && titleText == old(titleText)
        && content == old(content) && placement == old(placement)
      ensures handCursor == old(handCursor) && hoverText == old(hoverText)
    {
      if !hasElement {
        return;
      }
      var title, subtitle := GetFeatureTitle(feature, feature.properties);
      var view := RenderFeatureProperties(feature.properties, subtitle);
      currentFeature := Some(feature);
      titleText := title;
      content := view;
      placement := Place(x, y, popupWidth, popupHeight, mapWidth);
      hidden := false;
    }

    /** The map's click handler: `interactive` is the registry's layer ids and
        `features` what the map reports under the point, topmost first. */
    method OnMapClick(interactive: seq<string>, features: seq<Feature>,
                      x: int, y: int, popupWidth: int, popupHeight: int, mapWidth: int)
      modifies this
      ensures interactive == [] ==>
        hidden == old(hidden) && currentFeature == old(currentFeature) && titleText == old(titleText)
        && content == old(content) && placement == old(placement)
      ensures interactive != [] && features == [] ==> !IsVisible() && (hasElement ==> currentFeature == None)
      ensures interactive != [] && features != [] && hasElement ==>
        IsVisible() && currentFeature == Some(features[0])
      ensures handCursor == old(handCursor) && hoverText == old(hoverText)
    {
      if |interactive| == 0 {
        return;
      }
      if |features| > 0 {
        ShowFeaturePopup(features[0], x, y, popupWidth, popupHeight, mapWidth);
      } else {
        Hide();
      }
    }

    /** The map's mousemove handler. */
    method OnMouseMove(interactive: seq<string>, features: seq<Feature>)
      modifies this
      ensures interactive == [] ==> handCursor == old(handCursor) && hoverText == old(hoverText)
      ensures interactive != [] && features == [] ==> !handCursor && hoverText == ""
      ensures interactive != [] && features != [] ==>
        handCursor &&
        hoverText == (match MainPropertyOf(features[0].properties, features[0].sourceLayer)
                      case Some(m) => HoverText(m)
                      case None => old(hoverText))
      ensures hidden == old(hidden) && currentFeature == old(currentFeature) && titleText == old(titleText)
      ensures content == old(content) && placement == old(placement)
    {
      if |interactive| == 0 {
        return;
      }
      if |features| > 0 {
        handCursor := true;
        var main := GetMainProperty(features[0], features[0].properties);
        if main.Some? {
          hoverText := HoverText(main.value);
        }
      } else {
        handCursor := false;
        hoverText := "";
      }
    }

    /** The map's mouseleave handler. */
    method OnMouseLeave()
      modifies this
      ensures !handCursor && hoverText == ""
      ensures hidden == old(hidden) && currentFeature == old(currentFeature) && titleText == old(titleText)
      ensures content == old(content) && placement == old(placement)
    {
      handCursor := false;
      hoverText := "";
    }

    /** The document-level click listener as written: any click outside the
        popup element hides an open popup. */
    method OnDocumentClick(insidePopup: bool)
      modifies this
      ensures hasElement && !insidePopup && old(IsVisible()) ==> !IsVisible() && currentFeature == None
      ensures !(hasElement && !insidePopup && !old(hidden)) ==>
        hidden == old(hidden) && currentFeature == old(currentFeature)
      ensures titleText == old(titleText) && content == old(content) && placement == old(placement)
      ensures handCursor == old(handCursor) && hoverText == old(hoverText)
    {
      if hasElement && !insidePopup && !hidden {
        Hide();
      }
    }

    /** The document-level click listener with clicks on the map excluded,
        so that the click that opened the popup does not close it. */
    method OnDocumentClickOutsideMap(insidePopup: bool, insideMap: bool)
      modifies this
      ensures insideMap ==> hidden == old(hidden) && currentFeature == old(currentFeature)
      ensures hasElement && !insidePopup && !insideMap && old(IsVisible()) ==> !IsVisible() && currentFeature == None
      ensures titleText == old(titleText) && content == old(content) && placement == old(placement)
      ensures handCursor == old(handCursor) && hoverText == old(hoverText)
    {
      if hasElement && !insidePopup && !insideMap && !hidden {
        Hide();
      }
    }

    /** One click on a feature of the map, as the browser dispatches it: the
        map's handler runs first, then the event bubbles to the document
        listener as written, which closes the popup just opened. */
    method ClickOnFeatureAsWritten(interactive: seq<string>, features: seq<Feature>,
                                   x: int, y: int, popupWidth: int, popupHeight: int, mapWidth: int)
      requires hasElement && interactive != [] && features != []
      modifies this
      ensures !IsVisible() && currentFeature == None
    {
      OnMapClick(interactive, features, x, y, popupWidth, popupHeight, mapWidth);
      OnDocumentClick(false);
    }

    /** The same click with the corrected document listener: the popup stays
        open on the clicked feature. */
    method ClickOnFeature(interactive: seq<string>, features: seq<Feature>,
                          x: int, y: int, popupWidth: int, popupHeight: int, mapWidth: int)
      requires hasElement && interactive != [] && features != []
      modifies this
      ensures IsVisible() && currentFeature == Some(features[0])
    {
      OnMapClick(interactive, features, x, y, popupWidth, popupHeight, mapWidth);
      OnDocumentClickOutsideMap(false, true);
    }
  }
}
