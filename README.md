# mbtiles-viewer: a verified model of its rule-based core

mbtiles-viewer serves vector tiles from MBTiles files to a browser map. A
small FastAPI backend lists the configured datasets and serves one style
document per dataset. A MapLibre frontend builds the map from them:

- a tile source manager builds tile and style URLs and the composite style;
- an application controller keeps a per-dataset registry of the sources and
  layers it put on the map, and shows, hides and fades them;
- a layer panel holds one control per dataset;
- a feature popup presents the clicked or hovered feature.

This project models the part of each that is lookup tables, string
building, ordered fallbacks, integer arithmetic and keyed state, and proves
its properties. The map, the DOM, every fetch and every file are inputs:

- The map is a table of sources and layers, held by the `App.MapView` class
  (`App.MapState`).
- A fetch is a `Wrappers.Fetched` value: the request fails, or a response
  arrives with its `ok` flag, its status and a body that parsed or not.
- The backend's files are inputs too:
  - the `metadata` table of each MBTiles file, or `None` when sqlite fails;
  - a table saying which files exist;
  - `json.loads`, as a function parameter;
  - the parsed style file.

Modules, one file each:

| file | module | models |
|---|---|---|
| wrappers.dfy | `Wrappers` | `Option`, `Result`, `Fetched` |
| text.dfy | `Text` | substring search, `split`/`join`, decimal rendering, `parseInt`, en-US digit grouping |
| json.dfy | `Json` | JSON values and JavaScript truthiness |
| schema.dfy | `Schema` | dataset descriptors, style layers and documents, and the ids derived from a dataset id |
| feature_popup.dfy | `FeaturePopup` | frontend/js/feature-popup.js |
| tile_source.dfy | `TileSource` | frontend/js/tile-source.js |
| app.dfy | `App` | frontend/js/app.js |
| layer_controls.dfy | `LayerControls` | frontend/js/layer-controls.js |
| backend.dfy | `Backend` | backend/main.py |

The form of each module follows its source file:

- Functions that only compute are Dafny functions.
- Loops become methods with loop invariants. Each is proved equal to a
  specification function, and the properties are proved about that function:
  - `GetFeatureTitle`, `GetMainProperty`, `RenderFeatureProperties`;
  - `GetStyleUrl`, `CreateMapStyle`;
  - `LoadDatasetLayer`, `ToggleLayerVisibility`, `ApplyOpacity`;
  - `Render`, `GetDatasets`, `GetStyle`.
- Objects whose fields the source updates are classes:
  `FeaturePopup.Popup`, `App.MapView`, `App.TileViewerApp` and
  `LayerControls.LayerPanel`.

## Model

| member | source | states |
|---|---|---|
| Text.Split | frontend/js/feature-popup.js:256 | `split` gives one piece more than there are separators, and no piece holds the separator |
| Text.JoinSplit | frontend/js/feature-popup.js:255-258 | joining the pieces of a split with the same separator gives back the string |
| Text.SplitJoin | backend/main.py:77 | splitting a join of separator-free pieces gives back the pieces |
| Text.UpperString | frontend/js/layer-controls.js:72 | `toUpperCase` keeps the length and upper-cases each position |
| Text.LocaleInt | frontend/js/feature-popup.js:264 | `toLocaleString` of an integer is its decimal rendering with grouping commas inserted |
| Text.UngroupThousands | frontend/js/feature-popup.js:274 | removing the commas from a grouped digit string gives back the digits |
| Text.ParseIntOfIntToString | frontend/js/layer-controls.js:219 | `parseInt(String(n))` is `n` for every integer |
| Schema.SourceIdOfInjective | frontend/js/app.js:136 | two datasets never share a source id `${id}-source` |
| Schema.DerivedLayerId | frontend/js/app.js:146 | a derived layer id starts with the dataset id and a '-' |
| Schema.DerivedLayerIdIsNotBackground | frontend/js/tile-source.js:96 | no derived layer id is "background" |
| Schema.DerivedLayerIdsCanCollide | frontend/js/app.js:146 | two different datasets can derive the same layer id |
| Schema.NonBackgroundMembers | frontend/js/app.js:144 | the filter keeps exactly the layers whose id is not "background" |
| Schema.NonBackgroundOrder | frontend/js/tile-source.js:92 | the filter keeps the layers' relative order |
| Schema.Rebind | frontend/js/tile-source.js:94-98 | a rebound layer gets the derived id and the dataset's source, and keeps every other member |
| Schema.DerivedIds | frontend/js/app.js:160 | the registry's layer ids are the derived ids, one per style layer, in style order |
| FeaturePopup.Lookup | frontend/js/feature-popup.js:152 | a defined property value belongs to an entry with that key |
| FeaturePopup.FirstUsable | frontend/js/feature-popup.js:151-164 | the position of the first candidate field whose value is usable; every earlier field is unusable |
| FeaturePopup.GetFeatureTitle | frontend/js/feature-popup.js:140-180 | the two loops compute the title and subtitle the rules below define |
| FeaturePopup.TitleIsFirstTruthyField | frontend/js/feature-popup.js:144-156 | the title is the first truthy field among name, title, label, highway, voltage, type and owner |
| FeaturePopup.TitleKeywordFallback | frontend/js/feature-popup.js:166-177 | with no truthy title field, 'power', then 'road', then 'rail' in the source layer decide, else the source layer, else "Feature" |
| FeaturePopup.SubtitleIsFirstDifferentField | frontend/js/feature-popup.js:145-164 | the subtitle is the first truthy subtitle field whose value differs (`!==`) from the title |
| FeaturePopup.SubtitleDefaultsToSourceLayer | frontend/js/feature-popup.js:148 | with no such field the subtitle is the source-layer name |
| FeaturePopup.FormatFieldNameSplits | frontend/js/feature-popup.js:254-259 | the first segment is capitalised, the first '_' becomes a space, and the rest is formatted the same way |
| FeaturePopup.FormatFieldNameAt | frontend/js/feature-popup.js:254-259 | the length is kept; each '_' becomes a space, each segment's first character is upper-cased, every other character is kept |
| FeaturePopup.FormatFieldNameHasNoUnderscore | frontend/js/feature-popup.js:254-259 | no underscore is left |
| FeaturePopup.FormatFieldValue | frontend/js/feature-popup.js:261-284 | booleans give Yes/No; strings over 50 become 47 characters plus "..." (length 50), others are kept; a voltage number ends in " V"; a distance number ends in " km" above 1000, else " m"; other numbers are grouped digits |
| FeaturePopup.VoltageExample | frontend/js/feature-popup.js:263-264 | 138000 volts render as "138,000 V" |
| FeaturePopup.DistanceExamples | frontend/js/feature-popup.js:267-269 | 1500 and 500 metres render as "1.5 km" and "500 m" |
| FeaturePopup.GetMainProperty | frontend/js/feature-popup.js:182-212 | the loop returns the main property the rule defines |
| FeaturePopup.MainPropertyAbsent | frontend/js/feature-popup.js:192-211 | there is no main property exactly when no keyword matches or none of the listed fields is truthy |
| FeaturePopup.MainPropertyIsFirstTruthy | frontend/js/feature-popup.js:186-209 | the main property is the first truthy field of the list chosen by 'road', then 'power', then 'rail', labelled with its formatted name |
| FeaturePopup.Listable | frontend/js/feature-popup.js:228-236 | the filter keeps exactly the entries that are not null, undefined or '' and not id, _id, osm_id or way_id |
| FeaturePopup.ListableAppend | frontend/js/feature-popup.js:230-236 | filtering distributes over concatenation, so the original order is kept |
| FeaturePopup.ShownEntries | frontend/js/feature-popup.js:237 | the shown entries are the first (at most) eight that survive the filter |
| FeaturePopup.RenderFeatureProperties | frontend/js/feature-popup.js:214-252 | the loop builds exactly `PropertyViewOf`: a leading 'Type' row for a non-empty subtitle, then one row per shown entry in order; no rows exactly when there is no subtitle and nothing survives the filter |
| FeaturePopup.PropertyViewOf | frontend/js/feature-popup.js:214-252 | the property list: a 'Type' row for a non-empty subtitle, then the formatted name and value of each shown entry in order; the "No properties" message exactly when there is no subtitle and nothing survives the filter |
| FeaturePopup.Place | frontend/js/feature-popup.js:309-328 | left flips to x − width past the right margin and is always at least 10; below the point (top y + 20) exactly when y − height < 20, else above (top y) |
| FeaturePopup.PlaceKeepsHorizontalEdges | frontend/js/feature-popup.js:312-315 | an unflipped popup stays 20 px inside the map's right edge; a flipped one ends at the point |
| FeaturePopup.Popup.constructor | frontend/js/feature-popup.js:3-7 | no current feature and no hover state |
| FeaturePopup.Popup.Hide | frontend/js/feature-popup.js:332-337 | hides the popup and clears the current feature when the element exists; nothing else changes |
| FeaturePopup.Popup.ShowFeaturePopup | frontend/js/feature-popup.js:112-138 | records the feature; the title is `Title`, the content is `PropertyViewOf` with the feature's `Subtitle`, the placement is `Place` of the click; the popup is visible |
| FeaturePopup.Popup.OnMapClick | frontend/js/feature-popup.js:84-95 | no interactive layers: nothing changes; no feature: hidden and cleared; else visible on the topmost feature |
| FeaturePopup.Popup.OnMouseMove | frontend/js/feature-popup.js:62-110 | no interactive layers: nothing changes; over a feature: hand cursor and its main-property text if it has one; else cursor and text cleared |
| FeaturePopup.Popup.OnMouseLeave | frontend/js/feature-popup.js:78-81 | cursor and hover text cleared, popup untouched |
| FeaturePopup.Popup.OnDocumentClick | frontend/js/feature-popup.js:29-33 | a click outside the popup hides an open popup |
| FeaturePopup.Popup.ClickOnFeatureAsWritten | frontend/js/feature-popup.js:29-95 | a click on a feature ends with the popup hidden (see Findings) |
| FeaturePopup.Popup.OnDocumentClickOutsideMap | frontend/js/feature-popup.js:29-33 | corrected listener: a click on the map leaves the popup alone |
| FeaturePopup.Popup.ClickOnFeature | frontend/js/feature-popup.js:84-95 | with the corrected listener the click leaves the popup visible on the clicked feature |
| TileSource.TileUrl | frontend/js/tile-source.js:5-12 | the URL is the fixed prefix, the dataset id and the `{z}/{x}/{y}.pbf` template |
| TileSource.TileUrlInjective | frontend/js/tile-source.js:10-12 | different datasets get different tile URLs |
| TileSource.FormEncodeSafe | frontend/js/tile-source.js:17-27 | an encoded parameter holds no '&', '=', '?', '#' or space |
| TileSource.FormEncodeUnreserved | frontend/js/tile-source.js:20-23 | names made of unreserved characters are written as they are |
| TileSource.StyleUrlFromParams | frontend/js/tile-source.js:15-31 | the style URL is the base, plus '?' and the serialised parameters (template before field) only when there are any |
| TileSource.GetStyleUrl | frontend/js/tile-source.js:15-31 | the method builds exactly that URL |
| TileSource.StyleUrlQueryMark | frontend/js/tile-source.js:26-28 | there is a '?' exactly when a template or a field is given |
| TileSource.CreateSourceConfig | frontend/js/tile-source.js:34-42 | a vector source with exactly the dataset's tile URL, minzoom 0 and maxzoom 14 when falsy, and the bounds as given |
| TileSource.LoadStyle | frontend/js/tile-source.js:45-67 | accepted exactly when the response is ok, parsed, and has a truthy version and layers; the document is then returned unchanged |
| TileSource.GuessSourceLayer | frontend/js/tile-source.js:128-139 | the first vector layer's id; else roads, power_lines or railways by 'road', then 'power', then 'rail' in the id; else default |
| TileSource.AppendRebound | frontend/js/tile-source.js:92-99 | the loop appends every style layer rebound to the dataset, in order |
| TileSource.AppendDatasetLayers | frontend/js/tile-source.js:88-116 | one dataset adds its rebound style layers, or the fallback layer when its style fails |
| TileSource.CreateMapStyle | frontend/js/tile-source.js:70-125 | version 8, the background layer first, then each dataset's layers in order, and one source per dataset |
| TileSource.AllDatasetLayersAppend | frontend/js/tile-source.js:84-117 | dataset order is kept: the layers of a concatenation are the concatenation of the layers |
| TileSource.DatasetLayersShape | frontend/js/tile-source.js:92-115 | a loaded style gives its non-background layers renamed and bound to `${id}-source`; a failed one gives exactly the line layer `${id}-fallback` |
| TileSource.SourcesForKeys | frontend/js/tile-source.js:85-86 | every dataset gets its source, loaded or not, and no other source is added |
| TileSource.SourcesForValue | frontend/js/tile-source.js:86 | a dataset's source holds its own configuration unless a later dataset has the same id |
| TileSource.AllDatasetLayersBound | frontend/js/tile-source.js:84-117 | every dataset layer is bound to a source the style defines and is not called "background" |
| TileSource.AvailableFormats | frontend/js/tile-source.js:170-187 | the server's answer, or the single mbtiles format with the dataset's tile URL when the request fails |
| TileSource.SwitchFormat | frontend/js/tile-source.js:190-209 | fails exactly when the format is not listed or has no endpoint, else gives that endpoint |
| TileSource.SwitchFormatFallback | frontend/js/tile-source.js:179-203 | after the fallback only "mbtiles" is accepted, and it gives the tile URL |
| App.MapView.constructor | frontend/js/app.js:74-93 | the map starts with no sources and only the background layer |
| App.MapView.AddSource | frontend/js/app.js:140 | adds the source unless the id is taken or the source is missing or of no known type |
| App.MapView.AddLayer | frontend/js/app.js:148-152 | adds the layer on top unless its id is taken, its type is unknown or its source is missing; a refused layer changes nothing |
| App.MapView.SetLayoutProperty | frontend/js/app.js:176 | sets one layout property of one layer |
| App.MapView.SetPaintProperty | frontend/js/app.js:189-193 | sets one paint property of one layer |
| App.AddStyleLayersGrows | frontend/js/app.js:145-154 | adding style layers keeps every source and every layer already on the map |
| App.AddStyleLayersComplete | frontend/js/app.js:145-154 | with the dataset's source on the map, every style layer of a known type ends up on the map under its derived id, whatever layers before it were refused |
| App.AddStyleLayersOnlyRebound | frontend/js/app.js:146-152 | every layer added is a style layer renamed to its derived id and bound to the dataset's source |
| App.AddStyleLayersIdempotent | frontend/js/app.js:147 | running the layer loop again over its own result changes nothing: added layers are skipped, refused ones refused again |
| App.LoadDatasetIdempotent | frontend/js/app.js:136-154 | loading a dataset twice leaves the map and registry as one load does |
| App.LoadDatasetRegistry | frontend/js/app.js:157-169 | a load that gets past the source step and finds layers writes the entry with every derived id, visible and opacity 1.0, even when some layers were refused; any other load writes nothing |
| App.LoadDatasetComplete | frontend/js/app.js:136-154 | after a load that runs to its end, the dataset's source is on the map, and so is each listed id whose style layer has a known type |
| App.LoadDatasetIsolated | frontend/js/app.js:126-170 | a load never removes or changes an existing source or layer, and every layer it adds is the dataset's own and not "background" |
| App.LoadDatasetValid | frontend/js/app.js:126-170 | a load keeps every registry entry filed under its dataset's id, with that dataset's source on the map |
| App.LoadDatasetFailedFetch | frontend/js/app.js:129-169 | a failed style request changes nothing |
| App.LoadAllAppend | frontend/js/app.js:119-124 | loading a concatenation is loading one list, then the other |
| App.LoadAllSkipsFailedFetch | frontend/js/app.js:119-169 | a dataset whose style request fails is as if it were not in the list; the later ones still load |
| App.SetVisibilityAt | frontend/js/app.js:175-177 | only the listed layers change, and only their `visibility` |
| App.VisibilityRestored | frontend/js/app.js:172-180 | hiding then showing leaves each listed layer `visible`, with all else as it was |
| App.OpacityProperty | frontend/js/app.js:188-194 | line, fill and circle layers map to `<type>-opacity`; other types to nothing |
| App.SetOpacityAt | frontend/js/app.js:185-196 | only the listed line, fill and circle layers change, and only their opacity paint property |
| App.ApplyOpacity | frontend/js/app.js:185-196 | the loop applies the opacity to the ids one after the other |
| App.LoadListsForeignLayer | frontend/js/app.js:144-177 | as written, a derived id that another dataset's layer already holds is still listed, unchanged and bound to the other source, and hiding this dataset hides that layer (see Findings) |
| App.CollidingLoads | frontend/js/app.js:126-170 | loading "a" with a line layer "b-c", then "a-b" with a layer "c", lists "a-b-c" under "a-b" while that layer is bound to "a-source" |
| App.OwnedIds | frontend/js/app.js:160 | keeps exactly the listed ids whose layer on the map is bound to the dataset's source |
| App.LoadDatasetOwnedKeepsOwnership | frontend/js/app.js:156-162 | with the corrected entry, every listed layer is on the map and bound to its own dataset's source after each load, and every layer of a known type the load itself added is still listed |
| App.OwnedMutatorsIsolated | frontend/js/app.js:172-198 | when every entry's layers are its own, showing, hiding or fading one dataset leaves every layer another entry lists unchanged |
| App.TileViewerApp.constructor | frontend/js/app.js:3-12 | no map, no datasets, an empty registry |
| App.TileViewerApp.Init | frontend/js/app.js:14-63 | a failed listing stops before the map exists and shows the error; otherwise the map is created and every dataset loaded in order |
| App.TileViewerApp.LoadDatasetLayer | frontend/js/app.js:126-170 | the method's map and registry are those `LoadDataset` defines; the registry stays valid |
| App.TileViewerApp.LoadInitialLayers | frontend/js/app.js:119-124 | the datasets are loaded one after the other, in list order |
| App.TileViewerApp.ToggleLayerVisibility | frontend/js/app.js:172-180 | unknown id: no change; else the dataset's layers are shown or hidden, the entry records the flag, and no other entry changes |
| App.TileViewerApp.SetLayerOpacity | frontend/js/app.js:182-199 | unknown id: no change; else the dataset's line, fill and circle layers get the opacity, the entry records it, and no other entry changes |
| LayerControls.CreateLegend | frontend/js/layer-controls.js:91-175 | dedicated legends for co_power_lines, co_railways and co_roads; the generic Legend/Features block for any other id |
| LayerControls.LayerNames | frontend/js/layer-controls.js:81 | one name per vector layer, "Unknown" for one without an id |
| LayerControls.CreateLayerControl | frontend/js/layer-controls.js:32-88 | tagged with the dataset id; checked; slider at 100 on 0–100 in steps of 5; display "100%"; info hidden; the dataset's legend; an info block with the upper-cased format, the kind, the zoom range and each vector layer's name |
| LayerControls.FindControl | frontend/js/layer-controls.js:223-246 | the first control tagged with the id, or none when no control has it |
| LayerControls.ToggleInfo | frontend/js/layer-controls.js:237-241 | flips the info panel's hidden flag and nothing else |
| LayerControls.ToggleInfoTwice | frontend/js/layer-controls.js:237-241 | two toggles restore the control |
| LayerControls.RouteChange | frontend/js/layer-controls.js:180-195 | a command exactly when there is a dataset id and a known action; the checkbox forwards its state, the slider its value |
| LayerControls.OpacityOf | frontend/js/layer-controls.js:219 | `NaN` exactly when the value has no leading integer, else that integer over 100 |
| LayerControls.Round | frontend/js/layer-controls.js:259 | `Math.round`: the nearest integer, halves upward |
| LayerControls.PercentOfOpacity | frontend/js/layer-controls.js:219-259 | the percentage shown for the opacity a slider position gives is that position |
| LayerControls.LayerPanel.constructor | frontend/js/layer-controls.js:3-14 | the panel is rendered |
| LayerControls.LayerPanel.Render | frontend/js/layer-controls.js:16-30 | no container: nothing; an empty list: only "No datasets available"; else one control per dataset in order |
| LayerControls.LayerPanel.HandleOpacityChange | frontend/js/layer-controls.js:218-234 | the dataset's first control shows value + '%', and the application is asked to set `parseInt(value) / 100` |
| LayerControls.LayerPanel.OnChange | frontend/js/layer-controls.js:180-216 | routes the event to the visibility call or to the opacity handler, or does nothing |
| LayerControls.LayerPanel.HandleInfoToggle | frontend/js/layer-controls.js:197-241 | toggles that control's info panel only |
| LayerControls.LayerPanel.UpdateLayerState | frontend/js/layer-controls.js:245-263 | unknown id: no change; else the checkbox takes the flag, and the slider and display the rounded percentage |
| Backend.PyIntOfIntToString | backend/main.py:80-81 | `int` reads a decimal rendering back as its number |
| Backend.PyFloatOfDecimal | backend/main.py:77 | `float` reads a decimal with a point as its sign, its two runs of digits and the fraction's length |
| Backend.ParseBoundsOfJoin | backend/main.py:76-77 | a comma-separated row of numbers `float` reads is read as the list of their values |
| Backend.Decimals | backend/main.py:77 | one number per piece, the one `float` reads |
| Backend.Values | backend/main.py:77 | the values of the numbers, in order |
| Backend.ExtractMbtilesMetadata | backend/main.py:64-110 | a file sqlite cannot read gives the failure record |
| Backend.MetadataDefaults | backend/main.py:75-101 | absent keys give the default bounds, zooms 0 and 14, no vector layers, and the rows |
| Backend.MetadataZooms | backend/main.py:80-81 | present zoom rows are read as their numbers |
| Backend.MetadataDefaultPerKey | backend/main.py:75-81 | each absent row takes its own default whatever the other rows hold: the default bounds, minzoom 0, maxzoom 14, no vector layers |
| Backend.BadBoundsGivesFailure | backend/main.py:76-77 | a `bounds` row that `float` cannot read gives the whole failure record |
| Backend.MetadataReadsPresentRows | backend/main.py:64-101 | unless reading fails, the rows are kept and each present row is read as written: bounds by split-and-float, zooms by `int`, `json` by the vector-layers step |
| Backend.MalformedJsonKeepsRest | backend/main.py:84-91 | a malformed `json` row only empties the vector layers; bounds and zooms are kept |
| Backend.BadZoomGivesFailure | backend/main.py:80-110 | a zoom row that is not an integer gives the whole failure record, rows included |
| Backend.AsVectorLayers | backend/main.py:131 | validation accepts exactly a list of objects, keeping each one's members |
| Backend.LayersOf | backend/main.py:131 | one vector layer per list item, in order |
| Backend.PresentIds | backend/main.py:117-120 | exactly the configured ids whose file exists |
| Backend.PresentIdsOrder | backend/main.py:117-120 | the present ids come in configuration order |
| Backend.ListDatasetsShape | backend/main.py:117-136 | one dataset per configured id whose file exists, in configuration order; each is vector and mbtiles with the configured name and styling options; each entry is what its file's metadata record gives for that configuration entry |
| Backend.ListDatasetsMissing | backend/main.py:120 | a missing file removes only its own dataset |
| Backend.GetDatasets | backend/main.py:112-136 | the loop builds exactly that listing |
| Backend.BackendTileUrlAgrees | backend/main.py:154 | the tile URL the backend writes is the frontend's `getTileUrl` |
| Backend.RewriteSources | backend/main.py:150-157 | every vector source is replaced by the fixed record, every other source kept, the keys unchanged |
| Backend.RewriteSourcesIdempotent | backend/main.py:150-157 | rewriting twice is rewriting once |
| Backend.StyleKeepsLayers | backend/main.py:146-159 | only `sources` changes in a served style; the layers and every other member are the file's |
| Backend.GetStyle | backend/main.py:138-159 | 404 for a missing file; an error for a document that is not an object; otherwise the document with its vector sources rewritten |

## Left out

- Markup. HTML strings and `innerHTML` become records: rows, controls and
  legends. Values are inserted into the markup unescaped, and that is not
  modelled.
- DOM element lookups. Class toggling, bounding rectangles and the canvas
  cursor are fields or inputs. The popup's size and the map's width are
  integer parameters of `Place`.
- MapLibre. The map is an abstract table of sources and layers with the
  style specification's source and layer types. `queryRenderedFeatures` is
  an input (`features`). MapLibre's own style validation is reduced to those
  type checks.
- `App.MapView.AddSource`, `App.MapView.AddLayer`: a refused source is
  taken to throw and a refused layer to be reported by an `error` event and
  skipped, as MapLibre does. Both calls also throw while the map's style has
  not finished loading, and the layers are loaded right after the map is
  created without waiting for its `load` event (frontend/js/app.js:26,
  38); the model takes the style as loaded.
- `getInteractiveLayers` (frontend/js/feature-popup.js:51-59) is the
  `interactive` parameter of the popup's handlers.
- Calls the layer panel makes through `window.app` (frontend/js/layer-controls.js:213-214, 231-232) are returned as `LayerControls.AppCall` values, not performed.
- Building `LayerControls` and `FeaturePopup` inside `init`
  (frontend/js/app.js:29-35) is not modelled. These are separate classes here.
- Async interleaving. Every awaited call runs to completion in list order.
- Network calls:
  - fetch results are `Fetched` inputs;
  - the style server is a table from dataset id to its response.
- Health checks and performance helpers (frontend/js/tile-source.js:142-167,
  212-240) are pure I/O.
- The API root and health endpoints (backend/main.py:161-180) return
  constants.
- CORS and static-file middleware, and uvicorn startup.
- Feature property numbers:
  - they are unbounded integers (`FeaturePopup.PropValue`);
  - fractional numbers, `NaN` and `Infinity` are not modelled;
  - doubles are exact only up to 2^53, and `String(n)` and `toFixed` switch
    to exponent form from 1e21 on; neither limit is modelled;
  - `toLocaleString` is en-US grouping;
  - `toFixed(1)` rounds halves upward, with no binary floating point.
- Strings:
  - lengths count characters, not UTF-16 code units;
  - upper-casing covers ASCII letters only;
  - `parseInt` is decimal only, with no `0x` prefix;
  - `Text.IsSpace` is ASCII white space only. `parseInt` also skips
    no-break and other Unicode spaces, the byte-order mark and the line and
    paragraph separators.
- Absent members of a style layer or dataset:
  - an absent layer `id` is "" here. JavaScript derives
    `${dataset.id}-undefined` from it (frontend/js/app.js:146,
    frontend/js/tile-source.js:96);
  - `guessSourceLayer` returns `undefined` for a first vector layer without
    an id (frontend/js/tile-source.js:130). The model returns "";
  - `Schema.StyleDoc` holds `layers` only as an array. A truthy non-array
    `layers` passes `loadStyle`'s check (frontend/js/tile-source.js:57) and
    then fails at `filter`; that is not modelled.
- `createLegend` (frontend/js/layer-controls.js:166) looks up inherited
  object keys such as "toString". The model's legend table has only the own
  keys.
- A range input's browser-side value sanitising is not modelled.
- `LayerControls.CreateLayerControl`: the info block's bounds line, the
  bounds each rounded with `toFixed(2)`
  (frontend/js/layer-controls.js:78), is not modelled.
- The style-template selector is out of scope: `getStyleUrl`'s `template`
  and `field` are modelled, but nothing uses them.
- `get_style` ignores its template and field parameters (backend/main.py:139), and so does the model.
- Python's `int` and `float`:
  - the model accepts ASCII decimal digits, with ASCII white space around them;
  - Python also strips Unicode white space, including the separators
    \x1c to \x1f and \x85; that is not modelled;
  - underscores, exponents, `inf`, `nan` and non-ASCII digits are not modelled.
- Backend JSON objects (`Json.Json.JObj`) are maps, so their member order
  is not kept. `Backend.RewriteSources` therefore does not show that the
  first source stays first, which the frontend relies on
  (frontend/js/app.js:138). The frontend's `Schema.StyleDoc` keeps its
  sources in order.
- `float` results are exact decimals (`Backend.Decimal`, `Backend.ValueOf`),
  not binary doubles.
- sqlite rows are strings, so `metadata` values of other types are not
  modelled.
- `json.loads` and `json.load` are inputs: `decode` and `Backend.StyleFile`.
- The registry is a map, so the Map's insertion order of `currentLayers` is
  not kept. The popup's `interactive` parameter takes the layer ids in any
  order.
- `App.TileViewerApp.Init`: when the listing has no `datasets` member, the
  model leaves `datasets` empty. The source assigns `undefined` to it.
- `LayerControls.LayerPanel.HandleOpacityChange`: a value without digits is
  forwarded as `NaN` (`None`). The application's `SetLayerOpacity` takes
  only real opacities, so that call is not followed further.
- The fullscreen, panel-toggle and Escape-key listeners, `showLoading` and
  `onMapLoad` (frontend/js/app.js:115-117, 201-243) only touch the DOM.

## Findings

| source | as written | input that shows it | evidently intended | confidence | as-written member | corrected member |
|---|---|---|---|---|---|---|
| frontend/js/feature-popup.js:29-95 | The document-level click listener hides the popup for every click outside the popup element. The click on the map canvas that opened the popup bubbles up to the document, so the popup closes in the same click. | A click on a rendered feature while interactive layers exist: the map handler shows the popup, then the document listener hides it. | Clicks on the map are handled by the map's click handler. Only clicks elsewhere close the popup. | not executed (medium: it depends on MapLibre firing its click handler during the same DOM click that then bubbles to the document) | FeaturePopup.Popup.ClickOnFeatureAsWritten | FeaturePopup.Popup.ClickOnFeature |
| frontend/js/app.js:144-162 | The registry entry lists every derived id, also one whose add was skipped because the id was already on the map. Two datasets can derive the same id, so the entry can list another dataset's layer, and `toggleLayerVisibility` and `setLayerOpacity` then change that layer. | Dataset "a" with a style layer "b-c", loaded before dataset "a-b" with a style layer "c": both derive "a-b-c", and hiding "a-b" hides a layer of "a". | An entry lists only the layers bound to its own source, so neither call touches another dataset's layers. | not executed (low impact: the configured ids co_power_lines, co_railways and co_roads cannot collide this way) | App.LoadListsForeignLayer | App.LoadDatasetOwnedKeepsOwnership |
