/** The layer panel: one control per dataset (a visibility checkbox, an
    opacity slider with its percentage display, a legend and an info
    panel), the routing of the panel's change and click events, and the
    handlers that keep the controls in step with the map. The calls the
    handlers make on the application are returned to the caller. */
module LayerControls {
  import opened Wrappers
  import opened Text
  import opened Schema

  // ---------------------------------------------------------------------
  // Legends

  /** A legend: a title and the labels of its entries. */
  datatype Legend = Legend(title: string, entries: seq<string>)

  const PowerLegend: Legend := Legend("Power Lines by Voltage", [
    "345kV+ (Extra High Voltage)", "230kV+ (High Voltage)", "138kV+ (Sub-transmission)",
    "69kV+ (Distribution)", "<69kV (Local Distribution)"])

  const RailwayLegend: Legend := Legend("Railway Lines", ["Main Lines", "Branch Lines", "Service/Yard"])

  const RoadLegend: Legend := Legend("Road Classification", [
    "Interstate/Motorway", "US Highways/Trunk", "Primary Roads", "Secondary Roads",
    "Tertiary Roads", "Residential Streets"])

  const GenericLegend: Legend := Legend("Legend", ["Features"])

  /** `createLegend`: the legend table, keyed by dataset id. */
  const Legends: map<string, Legend> := map[
    "co_power_lines" := PowerLegend, "co_railways" := RailwayLegend, "co_roads" := RoadLegend]

  /** `createLegend`: a dedicated legend for the three known datasets, the
      generic one for every other id. */
  function CreateLegend(datasetId: string): (l: Legend)
    ensures datasetId == "co_power_lines" ==> l.title == "Power Lines by Voltage" && |l.entries| == 5
    ensures datasetId == "co_railways" ==> l.title == "Railway Lines" && |l.entries| == 3
    ensures datasetId == "co_roads" ==> l.title == "Road Classification" && |l.entries| == 6
    ensures datasetId !in {"co_power_lines", "co_railways", "co_roads"} ==> l == Legend("Legend", ["Features"])
  {
    if datasetId in Legends then Legends[datasetId] else GenericLegend
  }

  // ---------------------------------------------------------------------
  // Controls

  /** The info panel's contents: the upper-cased format, the type, the
      zoom range and the names of the vector layers ("Unknown" for a
      layer without an id). */
  datatype DatasetInfo = DatasetInfo(format: string, kind: string, minzoom: int, maxzoom: int, layerNames: seq<string>)

  /** The state of one layer control. */
  datatype Control = Control(
    datasetId: string,
    title: string,
    checked: bool,
    sliderValue: int,
    sliderMin: int,
    sliderMax: int,
    sliderStep: int,
    display: string,
    infoHidden: bool,
    legend: Legend,
    info: DatasetInfo)

  function LayerNames(layers: seq<VectorLayer>): (names: seq<string>)
    ensures |names| == |layers|
    ensures forall i :: 0 <= i < |layers| ==> names[i] == if layers[i].id != "" then layers[i].id else "Unknown"
  {
    seq(|layers|, i requires 0 <= i < |layers| => if layers[i].id != "" then layers[i].id else "Unknown")
  }

  /** `createLayerControl`: a control tagged with the dataset's id, visible,
      its slider at 100 on a 0 to 100 range in steps of 5 showing "100%",
      with the dataset's legend and its info panel hidden. */
  function CreateLayerControl(d: Dataset): (c: Control)
    ensures c.datasetId == d.id && c.title == d.name
    ensures c.checked && c.sliderValue == 100 && c.sliderMin == 0 && c.sliderMax == 100 && c.sliderStep == 5
    ensures c.display == "100%" && c.infoHidden
    ensures c.legend == CreateLegend(d.id)
    ensures c.info.format == UpperString(d.format) && |c.info.layerNames| == |d.vectorLayers|
    ensures c.info == DatasetInfo(UpperString(d.format), d.kind, d.minzoom, d.maxzoom, LayerNames(d.vectorLayers))
  {
    Control(d.id, d.name, true, 100, 0, 100, 5, "100%", true, CreateLegend(d.id),
            DatasetInfo(UpperString(d.format), d.kind, d.minzoom, d.maxzoom, LayerNames(d.vectorLayers)))
  }

  const NoDatasets: string := "No datasets available"

  /** The first control tagged with the dataset id, as
      `querySelector('[data-dataset-id="…"]')` finds it. */
  function FindControl(controls: seq<Control>, datasetId: string): (i: Option<nat>)
    ensures i.Some? ==> i.value < |controls| && controls[i.value].datasetId == datasetId
    ensures i.Some? ==> forall j :: 0 <= j < i.value ==> controls[j].datasetId != datasetId
    ensures i.None? ==> forall j :: 0 <= j < |controls| ==> controls[j].datasetId != datasetId
    decreases |controls|
  {
    if controls == [] then None
    else if controls[0].datasetId == datasetId then Some(0)
    else match FindControl(controls[1..], datasetId)
      case None => None
      case Some(k) => Some(k + 1)
  }

  /** Clicking the info button: the panel's `hidden` class toggled. */
  function ToggleInfo(c: Control): (r: Control)
    ensures r.infoHidden == !c.infoHidden && r.(infoHidden := c.infoHidden) == c
  {
    c.(infoHidden := !c.infoHidden)
  }

  /** Two clicks on the info button restore the panel. */
  lemma ToggleInfoTwice(c: Control)
    ensures ToggleInfo(ToggleInfo(c)) == c
  {
  }

  // ---------------------------------------------------------------------
  // Events and the calls they make

  /** A `change` event: the target's `data-action`, the id of the control
      it is in, and the checkbox's state and the slider's value. */
  datatype ChangeEvent = ChangeEvent(action: Option<string>, datasetId: Option<string>, checked: bool, value: string)

  /** What a change event asks for. */
  datatype Command = ShowLayers(datasetId: string, visible: bool) | SetOpacityTo(datasetId: string, value: string)

  /** The `change` listener's routing: nothing without a (non-empty)
      dataset id or for an unknown action; the checkbox forwards its
      state and the slider its value. */
  function RouteChange(e: ChangeEvent): (c: Option<Command>)
    ensures c.Some? <==>
      e.datasetId.Some? && e.datasetId.value != "" && e.action in {Some("toggle-visibility"), Some("change-opacity")}
    ensures c.Some? && e.action == Some("toggle-visibility") ==> c.value == ShowLayers(e.datasetId.value, e.checked)
    ensures c.Some? && e.action == Some("change-opacity") ==> c.value == SetOpacityTo(e.datasetId.value, e.value)
  {
    if e.datasetId.None? || e.datasetId.value == "" then None
    else if e.action == Some("toggle-visibility") then Some(ShowLayers(e.datasetId.value, e.checked))
    else if e.action == Some("change-opacity") then Some(SetOpacityTo(e.datasetId.value, e.value))
    else None
  }

  /** A call on the application controller; an opacity of `None` stands
      for the `NaN` that `parseInt` yields for a value without digits. */
  datatype AppCall = ToggleLayerVisibility(datasetId: string, visible: bool) | SetLayerOpacity(datasetId: string, opacity: Option<real>)

  /** `parseInt(value) / 100` for a slider value: `None` (`NaN`) exactly
      when the value has no leading integer, else the integer over 100. */
  function OpacityOf(value: string): (o: Option<real>)
    ensures o.None? <==> JsParseInt(value).None?
    ensures o.Some? ==> o.value * 100.0 == JsParseInt(value).value as real
  {
    match JsParseInt(value)
    case None => None
    case Some(n) => Some(n as real / 100.0)
  }

  /** `Math.round`: the nearest integer, halves rounded up. */
  function Round(x: real): (n: int)
    ensures n as real - 0.5 <= x < n as real + 0.5
  {
    (x + 0.5).Floor
  }

  /** The percentage `updateLayerState` shows for an opacity. */
  function Percent(opacity: real): int {
    Round(opacity * 100.0)
  }

  /** For every slider position the percentage shown back for the
      opacity it produced is the position itself (for any integer, not
      only the slider's 0 to 100). */
  lemma {:induction false} PercentOfOpacity(p: int)
    ensures OpacityOf(IntToString(p)).Some? && Percent(OpacityOf(IntToString(p)).value) == p
  {
    ParseIntOfIntToString(p);
    assert OpacityOf(IntToString(p)).value * 100.0 == p as real;
  }

  class LayerPanel {
    /** Whether the page has the `layer-controls` container. */
    const containerPresent: bool
    const datasets: seq<Dataset>
    var controls: seq<Control>
    var message: Option<string>

    /** `new LayerControls(map, datasets)`: renders the panel. */
    constructor(containerPresent: bool, datasets: seq<Dataset>)
      ensures this.containerPresent == containerPresent && this.datasets == datasets
      ensures !containerPresent ==> controls == [] && message == None
      ensures containerPresent && datasets == [] ==> controls == [] && message == Some(NoDatasets)
      ensures containerPresent && datasets != [] ==>
        && message == None && |controls| == |datasets|
        && forall i :: 0 <= i < |datasets| ==> controls[i] == CreateLayerControl(datasets[i])
    {
      this.containerPresent := containerPresent;
      this.datasets := datasets;
      controls := [];
      message := None;
      new;
      Render();
    }

    /** `render`: nothing without a container; otherwise the message for an
        empty list, or one control per dataset in list order. */
    method Render()
      modifies this
      ensures !containerPresent ==> controls == old(controls) && message == old(message)
      ensures containerPresent && datasets == [] ==> controls == [] && message == Some(NoDatasets)
      ensures containerPresent && datasets != [] ==>
        && message == None && |controls| == |datasets|
        && forall i :: 0 <= i < |datasets| ==> controls[i] == CreateLayerControl(datasets[i])
    {
      if !containerPresent {
        return;
      }
      controls := [];
      message := None;
      if |datasets| == 0 {
        message := Some(NoDatasets);
        return;
      }
      var i := 0;
      while i < |datasets|
        invariant 0 <= i <= |datasets|
        invariant message == None && |controls| == i
        invariant forall j :: 0 <= j < i ==> controls[j] == CreateLayerControl(datasets[j])
      {
        controls := controls + [CreateLayerControl(datasets[i])];
        i := i + 1;
      }
    }

    /** `handleOpacityChange`: the first control of the dataset shows the
        value with a '%' sign, and the application is asked to set
        `parseInt(value) / 100`. */
    method HandleOpacityChange(datasetId: string, value: string) returns (call: AppCall)
      modifies this
      ensures call == SetLayerOpacity(datasetId, OpacityOf(value))
      ensures message == old(message)
      ensures FindControl(old(controls), datasetId).None? ==> controls == old(controls)
      ensures FindControl(old(controls), datasetId).Some? ==>
        var i := FindControl(old(controls), datasetId).value;
        controls == old(controls)[i := old(controls)[i].(display := value + "%")]
    {
      var i := FindControl(controls, datasetId);
      if i.Some? {
        controls := controls[i.value := controls[i.value].(display := value + "%")];
      }
      call := SetLayerOpacity(datasetId, OpacityOf(value));
    }

    /** The `change` listener: routes the event; a visibility change is
        forwarded as it is, an opacity change through
        `HandleOpacityChange`. */
    method OnChange(e: ChangeEvent) returns (call: Option<AppCall>)
      modifies this
      ensures RouteChange(e).None? ==> call.None? && controls == old(controls)
      ensures RouteChange(e).Some? && RouteChange(e).value.ShowLayers? ==>
        call == Some(ToggleLayerVisibility(e.datasetId.value, e.checked)) && controls == old(controls)
      ensures RouteChange(e).Some? && RouteChange(e).value.SetOpacityTo? ==>
        call == Some(SetLayerOpacity(e.datasetId.value, OpacityOf(e.value)))
      ensures message == old(message)
    {
      var command := RouteChange(e);
      if command.None? {
        return None;
      }
      match command.value
      case ShowLayers(id, visible) =>
        call := Some(ToggleLayerVisibility(id, visible));
      case SetOpacityTo(id, value) =>
        var c := HandleOpacityChange(id, value);
        call := Some(c);
    }

    /** The `click` listener on an info button inside control `i`. */
    method HandleInfoToggle(i: nat)
      requires i < |controls|
      modifies this
      ensures controls == old(controls)[i := ToggleInfo(old(controls)[i])] && message == old(message)
    {
      controls := controls[i := ToggleInfo(controls[i])];
    }

    /** `updateLayerState`: no change for a dataset without a control;
        otherwise its checkbox takes the visibility and its slider and
        display the rounded percentage. */
    method UpdateLayerState(datasetId: string, visible: bool, opacity: real)
      modifies this
      ensures message == old(message)
      ensures FindControl(old(controls), datasetId).None? ==> controls == old(controls)
      ensures FindControl(old(controls), datasetId).Some? ==>
        var i := FindControl(old(controls), datasetId).value;
        var p := Percent(opacity);
        controls == old(controls)[i := old(controls)[i].(checked := visible, sliderValue := p, display := IntToString(p) + "%")]
    {
      var i := FindControl(controls, datasetId);
      if i.None? {
        return;
      }
      var p := Round(opacity * 100.0);
      controls := controls[i.value := controls[i.value].(checked := visible, sliderValue := p, display := IntToString(p) + "%")];
    }
  }
}
