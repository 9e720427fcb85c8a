/** The Mapbox GL map component of src/components/mapboxgl.js: the pure
    helpers that pick Mapbox Draw modes, the measurement segments of a
    geometry, and the component's instance state, kept in step with the
    store's map state. The live map and the Mapbox Draw control are
    modelled as a log of the calls made on them. */
module MapboxGL {
  import opened Common
  import opened Strings
  import opened GeoJson

  const SimpleSelectMode := "simple_select"
  const DirectSelectMode := "direct_select"
  const StaticMode := "static"

  /** The metadata keys holding the style's source and layer versions. */
  const SourceVersionKey := "bnd:source-version"
  const LayerVersionKey := "bnd:layer-version"

  /** A version as the component caches it: `null` before the map is
      configured, `undefined` when the metadata has none, or a number. */
  datatype Version = Null | Undefined | Number(n: int)

  type Metadata = map<string, Version>

  /** A map center, `[lng, lat]`. */
  datatype LngLat = LngLat(lng: real, lat: real)

  /** The data of a GeoJSON source, with its features when it has them. */
  datatype SourceData = SourceData(features: Option<seq<Feature>>)

  /** A source of the map style. */
  datatype MapSource = MapSource(sourceType: string, data: Option<SourceData>)

  /** `props.mapState`, the store's map state: its metadata, view, and sources
      with their names in `Object.keys` order. */
  datatype MapProps = MapProps(
    metadata: Option<Metadata>,
    center: Option<LngLat>,
    zoom: Option<real>,
    bearing: Option<real>,
    sourceNames: seq<string>,
    sources: map<string, MapSource>)

  /** `sourceNames` lists the keys of `sources`, each once. */
  ghost predicate ValidSources(m: MapProps) {
    && (forall i, j :: 0 <= i < j < |m.sourceNames| ==> m.sourceNames[i] != m.sourceNames[j])
    && (forall k :: k in m.sourceNames ==> k in m.sources)
    && (forall k :: k in m.sources ==> k in m.sourceNames)
  }

  /** An object of Mapbox Draw mode options. */
  type Options = map<string, Option<string>>

  /** `props.drawing`, the store's drawing state. */
  datatype DrawingProps = DrawingProps(
    interaction: Option<string>,
    sourceName: Option<string>,
    currentMode: Option<string>,
    afterMode: Option<string>,
    currentModeOptions: Option<Options>)

  /** The props the component reads. */
  datatype Props = Props(mapState: MapProps, drawing: Option<DrawingProps>, drawingModes: seq<string>)

  /** `metadata[key]` of an object that may be `undefined`; a missing key
      is `undefined`. */
  function Lookup(md: Option<Metadata>, key: string): Version {
    if md.Some? && key in md.value then md.value[key] else Undefined
  }

  /** `getVersion(obj, key)`: `undefined` when the object has no metadata,
      otherwise the metadata's value at `key`. */
  function GetVersion(m: MapProps, key: string): (v: Version)
    ensures m.metadata.None? ==> v == Undefined
    ensures m.metadata.Some? && key in m.metadata.value ==> v == m.metadata.value[key]
    ensures m.metadata.Some? && key !in m.metadata.value ==> v == Undefined
  {
    if m.metadata.None? then Undefined else Lookup(m.metadata, key)
  }

  /** The geometry type a Mapbox Draw drawing mode draws. */
  function DrawnType(mode: string): Option<string> {
    if mode == "draw_point" then Some("Point")
    else if mode == "draw_line_string" then Some("LineString")
    else if mode == "draw_polygon" then Some("Polygon")
    else None
  }

  /** `getMode(type)`: the drawing mode for a Point, LineString or Polygon;
      `undefined` for any other type. The mode draws that type. */
  function GetMode(geometryType: Option<string>): (mode: Option<string>)
    ensures mode.Some? <==> geometryType in {Some("Point"), Some("LineString"), Some("Polygon")}
    ensures mode.Some? ==> DrawnType(mode.value) == geometryType
  {
    match geometryType
    case Some("Point") => Some("draw_point")
    case Some("LineString") => Some("draw_line_string")
    case Some("Polygon") => Some("draw_polygon")
    case _ => None
  }

  /** Every drawing mode is the mode `getMode` picks for the type it draws. */
  lemma GetModeInverse(mode: string)
    requires DrawnType(mode).Some?
    ensures GetMode(DrawnType(mode)) == Some(mode)
  {
  }

  /** `setMode(defaultMode, customMode)`: the custom mode when it is
      truthy, the default otherwise. */
  function SetMode(defaultMode: Option<string>, customMode: Option<string>): (mode: Option<string>)
    ensures Truthy(customMode) ==> mode == customMode
    ensures !Truthy(customMode) ==> mode == defaultMode
  {
    if Truthy(customMode) then customMode else defaultMode
  }

  /** The chosen mode is truthy exactly when the custom or the default mode
      is; overriding twice with the same custom mode changes nothing. */
  lemma SetModeProperties(defaultMode: Option<string>, customMode: Option<string>)
    ensures Truthy(SetMode(defaultMode, customMode)) <==> Truthy(customMode) || Truthy(defaultMode)
    ensures SetMode(SetMode(defaultMode, customMode), customMode) == SetMode(defaultMode, customMode)
  {
  }

  /** `modeOptions(options)`: the options object, or `{}` when there is
      none (an object is always truthy). */
  function ModeOptions(options: Option<Options>): (r: Options)
    ensures options.Some? ==> r == options.value
    ensures options.None? ==> r == map[]
  {
    options.GetOr(map[])
  }

  /** `optionsForMode(mode, evt)`: `{featureId: <id of the first feature>}`
      for `direct_select` and `{}` for every other mode. Reading the first
      feature of an event without features throws. */
  function OptionsForMode(mode: Option<string>, featureIds: seq<Option<string>>): (r: Result<Options>)
    ensures r.TypeError? <==> mode == Some(DirectSelectMode) && |featureIds| == 0
    ensures mode != Some(DirectSelectMode) ==> r == Ok(map[])
    ensures mode == Some(DirectSelectMode) && |featureIds| > 0 ==>
              r.Ok? && r.value.Keys == {"featureId"} && r.value["featureId"] == featureIds[0]
  {
    if mode == Some(DirectSelectMode) then
      if |featureIds| == 0 then TypeError else Ok(map["featureId" := featureIds[0]])
    else Ok(map[])
  }

  /** `setMeasureGeometry(geom)`: one distance per pair of consecutive
      positions of a LineString, the area of a Polygon with at least one
      ring, and nothing for any other geometry. The turf `distance` and
      `area` functions are parameters. */
  method MeasureSegments(geom: Geometry, distance: (Position, Position) -> real,
                         area: Geometry -> real) returns (segments: seq<real>)
    ensures geom.LineString? ==>
              && |segments| == (if |geom.coordinates| == 0 then 0 else |geom.coordinates| - 1)
              && forall i :: 0 <= i < |segments| ==>
                   segments[i] == distance(geom.coordinates[i], geom.coordinates[i + 1])
    ensures geom.Polygon? ==> segments == (if |geom.rings| > 0 then [area(geom)] else [])
    ensures !geom.LineString? && !geom.Polygon? ==> segments == []
  {
    segments := [];
    if geom.LineString? {
      var i := 0;
      var ii := |geom.coordinates| - 1;
      while i < ii
        invariant 0 <= i && (i == 0 || i <= ii)
        invariant |segments| == i
        invariant forall j :: 0 <= j < i ==>
                    segments[j] == distance(geom.coordinates[j], geom.coordinates[j + 1])
      {
        var a := geom.coordinates[i];
        var b := geom.coordinates[i + 1];
        segments := segments + [distance(a, b)];
        i := i + 1;
      }
    } else if geom.Polygon? && |geom.rings| > 0 {
      segments := segments + [area(geom)];
    }
  }

  /** The interactions the SDK knows (the `INTERACTIONS` constant, which is
      not part of this model): the drawing ones, modify, select, and the
      measuring ones. */
  datatype Interactions = Interactions(drawing: seq<string>, modifyName: string, selectName: string,
                                       measuring: seq<string>)

  /** The branch of `updateInteraction` an interaction takes. */
  datatype InteractionKind = Drawing | Editing | Measuring | NoInteraction

  function Classify(c: Interactions, interaction: Option<string>): InteractionKind {
    if interaction.None? then NoInteraction
    else if interaction.value in c.drawing then Drawing
    else if interaction.value == c.modifyName || interaction.value == c.selectName then Editing
    else if interaction.value in c.measuring then Measuring
    else NoInteraction
  }

  /** `interaction.split(':')[1]`: the geometry type of a measure
      interaction such as 'measure:LineString'. */
  function MeasureType(interaction: string): Option<string> {
    var parts := Split(interaction, ':');
    if |parts| > 1 then Some(parts[1]) else None
  }

  /** The measure interaction 'measure:T' measures the geometry type T. */
  lemma MeasureTypeOf(t: string)
    requires ':' !in t
    ensures MeasureType("measure:" + t) == Some(t)
  {
    assert ':' !in "measure";
    SplitJoin(["measure", t], ':');
    assert Join(["measure", t], ':') == "measure:" + t;
  }

  /** The `currentMode` and `afterMode` that `updateInteraction` leaves. */
  function NextModes(c: Interactions, dp: DrawingProps, current: Option<string>,
                     after: Option<string>): (Option<string>, Option<string>)
  {
    match Classify(c, dp.interaction)
    case Drawing =>
      var cur := SetMode(GetMode(dp.interaction), dp.currentMode);
      (cur, SetMode(cur, dp.afterMode))
    case Editing =>
      (SetMode(Some(SimpleSelectMode), dp.currentMode), SetMode(Some(DirectSelectMode), dp.afterMode))
    case Measuring =>
      (SetMode(GetMode(MeasureType(dp.interaction.value)), dp.currentMode), after)
    case NoInteraction => (current, after)
  }

  /** A drawing interaction draws in the mode for its geometry type unless a
      custom mode is given, and returns to the custom after-mode or else
      to that same mode. */
  lemma DrawingModes(c: Interactions, dp: DrawingProps, current: Option<string>, after: Option<string>)
    requires Classify(c, dp.interaction) == Drawing
    ensures var modes := NextModes(c, dp, current, after);
      && (!Truthy(dp.currentMode) ==> modes.0 == GetMode(dp.interaction))
      && (Truthy(dp.currentMode) ==> modes.0 == dp.currentMode)
      && (!Truthy(dp.afterMode) ==> modes.1 == modes.0)
      && (Truthy(dp.afterMode) ==> modes.1 == dp.afterMode)
  {
  }

  /** Modify and select start in `simple_select` and continue in
      `direct_select` unless custom modes are given. */
  lemma EditingModes(c: Interactions, dp: DrawingProps, current: Option<string>, after: Option<string>)
    requires Classify(c, dp.interaction) == Editing
    ensures var modes := NextModes(c, dp, current, after);
      && (!Truthy(dp.currentMode) ==> modes.0 == Some(SimpleSelectMode))
      && (!Truthy(dp.afterMode) ==> modes.1 == Some(DirectSelectMode))
      && (Truthy(dp.currentMode) ==> modes.0 == dp.currentMode)
      && (Truthy(dp.afterMode) ==> modes.1 == dp.afterMode)
  {
  }

  /** Measuring 'measure:T' starts in the mode drawing T would start in and
      keeps the previous after-mode; any other interaction keeps both
      modes. */
  lemma MeasuringAndOtherModes(c: Interactions, dp: DrawingProps, current: Option<string>,
                               after: Option<string>, t: string)
    ensures Classify(c, dp.interaction) == NoInteraction ==> NextModes(c, dp, current, after) == (current, after)
    ensures Classify(c, dp.interaction) == Measuring ==> NextModes(c, dp, current, after).1 == after
    ensures && Classify(c, dp.interaction) == Measuring && dp.interaction == Some("measure:" + t)
            && ':' !in t
            && Classify(c, Some(t)) == Drawing
            ==> NextModes(c, dp, current, after).0 == NextModes(c, dp.(interaction := Some(t)), current, after).0
  {
    if && Classify(c, dp.interaction) == Measuring && dp.interaction == Some("measure:" + t)
       && ':' !in t {
      MeasureTypeOf(t);
    }
  }

  /** The style refresh: the new cached `(sourcesVersion, layersVersion)`
      pair and whether `setStyle` is called. */
  function StyleStep(cached: (Version, Version), next: (Version, Version)): (r: ((Version, Version), bool))
    ensures r.0 == next
    ensures r.1 <==> cached != next
  {
    (next, cached.0 != next.0 || cached.1 != next.1)
  }

  /** After a refresh, the same versions again do not call `setStyle`. */
  lemma StyleStepIdempotent(cached: (Version, Version), next: (Version, Version))
    ensures !StyleStep(StyleStep(cached, next).0, next).1
  {
  }

  /** The versions `props.mapState` carries. */
  function NextVersions(m: MapProps): (Version, Version) {
    (GetVersion(m, SourceVersionKey), GetVersion(m, LayerVersionKey))
  }

  /** A call the component makes on the live map, on Mapbox Draw, or
      through a dispatched action. */
  datatype Effect =
    | SetStyle(style: MapProps)
    | SetCenter(center: LngLat)
    | SetZoom(zoom: real)
    | SetBearing(bearing: real)
    | SetData(sourceName: string, data: Option<SourceData>)
    | Resize
    | AddDrawControl(customModes: seq<string>)
    | RemoveControl(control: string)
    | DrawDeleteAll
    | DrawAdd(feature: Feature)
    | ChangeMode(mode: Option<string>, options: Option<Options>)
    | ClearMeasureFeature
    | On(event: string)
    | Off(event: string)

  /** The view calls of `componentDidUpdate`: the center, zoom and bearing
      are pushed to the map when they are set and differ from the previous
      props. */
  function ViewEffects(prev: MapProps, m: MapProps): seq<Effect> {
    (if m.center.Some? && (prev.center.None? || m.center.value != prev.center.value)
     then [SetCenter(m.center.value)] else [])
    + (if m.zoom.Some? && m.zoom != prev.zoom then [SetZoom(m.zoom.value)] else [])
    + (if m.bearing.Some? && m.bearing != prev.bearing then [SetBearing(m.bearing.value)] else [])
  }

  /** Unchanged view props make no view calls; a newly set center, zoom or
      bearing is always pushed. */
  lemma ViewEffectsProperties(prev: MapProps, m: MapProps)
    ensures ViewEffects(m, m) == []
    ensures m.center.Some? && prev.center.None? ==> SetCenter(m.center.value) in ViewEffects(prev, m)
    ensures m.zoom.Some? && prev.zoom.None? ==> SetZoom(m.zoom.value) in ViewEffects(prev, m)
    ensures m.bearing.Some? && prev.bearing.None? ==> SetBearing(m.bearing.value) in ViewEffects(prev, m)
    ensures |ViewEffects(prev, m)| <= 3
  {
  }

  /** The data check for one source name: a GeoJSON source of the previous
      props whose data version changed gets its new data, if the live map
      has it. With previous metadata and no current metadata, reading the
      current version throws. */
  function DataStep(prev: MapProps, m: MapProps, name: string, dataVersionKey: string -> string,
                    liveSources: set<string>): Result<seq<Effect>>
    requires name in m.sources
  {
    if name in prev.sources && prev.sources[name].sourceType == "geojson" && prev.metadata.Some? then
      var key := dataVersionKey(name);
      if m.metadata.None? then TypeError
      else if Lookup(prev.metadata, key) != Lookup(m.metadata, key) && name in liveSources
      then Ok([SetData(name, m.sources[name].data)])
      else Ok([])
    else Ok([])
  }

  /** The data loop over `names`: the calls made, and whether it threw
      (the calls made before the throw are kept). */
  function DataEffects(prev: MapProps, m: MapProps, names: seq<string>, dataVersionKey: string -> string,
                       liveSources: set<string>): (seq<Effect>, bool)
    requires forall k :: k in names ==> k in m.sources
    decreases |names|
  {
    if names == [] then ([], false)
    else
      var init := DataEffects(prev, m, names[..|names| - 1], dataVersionKey, liveSources);
      if init.1 then init
      else
        match DataStep(prev, m, names[|names| - 1], dataVersionKey, liveSources)
        case TypeError => (init.0, true)
        case Ok(es) => (init.0 + es, false)
  }

  /** Every data call goes to a live GeoJSON source of the previous props
      whose data version changed, with the source's current data. */
  lemma {:induction false} DataEffectsTargets(prev: MapProps, m: MapProps, names: seq<string>,
                                              dataVersionKey: string -> string, liveSources: set<string>)
    requires forall k :: k in names ==> k in m.sources
    ensures forall e :: e in DataEffects(prev, m, names, dataVersionKey, liveSources).0 ==>
              && e.SetData? && e.sourceName in names && e.sourceName in liveSources
              && e.sourceName in prev.sources && prev.sources[e.sourceName].sourceType == "geojson"
              && Lookup(prev.metadata, dataVersionKey(e.sourceName)) != Lookup(m.metadata, dataVersionKey(e.sourceName))
              && e.data == m.sources[e.sourceName].data
    decreases |names|
  {
    if names != [] {
      var init := names[..|names| - 1];
      DataEffectsTargets(prev, m, init, dataVersionKey, liveSources);
      assert forall k :: k in init ==> k in names;
    }
  }

  /** With the same metadata as before, no source data is set and nothing
      throws. */
  lemma {:induction false} DataEffectsSameMetadata(prev: MapProps, m: MapProps, names: seq<string>,
                                                   dataVersionKey: string -> string, liveSources: set<string>)
    requires forall k :: k in names ==> k in m.sources
    requires prev.metadata == m.metadata
    ensures DataEffects(prev, m, names, dataVersionKey, liveSources) == ([], false)
    decreases |names|
  {
    if names != [] {
      var init := names[..|names| - 1];
      DataEffectsSameMetadata(prev, m, init, dataVersionKey, liveSources);
      assert DataEffects(prev, m, init, dataVersionKey, liveSources) == ([], false);
      assert DataStep(prev, m, names[|names| - 1], dataVersionKey, liveSources) == Ok([]);
      assert DataEffects(prev, m, names, dataVersionKey, liveSources).0 == [] + [];
    }
  }

  /** The property name `sources[name]` looks up: a missing name is
      converted to the string 'undefined'. */
  function SourceKey(name: Option<string>): string {
    if name.Some? then name.value else "undefined"
  }

  /** The features of the named source's data, or none. */
  function SourceFeatures(m: MapProps, sourceName: Option<string>): seq<Feature> {
    var key := SourceKey(sourceName);
    if key in m.sources && m.sources[key].data.Some? && m.sources[key].data.value.features.Some?
    then m.sources[key].data.value.features.value
    else []
  }

  /** The calls of `addFeaturesToDrawForSource`: with a draw control,
      delete every drawn feature and add the source's features in order. */
  function DrawLoadEffects(hasDraw: bool, m: MapProps, sourceName: Option<string>): seq<Effect> {
    var fs := SourceFeatures(m, sourceName);
    if hasDraw then [DrawDeleteAll] + seq(|fs|, i requires 0 <= i < |fs| => DrawAdd(fs[i])) else []
  }

  /** The features the draw control holds after a sequence of calls,
      starting from `start`. */
  function DrawContents(es: seq<Effect>, start: seq<Feature>): seq<Feature>
    decreases |es|
  {
    if es == [] then start
    else
      var fs := DrawContents(es[..|es| - 1], start);
      match es[|es| - 1]
      case DrawDeleteAll => []
      case DrawAdd(f) => fs + [f]
      case _ => fs
  }

  /** After loading a source, the draw control holds exactly that source's
      features, in order, whatever it held before. */
  lemma LoadedDrawContents(es: seq<Effect>, start: seq<Feature>, m: MapProps, sourceName: Option<string>)
    ensures DrawContents(es + DrawLoadEffects(true, m, sourceName), start) == SourceFeatures(m, sourceName)
  {
    var fs := SourceFeatures(m, sourceName);
    var adds := seq(|fs|, i requires 0 <= i < |fs| => DrawAdd(fs[i]));
    LoadedPrefix(es, start, fs, |fs|);
    assert adds[..|fs|] == adds && fs[..|fs|] == fs;
    assert es + DrawLoadEffects(true, m, sourceName) == es + [DrawDeleteAll] + adds;
  }

  lemma {:induction false} LoadedPrefix(es: seq<Effect>, start: seq<Feature>, fs: seq<Feature>, k: nat)
    requires k <= |fs|
    ensures var adds := seq(|fs|, i requires 0 <= i < |fs| => DrawAdd(fs[i]));
      DrawContents(es + [DrawDeleteAll] + adds[..k], start) == fs[..k]
    decreases k
  {
    var adds := seq(|fs|, i requires 0 <= i < |fs| => DrawAdd(fs[i]));
    var xs := es + [DrawDeleteAll] + adds[..k];
    if k == 0 {
      assert xs == es + [DrawDeleteAll];
      assert xs[..|xs| - 1] == es;
    } else {
      LoadedPrefix(es, start, fs, k - 1);
      assert xs[..|xs| - 1] == es + [DrawDeleteAll] + adds[..k - 1];
      assert xs[|xs| - 1] == DrawAdd(fs[k - 1]);
      assert fs[..k] == fs[..k - 1] + [fs[k - 1]];
    }
  }

  /** `removeControl` for each active interaction. */
  function RemovalEffects(active: Option<seq<string>>): seq<Effect> {
    if active.None? then []
    else seq(|active.value|, i requires 0 <= i < |active.value| => RemoveControl(active.value[i]))
  }

  /** The `draw.create` and `draw.update` listener calls made for a truthy
      source name. Each `off` is given a newly made function, so it removes
      no earlier listener. */
  function ListenerEffects(sourceName: Option<string>): seq<Effect> {
    if Truthy(sourceName)
    then [Off("draw.create"), On("draw.create"), Off("draw.update"), On("draw.update")]
    else []
  }


  /** Whether `updateInteraction` throws: every interaction of the catalogue
      calls `changeMode` on the draw control, which throws when there is
      none. */
  predicate InteractionThrows(c: Interactions, dp: DrawingProps, hasDraw: bool) {
    !hasDraw && Classify(c, dp.interaction) != NoInteraction
  }

  /** The calls the branches of `updateInteraction` make, for a draw
      control that exists (`hasDraw`) or not, in the order they make them. */
  function BranchEffects(c: Interactions, dp: DrawingProps, m: MapProps, hasDraw: bool,
                         addedListener: bool, mode: Option<string>): seq<Effect>
  {
    var kind := Classify(c, dp.interaction);
    (if kind != NoInteraction then DrawLoadEffects(hasDraw, m, dp.sourceName) else [])
    + (if kind == Measuring then [ClearMeasureFeature] else [])
    + (if !hasDraw then []
       else if kind != NoInteraction then [ChangeMode(mode, Some(ModeOptions(dp.currentModeOptions)))]
       else [ChangeMode(Some(StaticMode), None)])
    + (if kind == Measuring && hasDraw && !addedListener then [On("draw.render")] else [])
  }

  /** The calls of `updateInteraction` after the old controls are removed:
      the branch's calls, then the listener calls unless it threw. */
  function InteractionEffects(c: Interactions, dp: DrawingProps, m: MapProps, hasDraw: bool,
                              addedListener: bool, mode: Option<string>): seq<Effect>
  {
    BranchEffects(c, dp, m, hasDraw, addedListener, mode)
    + (if InteractionThrows(c, dp, hasDraw) then [] else ListenerEffects(dp.sourceName))
  }

  /** The component's instance fields, and the calls it has made so far. */
  datatype ComponentState = ComponentState(
    hasDraw: bool,
    sourcesVersion: Version,
    layersVersion: Version,
    currentMode: Option<string>,
    afterMode: Option<string>,
    activeInteractions: Option<seq<string>>,
    addedMeasurementListener: bool,
    effects: seq<Effect>)

  /** The state the constructor leaves: no draw control, versions `null`,
      both modes `static`, no active interactions. */
  const InitialComponent :=
    ComponentState(false, Null, Null, Some(StaticMode), Some(StaticMode), None, false, [])

  /** The state after making the calls `es`. */
  function Emit(s: ComponentState, es: seq<Effect>): ComponentState {
    s.(effects := s.effects + es)
  }

  /** `addDrawIfNeeded()`: creates and adds the draw control, with the
      custom drawing modes and the static mode, the first time only. */
  function AddDraw(s: ComponentState, drawingModes: seq<string>): ComponentState {
    if s.hasDraw then s else Emit(s, [AddDrawControl(drawingModes)]).(hasDraw := true)
  }

  /** The version check of `componentDidUpdate`. */
  function SyncStyleStep(s: ComponentState, m: MapProps): ComponentState {
    var r := StyleStep((s.sourcesVersion, s.layersVersion), NextVersions(m));
    Emit(s, if r.1 then [SetStyle(m)] else []).(sourcesVersion := r.0.0, layersVersion := r.0.1)
  }

  /** `addFeaturesToDrawForSource(sourceName)`. */
  function LoadSource(s: ComponentState, m: MapProps, sourceName: Option<string>): ComponentState {
    Emit(s, DrawLoadEffects(s.hasDraw, m, sourceName))
  }

  /** `draw.changeMode(currentMode, modeOptions(currentModeOptions))`, which
      throws without a draw control. */
  function ChangeModeStep(s: ComponentState, dp: DrawingProps): (ComponentState, bool) {
    if !s.hasDraw then (s, true)
    else (Emit(s, [ChangeMode(s.currentMode, Some(ModeOptions(dp.currentModeOptions)))]), false)
  }

  /** The drawing branch of `updateInteraction`. */
  function DrawingBranch(s: ComponentState, dp: DrawingProps, m: MapProps): (ComponentState, bool) {
    var cur := SetMode(GetMode(dp.interaction), dp.currentMode);
    ChangeModeStep(LoadSource(s, m, dp.sourceName).(currentMode := cur, afterMode := SetMode(cur, dp.afterMode)), dp)
  }

  /** The modify/select branch: the after-mode is set after `changeMode`. */
  function EditingBranch(s: ComponentState, dp: DrawingProps, m: MapProps): (ComponentState, bool) {
    var r := ChangeModeStep(LoadSource(s, m, dp.sourceName).(currentMode := SetMode(Some(SimpleSelectMode), dp.currentMode)), dp);
    if r.1 then r else (r.0.(afterMode := SetMode(Some(DirectSelectMode), dp.afterMode)), false)
  }

  /** The measuring branch: clears the measure feature, and listens to
      `draw.render` the first time only. */
  function MeasuringBranch(s: ComponentState, dp: DrawingProps, m: MapProps): (ComponentState, bool)
    requires dp.interaction.Some?
  {
    var s1 := Emit(LoadSource(s, m, dp.sourceName), [ClearMeasureFeature]);
    var r := ChangeModeStep(s1.(currentMode := SetMode(GetMode(MeasureType(dp.interaction.value)), dp.currentMode)), dp);
    if r.1 || r.0.addedMeasurementListener then r
    else (Emit(r.0, [On("draw.render")]).(addedMeasurementListener := true), false)
  }

  /** Any other interaction puts an existing draw control in `static`
      mode. */
  function OtherBranch(s: ComponentState): ComponentState {
    if s.hasDraw then Emit(s, [ChangeMode(Some(StaticMode), None)]) else s
  }

  /** `updateInteraction(drawingProps)`, and whether it throws. */
  function InteractionStep(s: ComponentState, c: Interactions, dp: DrawingProps, m: MapProps): (ComponentState, bool) {
    var r := Branch(Emit(s, RemovalEffects(s.activeInteractions)).(activeInteractions := None), c, dp, m);
    if r.1 then r else (Emit(r.0, ListenerEffects(dp.sourceName)), false)
  }

  /** The branch of `updateInteraction` the interaction takes. */
  function Branch(s: ComponentState, c: Interactions, dp: DrawingProps, m: MapProps): (ComponentState, bool) {
    match Classify(c, dp.interaction)
    case Drawing => DrawingBranch(s, dp, m)
    case Editing => EditingBranch(s, dp, m)
    case Measuring => MeasuringBranch(s, dp, m)
    case NoInteraction => (OtherBranch(s), false)
  }

  /** Each branch throws exactly without a draw control, picks the modes
      `NextModes` describes and makes the calls `BranchEffects` describes. */
  lemma BranchMeaning(s: ComponentState, c: Interactions, dp: DrawingProps, m: MapProps)
    ensures var r := Branch(s, c, dp, m);
      var modes := NextModes(c, dp, s.currentMode, s.afterMode);
      && r.1 == InteractionThrows(c, dp, s.hasDraw)
      && r.0.activeInteractions == s.activeInteractions
      && r.0.hasDraw == s.hasDraw
      && r.0.sourcesVersion == s.sourcesVersion && r.0.layersVersion == s.layersVersion
      && r.0.currentMode == modes.0
      && r.0.afterMode == (if r.1 && Classify(c, dp.interaction) == Editing then s.afterMode else modes.1)
      && r.0.addedMeasurementListener ==
           (s.addedMeasurementListener || (Classify(c, dp.interaction) == Measuring && s.hasDraw))
      && r.0.effects == s.effects + BranchEffects(c, dp, m, s.hasDraw, s.addedMeasurementListener, modes.0)
  {
    var kind := Classify(c, dp.interaction);
    var modes := NextModes(c, dp, s.currentMode, s.afterMode);
    var load := DrawLoadEffects(s.hasDraw, m, dp.sourceName);
    var bes := BranchEffects(c, dp, m, s.hasDraw, s.addedMeasurementListener, modes.0);
    var change := if s.hasDraw then [ChangeMode(modes.0, Some(ModeOptions(dp.currentModeOptions)))] else [];
    match kind
    case NoInteraction =>
      assert bes == if s.hasDraw then [ChangeMode(Some(StaticMode), None)] else [];
    case Drawing =>
      assert bes == load + change;
    case Editing =>
      assert bes == load + change;
    case Measuring =>
      var render := if s.hasDraw && !s.addedMeasurementListener then [On("draw.render")] else [];
      assert bes == load + [ClearMeasureFeature] + change + render;
  }

  /** `updateInteraction` throws exactly for an interaction of the catalogue
      without a draw control; it leaves no active interactions, picks the
      modes `NextModes` describes (an editing interaction that throws keeps
      its after-mode), makes the calls `InteractionEffects` describes, and
      changes neither the draw control nor the cached versions. */
  lemma InteractionStepMeaning(s: ComponentState, c: Interactions, dp: DrawingProps, m: MapProps)
    ensures var r := InteractionStep(s, c, dp, m);
      var modes := NextModes(c, dp, s.currentMode, s.afterMode);
      && r.1 == InteractionThrows(c, dp, s.hasDraw)
      && r.0.activeInteractions.None?
      && r.0.hasDraw == s.hasDraw
      && r.0.sourcesVersion == s.sourcesVersion && r.0.layersVersion == s.layersVersion
      && r.0.currentMode == modes.0
      && r.0.afterMode == (if r.1 && Classify(c, dp.interaction) == Editing then s.afterMode else modes.1)
      && r.0.addedMeasurementListener ==
           (s.addedMeasurementListener || (Classify(c, dp.interaction) == Measuring && s.hasDraw))
      && r.0.effects == s.effects + RemovalEffects(s.activeInteractions)
           + InteractionEffects(c, dp, m, s.hasDraw, s.addedMeasurementListener, modes.0)
  {
    var s1 := Emit(s, RemovalEffects(s.activeInteractions)).(activeInteractions := None);
    BranchMeaning(s1, c, dp, m);
  }

  /** With a draw control, an interaction of the catalogue leaves the draw
      control holding exactly the features of the interaction's source, and
      then switches it to the chosen mode. */
  lemma InteractionLoadsSource(c: Interactions, dp: DrawingProps, m: MapProps, addedListener: bool,
                               mode: Option<string>, before: seq<Effect>, start: seq<Feature>)
    requires Classify(c, dp.interaction) != NoInteraction
    ensures var es := InteractionEffects(c, dp, m, true, addedListener, mode);
      var load := DrawLoadEffects(true, m, dp.sourceName);
      var clear := if Classify(c, dp.interaction) == Measuring then [ClearMeasureFeature] else [];
      && es[..|load| + |clear| + 1] == load + clear + [ChangeMode(mode, Some(ModeOptions(dp.currentModeOptions)))]
      && DrawContents(before + load + clear, start) == SourceFeatures(m, dp.sourceName)
  {
    var load := DrawLoadEffects(true, m, dp.sourceName);
    var clear := if Classify(c, dp.interaction) == Measuring then [ClearMeasureFeature] else [];
    LoadedDrawContents(before, start, m, dp.sourceName);
    var xs := before + load + clear;
    if clear != [] {
      assert xs[..|xs| - 1] == before + load;
    } else {
      assert xs == before + load;
    }
  }

  /** The drawing props are present with a truthy interaction. */
  predicate DrawingActive(props: Props) {
    props.drawing.Some? && Truthy(props.drawing.value.interaction)
  }

  /** The interaction or its source differ between two drawing props. */
  predicate InteractionChanged(prev: DrawingProps, next: DrawingProps) {
    prev.interaction != next.interaction || prev.sourceName != next.sourceName
  }

  /** The interaction part of `configureMap()`, and whether it throws. */
  function Configure(s: ComponentState, c: Interactions, props: Props): (ComponentState, bool) {
    var versions := NextVersions(props.mapState);
    var s1 := s.(sourcesVersion := versions.0, layersVersion := versions.1);
    if DrawingActive(props)
    then InteractionStep(AddDraw(s1, props.drawingModes), c, props.drawing.value, props.mapState)
    else (s1, false)
  }

  /** `componentDidUpdate(prevProps)`, and whether it throws. */
  function DidUpdate(s: ComponentState, prev: Props, props: Props, c: Interactions,
                     dataVersionKey: string -> string, liveSources: set<string>,
                     sizeEqual: bool, redrawsEqual: bool): (ComponentState, bool)
    requires forall k :: k in props.mapState.sourceNames ==> k in props.mapState.sources
  {
    var s1 := if DrawingActive(props) then AddDraw(s, props.drawingModes) else s;
    var s2 := Emit(SyncStyleStep(s1, props.mapState), ViewEffects(prev.mapState, props.mapState));
    var data := DataEffects(prev.mapState, props.mapState, props.mapState.sourceNames, dataVersionKey, liveSources);
    var s3 := Emit(s2, data.0);
    if data.1 then (s3, true)
    else
      var s4 := Emit(s3, if sizeEqual && redrawsEqual then [] else [Resize]);
      if props.drawing.None? then (s4, false)
      else if prev.drawing.None? then (s4, true)
      else if InteractionChanged(prev.drawing.value, props.drawing.value)
      then InteractionStep(s4, c, props.drawing.value, props.mapState)
      else (s4, false)
  }

  /** The component is in step with `props`: its cached versions are the
      props' versions, and it has a draw control if the props ask for an
      interaction. */
  predicate Settled(s: ComponentState, props: Props) {
    && (s.sourcesVersion, s.layersVersion) == NextVersions(props.mapState)
    && (DrawingActive(props) ==> s.hasDraw)
  }

  /** Configuring the map never throws (the draw control is added before
      the interaction is applied) and leaves the component in step with the
      props. */
  lemma ConfigureSettles(s: ComponentState, c: Interactions, props: Props)
    ensures !Configure(s, c, props).1
    ensures Settled(Configure(s, c, props).0, props)
  {
    var versions := NextVersions(props.mapState);
    var s1 := s.(sourcesVersion := versions.0, layersVersion := versions.1);
    if DrawingActive(props) {
      InteractionStepMeaning(AddDraw(s1, props.drawingModes), c, props.drawing.value, props.mapState);
    }
  }

  /** Every update leaves the component in step with the new props. */
  lemma DidUpdateSettles(s: ComponentState, prev: Props, props: Props, c: Interactions,
                         dataVersionKey: string -> string, liveSources: set<string>,
                         sizeEqual: bool, redrawsEqual: bool)
    requires forall k :: k in props.mapState.sourceNames ==> k in props.mapState.sources
    ensures Settled(DidUpdate(s, prev, props, c, dataVersionKey, liveSources, sizeEqual, redrawsEqual).0, props)
  {
    var s1 := if DrawingActive(props) then AddDraw(s, props.drawingModes) else s;
    var s2 := Emit(SyncStyleStep(s1, props.mapState), ViewEffects(prev.mapState, props.mapState));
    var data := DataEffects(prev.mapState, props.mapState, props.mapState.sourceNames, dataVersionKey, liveSources);
    var s3 := Emit(s2, data.0);
    var s4 := Emit(s3, if sizeEqual && redrawsEqual then [] else [Resize]);
    if props.drawing.Some? && prev.drawing.Some? {
      InteractionStepMeaning(s4, c, props.drawing.value, props.mapState);
    }
  }

  /** An update with unchanged props (and unchanged size and redraw count)
      on a component in step with them makes no call at all: no
      `setStyle`, no view call, no data, no resize and no interaction
      change, and nothing throws. */
  lemma SettledUpdateIsSilent(s: ComponentState, props: Props, c: Interactions,
                              dataVersionKey: string -> string, liveSources: set<string>)
    requires forall k :: k in props.mapState.sourceNames ==> k in props.mapState.sources
    requires Settled(s, props)
    ensures DidUpdate(s, props, props, c, dataVersionKey, liveSources, true, true) == (s, false)
  {
    ViewEffectsProperties(props.mapState, props.mapState);
    DataEffectsSameMetadata(props.mapState, props.mapState, props.mapState.sourceNames, dataVersionKey, liveSources);
    StyleStepIdempotent((s.sourcesVersion, s.layersVersion), NextVersions(props.mapState));
    assert SyncStyleStep(s, props.mapState) == s;
  }

  /** The Mapbox GL component's instance state, and the calls it has made
      on the live map, on Mapbox Draw and through dispatched actions. The
      live map is assumed present, as in a browser. */
  class Component {
    var hasDraw: bool
    var sourcesVersion: Version
    var layersVersion: Version
    var currentMode: Option<string>
    var afterMode: Option<string>
    var activeInteractions: Option<seq<string>>
    var addedMeasurementListener: bool
    var effects: seq<Effect>

    /** The fields as one value. */
    function State(): ComponentState
      reads this
    {
      ComponentState(hasDraw, sourcesVersion, layersVersion, currentMode, afterMode,
                     activeInteractions, addedMeasurementListener, effects)
    }

    constructor()
      ensures State() == InitialComponent
    {
      hasDraw := false;
      sourcesVersion := Null;
      layersVersion := Null;
      currentMode := Some(StaticMode);
      afterMode := Some(StaticMode);
      activeInteractions := None;
      addedMeasurementListener := false;
      effects := [];
    }

    /** `addDrawIfNeeded()`. */
    method AddDrawIfNeeded(drawingModes: seq<string>)
      modifies this
      ensures State() == AddDraw(old(State()), drawingModes)
    {
      if !hasDraw {
        hasDraw := true;
        effects := effects + [AddDrawControl(drawingModes)];
      }
    }

    /** The version check of `componentDidUpdate`: `setStyle` runs iff the
      source or layer version differs from the cached pair, and the cache
      takes the new pair. */
    method SyncStyle(m: MapProps)
      modifies this
      ensures State() == SyncStyleStep(old(State()), m)
    {
      var nextSourcesVersion := GetVersion(m, SourceVersionKey);
      var nextLayerVersion := GetVersion(m, LayerVersionKey);
      if sourcesVersion != nextSourcesVersion || layersVersion != nextLayerVersion {
        sourcesVersion := nextSourcesVersion;
        layersVersion := nextLayerVersion;
        effects := effects + [SetStyle(m)];
      }
    }

    /** The center, zoom and bearing checks of `componentDidUpdate`. */
    method SyncView(prev: MapProps, m: MapProps)
      modifies this
      ensures State() == Emit(old(State()), ViewEffects(prev, m))
    {
      if m.center.Some? {
        if prev.center.None? || m.center.value != prev.center.value {
          effects := effects + [SetCenter(m.center.value)];
        }
      }
      if m.zoom.Some? && m.zoom != prev.zoom {
        effects := effects + [SetZoom(m.zoom.value)];
      }
      if m.bearing.Some? && m.bearing != prev.bearing {
        effects := effects + [SetBearing(m.bearing.value)];
      }
    }

    /** The source data loop of `componentDidUpdate`. */
    method SyncSourceData(prev: MapProps, m: MapProps, dataVersionKey: string -> string,
                          liveSources: set<string>) returns (threw: bool)
      requires forall k :: k in m.sourceNames ==> k in m.sources
      modifies this
      ensures var r := DataEffects(prev, m, m.sourceNames, dataVersionKey, liveSources);
        State() == Emit(old(State()), r.0) && threw == r.1
    {
      var names := m.sourceNames;
      ghost var made: seq<Effect> := [];
      var i := 0;
      while i < |names|
        invariant 0 <= i <= |names|
        invariant DataEffects(prev, m, names[..i], dataVersionKey, liveSources) == (made, false)
        invariant State() == Emit(old(State()), made)
      {
        DataEffectsSnoc(prev, m, names, i, dataVersionKey, liveSources);
        ghost var step := DataStep(prev, m, names[i], dataVersionKey, liveSources);
        threw := SyncOneSource(prev, m, names[i], dataVersionKey, liveSources);
        if threw {
          DataEffectsStops(prev, m, names, i + 1, dataVersionKey, liveSources);
          return;
        }
        made := made + step.value;
        i := i + 1;
      }
      assert names[..i] == names;
      return false;
    }

    /** The body of the data loop for one source name. */
    method SyncOneSource(prev: MapProps, m: MapProps, name: string, dataVersionKey: string -> string,
                         liveSources: set<string>) returns (threw: bool)
      requires name in m.sources
      modifies this
      ensures var r := DataStep(prev, m, name, dataVersionKey, liveSources);
        threw == r.TypeError? && State() == (if threw then old(State()) else Emit(old(State()), r.value))
    {
      threw := false;
      if name in prev.sources && prev.sources[name].sourceType == "geojson" {
        var versionKey := dataVersionKey(name);
        if prev.metadata.Some? {
          if m.metadata.None? {
            return true;
          }
          if Lookup(prev.metadata, versionKey) != Lookup(m.metadata, versionKey) && name in liveSources {
            effects := effects + [SetData(name, m.sources[name].data)];
          }
        }
      }
    }

    /** `addFeaturesToDrawForSource(sourceName)`. */
    method AddFeaturesToDrawForSource(m: MapProps, sourceName: Option<string>)
      modifies this
      ensures State() == LoadSource(old(State()), m, sourceName)
    {
      if hasDraw {
        effects := effects + [DrawDeleteAll];
        var key := if sourceName.Some? then sourceName.value else "undefined";
        if key in m.sources && m.sources[key].data.Some? && m.sources[key].data.value.features.Some? {
          var features := m.sources[key].data.value.features.value;
          var i := 0;
          while i < |features|
            invariant 0 <= i <= |features|
            invariant State() == old(State()).(effects := effects)
            invariant effects == old(effects) + [DrawDeleteAll]
                        + seq(i, j requires 0 <= j < i => DrawAdd(features[j]))
          {
            effects := effects + [DrawAdd(features[i])];
            i := i + 1;
          }
        }
      }
    }

    /** `updateInteraction(drawingProps)`: removes the active controls,
      then, by the branch the interaction takes, loads the source into the
      draw control and picks the current and after modes, and registers the
      draw listeners for a truthy source name. */
    method UpdateInteraction(c: Interactions, dp: DrawingProps, m: MapProps) returns (threw: bool)
      modifies this
      ensures (State(), threw) == InteractionStep(old(State()), c, dp, m)
    {
      RemoveActiveInteractions();
      threw := ApplyInteraction(c, dp, m);
      if threw {
        return;
      }
      ghost var branched := State();
      if Truthy(dp.sourceName) {
        effects := effects + [Off("draw.create"), On("draw.create"), Off("draw.update"), On("draw.update")];
      }
      assert State() == Emit(branched, ListenerEffects(dp.sourceName));
      // The active interactions were cleared above, so no control is added back.
    }

    /** The first part of `updateInteraction`: removes every active
      interaction's control and forgets them. */
    method RemoveActiveInteractions()
      modifies this
      ensures State() == Emit(old(State()), RemovalEffects(old(activeInteractions))).(activeInteractions := None)
    {
      if activeInteractions.Some? {
        var controls := activeInteractions.value;
        var i := 0;
        while i < |controls|
          invariant 0 <= i <= |controls|
          invariant State() == old(State()).(effects := effects)
          invariant effects == old(effects) + seq(i, j requires 0 <= j < i => RemoveControl(controls[j]))
        {
          effects := effects + [RemoveControl(controls[i])];
          i := i + 1;
        }
        activeInteractions := None;
      }
    }

    /** The branches of `updateInteraction`, by the kind of interaction. */
    method ApplyInteraction(c: Interactions, dp: DrawingProps, m: MapProps) returns (threw: bool)
      modifies this
      ensures (State(), threw) == Branch(old(State()), c, dp, m)
    {
      var kind := Classify(c, dp.interaction);
      if kind == Drawing {
        AddFeaturesToDrawForSource(m, dp.sourceName);
        currentMode := SetMode(GetMode(dp.interaction), dp.currentMode);
        afterMode := SetMode(currentMode, dp.afterMode);
        if !hasDraw {
          return true;
        }
        effects := effects + [ChangeMode(currentMode, Some(ModeOptions(dp.currentModeOptions)))];
      } else if kind == Editing {
        AddFeaturesToDrawForSource(m, dp.sourceName);
        currentMode := SetMode(Some(SimpleSelectMode), dp.currentMode);
        if !hasDraw {
          return true;
        }
        effects := effects + [ChangeMode(currentMode, Some(ModeOptions(dp.currentModeOptions)))];
        afterMode := SetMode(Some(DirectSelectMode), dp.afterMode);
      } else if kind == Measuring {
        AddFeaturesToDrawForSource(m, dp.sourceName);
        effects := effects + [ClearMeasureFeature];
        var measureType := MeasureType(dp.interaction.value);
        currentMode := SetMode(GetMode(measureType), dp.currentMode);
        if !hasDraw {
          return true;
        }
        effects := effects + [ChangeMode(currentMode, Some(ModeOptions(dp.currentModeOptions)))];
        if !addedMeasurementListener {
          effects := effects + [On("draw.render")];
          addedMeasurementListener := true;
        }
      } else {
        if hasDraw {
          effects := effects + [ChangeMode(Some(StaticMode), None)];
        }
      }
      return false;
    }

    /** The version and interaction part of `configureMap()`. */
    method ConfigureMap(c: Interactions, props: Props) returns (threw: bool)
      modifies this
      ensures (State(), threw) == Configure(old(State()), c, props)
    {
      sourcesVersion := GetVersion(props.mapState, SourceVersionKey);
      layersVersion := GetVersion(props.mapState, LayerVersionKey);
      threw := false;
      if props.drawing.Some? && Truthy(props.drawing.value.interaction) {
        AddDrawIfNeeded(props.drawingModes);
        threw := UpdateInteraction(c, props.drawing.value, props.mapState);
      }
    }

    /** `componentDidUpdate(prevProps)`. The results of the two
      `optionalEquals` comparisons of `mapinfo` are parameters. */
    method ComponentDidUpdate(prev: Props, props: Props, c: Interactions,
                              dataVersionKey: string -> string, liveSources: set<string>,
                              sizeEqual: bool, redrawsEqual: bool) returns (threw: bool)
      requires ValidSources(props.mapState)
      modifies this
      ensures forall k :: k in props.mapState.sourceNames ==> k in props.mapState.sources
      ensures (State(), threw) ==
                DidUpdate(old(State()), prev, props, c, dataVersionKey, liveSources, sizeEqual, redrawsEqual)
    {
      if props.drawing.Some? && Truthy(props.drawing.value.interaction) {
        AddDrawIfNeeded(props.drawingModes);
      }
      ghost var s1 := State();
      SyncStyle(props.mapState);
      SyncView(prev.mapState, props.mapState);
      ghost var s2 := State();
      assert s2 == Emit(SyncStyleStep(s1, props.mapState), ViewEffects(prev.mapState, props.mapState));
      threw := SyncSourceData(prev.mapState, props.mapState, dataVersionKey, liveSources);
      if threw {
        return;
      }
      ghost var s3 := State();
      if !(sizeEqual && redrawsEqual) {
        effects := effects + [Resize];
      }
      assert State() == Emit(s3, if sizeEqual && redrawsEqual then [] else [Resize]);
      if props.drawing.Some? {
        if prev.drawing.None? {
          return true;
        }
        if props.drawing.value.interaction != prev.drawing.value.interaction
           || props.drawing.value.sourceName != prev.drawing.value.sourceName {
          threw := UpdateInteraction(c, props.drawing.value, props.mapState);
        }
      }
    }
  }

  /** One more name of the data loop: its step's calls are appended, or the
      loop throws. */
  lemma DataEffectsSnoc(prev: MapProps, m: MapProps, names: seq<string>, k: nat,
                        dataVersionKey: string -> string, liveSources: set<string>)
    requires forall x :: x in names ==> x in m.sources
    requires k < |names|
    requires !DataEffects(prev, m, names[..k], dataVersionKey, liveSources).1
    ensures var before := DataEffects(prev, m, names[..k], dataVersionKey, liveSources).0;
      DataEffects(prev, m, names[..k + 1], dataVersionKey, liveSources) ==
        match DataStep(prev, m, names[k], dataVersionKey, liveSources)
        case TypeError => (before, true)
        case Ok(es) => (before + es, false)
  {
    assert names[..k + 1][..k] == names[..k];
  }

  /** Once the data loop throws, the loop over a longer prefix has thrown
      too, with the same calls. */
  lemma {:induction false} DataEffectsStops(prev: MapProps, m: MapProps, names: seq<string>, k: nat,
                                            dataVersionKey: string -> string, liveSources: set<string>)
    requires forall x :: x in names ==> x in m.sources
    requires k <= |names|
    requires DataEffects(prev, m, names[..k], dataVersionKey, liveSources).1
    ensures DataEffects(prev, m, names, dataVersionKey, liveSources)
         == DataEffects(prev, m, names[..k], dataVersionKey, liveSources)
    decreases |names| - k
  {
    if k < |names| {
      assert names[..k + 1][..k] == names[..k];
      DataEffectsStops(prev, m, names, k + 1, dataVersionKey, liveSources);
    } else {
      assert names[..k] == names;
    }
  }
}
