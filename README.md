# A verified model of the Boundless SDK's map, legend, layer-list and feature-table logic

The Boundless SDK is a set of React and Redux components over OpenLayers and
Mapbox GL. This project models the decision and data logic inside those
components, without the rendering libraries, the DOM or the network, and
proves what that logic promises. It covers these parts:

- **Mapbox GL renderer** (`src/components/mapboxgl.js`), module `MapboxGL`.
  - The component's instance fields are a class `Component`.
  - The calls it makes on the live map, on Mapbox Draw and through
    dispatched actions are recorded as a list of effects.
  - Each method is proved equal to a pure step function over
    `ComponentState`, and the lemmas are proved about those step functions:
    - the style refresh is keyed by version;
    - the choice of Draw modes;
    - the source-data sync;
    - loading a source into the draw control;
    - updates settle.
- **Legend** (`src/components/legend.jsx`), module `Legend`.
  - Vector legends come from metadata.
  - WMS tile URLs are detected, their query keys are normalised to upper
    case, and one `GetLegendGraphic` request is built per `LAYERS` entry.
    This follows the OGC Styled Layer Descriptor profile of WMS, section
    10.2.
  - Lookups of layers by id, and `ref` resolution.
- **Layer list** (`src/components/layer-list.js`), module `LayerList`.
  - The bounds-guarded up and down moves, and the visibility toggle.
  - The render loop places every layer exactly once: in its group or
    among the ungrouped layers, in reverse store order. The exception is a
    layer whose id is a name every object inherits from `Object.prototype`,
    such as "constructor"; that layer is never shown (see "## Findings").
- **Map reducer and its action creators** (`src/reducers/map.js`,
  `src/actions/MapActions.js`), modules `MapReducer` and `MapActions`.
- **WFS and drawing action creators** (`src/actions/wfs.js`,
  `src/actions/drawing.js`), modules `WfsActions` and `DrawingActions`.
- **Feature table** (`src/components/FeatureTable.js`), module
  `FeatureTable`.
  - The table's instance fields are a class `Table`, and it records the
    calls it makes on the feature store.
  - Text filtering is proved against an order-preserving filter function.
  - The page count is a ceiling division on JavaScript numbers.
  - Each layer that has no feature count yet gets its own pending one-time
    listener, which reads the count of whichever layer is current when it
    runs.
- **Feature-table example** (`examples/feature-table/table.js`), module
  `TableExample`. It has the header collection, with repeated keys removed
  in first-seen order, and the header and body cells.

Shared pieces:

- `Common`: JavaScript's `undefined` as `Option` and a thrown `TypeError`
  as `Result`.
- `Strings`: ASCII `toUpperCase`, `indexOf`, `split` and `join`, and
  single-character `replace`.
- `GeoJson`: geometries and features, after sections 3.1 and 3.2 of
  RFC 7946.

## Model

| member | source | states |
|---|---|---|
| Strings.Upper | src/components/legend.jsx:79 | `toUpperCase` keeps the length, leaves no lower-case ASCII letter, and keeps every other character |
| Strings.UpperIdempotent | src/components/legend.jsx:88 | upper-casing an upper-cased key changes nothing |
| Strings.IndexOf | src/components/legend.jsx:79 | `indexOf` returns the first position where the text occurs, and -1 exactly when it occurs nowhere |
| Strings.Split | src/components/legend.jsx:81 | `split` yields at least one part, and no part holds the separator |
| Strings.JoinSplit | src/components/legend.jsx:124 | joining the parts of a split with the same separator gives back the string |
| Strings.SplitJoin | src/components/mapboxgl.js:385 | splitting the join of separator-free parts gives back the parts |
| Strings.ReplaceChar | src/components/FeatureTable.js:317 | `replace(/'/g, '"')` replaces every occurrence and keeps every other character |
| GeoJson.PropertyKeys | examples/feature-table/table.js:30 | `Object.keys(properties)` lists each member's key, in order |
| GeoJson.PropertyValue | examples/feature-table/table.js:67 | `properties[key]` is the own member's value when there is one; otherwise the member inherited from `Object.prototype` for an inherited name such as "toString", and `undefined` exactly for any other name |
| MapActions.Add | src/reducers/map.js:31 | adding to a finite zoom adds the delta; adding to `undefined` or `NaN` gives `NaN` |
| MapActions.GetMap | src/actions/MapActions.js:16-21 | a `GET_CONFIG` action carrying the state read from the map |
| MapActions.MakeSetView | src/actions/MapActions.js:22-27 | a `SET_VIEW` action carrying center, resolution, zoom and extent unchanged |
| MapActions.MakeChangeExtent | src/actions/MapActions.js:28-33 | a `CHANGE_EXTENT` action carrying the extent |
| MapReducer.Reduce | src/reducers/map.js:2-46 | the reducer throws exactly for a zoom action on a state without a view |
| MapReducer.GetConfigReplaces | src/reducers/map.js:4-5 | `GET_CONFIG` replaces the whole state |
| MapReducer.SetViewFrame | src/reducers/map.js:6-16 | `SET_VIEW` sets the four view fields and keeps every other view and state member |
| MapReducer.ChangeExtentFrame | src/reducers/map.js:17-24 | `CHANGE_EXTENT` changes the extent only |
| MapReducer.ZoomFrame | src/reducers/map.js:25-42 | zoom in adds the delta and zoom out subtracts it, with no clamping and no other change |
| MapReducer.ZoomRoundTrip | src/reducers/map.js:25-42 | in exact arithmetic, zooming in then out by the same delta restores a finite zoom, and leaves `NaN` otherwise |
| MapReducer.OtherUnchanged | src/reducers/map.js:43-44 | any other action returns the state unchanged |
| MapReducer.SetViewCreatorReduces | src/actions/MapActions.js:22-27 | reducing the action `setView` makes gives a view with exactly its arguments |
| MapReducer.ChangeExtentAbsorbed | src/reducers/map.js:6-24 | a `CHANGE_EXTENT` followed by `SET_VIEW` with the same extent equals the `SET_VIEW` alone |
| WfsActions.MakeWfsAction | src/actions/wfs.js:5-7 | the action has the given type, source name and feature |
| WfsActions.InsertFeature | src/actions/wfs.js:9-11 | an `INSERT` action with the source name and feature |
| WfsActions.UpdateFeature | src/actions/wfs.js:13-15 | an `UPDATE` action with the source name and feature |
| WfsActions.DeleteFeature | src/actions/wfs.js:17-19 | a `DELETE` action with the source name and feature |
| WfsActions.MakeAddSource | src/actions/wfs.js:21-33 | `prefix` is stored as `featurePrefix`, the other arguments under their own names, and an omitted geometry name becomes 'geometry' |
| WfsActions.AddSourceDefault | src/actions/wfs.js:21 | omitting the geometry name equals passing 'geometry' |
| WfsActions.MakeRemoveSource | src/actions/wfs.js:35-40 | a `REMOVE_SOURCE` action with only the source name |
| WfsActions.MakeFinished | src/actions/wfs.js:42-47 | a `FINISHED` action whose `id` is the action id |
| DrawingActions.StartDrawing | src/actions/drawing.js:6-12 | the second argument becomes `interaction` and the first `sourceName` |
| DrawingActions.EndDrawing | src/actions/drawing.js:14-18 | a `DRAWING.END` action |
| DrawingActions.StartDrawingInjective | src/actions/drawing.js:6-12 | a start action determines both of its arguments |
| LayerList.LayerIndexById | src/components/layer-list.js:34 | the index of the first layer with the id, and -1 exactly when there is none |
| LayerList.MoveLayerUp | src/components/layer-list.js:32-38 | dispatches exactly when the index is below the last, ordering the layer after its successor |
| LayerList.MoveLayerDown | src/components/layer-list.js:40-46 | dispatches exactly when the index is above 0, ordering the predecessor after the layer |
| LayerList.MoveUpMatchesMoveDown | src/components/layer-list.js:32-46 | moving layer i up and layer i+1 down dispatch the same order action |
| LayerList.MoveBounds | src/components/layer-list.js:32-46 | the last layer never moves up and the first never moves down; an unknown id never moves down but "moves up" after the first layer |
| LayerList.ToggleVisibility | src/components/layer-list.js:52-59 | an exclusive group selects the layer in its group; otherwise visibility becomes 'none' exactly when the layer is shown |
| LayerList.InGroup | src/components/layer-list.js:158-164 | a group's members are exactly the layers naming that group |
| LayerList.CollectGroup | src/components/layer-list.js:157-164 | the inner loop collects the group's members and marks their ids |
| LayerList.Render | src/components/layer-list.js:146-183 | the render produces the group entries and then the layers whose id `layersHash` does not hold, where `layersHash` starts out holding the names inherited from `Object.prototype` |
| LayerList.GroupLoop | src/components/layer-list.js:155-177 | the group loop yields one entry per group with members and adds exactly the grouped layers' ids to `layersHash` |
| LayerList.UngroupedLoop | src/components/layer-list.js:178-183 | the last loop yields each layer whose id `layersHash` does not hold, from the last to the first, keyed by index |
| LayerList.InGroupIsReversed | src/components/layer-list.js:158 | a group's members are in reverse store order |
| LayerList.UngroupedOrder | src/components/layer-list.js:178-183 | each ungrouped entry shows an unmarked layer keyed by its own index, with the keys strictly decreasing |
| LayerList.GroupEntriesNonEmpty | src/components/layer-list.js:165-175 | only groups with members get an entry, and each entry's group is a key of the groups object |
| LayerList.EveryLayerOnce | src/components/layer-list.js:146-183 | with distinct ids and group keys, and no id among the names `layersHash` starts out holding, the layers shown are a permutation of the store's layers |
| LayerList.RenderedEveryLayerOnce | src/components/layer-list.js:154-183 | the render as written shows every layer once when no layer id is an inherited name |
| LayerList.InheritedIdHidden | src/components/layer-list.js:154-183 | as written, no ungrouped entry has an inherited name as id: a lone layer "constructor" renders nothing, where the intended render shows it |
| LayerList.IntendedEveryLayerOnce | src/components/layer-list.js:154-183 | with `layersHash` holding only marked ids, every layer is shown once whatever its id |
| LayerList.GroupedLayerPlacement | src/components/layer-list.js:155-183 | a layer naming a group is shown in that group's entry and never among the ungrouped |
| Legend.GetVectorLegend | src/components/legend.jsx:51-66 | 'image', 'html' and 'href' give their kind of legend with the content, and anything else gives no legend |
| Legend.NormalisedKeys | src/components/legend.jsx:85-90 | normalisation adds the upper-case form of every key and no other key |
| Legend.NormalisedElsewhere | src/components/legend.jsx:85-90 | a key that is no key's upper-case form keeps its value |
| Legend.NormalisedKeepsMixedCase | src/components/legend.jsx:85-90 | a key with a lower-case letter keeps its value |
| Legend.NormalisedCaseDistinct | src/components/legend.jsx:85-90 | when no two keys share an upper-case form, each upper-case key holds its original key's value |
| Legend.NormalisedCollision | src/components/legend.jsx:85-90 | when keys share an upper-case form, that form ends up with the value of the last of them that is not already upper case |
| Legend.NormalisedUpperKept | src/components/legend.jsx:85-90 | an upper-case key that no other key upper-cases to keeps its own value |
| Legend.NormaliseKeys | src/components/legend.jsx:85-90 | the key loop computes the normalised parameters |
| Legend.DefinedParamsIff | src/components/legend.jsx:114-119 | an optional key is copied exactly when it is defined, with its value |
| Legend.LegendParamsShape | src/components/legend.jsx:97-119 | the request starts SERVICE=WMS, REQUEST=GetLegendGraphic and FORMAT with the tile URL's FORMAT value (or `undefined`), and never holds WIDTH, HEIGHT or LAYER |
| Legend.CollectOptionalParams | src/components/legend.jsx:108-119 | the optional-key loop copies the defined optional keys in whitelist order |
| Legend.GetRasterLegend | src/components/legend.jsx:75-138 | `getRasterLegend` computes the raster legend, and throws for a WMS URL without LAYERS |
| Legend.RasterFallsBack | src/components/legend.jsx:76-79 | without a tile, or with a tile that is not a WMS URL, the raster legend is the vector legend |
| Legend.OneImagePerLayer | src/components/legend.jsx:121-133 | one image per LAYERS entry, in order and keyed by the layer name; the keys joined by ',' give LAYERS back; each src is the server URL, '?', and the encoded parameters with LAYER |
| Legend.FirstWithId | src/components/legend.jsx:142-149 | the first layer with the id, or none exactly when no layer has it |
| Legend.GetLayerById | src/components/legend.jsx:142-149 | the loop returns the first layer with the id |
| Legend.FirstWithIdAt | src/components/legend.jsx:142-149 | a layer preceded by no other with its id is the one found |
| Legend.GetLegendContents | src/components/legend.jsx:151-180 | `getLegendContents` computes the legend contents, including the vector legend for a source name inherited from `Object.prototype` |
| Legend.UnknownIdNoLegend | src/components/legend.jsx:142-156 | an id no layer has gives no legend, for any list of layers including the empty one |
| Legend.LegendContentsLookup | src/components/legend.jsx:151-180 | a `ref` layer without a source uses its ref's source; for the first layer with the id, a raster source gets the raster legend and any other source the vector legend; a missing ref layer throws, and a missing source throws unless its name is inherited, which gets the vector legend |
| MapboxGL.GetVersion | src/components/mapboxgl.js:61-66 | `undefined` without metadata, and otherwise the metadata's value at the key |
| MapboxGL.GetMode | src/components/mapboxgl.js:301-309 | a mode exactly for Point, LineString and Polygon, and it draws that type |
| MapboxGL.GetModeInverse | src/components/mapboxgl.js:301-309 | each drawing mode is the mode for the type it draws |
| MapboxGL.SetMode | src/components/mapboxgl.js:334-336 | the custom mode when truthy, the default otherwise |
| MapboxGL.SetModeProperties | src/components/mapboxgl.js:334-336 | the result is truthy exactly when either mode is, and overriding twice equals overriding once |
| MapboxGL.ModeOptions | src/components/mapboxgl.js:345-347 | the given options, or `{}` |
| MapboxGL.OptionsForMode | src/components/mapboxgl.js:338-343 | `{featureId}` of the first feature for `direct_select`, `{}` otherwise, and a throw for `direct_select` without features |
| MapboxGL.MeasureSegments | src/components/mapboxgl.js:524-534 | one distance per consecutive pair of a LineString, the area for a Polygon with rings, nothing otherwise |
| MapboxGL.MeasureTypeOf | src/components/mapboxgl.js:385 | 'measure:T' measures type T |
| MapboxGL.DrawingModes | src/components/mapboxgl.js:369-373 | drawing uses the custom mode or the type's mode, and after-mode is the custom one or that mode |
| MapboxGL.EditingModes | src/components/mapboxgl.js:374-378 | modify and select use `simple_select` then `direct_select` unless custom modes are given |
| MapboxGL.MeasuringAndOtherModes | src/components/mapboxgl.js:379-398 | measuring 'measure:T' starts in T's drawing mode and keeps the after-mode; other interactions keep both modes |
| MapboxGL.StyleStep | src/components/mapboxgl.js:111-117 | `setStyle` runs exactly when the version pair differs, and the cached pair becomes the new pair |
| MapboxGL.StyleStepIdempotent | src/components/mapboxgl.js:111-117 | the same versions again do not call `setStyle` |
| MapboxGL.ViewEffectsProperties | src/components/mapboxgl.js:118-134 | unchanged view props make no call; a newly set center, zoom or bearing is pushed; at most three calls |
| MapboxGL.DataEffectsTargets | src/components/mapboxgl.js:135-150 | every `setData` goes to a live GeoJSON source of the previous props whose data version changed, with its current data |
| MapboxGL.DataEffectsSameMetadata | src/components/mapboxgl.js:135-150 | with unchanged metadata no data is set and nothing throws |
| MapboxGL.DataEffectsSnoc | src/components/mapboxgl.js:137-150 | each further source name appends its own calls or stops the loop |
| MapboxGL.DataEffectsStops | src/components/mapboxgl.js:137-150 | once the data loop throws, no later source is visited |
| MapboxGL.LoadedDrawContents | src/components/mapboxgl.js:349-358 | after loading, the draw control holds exactly the source's features, in order |
| MapboxGL.BranchMeaning | src/components/mapboxgl.js:369-398 | a branch throws exactly without a draw control, picks the modes above, and makes the branch's calls |
| MapboxGL.InteractionStepMeaning | src/components/mapboxgl.js:360-418 | `updateInteraction` removes the active controls, throws exactly without a draw control for a known interaction, sets the modes and makes the listed calls |
| MapboxGL.InteractionLoadsSource | src/components/mapboxgl.js:369-387 | with a draw control, a known interaction loads its source's features and then changes mode |
| MapboxGL.ConfigureSettles | src/components/mapboxgl.js:244-245 | configuring never throws, and leaves the versions cached and a draw control whenever an interaction is asked for |
| MapboxGL.DidUpdateSettles | src/components/mapboxgl.js:106-162 | every update leaves the versions cached and a draw control whenever an interaction is asked for |
| MapboxGL.SettledUpdateIsSilent | src/components/mapboxgl.js:106-162 | an update with unchanged props on a settled component makes no call and does not throw |
| MapboxGL.Component.constructor | src/components/mapboxgl.js:72-93 | versions `null`, both modes `static`, no draw control and no active interactions |
| MapboxGL.Component.AddDrawIfNeeded | src/components/mapboxgl.js:215-228 | adds the draw control with the custom modes, the first time only |
| MapboxGL.Component.SyncStyle | src/components/mapboxgl.js:111-117 | applies the style step to the fields |
| MapboxGL.Component.SyncView | src/components/mapboxgl.js:118-134 | makes the view calls |
| MapboxGL.Component.SyncSourceData | src/components/mapboxgl.js:135-150 | the data loop makes the data calls, or throws |
| MapboxGL.Component.SyncOneSource | src/components/mapboxgl.js:138-149 | one pass of the data loop |
| MapboxGL.Component.AddFeaturesToDrawForSource | src/components/mapboxgl.js:349-358 | deletes the drawn features and adds the source's features |
| MapboxGL.Component.UpdateInteraction | src/components/mapboxgl.js:360-418 | performs the interaction step on the fields |
| MapboxGL.Component.RemoveActiveInteractions | src/components/mapboxgl.js:363-368 | removes each active control and clears the list |
| MapboxGL.Component.ApplyInteraction | src/components/mapboxgl.js:369-398 | performs the branch for the interaction's kind |
| MapboxGL.Component.ConfigureMap | src/components/mapboxgl.js:244-277 | caches the versions, then adds the draw control and applies the interaction when one is asked for |
| MapboxGL.Component.ComponentDidUpdate | src/components/mapboxgl.js:106-162 | performs the update step on the fields |
| FeatureTable.FilterRows | src/components/FeatureTable.js:329-339 | the kept rows are no more than the rows, and every kept row is present and passes the test |
| FeatureTable.FilterRowsSubsequence | src/components/FeatureTable.js:329-339 | the kept rows sit at strictly increasing positions, and a position is kept exactly when its row is present and passes |
| FeatureTable.FilterRowsKeepsAll | src/components/FeatureTable.js:344 | every row is kept exactly when the count is unchanged, and then the rows are the same |
| FeatureTable.QuotesNormalised | src/components/FeatureTable.js:317 | same length, with no single quote left |
| FeatureTable.FilteredByCases | src/components/FeatureTable.js:308-347 | an empty expression keeps all rows; a failed compile keeps none; with a test, the table is filtered exactly when some row is missing or fails |
| FeatureTable.StoreFilterCall | src/components/FeatureTable.js:273-284 | the filtered rows when filtered; otherwise the selection exactly when showing selected only, and the originals if not |
| FeatureTable.UnfilteredUpdate | src/components/FeatureTable.js:273-284 | after an expression that keeps every row, the store gets the selection or the originals, not rows |
| FeatureTable.PageCount | src/components/FeatureTable.js:241 | `Math.ceil(n / size)`: the pages hold n features, and one page fewer would not |
| FeatureTable.PageCountLeast | src/components/FeatureTable.js:370-375 | feature i lies on page i / size, which starts at page × size and exists |
| FeatureTable.Ceil | src/components/FeatureTable.js:241 | `Math.ceil(count / size)` on JavaScript numbers: `NaN` for an `undefined` count or 0 / 0, `Infinity` for a positive count over a page size of 0, otherwise the page count |
| FeatureTable.TablePages | src/components/FeatureTable.js:375 | `undefined` exactly for a missing or zero count; `Infinity` for a page size of 0; otherwise the positive page count |
| FeatureTable.RemoveFirst | src/components/FeatureTable.js:239 | a once-listener that runs is removed and every other pending listener stays: the pending multiset loses exactly one entry |
| FeatureTable.FilterLayerListTitles | src/components/FeatureTable.js:270-272 | only a `null` title excludes a visible vector or WFS layer, so a layer with an `undefined` title is listed |
| FeatureTable.Table.constructor | src/components/FeatureTable.js:187-200 | nothing selected only, no error, the given page size, and pages -1 |
| FeatureTable.Table.SetLayer | src/components/FeatureTable.js:234-246 | a non-null layer is added to the store, and a layer without a count gets a pending listener of its own while earlier layers' listeners stay pending |
| FeatureTable.Table.OnNumberOfFeatures | src/components/FeatureTable.js:238-243 | nothing without a pending listener for the layer that fired; otherwise that listener is removed, throws when the current layer is `null`, and else sets the page count from the CURRENT layer's count, whichever layer fired |
| FeatureTable.Table.OnTableChange | src/components/FeatureTable.js:364-372 | no request without a layer, and otherwise loads `pageSize` features from page × pageSize |
| FeatureTable.Table.OnPageLoaded | src/components/FeatureTable.js:372-377 | stores the page size and `TablePages` of the layer's count, for any page size |
| FeatureTable.Table.UpdateStoreFilter | src/components/FeatureTable.js:273-284 | makes the store call `StoreFilterCall` chooses and changes nothing else |
| FeatureTable.Table.Filter | src/components/FeatureTable.js:266-269 | sets selected-only and then updates the store filter |
| FeatureTable.Table.ClearSelected | src/components/FeatureTable.js:285-290 | clears the selection only when something is selected, and throws on a `null` selection |
| FeatureTable.Table.FilterByText | src/components/FeatureTable.js:308-347 | rows come from the selection or from all features; the kept rows are `FilteredBy`; filtered exactly when the counts differ; the error flags follow the compile outcome; the store gets the kept rows |
| TableExample.SourceFeatures | examples/feature-table/table.js:25 | the source's features, or a throw for a missing source or missing features |
| TableExample.AllKeysMembers | examples/feature-table/table.js:27-37 | a key is collected exactly when some feature has it as an own key |
| TableExample.DedupOrder | examples/feature-table/table.js:33-35 | no header repeats, and the headers follow the order of first occurrence |
| TableExample.TableHeadersProperties | examples/feature-table/table.js:21-39 | no headers for an empty source name; a throw exactly for a missing source, missing features or a feature with `null` properties; otherwise every key of every feature exactly once, in first-seen order |
| TableExample.GetTableHeaders | examples/feature-table/table.js:21-39 | the nested loops compute the headers, stopping with a throw at `Object.keys(null)` |
| TableExample.AddUnseen | examples/feature-table/table.js:31-36 | the inner loop appends each key not yet collected |
| TableExample.BuildTableHeader | examples/feature-table/table.js:42-51 | nothing for an empty list, otherwise one cell per property, keyed and labelled by it |
| TableExample.TableBodyShape | examples/feature-table/table.js:54-96 | a throw exactly when there are columns and some feature's properties are `null`; otherwise one row per feature with one cell per property plus a control cell; only the edited row has inputs; each cell shows what the lookup reads, inherited names included |
| TableExample.BuildTableBody | examples/feature-table/table.js:54-96 | the nested loops build those rows, or throw at the first lookup on `null` properties |

## Left out

- Rendering is not modelled: React and JSX output, the DOM, popups
  (`addPopup`, `updatePopups`, `onMapLoad`), Snackbars and ReactTable. Only
  the cells of the example table are modelled, as data.
- The `mapboxgl` component assumes a live map. The branch that runs
  without Mapbox GL is not modelled.
- Event callbacks are not modelled: `onMapClick`, `onMapMoveEnd`,
  `onMouseMove`, `onDrawCreate`, `onDrawModify`, `onDrawRender` and
  `onFeatureEvent` react to browser events.
- `configureMap` is modelled only for its version caching and interaction
  setup. The map constructor options, the `setSize`/`setProjection`
  dispatches and the `resize`/`mousemove`/`moveend`/`click`/`load`
  listeners are browser wiring.
- MapboxGL.Component.UpdateInteraction: `activeInteractions` is never set
  to a list in this file, so the loop that adds controls back is dead code.
  The model keeps the removal loop and leaves the add-back loop out.
- MapboxGL: the `off('draw.create')` and `off('draw.update')` calls are
  recorded as calls only. They are given newly made functions, so they
  remove no earlier listener.
- Custom drawing modes are modelled by their names only. The mode objects
  are Mapbox Draw code.
- Floating point is not modelled.
  - Zoom, bearing and the measure distances and areas are `real`.
  - `distance` and `area` (turf) are parameters.
  - A center is compared as a pair, as the component compares its two
    coordinates.
- Code outside this model becomes parameters:
  - `parseQueryString` and `encodeQueryObject` (legend);
  - `INTERACTIONS`, `dataVersionKey`, and the results of `optionalEquals`
    and `map.getSource` (Mapbox GL);
  - `FilterService.filter` (feature table);
  - `isLayerVisible` and the map configuration service.
  - `getLayerIndexById` is defined from its documented behaviour.
- `FeatureStore` and `SelectActions` are not modelled. The calls the
  feature table makes on them are recorded. `_onChange` and
  `_zoomSelected` are left out; they depend on the store's internals and
  on OpenLayers extents.
- A compiled filter that throws while testing a row is not modelled. The
  test is a total predicate.
- The text of error messages (`formatMessage`) is not modelled. Only the
  error flags are.
- The load-failure callback of `_onTableChange`, and its `loading` flag,
  are not modelled.
- `getRemoteLegend` fetches over the network. An 'href' legend is modelled
  as the URL it would fetch.
- Strings.Upper models `toUpperCase` for ASCII letters only. Other Unicode
  case mappings are not modelled.
- FeatureTable.PageCount and FeatureTable.PageCountLeast require a
  positive page size: they are the arithmetic of the positive case. A page
  size of 0 is covered by FeatureTable.Ceil and FeatureTable.TablePages.
- FeatureTable.Table.OnNumberOfFeatures runs one pending listener per
  call. When several listeners are pending for the layer that fired,
  OpenLayers runs them one after another, and each is one call here.
- GeoJson.Property: property values are strings. Numbers, booleans,
  `null` and nested objects are not told apart, since the modelled code
  only passes the values on.
- FeatureTable.Table.SetLayer treats a layer passed as `undefined` like a
  missing one. The component would call the store with it and then throw.
- TableExample: the example's edit handlers (`setState` on click or
  change) and the layer `<option>` list of `render` are UI and are not
  modelled.

## Findings

| source | as written | input that shows it | evidently intended | confidence | as-written member | corrected member |
|---|---|---|---|---|---|---|
| src/components/layer-list.js:154-183 | `layersHash` is a plain object `{}`, so `!layersHash[layer.id]` is false for any id inherited from `Object.prototype` | one layer with id "constructor" and no groups: nothing is rendered | every layer is rendered once, in its group or among the ungrouped layers | high (not executed) | LayerList.InheritedIdHidden | LayerList.IntendedEveryLayerOnce |
