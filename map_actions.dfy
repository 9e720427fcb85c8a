/** The map state the map reducer keeps, and the action creators of
    src/actions/MapActions.js that produce its actions. */
module MapActions {
  import opened Common

  /** A JavaScript number as the reducer sees it: `undefined`, `NaN`, or a
      finite value (floating-point rounding is not modelled). */
  datatype Num = Undefined | NaN | Finite(value: real)

  /** `a + b` on JavaScript numbers: anything added to `undefined` or `NaN`
      is `NaN`. */
  function Add(a: Num, d: real): (r: Num)
    ensures a.Finite? <==> r.Finite?
    ensures a.Finite? ==> r.value == a.value + d
    ensures !a.Finite? ==> r == NaN
  {
    if a.Finite? then Finite(a.value + d) else NaN
  }

  /** An OpenLayers coordinate or extent: an array of numbers. */
  type Coordinates = seq<real>

  /** `state.view`: the four fields the reducer writes, and every other
      member of the view object, by name. */
  datatype View = View(
    center: Option<Coordinates>,
    zoom: Num,
    resolution: Num,
    extent: Option<Coordinates>,
    others: map<string, string>)

  /** The map state: `view`, which may be missing, and every other
      top-level member, by name. */
  datatype MapState = MapState(view: Option<View>, others: map<string, string>)

  /** `{}`, the view a spread of a missing `state.view` starts from. */
  const EmptyView := View(None, Undefined, Undefined, None, map[])

  /** The actions the map reducer knows, each carrying the fields its
      action creator sets; `Other` is an action of any other type. */
  datatype MapAction =
    | GetConfig(mapState: MapState)
    | SetView(center: Option<Coordinates>, resolution: Num, zoom: Num, extent: Option<Coordinates>)
    | ChangeExtent(extent: Option<Coordinates>)
    | ZoomIn(zoomDelta: real)
    | ZoomOut(zoomDelta: real)
    | Other(actionType: string)

  /** `getMap(map)`: a `GET_CONFIG` action whose `mapState` is what the map
      configuration service reads from `map` (the service is a parameter). */
  function GetMap<M>(olMap: M, getMapState: M -> MapState): (a: MapAction)
    ensures a.GetConfig? && a.mapState == getMapState(olMap)
  {
    GetConfig(getMapState(olMap))
  }

  /** `setView(center, resolution, zoom, extent)`: a `SET_VIEW` action that
      carries the four arguments unchanged, under their own names. */
  function MakeSetView(center: Option<Coordinates>, resolution: Num, zoom: Num,
                       extent: Option<Coordinates>): (a: MapAction)
    ensures a.SetView?
    ensures a.center == center && a.resolution == resolution
    ensures a.zoom == zoom && a.extent == extent
  {
    SetView(center, resolution, zoom, extent)
  }

  /** `changeExtent(extent)`: a `CHANGE_EXTENT` action carrying `extent`. */
  function MakeChangeExtent(extent: Option<Coordinates>): (a: MapAction)
    ensures a.ChangeExtent? && a.extent == extent
  {
    ChangeExtent(extent)
  }
}
