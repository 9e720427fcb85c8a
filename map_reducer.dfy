/** The map view reducer of src/reducers/map.js: every case builds a new
    state object by spreading the old one. */
module MapReducer {
  import opened Common
  import opened MapActions

  /** The reducer's default state, `[]`: no view and no other member. */
  const InitialState := MapState(None, map[])

  /** `{...state.view}`: the old view, or `{}` when there is none. */
  function ViewOf(state: MapState): View {
    state.view.GetOr(EmptyView)
  }

  /** The reducer. A missing state (`undefined`) is the default state.
      A zoom action on a state without a view reads `undefined.zoom` and
      throws. */
  function Reduce(state: Option<MapState>, action: MapAction): (r: Result<MapState>)
    ensures r.TypeError? <==>
              (action.ZoomIn? || action.ZoomOut?) && state.GetOr(InitialState).view.None?
  {
    var s := state.GetOr(InitialState);
    match action
    case GetConfig(mapState) => Ok(mapState)
    case SetView(center, resolution, zoom, extent) =>
      Ok(s.(view := Some(ViewOf(s).(center := center, zoom := zoom,
                                     resolution := resolution, extent := extent))))
    case ChangeExtent(extent) =>
      Ok(s.(view := Some(ViewOf(s).(extent := extent))))
    case ZoomIn(delta) =>
      if s.view.None? then TypeError
      else Ok(s.(view := Some(s.view.value.(zoom := Add(s.view.value.zoom, delta)))))
    case ZoomOut(delta) =>
      if s.view.None? then TypeError
      else Ok(s.(view := Some(s.view.value.(zoom := Add(s.view.value.zoom, -delta)))))
    case Other(_) => Ok(s)
  }

  /** `GET_CONFIG` replaces the whole state by the action's `mapState`. */
  lemma GetConfigReplaces(state: Option<MapState>, mapState: MapState)
    ensures Reduce(state, GetConfig(mapState)) == Ok(mapState)
  {
  }

  /** `SET_VIEW` sets the view's center, zoom, resolution and extent to the
      action's and keeps every other view member and top-level member. */
  lemma SetViewFrame(s: MapState, a: MapAction)
    requires a.SetView?
    ensures Reduce(Some(s), a).Ok?
    ensures var v := Reduce(Some(s), a).value.view;
      && v.Some?
      && v.value.center == a.center && v.value.zoom == a.zoom
      && v.value.resolution == a.resolution && v.value.extent == a.extent
      && v.value.others == ViewOf(s).others
    ensures Reduce(Some(s), a).value.others == s.others
  {
  }

  /** `CHANGE_EXTENT` changes the view's extent and nothing else. */
  lemma ChangeExtentFrame(s: MapState, extent: Option<Coordinates>)
    ensures Reduce(Some(s), ChangeExtent(extent)).Ok?
    ensures var r := Reduce(Some(s), ChangeExtent(extent)).value;
      && r.others == s.others
      && r.view == Some(ViewOf(s).(extent := extent))
  {
  }

  /** `ZOOM_IN` adds the delta and `ZOOM_OUT` subtracts it, unclamped; no
      other member changes. */
  lemma ZoomFrame(s: MapState, delta: real)
    requires s.view.Some?
    ensures var i := Reduce(Some(s), ZoomIn(delta));
      && i.Ok? && i.value.others == s.others
      && i.value.view == Some(s.view.value.(zoom := Add(s.view.value.zoom, delta)))
    ensures var o := Reduce(Some(s), ZoomOut(delta));
      && o.Ok? && o.value.others == s.others
      && o.value.view == Some(s.view.value.(zoom := Add(s.view.value.zoom, -delta)))
  {
  }

  /** Zooming in and then out by the same delta restores a finite zoom and
      so the whole state; from an `undefined` or `NaN` zoom it leaves `NaN`. */
  lemma ZoomRoundTrip(s: MapState, delta: real)
    requires s.view.Some?
    ensures Reduce(Some(s), ZoomIn(delta)).Ok?
    ensures var back := Reduce(Some(Reduce(Some(s), ZoomIn(delta)).value), ZoomOut(delta));
      && back.Ok?
      && (s.view.value.zoom.Finite? ==> back.value == s)
      && (!s.view.value.zoom.Finite? ==> back.value == s.(view := Some(s.view.value.(zoom := NaN))))
  {
    var v := s.view.value;
    if v.zoom.Finite? {
      assert v.zoom.value + delta + -delta == v.zoom.value;
      assert v.(zoom := Finite(v.zoom.value)) == v;
    }
  }

  /** An action of any other type returns the state unchanged. */
  lemma OtherUnchanged(s: MapState, actionType: string)
    ensures Reduce(Some(s), Other(actionType)) == Ok(s)
  {
  }

  /** Feeding `setView(c, r, z, e)` to the reducer gives a view whose
      center, resolution, zoom and extent are c, r, z and e. */
  lemma SetViewCreatorReduces(state: Option<MapState>, c: Option<Coordinates>, r: Num, z: Num,
                              e: Option<Coordinates>)
    ensures var next := Reduce(state, MakeSetView(c, r, z, e));
      && next.Ok? && next.value.view.Some?
      && next.value.view.value.center == c && next.value.view.value.resolution == r
      && next.value.view.value.zoom == z && next.value.view.value.extent == e
  {
  }

  /** Feeding `changeExtent(e)` and then `setView` with the same extent is the
      same as the `setView` alone: `SET_VIEW` overwrites the extent. */
  lemma ChangeExtentAbsorbed(s: MapState, e: Option<Coordinates>, c: Option<Coordinates>,
                             r: Num, z: Num)
    ensures Reduce(Some(Reduce(Some(s), MakeChangeExtent(e)).value), MakeSetView(c, r, z, e))
         == Reduce(Some(s), MakeSetView(c, r, z, e))
  {
  }
}
