/** The WFS-T action creators of src/actions/wfs.js: plain records with one
    defaulted argument and one renamed field. */
module WfsActions {
  import opened Common
  import opened GeoJson

  /** The types of the WFS actions. */
  datatype WfsType = Insert | Update | Delete | AddSource | RemoveSource | Finished

  /** The `sourceDef` record of an `ADD_SOURCE` action. */
  datatype SourceDef = SourceDef(
    onlineResource: string,
    xmlNs: string,
    typeName: string,
    featurePrefix: string,
    geometryName: string)

  /** The WFS actions, each with exactly the fields its creator sets. */
  datatype WfsAction =
    | FeatureAction(actionType: WfsType, sourceName: string, feature: Feature)
    | AddSourceAction(sourceName: string, sourceDef: SourceDef)
    | RemoveSourceAction(sourceName: string)
    | FinishedAction(id: string)
  {
    /** The `type` field of the action. */
    function Type(): WfsType {
      match this
      case FeatureAction(t, _, _) => t
      case AddSourceAction(_, _) => AddSource
      case RemoveSourceAction(_) => RemoveSource
      case FinishedAction(_) => Finished
    }
  }

  /** `wfsAction(type, sourceName, feature)`. */
  function MakeWfsAction(actionType: WfsType, sourceName: string, feature: Feature): (a: WfsAction)
    ensures a.FeatureAction? && a.Type() == actionType
    ensures a.sourceName == sourceName && a.feature == feature
  {
    FeatureAction(actionType, sourceName, feature)
  }

  /** `insertFeature`, `updateFeature` and `deleteFeature`: `INSERT`,
      `UPDATE` and `DELETE` actions that pass the source name and the
      feature through. */
  function InsertFeature(sourceName: string, feature: Feature): (a: WfsAction)
    ensures a.FeatureAction? && a.Type() == Insert && a.sourceName == sourceName && a.feature == feature
  {
    MakeWfsAction(Insert, sourceName, feature)
  }

  function UpdateFeature(sourceName: string, feature: Feature): (a: WfsAction)
    ensures a.FeatureAction? && a.Type() == Update && a.sourceName == sourceName && a.feature == feature
  {
    MakeWfsAction(Update, sourceName, feature)
  }

  function DeleteFeature(sourceName: string, feature: Feature): (a: WfsAction)
    ensures a.FeatureAction? && a.Type() == Delete && a.sourceName == sourceName && a.feature == feature
  {
    MakeWfsAction(Delete, sourceName, feature)
  }

  /** `addSource(sourceName, onlineResource, xmlNs, prefix, typeName,
      geometryName = 'geometry')`: `prefix` is stored as `featurePrefix`,
      the other arguments under their own names, and an omitted geometry
      name becomes 'geometry'. */
  function MakeAddSource(sourceName: string, onlineResource: string, xmlNs: string,
                         prefix: string, typeName: string,
                         geometryName: Option<string>): (a: WfsAction)
    ensures a.AddSourceAction? && a.Type() == AddSource && a.sourceName == sourceName
    ensures a.sourceDef.onlineResource == onlineResource && a.sourceDef.xmlNs == xmlNs
    ensures a.sourceDef.typeName == typeName && a.sourceDef.featurePrefix == prefix
    ensures geometryName.None? ==> a.sourceDef.geometryName == "geometry"
    ensures geometryName.Some? ==> a.sourceDef.geometryName == geometryName.value
  {
    AddSourceAction(sourceName, SourceDef(onlineResource, xmlNs, typeName, prefix,
                                          geometryName.GetOr("geometry")))
  }

  /** `removeSource(sourceName)`: type and source name only. */
  function MakeRemoveSource(sourceName: string): (a: WfsAction)
    ensures a.Type() == RemoveSource && a == RemoveSourceAction(sourceName)
  {
    RemoveSourceAction(sourceName)
  }

  /** `finishedAction(id)`: type `FINISHED` and the id. */
  function MakeFinished(actionId: string): (a: WfsAction)
    ensures a.Type() == Finished && a == FinishedAction(actionId)
  {
    FinishedAction(actionId)
  }

  /** Omitting the geometry name is the same as passing 'geometry'. */
  lemma AddSourceDefault(sourceName: string, onlineResource: string, xmlNs: string,
                         prefix: string, typeName: string)
    ensures MakeAddSource(sourceName, onlineResource, xmlNs, prefix, typeName, None)
         == MakeAddSource(sourceName, onlineResource, xmlNs, prefix, typeName, Some("geometry"))
  {
  }
}
