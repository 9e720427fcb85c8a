/** The parts of GeoJSON (RFC 7946) the components look at: geometries
    by type (section 3.1) and features with their properties (section 3.2). */
module GeoJson {
  import opened Common

  /** A position (RFC 7946, section 3.1.1): longitude, latitude and
      optional further numbers. */
  type Position = seq<real>

  /** A geometry, told apart by its "type" member. */
  datatype Geometry =
    | Point(position: Position)                   // section 3.1.2
    | LineString(coordinates: seq<Position>)      // section 3.1.4
    | Polygon(rings: seq<seq<Position>>)          // section 3.1.6
    | OtherGeometry(typeName: string)             // any other type

  /** One member of a feature's "properties" object. */
  datatype Property = Property(key: string, value: string)

  /** A feature (section 3.2); `properties` lists the members of the
      "properties" object in the order `Object.keys` gives them, and is
      None when the member is `null`, as section 3.2 allows. */
  datatype Feature = Feature(id: Option<string>, geometry: Geometry, properties: Option<seq<Property>>)

  /** `Object.keys(feature.properties)` of a non-null properties object. */
  function PropertyKeys(props: seq<Property>): (keys: seq<string>)
    ensures |keys| == |props|
    ensures forall i :: 0 <= i < |props| ==> keys[i] == props[i].key
  {
    seq(|props|, i requires 0 <= i < |props| => props[i].key)
  }

  /** What `properties[key]` reads: the value of an own member, a member
      every object inherits from `Object.prototype` (a function or, for
      `__proto__`, the prototype itself), or `undefined`. */
  datatype PropertyRead = Own(value: string) | Inherited(name: string) | Absent

  /** `properties[key]` on a non-null properties object: the own member
      named `key` if there is one; otherwise the inherited member of that
      name, and `undefined` only for a name that is not inherited. */
  function PropertyValue(props: seq<Property>, key: string): (v: PropertyRead)
    ensures v.Own? <==> key in PropertyKeys(props)
    ensures v.Own? ==> Property(key, v.value) in props
    ensures v.Inherited? <==> key !in PropertyKeys(props) && key in ProtoNames
    ensures v.Inherited? ==> v.name == key
    ensures v.Absent? <==> key !in PropertyKeys(props) && key !in ProtoNames
  {
    if props == [] then (if key in ProtoNames then Inherited(key) else Absent)
    else if props[0].key == key then Own(props[0].value)
    else PropertyValue(props[1..], key)
  }
}
