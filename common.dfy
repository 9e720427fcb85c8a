/** Values shared by every module of the model: JavaScript's `undefined`
    as an Option, and the truthiness test the components apply to optional
    strings. */
module Common {

  /** A value that may be `undefined` (None). */
  datatype Option<+T> = None | Some(value: T) {
    function GetOr(default: T): T {
      match this
      case Some(v) => v
      case None => default
    }
  }

  /** An outcome that may be a thrown JavaScript `TypeError`, as happens
      when the source reads a property of `undefined` or `null`. */
  datatype Result<+T> = Ok(value: T) | TypeError

  /** The names every plain object inherits from `Object.prototype` in
      ECMAScript: reading one of them on an object that has no own property
      of that name finds the inherited (truthy) member, not `undefined`. */
  const ProtoNames: set<string> := {
    "constructor", "hasOwnProperty", "isPrototypeOf", "propertyIsEnumerable",
    "toLocaleString", "toString", "valueOf", "__proto__",
    "__defineGetter__", "__defineSetter__", "__lookupGetter__", "__lookupSetter__"
  }

  /** JavaScript truthiness of an optional string: `undefined`, `null` and
      the empty string are falsy, every other string is truthy. */
  predicate Truthy(s: Option<string>) {
    s.Some? && s.value != ""
  }
}
