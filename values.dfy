/**
 * Shared vocabulary: the Option/Result wrappers used for error paths and a
 * model of the JavaScript values that flow through the actions (payloads,
 * ids, configuration entries), with JavaScript's notion of truthiness.
 */
module Wrappers {

  datatype Option<+T> = None | Some(value: T) {
    function GetOr(default: T): T {
      match this
      case Some(v) => v
      case None => default
    }
  }

  datatype Result<+R, +E> = Ok(value: R) | Err(error: E)
}

module Values {
  import opened Wrappers

  /**
   * A JavaScript value. Numbers are reals plus the distinct NaN; arrays,
   * functions and symbols are not needed by the modelled code.
   */
  datatype Value =
    | Undefined
    | Null
    | Bool(b: bool)
    | Num(n: real)
    | NaN
    | Str(s: string)
    | Obj(fields: PlainObject)

  /** A plain object (`Record<string, any>`): own enumerable keys to values. */
  type PlainObject = map<string, Value>

  /** `!!v` in JavaScript. */
  predicate Truthy(v: Value) {
    match v
    case Undefined => false
    case Null => false
    case Bool(b) => b
    case Num(n) => n != 0.0
    case NaN => false
    case Str(s) => s != ""
    case Obj(_) => true
  }

  /** `isNumber` of is-what: a number that is not NaN. */
  predicate IsNumber(v: Value) {
    v.Num?
  }

  /** `isFullString` of is-what: a string that is not empty. */
  predicate IsFullString(v: Value) {
    v.Str? && v.s != ""
  }

  /** `obj[key]`: a missing own key reads as `undefined`. */
  function Get(obj: PlainObject, key: string): (v: Value)
    ensures key !in obj ==> v == Undefined
    ensures key in obj ==> v == obj[key]
  {
    if key in obj then obj[key] else Undefined
  }

  /** An optional string as a JavaScript value: `undefined` when absent. */
  function OptionalString(s: Option<string>): (v: Value)
    ensures Truthy(v) <==> s.Some? && s.value != ""
  {
    match s
    case Some(x) => Str(x)
    case None => Undefined
  }

  /** `a || b` in JavaScript: the first operand when it is truthy, else the second. */
  function Or(a: Value, b: Value): (v: Value)
    ensures Truthy(a) ==> v == a
    ensures !Truthy(a) ==> v == b
  {
    if Truthy(a) then a else b
  }

  /** The `[collectionPath, docId]` pair every action receives; `docId` is absent on a collection. */
  datatype ModuleTarget = ModuleTarget(collectionPath: string, docId: Option<string>)

  /** `!!docId`: present and not the empty string. */
  predicate HasDocId(target: ModuleTarget) {
    Truthy(OptionalString(target.docId))
  }
}
