/**
 * The slice of JavaScript semantics the app's logic relies on: dynamically
 * typed values, truthiness and object spread.
 */
module Js {
  /** A JavaScript value. Numbers are integers; NaN and fractions are not modelled. */
  datatype Value =
    | Undefined
    | Null
    | Bool(b: bool)
    | Num(n: int)
    | Str(s: string)
    | Arr(items: seq<Value>)
    | Obj(fields: Object)

  type Object = map<string, Value>

  /** JavaScript truthiness: undefined, null, false, 0 and '' are falsy; arrays and objects are truthy. */
  predicate Truthy(v: Value)
  {
    match v
    case Undefined => false
    case Null => false
    case Bool(b) => b
    case Num(n) => n != 0
    case Str(s) => s != ""
    case Arr(_) => true
    case Obj(_) => true
  }

  /** `{...base, ...over}`: every key of `over` wins, the other keys of `base` survive. */
  function Spread(base: Object, over: Object): (r: Object)
    ensures r.Keys == base.Keys + over.Keys
    ensures forall k :: k in over ==> r[k] == over[k]
    ensures forall k :: k in base && k !in over ==> r[k] == base[k]
  {
    base + over
  }

  /** Property read `o[k]`, which is undefined for a missing key. */
  function Get(o: Object, k: string): Value
  {
    if k in o then o[k] else Undefined
  }

  /** Property read on any value: only objects have named properties here. */
  function Prop(v: Value, k: string): Value
  {
    if v.Obj? then Get(v.fields, k) else Undefined
  }

  /** The values whose property reads throw a TypeError instead of giving undefined. */
  predicate Nullish(v: Value)
  {
    v.Undefined? || v.Null?
  }

  /**
   * `v.length > 0`: an array or a string by its length, an object by a
   * numeric `length` property; other values have no length.
   */
  predicate HasPositiveLength(v: Value)
  {
    match v
    case Arr(items) => |items| > 0
    case Str(s) => |s| > 0
    case Obj(fields) => Get(fields, "length").Num? && Get(fields, "length").n > 0
    case _ => false
  }

  /** `v[0]` on a value with a positive length: an array's first item, a string's first character, an object's '0' property. */
  function First(v: Value): (r: Value)
    requires HasPositiveLength(v)
    ensures v.Arr? ==> r == v.items[0]
    ensures v.Str? ==> r == Str([v.s[0]]) && !Nullish(r)
  {
    match v
    case Arr(items) => items[0]
    case Str(s) => Str([s[0]])
    case Obj(fields) => Get(fields, "0")
  }
}
