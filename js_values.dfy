/** JavaScript values, as far as the modelled code inspects them. */
module JsValues {

  datatype Option<+T> = None | Some(value: T)

  /** A JavaScript value. `Ref` stands for any object or function, known only by
      its identity. NaN and non-integral numbers are not modelled. */
  datatype Value = Undefined | Null | Bool(b: bool) | Int(i: int) | Str(s: string) | Ref(id: nat)

  /** ECMAScript ToBoolean on the values above: what `if (v)` and `v && ...` test. */
  predicate Truthy(v: Value) {
    match v
    case Undefined => false
    case Null => false
    case Bool(b) => b
    case Int(i) => i != 0
    case Str(s) => s != ""
    case Ref(_) => true
  }

  /** Truthiness of a property read that may find no property at all (reads as undefined). */
  predicate TruthyProperty(v: Option<Value>) {
    v.Some? && Truthy(v.value)
  }
}
