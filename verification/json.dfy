/** Decoded JSON values as the relay sees them: the properties of an inbound
    payload, and the values it passes through to other peers unchanged. */
module Json {
  import opened Wrappers

  /** A value produced by decoding JSON text. Numbers are finite reals;
      arrays and objects are kept whole. Only the string conversion that
      `parseInt` performs looks inside them (`ToStringThrows`). */
  datatype Value =
    | Null
    | Bool(b: bool)
    | Num(n: real)
    | Str(s: string)
    | Arr(elems: seq<Value>)
    | Obj(props: seq<(string, Value)>)

  /** A property read off a decoded payload: `None` is `undefined`. */
  type Field = Option<Value>

  /** JavaScript falsiness of a property read (`!v`): undefined, null, false,
      zero and the empty string. Decoding never yields NaN. */
  predicate Falsy(f: Field) {
    match f
    case None => true
    case Some(v) => v == Null || v == Bool(false) || v == Num(0.0) || v == Str("")
  }

  /** The test behind `??`: the property is undefined or null. */
  predicate Nullish(f: Field) {
    f == None || f == Some(Null)
  }

  /** JavaScript's conversion of a decoded value to a string throws. An
      object with an own `toString` property cannot convert: that property
      is never callable after decoding, and the inherited `valueOf` returns
      the object itself. An array converts by joining its elements, so it
      throws when one of them does. Every other value converts. */
  predicate ToStringThrows(v: Value) {
    match v
    case Obj(props) => exists i :: 0 <= i < |props| && props[i].0 == "toString"
    case Arr(elems) => exists i :: 0 <= i < |elems| && ToStringThrows(elems[i])
    case _ => false
  }

  /** `f ?? d` */
  function Coalesce(f: Field, d: Value): Value {
    if Nullish(f) then d else f.value
  }
}
