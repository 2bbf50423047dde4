/**
  The parts of Go's runtime that the assertions observe: dynamically typed
  values (an `interface{}`), the kind and length that `reflect` reports for
  them, the host test object, and the equality engine whose definitions
  (`isEqual`, `isNil`, `isZero`) are not part of this model.
 */
module Values {

  /** The reflect kinds that `Len` tells apart; every other kind is `Other`. */
  datatype Kind = Array | Slice | Map | Other

  /** A dynamic type: its name stands for its identity, `kind` for `Type.Kind()`. */
  datatype GoType = GoType(name: string, kind: Kind)

  /**
    An `interface{}` value: either the untyped nil interface, or a value of a
    dynamic type. `len` is what `reflect.Value.Len` reports for countable
    kinds; `data` stands for the rest of the runtime value.
   */
  datatype Value = NilInterface | Of(typ: GoType, len: nat, data: string)

  /** The host test object (`testing.TB`); a nil interface is `NilTB`. */
  datatype TB = NilTB | TestObject(id: nat)

  /**
    The equality engine, kept uninterpreted: any three functions may be
    supplied, and every assertion is proved for all of them.
   */
  datatype Engine = Engine(
    isEqual: (Value, Value) -> bool,
    isNil: Value -> bool,
    isZero: Value -> bool)

  /** `reflect.TypeOf`: the nil interface has no dynamic type. */
  function TypeOf(v: Value): Option<GoType> {
    match v
    case NilInterface => None
    case Of(typ, _, _) => Some(typ)
  }

  /** True when `Len` may compare lengths: a non-nil array, slice or map. */
  predicate Countable(v: Value) {
    v.Of? && v.typ.kind in {Array, Slice, Map}
  }

  datatype Option<+T> = None | Some(value: T)
}
