/**
 * Go's dynamic `interface{}` values, as far as the modelled code looks at
 * them: nil, the scalar kinds it tests for, the two map types it tells
 * apart, and every other value as an opaque token.
 */
module Values {

  datatype Value =
    | Nil
    | Bool(b: bool)
    | Int(i: int)
    | Str(s: string)
      /** a `map[string]interface{}` */
    | StringMap(entries: map<string, Value>)
      /** a `map[interface{}]interface{}` */
    | AnyMap(pairs: map<Value, Value>)
      /** any other value, known only by an identity */
    | Opaque(id: nat)
}
