/** Values exchanged with the document database, and the Option wrapper. */
module Values {

  datatype Option<+T> = None | Some(value: T)

  /** A wire-level (BSON-like) value as it appears inside an update document. */
  datatype Value =
    | Null
    | Bool(b: bool)
    | Int(i: int)
    | Str(s: string)
    | List(items: seq<Value>)
    | Doc(fields: map<string, Value>)

  /** A mapping from field names to values: the argument of one update operator. */
  type Fields = map<string, Value>

  /** Python truthiness of an optional dict argument: absent (None) and empty are falsy. */
  predicate Truthy(arg: Option<Fields>): (b: bool)
    ensures b <==> exists f :: arg.Some? && f in arg.value
  {
    assert arg.Some? && arg.value != map[] ==> exists f :: f in arg.value;
    arg.Some? && arg.value != map[]
  }
}
