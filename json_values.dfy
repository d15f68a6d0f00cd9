/**
 * The nested key/value structure that `toArray()` produces: the value space
 * of the interchange format (strings, integers, booleans, null, ordered lists
 * and string-keyed maps that keep insertion order).
 */
module JsonValues {
  import opened OrderedMaps

  datatype Value =
    | Null
    | Bool(b: bool)
    | Num(n: int)
    | Str(s: string)
    | List(items: seq<Value>)
    | Object(members: OrderedMap<Value>)
}
