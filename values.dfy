/** The configuration tree: keys, values, and the error kinds the engine reports. */
module Values {

  /** A mapping key. Strings are the common case, but any hashable value may be a
      key; integers stand for the non-textual ones (they are never split on '.'). */
  datatype Key = KStr(s: string) | KInt(i: int)

  /** A configuration value. `Opaque(id)` stands for an arbitrary host object (such as
      a sentinel `object()`), compared by its identity number. */
  datatype Value =
    | Str(s: string)
    | Int(i: int)
    | Bool(b: bool)
    | Null
    | Opaque(id: nat)
    | List(items: seq<Value>)
    | Map(entries: map<Key, Value>)

  /** The ways an operation of the engine can fail. */
  datatype ConfigError =
    | KeyNotFound      // a path segment is absent (KeyError)
    | TypeMismatch     // a path segment addresses something that is not a mapping (TypeError)
    | CyclicReference  // a placeholder chain is longer than the expansion bound

  datatype Option<+T> = None | Some(value: T)

  datatype Result<+T, +E> = Ok(value: T) | Err(error: E)
}
