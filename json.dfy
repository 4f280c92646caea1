/** Decoded JSON documents, as the four ports hold them after loading a fixture. */
module Json {

  datatype Option<+T> = None | Some(value: T)

  /** A decoded JSON value. Numbers are integral: every port reads a TTL as a
      whole number, and the conversions from floating point are not modelled.
      Object members are keyed by name; their textual order never matters to
      a lookup. */
  datatype JVal =
    | JNull
    | JBool(b: bool)
    | JNum(n: int)
    | JStr(s: string)
    | JArr(items: seq<JVal>)
    | JObj(fields: map<string, JVal>)

}
