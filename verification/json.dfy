/** JSON values as the gateway's JSON library holds them. Objects are sorted by key
    there, so that a map loses nothing; a number is the decimal text it prints as. */
module Json {
  import opened Wrappers

  datatype Json =
    | Null
    | Bool(b: bool)
    | Number(decimal: string)
    | Str(s: string)
    | Arr(items: seq<Json>)
    | Obj(fields: map<string, Json>)

  /** `value.get(key)` */
  function Field(v: Json, key: string): Option<Json>
  {
    if v.Obj? && key in v.fields then Some(v.fields[key]) else None
  }

  /** `value.get(key).and_then(|v| v.as_str())` */
  function StrField(v: Json, key: string): Option<string>
  {
    match Field(v, key)
    case Some(Str(s)) => Some(s)
    case _ => None
  }

  /** Printing and parsing of JSON text. */
  datatype Codec = Codec(print_: Json -> string, parse: string -> Option<Json>)

  /** Parsing undoes printing. */
  ghost predicate RoundTrips(codec: Codec)
  {
    forall v: Json :: codec.parse(codec.print_(v)) == Some(v)
  }
}
