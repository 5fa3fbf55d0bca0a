/** JSON values as the API reads and builds them. */
module Json {
  import opened Wrappers

  datatype Value =
    | Null
    | Bool(b: bool)
    | Number(n: real)
    | Str(s: string)
    | Arr(items: seq<Value>)
    | Obj(fields: map<string, Value>)

  /** Member lookup; anything that is not an object has no members. */
  function Get(v: Value, key: string): Option<Value> {
    if v.Obj? && key in v.fields then Some(v.fields[key]) else None
  }

  function GetStr(v: Value, key: string): Option<string> {
    match Get(v, key)
    case Some(Str(s)) => Some(s)
    case _ => None
  }

  /** The JSON text library: writing any value, and reading text back as an object.
      Nothing is assumed of it; theorems that need it say which argument maps survive. */
  datatype Codec = Codec(write: Value -> string, readObject: string -> Option<map<string, Value>>) {
    predicate RoundTrips(arguments: map<string, Value>) {
      readObject(write(Obj(arguments))) == Some(arguments)
    }
  }
}
