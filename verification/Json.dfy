/** JSON as an abstract value.  Objects keep the order of their fields, as the
    proxy's JSON library does; text parsing and printing are not modelled. */
module Json {
  import opened Wrappers

  datatype Json =
    | Null
    | Bool(b: bool)
    | Num(repr: string)
    | Str(s: string)
    | Arr(items: seq<Json>)
    | Obj(fields: seq<(string, Json)>)
  {
    /** The value of a field of an object, or nothing. */
    function Get(name: string): Option<Json> {
      if Obj? then FieldOf(fields, name) else None
    }

    function AsStr(): Option<string> {
      if Str? then Some(s) else None
    }
  }

  function FieldOf(fields: seq<(string, Json)>, name: string): Option<Json> {
    if fields == [] then None
    else if fields[0].0 == name then Some(fields[0].1)
    else FieldOf(fields[1..], name)
  }

  /** The string held by a field, when there is such a field and it is a string. */
  function StrField(v: Json, name: string): Option<string> {
    match v.Get(name)
    case Some(Str(s)) => Some(s)
    case _ => None
  }
}
