/** JSON values as the integration sees them. Encoding and decoding are
    library calls (json.dumps / json.loads) and enter the model as function
    parameters: `dumps` is total, `loads` is partial (None = JSONDecodeError). */
module Json {
  import opened Wrappers

  datatype Json =
    | JNull
    | JBool(b: bool)
    | JNum(n: int)
    | JStr(s: string)
    | JArr(items: seq<Json>)
    | JObj(fields: map<string, Json>)

  /** Python truthiness of a decoded value: None, False, 0, "", [] and {} are falsy. */
  predicate Truthy(v: Json) {
    match v
    case JNull => false
    case JBool(b) => b
    case JNum(n) => n != 0
    case JStr(s) => s != ""
    case JArr(items) => items != []
    case JObj(fields) => fields != map[]
  }

  /** `{}` */
  const EmptyObject: Json := JObj(map[])

  /** `try: args = json.loads(s) except: args = {}` */
  function ParseOrEmpty(loads: string -> Option<Json>, s: string): (v: Json)
    ensures loads(s).None? ==> v == EmptyObject
    ensures loads(s).Some? ==> v == loads(s).value
  {
    match loads(s)
    case Some(j) => j
    case None => EmptyObject
  }

  /** A codec whose decoder inverts its encoder on every value. */
  ghost predicate LosslessCodec(dumps: Json -> string, loads: string -> Option<Json>) {
    forall v: Json {:trigger dumps(v)} :: loads(dumps(v)) == Some(v)
  }
}
