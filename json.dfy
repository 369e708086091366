/** Decoded JSON values, standing for the Python dicts, lists and scalars
    that actions carry as payloads and that the backend returns. `Ref`
    stands for a Python object that is not JSON data (the Scrapy request a
    response answers), known only by its identity. */
module Json {

  datatype Json =
    | Null
    | Bool(b: bool)
    | Int(i: int)
    | Float(f: real)
    | Str(s: string)
    | Arr(items: seq<Json>)
    | Obj(fields: map<string, Json>)
    | Ref(id: string)

  /** Python truthiness: None, False, 0, 0.0, "", [] and {} are falsy; an
      object is truthy. */
  predicate Truthy(j: Json) {
    match j
    case Null => false
    case Bool(b) => b
    case Int(i) => i != 0
    case Float(f) => f != 0.0
    case Str(s) => s != ""
    case Arr(items) => items != []
    case Obj(fields) => fields != map[]
    case Ref(_) => true
  }

  /** Python `d.get(k, default)`. */
  function GetOr(m: map<string, Json>, k: string, default: Json): Json {
    if k in m then m[k] else default
  }

  /** Python `d.get(k)`: a missing key reads as None. */
  function Get(m: map<string, Json>, k: string): Json {
    GetOr(m, k, Null)
  }

  /** `{k: v for k, v in d.items() if v is not None}` */
  function DropNulls(m: map<string, Json>): (r: map<string, Json>)
    ensures r.Keys == set k | k in m && m[k] != Null
    ensures forall k :: k in r ==> r[k] == m[k]
  {
    map k | k in m && m[k] != Null :: m[k]
  }
}
