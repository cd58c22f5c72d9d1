/** Decoded JSON values and the dictionary idioms the handlers read them with. */
module JsonData {
  import opened Text

  /** A JSON value as `json.loads` or `response.json()` gives it, with integer numbers only. */
  datatype Json = Null | Bool(b: bool) | Num(n: int) | Str(s: string) | Arr(items: seq<Json>)
                | Obj(members: map<string, Json>)

  predicate Truthy(v: Json) {
    match v
    case Null => false
    case Bool(b) => b
    case Num(n) => n != 0
    case Str(s) => s != ""
    case Arr(items) => |items| > 0
    case Obj(members) => |members| > 0
  }

  /** `str(v)`; the rendering of lists and objects is not modelled. */
  function Show(v: Json): string {
    match v
    case Null => "None"
    case Bool(b) => if b then "True" else "False"
    case Num(n) => IntText(n)
    case Str(s) => s
    case Arr(_) => "[...]"
    case Obj(_) => "{...}"
  }

  function Get(m: map<string, Json>, key: string, default: Json): Json {
    if key in m then m[key] else default
  }

  /** `x or default` */
  function Or(v: Json, default: Json): Json {
    if Truthy(v) then v else default
  }
}
