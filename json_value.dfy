/**
 * Parsed JSON values as the relay receives them from `response.json()`, and
 * the two Python operations the projectors apply to them: `dict.get(key, default)`
 * and iteration with `for x in v`.
 */
module JsonValue {
  import opened Wrappers

  /** A parsed JSON document. Numbers are integers here (see README, "Left out"). */
  datatype Json =
    | Null
    | Bool(b: bool)
    | Num(n: int)
    | Str(s: string)
    | Arr(items: seq<Json>)
    | Obj(fields: map<string, Json>)

  /** What the Python code raises when a body has an unexpected shape. */
  datatype Fault =
    | NotAnObject   // `.get` called on something that is not a dict: AttributeError
    | NotIterable   // `for` over null, a bool or a number: TypeError

  const EmptyObj: Json := Obj(map[])
  const EmptyArr: Json := Arr([])
  const EmptyStr: Json := Str("")

  /** `m.get(key, default)` on a dict `m`. */
  function Lookup(m: map<string, Json>, key: string, default: Json): Json {
    if key in m then m[key] else default
  }

  /**
   * `v.get(key, default)`: the default only when the key is absent; a present
   * value is returned whatever its type; a receiver that is not a dict raises.
   */
  function Get(v: Json, key: string, default: Json): (r: Result<Json, Fault>)
    ensures r.Ok? <==> v.Obj?
    ensures r.Err? ==> r.error == NotAnObject
    ensures v.Obj? && key in v.fields ==> r == Ok(v.fields[key])
    ensures v.Obj? && key !in v.fields ==> r == Ok(default)
  {
    match v
    case Obj(m) => Ok(Lookup(m, key, default))
    case _ => Err(NotAnObject)
  }

  /** The one-character strings Python yields when iterating over a string. */
  function Chars(s: string): (r: seq<Json>)
    ensures |r| == |s|
    ensures forall i :: 0 <= i < |s| ==> r[i] == Str([s[i]])
  {
    seq(|s|, i requires 0 <= i < |s| => Str([s[i]]))
  }

  /**
   * The elements visited by `for x in v`, when every visited element is then
   * sent `.get`. A list yields its items and a string its characters. A
   * non-empty dict yields its keys, which are strings, so the first `.get` on
   * one raises; that fault is reported here directly, since key order is not
   * part of this model. An empty dict yields nothing.
   */
  function Elements(v: Json): (r: Result<seq<Json>, Fault>)
    ensures v.Arr? ==> r == Ok(v.items)
    ensures r.Err? <==> (v.Obj? && v.fields != map[]) || v.Null? || v.Bool? || v.Num?
    ensures v.Obj? && v.fields != map[] ==> r == Err(NotAnObject)
    ensures v.Str? ==> r == Ok(Chars(v.s))
    ensures v == EmptyObj ==> r == Ok([])
    ensures v.Null? || v.Bool? || v.Num? ==> r == Err(NotIterable)
  {
    match v
    case Arr(xs) => Ok(xs)
    case Str(s) => Ok(Chars(s))
    case Obj(m) => if m == map[] then Ok([]) else Err(NotAnObject)
    case _ => Err(NotIterable)
  }
}
