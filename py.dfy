/** The Python values the SDK handles: decoded JSON, `None`, truthiness,
    `str()`, and the library routines the client calls but does not define. */
module Py {

  datatype Option<+T> = None | Some(value: T)

  newtype byte = b: int | 0 <= b < 256

  /** A decoded JSON value as `json.loads` produces it (numbers are integers here). */
  datatype Json =
    | JNull
    | JBool(b: bool)
    | JNum(n: int)
    | JStr(s: string)
    | JArr(items: seq<Json>)
    | JObj(fields: map<string, Json>)

  /** Python truthiness of a decoded value: `None`, `False`, `0`, `""`, `[]`, `{}` are falsy. */
  predicate Truthy(j: Json) {
    match j
    case JNull => false
    case JBool(b) => b
    case JNum(n) => n != 0
    case JStr(s) => s != ""
    case JArr(items) => items != []
    case JObj(fields) => fields != map[]
  }

  /** `d.get(key)`: the value under `key`, or `None` when it is absent. */
  function Get(d: map<string, Json>, key: string): Json
  {
    if key in d then d[key] else JNull
  }

  /** `a or b` on decoded values. */
  function Or(a: Json, b: Json): Json
  {
    if Truthy(a) then a else b
  }

  /** Library routines the SDK calls and whose internals are not modelled:
      `urllib.parse.quote_plus`, `urllib.parse.urljoin`, `json.dumps(..., default=str)`,
      the `repr` Python uses when `str()` is applied to a list or a dict, and the
      insertion order of a dict's keys, which a `map` does not keep. */
  datatype PyLib = PyLib(
    quotePlus: string -> string,
    urljoin: (string, string) -> string,
    dumps: Json -> string,
    containerRepr: Json -> string,
    keys: map<string, Json> -> seq<string>)

  /** Decimal digits of a natural number, most significant first. */
  function Digits(n: nat): (r: string)
    ensures |r| >= 1
    ensures forall i :: 0 <= i < |r| ==> '0' <= r[i] <= '9'
    decreases n
  {
    var d := [(48 + n % 10) as char];
    if n < 10 then d else Digits(n / 10) + d
  }

  /** Python `str(v)` for a decoded value: exact for scalars, the library's `repr` for containers. */
  function Str(lib: PyLib, j: Json): string
  {
    match j
    case JNull => "None"
    case JBool(b) => if b then "True" else "False"
    case JNum(n) => if n < 0 then "-" + Digits(-n) else Digits(n)
    case JStr(s) => s
    case _ => lib.containerRepr(j)
  }

  /** The library lists every key of `m`, and nothing else. */
  predicate ListsKeys(lib: PyLib, m: map<string, Json>) {
    && (forall i :: 0 <= i < |lib.keys(m)| ==> lib.keys(m)[i] in m)
    && (forall k :: k in m ==> k in lib.keys(m))
  }

  /** The values `for x in v` visits: a list's elements, a string's one-character
      strings, a dict's keys; `None` where Python raises `TypeError` (`None`,
      booleans and numbers are not iterable). */
  function Iterate(lib: PyLib, v: Json): (r: Option<seq<Json>>)
    ensures v.JArr? ==> r == Some(v.items)
    ensures r.None? <==> v.JNull? || v.JBool? || v.JNum?
    ensures r.Some? && !v.JArr? ==> forall i :: 0 <= i < |r.value| ==> r.value[i].JStr?
    ensures v.JStr? ==> |r.value| == |v.s| && forall i :: 0 <= i < |v.s| ==> r.value[i] == JStr([v.s[i]])
    ensures v.JObj? ==>
      && |r.value| == |lib.keys(v.fields)|
      && forall i :: 0 <= i < |r.value| ==> r.value[i] == JStr(lib.keys(v.fields)[i])
    ensures v.JObj? && ListsKeys(lib, v.fields) ==>
      && (forall i :: 0 <= i < |r.value| ==> r.value[i].s in v.fields)
      && (forall k :: k in v.fields ==> JStr(k) in r.value)
  {
    match v
    case JArr(items) => Some(items)
    case JStr(s) => Some(seq(|s|, i requires 0 <= i < |s| => JStr([s[i]])))
    case JObj(m) => Some(StrValues(lib.keys(m)))
    case _ => None
  }

  function StrValues(ss: seq<string>): (r: seq<Json>)
    ensures |r| == |ss|
    ensures forall i :: 0 <= i < |ss| ==> r[i] == JStr(ss[i])
  {
    if ss == [] then [] else [JStr(ss[0])] + StrValues(ss[1..])
  }
}
