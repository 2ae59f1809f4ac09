/** Decoding of the response envelope `{code, msg, request_id, data}` and the
    classification of failures (`RawClient._parse_response`, moi/client.py:113-150). */
module Envelope {
  import opened Py
  import opened Errors
  import opened Http

  datatype Envelope = Envelope(code: Json, msg: Json, requestId: Json, data: Json)

  /** An element of a decoded list: converted when it was an object, kept otherwise. */
  datatype Item<T> = Made(t: T) | Kept(j: Json)

  /** What `_parse_response` returns: the data as decoded, one constructed
      result, or a list of them. `Verbatim(JNull)` is Python's `None`. */
  datatype Decoded<T> = Verbatim(j: Json) | Built(t: T) | Items(items: seq<Item<T>>)

  predicate Is2xx(status: int) {
    200 <= status < 300
  }

  /** An envelope code signals failure when it is non-empty and not `"OK"`. */
  predicate Failing(code: Json) {
    Truthy(code) && code != JStr("OK")
  }

  function GetOr(d: map<string, Json>, key: string, default: Json): Json {
    if key in d then d[key] else default
  }

  /** `APIEnvelope.from_dict`: the four fields of a JSON object; any other JSON
      value has no `.get` and fails. */
  function FromDict(body: Json): Result<Envelope> {
    match body
    case JObj(m) =>
      Ok(Envelope(GetOr(m, "code", JStr("")), GetOr(m, "msg", JStr("")),
                  GetOr(m, "request_id", JStr("")), GetOr(m, "data", JNull)))
    case _ => Err(ShapeError)
  }

  /** The failure cascade of `_parse_response`, up to the envelope's data. */
  function Unwrap(resp: HttpResponse): (r: Result<Json>)
    ensures !Is2xx(resp.status) ==> r == Err(HttpError(resp.status, resp.content))
    ensures Is2xx(resp.status) && resp.json.None? ==> r == Err(HttpError(resp.status, resp.content))
    ensures r.Err? && r.error.HttpError? ==> r.error.status == resp.status && r.error.body == resp.content
    ensures (r.Err? && r.error.ApiError?) <==>
      && Is2xx(resp.status) && resp.json.Some?
      && FromDict(resp.json.value).Ok? && Failing(FromDict(resp.json.value).value.code)
    ensures r.Err? && r.error.ApiError? ==>
      var env := FromDict(resp.json.value).value;
      r.error == ApiError(env.code, env.msg, env.requestId, resp.status)
    ensures r.Ok? <==>
      && Is2xx(resp.status) && resp.json.Some?
      && FromDict(resp.json.value).Ok? && !Failing(FromDict(resp.json.value).value.code)
    ensures r.Ok? ==> r.value == FromDict(resp.json.value).value.data
  {
    if !Is2xx(resp.status) then Err(HttpError(resp.status, resp.content))
    else if resp.json.None? then Err(HttpError(resp.status, resp.content))
    else
      match FromDict(resp.json.value)
      case Err(e) => Err(e)
      case Ok(env) =>
        if Failing(env.code) then Err(ApiError(env.code, env.msg, env.requestId, resp.status))
        else Ok(env.data)
  }

  /** Conversion of successful data to the requested result type; `make`
      stands for `resp_type(**fields)`. */
  function Decode<T>(data: Json, make: map<string, Json> -> T): (d: Decoded<T>)
    ensures data == JNull || data == JStr("null") ==> d == Verbatim(JNull)
    ensures data.JObj? ==> d == Built(make(data.fields))
    ensures data.JArr? ==>
      && d.Items? && |d.items| == |data.items|
      && forall i :: 0 <= i < |data.items| ==>
           d.items[i] == if data.items[i].JObj? then Made(make(data.items[i].fields)) else Kept(data.items[i])
    ensures !data.JObj? && !data.JArr? && data != JStr("null") ==> d == Verbatim(data)
  {
    if data == JNull || data == JStr("null") then Verbatim(JNull)
    else
      match data
      case JObj(m) => Built(make(m))
      case JArr(xs) => Items(DecodeItems(xs, make))
      case _ => Verbatim(data)
  }

  function DecodeItems<T>(xs: seq<Json>, make: map<string, Json> -> T): (r: seq<Item<T>>)
    ensures |r| == |xs|
    ensures forall i :: 0 <= i < |xs| ==>
      r[i] == if xs[i].JObj? then Made(make(xs[i].fields)) else Kept(xs[i])
  {
    if xs == [] then []
    else [if xs[0].JObj? then Made(make(xs[0].fields)) else Kept(xs[0])] + DecodeItems(xs[1..], make)
  }

  /** `_parse_response(response, resp_type)`: failures as `Unwrap` classifies
      them; on success the data itself without a result type, else `Decode`. */
  function ParseResponse<T>(resp: HttpResponse, respType: Option<map<string, Json> -> T>): (r: Result<Decoded<T>>)
    ensures Unwrap(resp).Err? <==> r.Err?
    ensures r.Err? ==> r.error == Unwrap(resp).error
    ensures r.Ok? && respType.None? ==> r.value == Verbatim(Unwrap(resp).value)
    ensures r.Ok? && respType.Some? ==> r.value == Decode(Unwrap(resp).value, respType.value)
  {
    match Unwrap(resp)
    case Err(e) => Err(e)
    case Ok(data) =>
      if respType.None? then Ok(Verbatim(data)) else Ok(Decode(data, respType.value))
  }

  /** Whatever the body holds, a status outside [200, 300) is an HTTP error,
      even a well-formed envelope whose code is "OK". */
  lemma HttpStatusDominates<T>(resp: HttpResponse, respType: Option<map<string, Json> -> T>)
    requires !Is2xx(resp.status)
    ensures ParseResponse(resp, respType) == Err(HttpError(resp.status, resp.content))
  {
  }
}
