/** `RawClient` (moi/client.py): construction, URL and header assembly, the JSON
    and multipart request paths, and the argument guards of the endpoint methods.
    The HTTP session is a `Transport`; every method that sends says exactly which
    requests it appended to the session's history and what it made of the answer. */
module Client {
  import opened Py
  import opened Errors
  import opened Text
  import opened Urls
  import opened Query
  import opened Http
  import opened Envelope
  import opened Routes

  /** Per-call settings after the call's options have run: request id (`""` when
      unset), extra headers, and query parameters in dict order. */
  datatype CallOptions = CallOptions(requestId: string, headers: map<string, string>, query: seq<(string, Json)>)

  /** `CallOptions()`: no request id, no headers, no query parameters. */
  const NoCallOptions := CallOptions("", map[], [])

  /** A call option updates the call's settings. */
  type CallOpt = CallOptions -> CallOptions

  /** The settings once every option has run, in order, `None` skipped. */
  function Applied(opts: seq<Option<CallOpt>>): CallOptions
  {
    if opts == [] then NoCallOptions
    else
      var before := Applied(opts[..|opts| - 1]);
      match opts[|opts| - 1]
      case None => before
      case Some(opt) => opt(before)
  }

  /** The option loop every request method starts with. */
  method ApplyCallOptions(opts: seq<Option<CallOpt>>) returns (call: CallOptions)
    ensures call == Applied(opts)
  {
    call := NoCallOptions;
    for i := 0 to |opts|
      invariant call == Applied(opts[..i])
    {
      assert opts[..i + 1][..i] == opts[..i];
      match opts[i]
      case None =>
      case Some(opt) => call := opt(call);
    }
    assert opts[..|opts|] == opts;
  }

  /** Client-wide settings: an HTTP session to use instead of a new one, the
      `User-Agent` (`""` when unset), default headers and the request timeout. */
  datatype ClientOptions = ClientOptions(
    session: Option<Transport>, userAgent: string,
    defaultHeaders: map<string, string>, timeout: real)

  type ClientOpt = ClientOptions -> ClientOptions

  function AppliedClient(defaults: ClientOptions, opts: seq<Option<ClientOpt>>): ClientOptions
  {
    if opts == [] then defaults
    else
      var before := AppliedClient(defaults, opts[..|opts| - 1]);
      match opts[|opts| - 1]
      case None => before
      case Some(opt) => opt(before)
  }

  /** A request body: a decoded value (`Plain(JNull)` is `None`), or a dataclass
      instance known by the fields `asdict` gives. */
  datatype Body = Plain(value: Json) | Record(fields: map<string, Json>)

  /** `_prepare_body`: a dataclass becomes its field dict, anything else is kept. */
  function PrepareBody(b: Body): Json
  {
    match b
    case Plain(v) => v
    case Record(fields) => JObj(fields)
  }

  /** One element of `file_items`: something that is not a two-element tuple or
      list, or a `(fileobj, filename)` pair whose file object may be `None`. A
      `None` file name is written `""`: both are falsy, and the check on the
      file name refuses them with the same error. */
  datatype FileItem = NotPair | Pair(obj: Option<FileHandle>, name: string)

  /** What is wrong with the item at `index`, in the order the source checks. */
  function ItemFault(item: FileItem, index: nat): Option<Reason>
  {
    match item
    case NotPair => Some(FileItemNotPair(index))
    case Pair(obj, name) =>
      if obj.None? then Some(NilFileObject(index))
      else if name == "" then Some(EmptyFileName(index))
      else None
  }

  predicate IsItemFault(r: Reason) {
    r.FileItemNotPair? || r.NilFileObject? || r.EmptyFileName?
  }

  /** The outcome of `_normalize_file_items`: every item fault-free gives one
      `(field_name, (filename, fileobj))` per item, in order; otherwise the fault
      of the first faulty item. */
  function Normalized(items: seq<FileItem>, field: string): (r: Result<seq<FilePart>>)
    ensures r.Ok? <==> forall i :: 0 <= i < |items| ==> ItemFault(items[i], i).None?
    ensures r.Ok? ==>
      && |r.value| == |items|
      && forall i :: 0 <= i < |items| ==>
           items[i].Pair? && items[i].obj.Some? &&
           r.value[i] == FilePart(field, items[i].name, items[i].obj.value)
    ensures r.Err? ==>
      && r.error.InvalidArgument? && IsItemFault(r.error.reason)
      && r.error.reason.index < |items|
      && ItemFault(items[r.error.reason.index], r.error.reason.index) == Some(r.error.reason)
      && forall i :: 0 <= i < r.error.reason.index ==> ItemFault(items[i], i).None?
    decreases |items|
  {
    if items == [] then Ok([])
    else
      var n := |items| - 1;
      match Normalized(items[..n], field)
      case Err(e) => Err(e)
      case Ok(parts) =>
        match ItemFault(items[n], n)
        case Some(f) => Err(InvalidArgument(f))
        case None => Ok(parts + [FilePart(field, items[n].name, items[n].obj.value)])
  }

  /** The checks and the form fields of `upload_local_files`: no item, then no
      meta, then the items' own faults; the one field is the JSON list of meta. */
  function UploadPlan(lib: PyLib, items: seq<FileItem>, meta: seq<Json>): (r: Result<(seq<FilePart>, map<string, Json>)>)
    ensures items == [] ==> r == Err(InvalidArgument(NoFileItems))
    ensures items != [] && meta == [] ==> r == Err(InvalidArgument(MetaRequired))
    ensures items != [] && meta != [] ==>
      && (r.Ok? <==> Normalized(items, "file").Ok?)
      && (r.Err? ==> r.error == Normalized(items, "file").error)
    ensures r.Ok? ==>
      && r.value.0 == Normalized(items, "file").value
      && r.value.1.Keys == {"meta"} && r.value.1["meta"] == JStr(lib.dumps(JArr(meta)))
  {
    if items == [] then Err(InvalidArgument(NoFileItems))
    else if meta == [] then Err(InvalidArgument(MetaRequired))
    else
      match Normalized(items, "file")
      case Err(e) => Err(e)
      case Ok(parts) => Ok((parts, map["meta" := JStr(lib.dumps(JArr(meta)))]))
  }

  /** The arguments of `upload_connector_file`; an absent optional argument is its
      falsy value (`None` and an empty container behave alike in the source). */
  datatype ConnectorUpload = ConnectorUpload(
    volumeId: string,
    fileItems: seq<FileItem>,
    meta: seq<Json>,
    fileTypes: seq<int>,
    pathRegex: string,
    unzipKeepStructure: bool,
    dedupConfig: Json,
    tableConfig: map<string, Json>,
    extraFields: map<string, Json>)

  /** `list(file_types)` as JSON numbers. */
  function Nums(ns: seq<int>): seq<Json>
  {
    if ns == [] then [] else [JNum(ns[0])] + Nums(ns[1..])
  }

  /** The keys `upload_connector_file` may set before `extra_fields` is merged. */
  const ConnectorKeys: set<string> :=
    {"VolumeID", "meta", "file_types", "path_regex", "unzip_keep_structure", "dedup", "table_config"}

  /** The form fields of `upload_connector_file`: `extra_fields` over the
      fields the arguments set, which keep their values where it is silent. */
  function ConnectorFields(lib: PyLib, u: ConnectorUpload): (f: map<string, Json>)
    ensures forall k :: k in f <==> k in u.extraFields || k in OwnFields(lib, u)
    ensures forall k :: k in u.extraFields ==> f[k] == u.extraFields[k]
    ensures forall k :: k in f && k !in u.extraFields ==> f[k] == OwnFields(lib, u)[k]
    ensures forall k :: k in f ==> k in u.extraFields || k in ConnectorKeys
    ensures "VolumeID" in f
  {
    OwnFields(lib, u) + u.extraFields
  }

  /** `key` is present in `f` exactly when `present`, and then holds `value`. */
  predicate HasField(f: map<string, Json>, key: string, present: bool, value: Json) {
    (key in f <==> present) && (key in f ==> f[key] == value)
  }

  /** The first fields `upload_connector_file` assigns: `VolumeID` always, then
      `meta`, `file_types` and `path_regex` exactly when their arguments are truthy. */
  function LeadingFields(lib: PyLib, u: ConnectorUpload): (f: map<string, Json>)
    ensures HasField(f, "VolumeID", true, JStr(u.volumeId))
    ensures HasField(f, "meta", u.meta != [], JStr(lib.dumps(JArr(u.meta))))
    ensures HasField(f, "file_types", u.fileTypes != [], JStr(lib.dumps(JArr(Nums(u.fileTypes)))))
    ensures HasField(f, "path_regex", u.pathRegex != "", JStr(u.pathRegex))
    ensures HasField(f, "unzip_keep_structure", false, JNull)
    ensures HasField(f, "dedup", false, JNull)
    ensures HasField(f, "table_config", false, JNull)
    ensures f.Keys <= ConnectorKeys
  {
    var volume := JStr(u.volumeId);
    var meta := JStr(lib.dumps(JArr(u.meta)));
    var types := JStr(lib.dumps(JArr(Nums(u.fileTypes))));
    var f0 := map["VolumeID" := volume];
    var f1 := if u.meta != [] then f0["meta" := meta] else f0;
    assert HasField(f1, "VolumeID", true, volume) && HasField(f1, "meta", u.meta != [], meta);
    var f2 := if u.fileTypes != [] then f1["file_types" := types] else f1;
    assert HasField(f2, "VolumeID", true, volume) && HasField(f2, "meta", u.meta != [], meta);
    if u.pathRegex != "" then f2["path_regex" := JStr(u.pathRegex)] else f2
  }

  /** The fields the arguments set: the leading ones, then `unzip_keep_structure`,
      `dedup` and `table_config` exactly when their arguments are truthy. */
  function OwnFields(lib: PyLib, u: ConnectorUpload): (f: map<string, Json>)
    ensures HasField(f, "VolumeID", true, JStr(u.volumeId))
    ensures HasField(f, "meta", u.meta != [], JStr(lib.dumps(JArr(u.meta))))
    ensures HasField(f, "file_types", u.fileTypes != [], JStr(lib.dumps(JArr(Nums(u.fileTypes)))))
    ensures HasField(f, "path_regex", u.pathRegex != "", JStr(u.pathRegex))
    ensures HasField(f, "unzip_keep_structure", u.unzipKeepStructure, JStr("true"))
    ensures HasField(f, "dedup", Truthy(u.dedupConfig), JStr(lib.dumps(u.dedupConfig)))
    ensures HasField(f, "table_config", u.tableConfig != map[], JStr(lib.dumps(JObj(u.tableConfig))))
    ensures f.Keys <= ConnectorKeys
  {
    var f3 := LeadingFields(lib, u);
    var f4 := PutIf(f3, u.unzipKeepStructure, "unzip_keep_structure", JStr("true"));
    var f5 := PutIf(f4, Truthy(u.dedupConfig), "dedup", JStr(lib.dumps(u.dedupConfig)));
    PutIf(f5, u.tableConfig != map[], "table_config", JStr(lib.dumps(JObj(u.tableConfig))))
  }

  /** `f[key] = value` when `cond` holds: every other field stays as it was. */
  function PutIf(f: map<string, Json>, cond: bool, key: string, value: Json): (r: map<string, Json>)
    ensures key !in f ==> HasField(r, key, cond, value)
    ensures forall k, present, v :: k != key && HasField(f, k, present, v) ==> HasField(r, k, present, v)
    ensures r.Keys <= f.Keys + {key}
  {
    if cond then f[key := value] else f
  }

  /** The checks of `upload_connector_file`: an empty volume id, then neither file
      items nor a table config, then the items' own faults. */
  function ConnectorPlan(lib: PyLib, u: ConnectorUpload): (r: Result<(seq<FilePart>, map<string, Json>)>)
    ensures u.volumeId == "" ==> r == Err(InvalidArgument(VolumeIdRequired))
    ensures u.volumeId != "" && u.fileItems == [] && u.tableConfig == map[] ==>
      r == Err(InvalidArgument(NoFilesOrTableConfig))
    ensures u.volumeId != "" && (u.fileItems != [] || u.tableConfig != map[]) ==>
      (r.Err? <==> u.fileItems != [] && Normalized(u.fileItems, "file").Err?)
    ensures r.Err? && u.volumeId != "" && u.fileItems != [] ==> r.error == Normalized(u.fileItems, "file").error
    ensures r.Ok? ==>
      && r.value.1 == ConnectorFields(lib, u)
      && r.value.0 == (if u.fileItems == [] then [] else Normalized(u.fileItems, "file").value)
  {
    if u.volumeId == "" then Err(InvalidArgument(VolumeIdRequired))
    else if u.fileItems == [] && u.tableConfig == map[] then Err(InvalidArgument(NoFilesOrTableConfig))
    else if u.fileItems == [] then Ok(([], ConnectorFields(lib, u)))
    else
      match Normalized(u.fileItems, "file")
      case Err(e) => Err(e)
      case Ok(parts) => Ok((parts, ConnectorFields(lib, u)))
  }

  /** The form fields of `create_genai_pipeline` with files: the request as JSON,
      and its `file_names` as JSON when that entry is truthy. */
  function GenaiFields(lib: PyLib, request: map<string, Json>): (f: map<string, Json>)
    ensures "payload" in f && f["payload"] == JStr(lib.dumps(JObj(request)))
    ensures "file_names" in f <==> "file_names" in request && Truthy(request["file_names"])
    ensures "file_names" in f ==> f["file_names"] == JStr(lib.dumps(request["file_names"]))
    ensures f.Keys <= {"payload", "file_names"}
  {
    var f := map["payload" := JStr(lib.dumps(JObj(request)))];
    if "file_names" in request && Truthy(request["file_names"]) then
      f["file_names" := JStr(lib.dumps(request["file_names"]))]
    else f
  }

  /** How Python binds `post_multipart(path, files=..., fields=..., *opts)` as
      `upload_local_files`, `upload_connector_file` and `create_genai_pipeline`
      write it: the call options are positional, so the first one lands on the
      `files` parameter that the keyword also sets, and the call raises
      `TypeError`; only an empty option list gets through. */
  function MultipartOptionsAsWritten(opts: seq<Option<CallOpt>>): (r: Result<seq<Option<CallOpt>>>)
    ensures r.Ok? <==> opts == []
    ensures r.Err? ==> r.error == CallSignatureError
  {
    if opts == [] then Ok(opts) else Err(CallSignatureError)
  }

  /** Even a single `None` option breaks the uploads as written, although every
      other request method skips it. */
  lemma {:induction false} NoneOptionBreaksUploadsAsWritten()
    ensures MultipartOptionsAsWritten([None]) == Err(CallSignatureError)
    ensures Applied([None]) == Applied([])
  {
    var opts: seq<Option<CallOpt>> := [None];
    assert opts[..0] == [];
  }

  class RawClient {
    const baseUrl: string
    const apiKey: string
    const userAgent: string
    const defaultHeaders: map<string, string>
    const timeout: real
    const http: Transport
    const lib: PyLib

    /** What construction guarantees: a normalised base URL and a trimmed,
        non-empty key. */
    predicate Valid() {
      && NormalForm(baseUrl)
      && apiKey != [] && !IsSpace(apiKey[0]) && !IsSpace(apiKey[|apiKey| - 1])
    }

    constructor (id: Identity, cfg: ClientOptions, fallback: Transport, lib: PyLib)
      ensures baseUrl == id.baseUrl && apiKey == id.apiKey
      ensures userAgent == cfg.userAgent && defaultHeaders == cfg.defaultHeaders && timeout == cfg.timeout
      ensures http == (if cfg.session.Some? then cfg.session.value else fallback)
      ensures this.lib == lib
    {
      baseUrl := id.baseUrl;
      apiKey := id.apiKey;
      userAgent := cfg.userAgent;
      defaultHeaders := cfg.defaultHeaders;
      timeout := cfg.timeout;
      http := if cfg.session.Some? then cfg.session.value else fallback;
      this.lib := lib;
    }

    /** The loop of `__init__` that applies the options in order, skipping `None`. */
    static method ApplyClientOptions(defaults: ClientOptions, opts: seq<Option<ClientOpt>>) returns (cfg: ClientOptions)
      ensures cfg == AppliedClient(defaults, opts)
    {
      cfg := defaults;
      for i := 0 to |opts|
        invariant cfg == AppliedClient(defaults, opts[..i])
      {
        assert opts[..i + 1][..i] == opts[..i];
        match opts[i]
        case None =>
        case Some(opt) => cfg := opt(cfg);
      }
      assert opts[..|opts|] == opts;
    }

    /** `RawClient(base_url, api_key, *opts)`: the construction checks, then the
        options over `defaults` (the `ClientOptions()` value); `fallback` is the
        new session used when no HTTP client is configured. */
    static method Connect(
      baseUrl: string, apiKey: string, defaults: ClientOptions,
      opts: seq<Option<ClientOpt>>, fallback: Transport, lib: PyLib)
      returns (r: Result<RawClient>)
      ensures r.Err? <==> Configure(baseUrl, apiKey).Err?
      ensures r.Err? ==> r.error == Configure(baseUrl, apiKey).error
      ensures r.Ok? ==>
        var id := Configure(baseUrl, apiKey).value;
        var cfg := AppliedClient(defaults, opts);
        && fresh(r.value) && r.value.Valid()
        && r.value.baseUrl == id.baseUrl && r.value.apiKey == id.apiKey
        && r.value.userAgent == cfg.userAgent && r.value.defaultHeaders == cfg.defaultHeaders
        && r.value.timeout == cfg.timeout && r.value.lib == lib
        && r.value.http == (if cfg.session.Some? then cfg.session.value else fallback)
    {
      var id := Configure(baseUrl, apiKey);
      if id.Err? {
        return Err(id.error);
      }
      var cfg := ApplyClientOptions(defaults, opts);
      var c := new RawClient(id.value, cfg, fallback, lib);
      r := Ok(c);
    }

    /** The path `_build_url` joins: `path` itself, with a `/` put in front
        unless it already starts with one. */
    function Rooted(path: string): (p: string)
      ensures p != [] && p[0] == '/'
      ensures |path| <= |p| <= |path| + 1 && p[|p| - |path|..] == path
      ensures path != [] && path[0] == '/' ==> p == path
    {
      if path != [] && path[0] == '/' then path else "/" + path
    }

    /** The URL `_build_url` returns: the joined path, then `?` and the encoded
        query only when some parameter survives. */
    function UrlFor(path: string, query: seq<(string, Json)>): (url: string)
      ensures var pairs := Pairs(Params(lib, query));
        url == lib.urljoin(baseUrl, Rooted(path)) + (if pairs == [] then "" else "?" + Encode(lib, pairs))
    {
      var pairs := Pairs(Params(lib, query));
      EncodeEmptyIff(lib, pairs);
      var qs := Encode(lib, pairs);
      lib.urljoin(baseUrl, Rooted(path)) + (if qs == "" then "" else "?" + qs)
    }

    method BuildUrl(path: string, query: seq<(string, Json)>) returns (url: string)
      ensures url == UrlFor(path, query)
    {
      var p := path;
      if !(p != [] && p[0] == '/') {
        p := "/" + p;
      }
      url := lib.urljoin(baseUrl, p);
      if query != [] {
        var params: seq<(string, Param)> := [];
        for i := 0 to |query|
          invariant params == Params(lib, query[..i])
        {
          assert query[..i + 1][..i] == query[..i];
          var (k, v) := query[i];
          if v != JNull {
            if v.JArr? {
              params := params + [(k, Many(Strs(lib, v.items)))];
            } else {
              params := params + [(k, One(Str(lib, v)))];
            }
          }
        }
        assert query[..|query|] == query;
        var qs := Encode(lib, Pairs(params));
        if qs != "" {
          url := url + "?" + qs;
        }
      }
    }

    /** Reference definition of header precedence: the value of header `k` is
        the first that applies of Content-Type/Accept (JSON calls), the call's
        headers, the request id, the User-Agent, the API key, the defaults. */
    function HeaderWinner(call: CallOptions, contentType: string, k: string): Option<string>
    {
      if contentType != "" && k == "Content-Type" then Some(contentType)
      else if contentType != "" && k == "Accept" then Some("application/json")
      else if k in call.headers then Some(call.headers[k])
      else if call.requestId != "" && k == "X-Request-ID" then Some(call.requestId)
      else if userAgent != "" && k == "User-Agent" then Some(userAgent)
      else if k == "moi-key" then Some(apiKey)
      else if k in defaultHeaders then Some(defaultHeaders[k])
      else None
    }

    /** The headers `_build_headers` returns: the defaults, then the key, the
        User-Agent, the request id and the call's headers in turn, then
        Content-Type and Accept. */
    function HeadersFor(call: CallOptions, contentType: string): (h: map<string, string>)
      ensures contentType != "" ==>
        && "Content-Type" in h && h["Content-Type"] == contentType
        && "Accept" in h && h["Accept"] == "application/json"
    {
      var keyed := defaultHeaders["moi-key" := apiKey];
      var agent := if userAgent != "" then keyed["User-Agent" := userAgent] else keyed;
      var traced := if call.requestId != "" then agent["X-Request-ID" := call.requestId] else agent;
      var merged := traced + call.headers;
      if contentType != "" then merged["Content-Type" := contentType]["Accept" := "application/json"] else merged
    }

    /** The headers hold exactly the keys some layer sets, each with the value
        of the layer of highest precedence: the API key is always sent, the
        defaults are never dropped, and the call's own headers win over
        everything but a JSON call's Content-Type and Accept. */
    lemma HeadersForPrecedence(call: CallOptions, contentType: string)
      ensures var h := HeadersFor(call, contentType);
        && (forall k :: k in h <==> HeaderWinner(call, contentType, k).Some?)
        && (forall k :: k in h ==> h[k] == HeaderWinner(call, contentType, k).value)
        && "moi-key" in h && ("moi-key" !in call.headers ==> h["moi-key"] == apiKey)
        && (forall k :: k in defaultHeaders ==> k in h)
        && (forall k :: k in call.headers && !(contentType != "" && k in {"Content-Type", "Accept"}) ==>
              k in h && h[k] == call.headers[k])
    {
    }

    /** `_build_headers`. */
    method BuildHeaders(call: CallOptions, contentType: string) returns (h: map<string, string>)
      ensures h == HeadersFor(call, contentType)
    {
      h := defaultHeaders;
      h := h["moi-key" := apiKey];
      if userAgent != "" {
        h := h["User-Agent" := userAgent];
      }
      if call.requestId != "" {
        h := h["X-Request-ID" := call.requestId];
      }
      h := h + call.headers;
      if contentType != "" {
        h := h["Content-Type" := contentType];
        h := h["Accept" := "application/json"];
      }
    }

    /** The request `_do_json` sends: JSON headers, and the body as JSON text
        unless it is `None`. */
    function JsonRequest(verb: string, path: string, body: Json, call: CallOptions): (req: HttpRequest)
      ensures "Content-Type" in req.headers && req.headers["Content-Type"] == "application/json"
      ensures "Accept" in req.headers && req.headers["Accept"] == "application/json"
      ensures req.payload.NoPayload? <==> body == JNull
      ensures !req.stream
      ensures req.verb == verb && req.url == UrlFor(path, call.query)
      ensures req.headers == HeadersFor(call, "application/json")
    {
      HttpRequest(verb, UrlFor(path, call.query), HeadersFor(call, "application/json"),
        if body == JNull then NoPayload else JsonText(lib.dumps(body)), timeout, false)
    }

    /** The request `post_multipart` sends: the headers of a call without a
        content type, minus any `Content-Type` the call itself supplied, so that
        the transport can set the multipart boundary. */
    function MultipartRequest(path: string, files: seq<FilePart>, fields: map<string, Json>, call: CallOptions): (req: HttpRequest)
      ensures "Content-Type" !in req.headers
      ensures forall k :: k in req.headers <==> k != "Content-Type" && HeaderWinner(call, "", k).Some?
      ensures req.verb == "POST" && req.payload == Form(fields, files)
      ensures req.url == UrlFor(path, call.query) && !req.stream
      ensures forall k :: k in req.headers ==> req.headers[k] == HeaderWinner(call, "", k).value
    {
      var headers := HeadersFor(call, "") - {"Content-Type"};
      assert && (forall k :: k in headers <==> k != "Content-Type" && HeaderWinner(call, "", k).Some?)
             && (forall k :: k in headers ==> headers[k] == HeaderWinner(call, "", k).value) by {
        HeadersForPrecedence(call, "");
      }
      HttpRequest("POST", UrlFor(path, call.query), headers,
        Form(fields, files), timeout, false)
    }

    /** A bodiless GET with the headers of a call without a content type. */
    function GetRequest(path: string, call: CallOptions, stream: bool): HttpRequest
    {
      HttpRequest("GET", UrlFor(path, call.query), HeadersFor(call, ""), NoPayload, timeout, stream)
    }

    /** `_do_json`: one request, whose answer `_parse_response` decodes. */
    method DoJson<T>(verb: string, path: string, body: Body, respType: Option<map<string, Json> -> T>, opts: seq<Option<CallOpt>>)
      returns (r: Result<Decoded<T>>)
      modifies http
      ensures http.history == old(http.history) + [JsonRequest(verb, path, PrepareBody(body), Applied(opts))]
      ensures r == ParseResponse(http.serve(old(http.history), JsonRequest(verb, path, PrepareBody(body), Applied(opts))), respType)
    {
      var call := ApplyCallOptions(opts);
      var url := BuildUrl(path, call.query);
      var payload := PrepareBody(body);
      var data := if payload == JNull then NoPayload else JsonText(lib.dumps(payload));
      var headers := BuildHeaders(call, "application/json");
      var resp := http.Request(HttpRequest(verb, url, headers, data, timeout, false));
      r := ParseResponse(resp, respType);
    }

    method PostJson<T>(path: string, body: Body, respType: Option<map<string, Json> -> T>, opts: seq<Option<CallOpt>>)
      returns (r: Result<Decoded<T>>)
      modifies http
      ensures http.history == old(http.history) + [JsonRequest("POST", path, PrepareBody(body), Applied(opts))]
      ensures r == ParseResponse(http.serve(old(http.history), JsonRequest("POST", path, PrepareBody(body), Applied(opts))), respType)
    {
      r := DoJson("POST", path, body, respType, opts);
    }

    method GetJson<T>(path: string, respType: Option<map<string, Json> -> T>, opts: seq<Option<CallOpt>>)
      returns (r: Result<Decoded<T>>)
      modifies http
      ensures http.history == old(http.history) + [JsonRequest("GET", path, JNull, Applied(opts))]
      ensures r == ParseResponse(http.serve(old(http.history), JsonRequest("GET", path, JNull, Applied(opts))), respType)
    {
      r := DoJson("GET", path, Plain(JNull), respType, opts);
    }

    /** `_request_json`: `_do_json` without a result type, so a successful call
        yields the envelope's data unchanged. */
    method RequestJson(verb: string, path: string, body: Json, opts: seq<Option<CallOpt>>) returns (r: Result<Json>)
      modifies http
      ensures http.history == old(http.history) + [JsonRequest(verb, path, body, Applied(opts))]
      ensures r == Unwrap(http.serve(old(http.history), JsonRequest(verb, path, body, Applied(opts))))
    {
      var none: Option<map<string, Json> -> Json> := None;
      var d := DoJson(verb, path, Plain(body), none, opts);
      match d
      case Err(e) => r := Err(e);
      case Ok(v) => r := Ok(v.j);
    }

    /** `post_multipart` with no result type, as every caller uses it. */
    method PostMultipart(path: string, files: seq<FilePart>, fields: map<string, Json>, opts: seq<Option<CallOpt>>)
      returns (r: Result<Json>)
      modifies http
      ensures http.history == old(http.history) + [MultipartRequest(path, files, fields, Applied(opts))]
      ensures r == Unwrap(http.serve(old(http.history), MultipartRequest(path, files, fields, Applied(opts))))
    {
      var call := ApplyCallOptions(opts);
      var url := BuildUrl(path, call.query);
      var headers := BuildHeaders(call, "");
      headers := headers - {"Content-Type"};
      var resp := http.Request(HttpRequest("POST", url, headers, Form(fields, files), timeout, false));
      var none: Option<map<string, Json> -> Json> := None;
      var d := ParseResponse(resp, none);
      match d
      case Err(e) => r := Err(e);
      case Ok(v) => r := Ok(v.j);
    }

    /** `get_raw`: the response itself, unless its status is outside [200, 300). */
    method GetRaw(path: string, opts: seq<Option<CallOpt>>) returns (r: Result<HttpResponse>)
      modifies http
      ensures http.history == old(http.history) + [GetRequest(path, Applied(opts), false)]
      ensures var resp := http.serve(old(http.history), GetRequest(path, Applied(opts), false));
        r == if Is2xx(resp.status) then Ok(resp) else Err(HttpError(resp.status, resp.content))
    {
      var call := ApplyCallOptions(opts);
      var url := BuildUrl(path, call.query);
      var headers := BuildHeaders(call, "");
      var resp := http.Request(HttpRequest("GET", url, headers, NoPayload, timeout, false));
      if !Is2xx(resp.status) {
        return Err(HttpError(resp.status, resp.content));
      }
      r := Ok(resp);
    }

    /** Every endpoint method that takes a request payload: `None` is refused
        before anything is sent; otherwise one JSON POST to the endpoint's path. */
    method Invoke(op: Endpoint, request: Option<map<string, Json>>, opts: seq<Option<CallOpt>>) returns (r: Result<Json>)
      modifies http
      ensures request.None? ==> r == Err(NilRequest(MissingPayload(Name(op)))) && http.history == old(http.history)
      ensures request.Some? ==>
        var req := JsonRequest("POST", Path(op), JObj(request.value), Applied(opts));
        http.history == old(http.history) + [req] && r == Unwrap(http.serve(old(http.history), req))
    {
      if request.None? {
        return Err(NilRequest(MissingPayload(Name(op))));
      }
      r := RequestJson("POST", Path(op), JObj(request.value), opts);
    }

    /** The endpoint methods without a payload argument. */
    method InvokeFixed(op: FixedEndpoint, opts: seq<Option<CallOpt>>) returns (r: Result<Json>)
      modifies http
      ensures var req := JsonRequest("POST", FixedPath(op), FixedBody(op), Applied(opts));
        http.history == old(http.history) + [req] && r == Unwrap(http.serve(old(http.history), req))
    {
      r := RequestJson("POST", FixedPath(op), FixedBody(op), opts);
    }

    /** `_normalize_file_items`. */
    static method NormalizeFileItems(items: seq<FileItem>, field: string) returns (r: Result<seq<FilePart>>)
      ensures r == Normalized(items, field)
    {
      var parts: seq<FilePart> := [];
      for i := 0 to |items|
        invariant |parts| == i
        invariant forall k :: 0 <= k < i ==> ItemFault(items[k], k).None?
        invariant forall k :: 0 <= k < i ==>
          items[k].Pair? && items[k].obj.Some? && parts[k] == FilePart(field, items[k].name, items[k].obj.value)
      {
        var item := items[i];
        if item.NotPair? {
          return Err(InvalidArgument(FileItemNotPair(i)));
        }
        if item.obj.None? {
          return Err(InvalidArgument(NilFileObject(i)));
        }
        if item.name == "" {
          return Err(InvalidArgument(EmptyFileName(i)));
        }
        parts := parts + [FilePart(field, item.name, item.obj.value)];
      }
      assert Normalized(items, field).Ok?;
      assert Normalized(items, field).value == parts;
      r := Ok(parts);
    }

    /** `upload_local_files`, with the call options reaching the request. */
    method UploadLocalFiles(items: seq<FileItem>, meta: seq<Json>, opts: seq<Option<CallOpt>>) returns (r: Result<Json>)
      modifies http
      ensures UploadPlan(lib, items, meta).Err? ==>
        r == Err(UploadPlan(lib, items, meta).error) && http.history == old(http.history)
      ensures UploadPlan(lib, items, meta).Ok? ==>
        var plan := UploadPlan(lib, items, meta).value;
        var req := MultipartRequest("/connectors/file/upload", plan.0, plan.1, Applied(opts));
        http.history == old(http.history) + [req] && r == Unwrap(http.serve(old(http.history), req))
    {
      if items == [] {
        return Err(InvalidArgument(NoFileItems));
      }
      if meta == [] {
        return Err(InvalidArgument(MetaRequired));
      }
      var files := NormalizeFileItems(items, "file");
      if files.Err? {
        return Err(files.error);
      }
      var fields := map["meta" := JStr(lib.dumps(JArr(meta)))];
      r := PostMultipart("/connectors/file/upload", files.value, fields, opts);
    }

    /** `upload_local_file`: one `(fileobj, filename)` pair. */
    method UploadLocalFile(obj: Option<FileHandle>, name: string, meta: seq<Json>, opts: seq<Option<CallOpt>>) returns (r: Result<Json>)
      modifies http
      ensures UploadPlan(lib, [Pair(obj, name)], meta).Err? ==>
        r == Err(UploadPlan(lib, [Pair(obj, name)], meta).error) && http.history == old(http.history)
      ensures UploadPlan(lib, [Pair(obj, name)], meta).Ok? ==>
        var plan := UploadPlan(lib, [Pair(obj, name)], meta).value;
        var req := MultipartRequest("/connectors/file/upload", plan.0, plan.1, Applied(opts));
        http.history == old(http.history) + [req] && r == Unwrap(http.serve(old(http.history), req))
    {
      r := UploadLocalFiles([Pair(obj, name)], meta, opts);
    }

    /** `upload_connector_file`. */
    method UploadConnectorFile(u: ConnectorUpload, opts: seq<Option<CallOpt>>) returns (r: Result<Json>)
      modifies http
      ensures ConnectorPlan(lib, u).Err? ==>
        r == Err(ConnectorPlan(lib, u).error) && http.history == old(http.history)
      ensures ConnectorPlan(lib, u).Ok? ==>
        var plan := ConnectorPlan(lib, u).value;
        var req := MultipartRequest("/connectors/upload", plan.0, plan.1, Applied(opts));
        http.history == old(http.history) + [req] && r == Unwrap(http.serve(old(http.history), req))
    {
      if u.volumeId == "" {
        return Err(InvalidArgument(VolumeIdRequired));
      }
      if u.fileItems == [] && u.tableConfig == map[] {
        return Err(InvalidArgument(NoFilesOrTableConfig));
      }
      var files: seq<FilePart> := [];
      if u.fileItems != [] {
        var normalized := NormalizeFileItems(u.fileItems, "file");
        if normalized.Err? {
          return Err(normalized.error);
        }
        files := normalized.value;
      }
      r := PostMultipart("/connectors/upload", files, ConnectorFields(lib, u), opts);
    }

    /** `create_genai_pipeline`: with file items, a multipart upload of the
        request and the files under `files`; without, a JSON POST. Either way a
        `None` request is refused before anything is sent. */
    method CreateGenaiPipeline(request: Option<map<string, Json>>, items: seq<FileItem>, opts: seq<Option<CallOpt>>)
      returns (r: Result<Json>)
      modifies http
      ensures items != [] && request.None? ==>
        r == Err(NilRequest(MissingUploadPayload("create_genai_pipeline"))) && http.history == old(http.history)
      ensures items != [] && request.Some? && Normalized(items, "files").Err? ==>
        r == Err(Normalized(items, "files").error) && http.history == old(http.history)
      ensures items != [] && request.Some? && Normalized(items, "files").Ok? ==>
        var req := MultipartRequest("/v1/genai/pipeline", Normalized(items, "files").value,
          GenaiFields(lib, request.value), Applied(opts));
        http.history == old(http.history) + [req] && r == Unwrap(http.serve(old(http.history), req))
      ensures items == [] && request.None? ==>
        r == Err(NilRequest(MissingPayload("create_genai_pipeline"))) && http.history == old(http.history)
      ensures items == [] && request.Some? ==>
        var req := JsonRequest("POST", "/v1/genai/pipeline", JObj(request.value), Applied(opts));
        http.history == old(http.history) + [req] && r == Unwrap(http.serve(old(http.history), req))
    {
      if items != [] {
        if request.None? {
          return Err(NilRequest(MissingUploadPayload("create_genai_pipeline")));
        }
        var fields := GenaiFields(lib, request.value);
        var files := NormalizeFileItems(items, "files");
        if files.Err? {
          return Err(files.error);
        }
        r := PostMultipart("/v1/genai/pipeline", files.value, fields, opts);
        return;
      }
      if request.None? {
        return Err(NilRequest(MissingPayload("create_genai_pipeline")));
      }
      r := RequestJson("POST", "/v1/genai/pipeline", JObj(request.value), opts);
    }

    /** `get_genai_job`: an empty id is refused; otherwise a JSON GET. */
    method GetGenaiJob(jobId: string, opts: seq<Option<CallOpt>>) returns (r: Result<Json>)
      modifies http
      ensures jobId == "" ==> r == Err(InvalidArgument(EmptyJobId)) && http.history == old(http.history)
      ensures jobId != "" ==>
        var req := JsonRequest("GET", "/v1/genai/jobs/" + jobId, JNull, Applied(opts));
        http.history == old(http.history) + [req] && r == Unwrap(http.serve(old(http.history), req))
    {
      if jobId == "" {
        return Err(InvalidArgument(EmptyJobId));
      }
      r := RequestJson("GET", "/v1/genai/jobs/" + jobId, JNull, opts);
    }

    /** `download_genai_result`: an empty id is refused; otherwise one streamed
        GET whose response is handed back when its status is 2xx. */
    method DownloadGenaiResult(fileId: string, opts: seq<Option<CallOpt>>) returns (r: Result<HttpResponse>)
      modifies http
      ensures fileId == "" ==> r == Err(InvalidArgument(EmptyFileId)) && http.history == old(http.history)
      ensures fileId != "" ==>
        var req := GetRequest("/v1/genai/results/file/" + fileId, Applied(opts), true);
        var resp := http.serve(old(http.history), req);
        && http.history == old(http.history) + [req]
        && r == if Is2xx(resp.status) then Ok(resp) else Err(HttpError(resp.status, resp.content))
    {
      if fileId == "" {
        return Err(InvalidArgument(EmptyFileId));
      }
      var call := ApplyCallOptions(opts);
      var url := BuildUrl("/v1/genai/results/file/" + fileId, call.query);
      var headers := BuildHeaders(call, "");
      var resp := http.Request(HttpRequest("GET", url, headers, NoPayload, timeout, true));
      if !Is2xx(resp.status) {
        return Err(HttpError(resp.status, resp.content));
      }
      r := Ok(resp);
    }

    /** `health_check`: a GET of `/healthz` whose body is returned as decoded
        JSON, without any envelope. */
    method HealthCheck(opts: seq<Option<CallOpt>>) returns (r: Result<Json>)
      modifies http
      ensures var req := GetRequest("/healthz", Applied(opts), false);
        var resp := http.serve(old(http.history), req);
        && http.history == old(http.history) + [req]
        && (!Is2xx(resp.status) ==> r == Err(HttpError(resp.status, resp.content)))
        && (Is2xx(resp.status) && resp.json.None? ==> r == Err(JsonDecodeError))
        && (Is2xx(resp.status) && resp.json.Some? ==> r == Ok(resp.json.value))
    {
      var call := ApplyCallOptions(opts);
      var url := BuildUrl("/healthz", call.query);
      var headers := BuildHeaders(call, "");
      var resp := http.Request(HttpRequest("GET", url, headers, NoPayload, timeout, false));
      if !Is2xx(resp.status) {
        return Err(HttpError(resp.status, resp.content));
      }
      if resp.json.None? {
        return Err(JsonDecodeError);
      }
      r := Ok(resp.json.value);
    }
  }
}
