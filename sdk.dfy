/** `SDKClient` (moi/sdk_client.py): the role, import and SQL helpers built on a
    `RawClient`. Each helper is a method on the client, and each is tied to a
    function that says which requests it sends, in which order, and what it
    returns; the properties of those functions are proved below them. */
module Sdk {
  import opened Py
  import opened Errors
  import opened Text
  import opened Http
  import opened Envelope
  import opened Routes
  import opened Client

  /** Roles asked for per page while searching by name. */
  const PageSize := 100

  /** The last page the search asks for. */
  const MaxPages := 1000

  // ---------------------------------------------------------------------------
  // Table privileges
  // ---------------------------------------------------------------------------

  /** An element of `table_privs`: `None`, a `TablePrivInfo`, a dict, or
      anything else. */
  datatype PrivEntry =
    | NoEntry
    | Info(tableId: int, privCodes: seq<string>, authorityCodeList: Option<seq<Json>>)
    | Dict(fields: map<string, Json>)
    | Other

  /** The dict the entry is read through: `asdict` of a `TablePrivInfo`, or the
      dict itself. */
  function EntryData(e: PrivEntry): map<string, Json>
  {
    match e
    case Info(tid, codes, acl) =>
      map["table_id" := JNum(tid),
          "priv_codes" := JArr(StrValues(codes)),
          "authority_code_list" := if acl.Some? then JArr(acl.value) else JNull]
    case Dict(m) => m
    case _ => map[]
  }

  /** One grant per privilege code, each without rules. */
  function CodeGrants(codes: seq<Json>): (r: seq<Json>)
    ensures |r| == |codes|
    ensures forall i :: 0 <= i < |codes| ==> r[i] == JObj(map["code" := codes[i], "rule_list" := JNull])
  {
    if codes == [] then []
    else [JObj(map["code" := codes[0], "rule_list" := JNull])] + CodeGrants(codes[1..])
  }

  /** The shape of every table privilege the SDK sends: the table id as a string,
      category `table`, an empty name, and an authority code list. */
  predicate IsTablePriv(lib: PyLib, tableId: Json, m: map<string, Json>) {
    && m.Keys == {"id", "category", "name", "authority_code_list"}
    && m["id"] == JStr(Str(lib, tableId))
    && m["category"] == JStr("table")
    && m["name"] == JStr("")
  }

  /** `_normalize_table_priv`: `None` is skipped, an entry that is neither a
      `TablePrivInfo` nor a dict is refused, an entry without a truthy table id
      or without any privilege is skipped; otherwise the entry's own authority
      code list, or else one grant per privilege code. */
  function NormalizeTablePriv(lib: PyLib, e: PrivEntry): (r: Result<Option<map<string, Json>>>)
    ensures e.NoEntry? ==> r == Ok(None)
    ensures e.Other? ==> r == Err(ShapeError)
    ensures e.Info? || e.Dict? ==>
      var d := EntryData(e);
      var tid := Get(d, "table_id");
      var acl := Get(d, "authority_code_list");
      var codes := Or(Get(d, "priv_codes"), JArr([]));
      && (r == Ok(None) <==> !Truthy(tid) || (!Truthy(acl) && !Truthy(codes)))
      && (r.Err? <==> Truthy(tid) && !Truthy(acl) && (codes.JNum? || codes.JBool?))
      && (r.Err? ==> r.error == ShapeError)
      && (r.Ok? && r.value.Some? ==>
            && IsTablePriv(lib, tid, r.value.value)
            && (Truthy(acl) ==> r.value.value["authority_code_list"] == acl)
            && (!Truthy(acl) ==>
                  r.value.value["authority_code_list"] == JArr(CodeGrants(Iterate(lib, codes).value))))
  {
    match e
    case NoEntry => Ok(None)
    case Other => Err(ShapeError)
    case _ =>
      var d := EntryData(e);
      var tid := Get(d, "table_id");
      if !Truthy(tid) then Ok(None)
      else
        var acl := Get(d, "authority_code_list");
        var codes := Or(Get(d, "priv_codes"), JArr([]));
        var record := map["id" := JStr(Str(lib, tid)), "category" := JStr("table"), "name" := JStr("")];
        if Truthy(acl) then Ok(Some(record["authority_code_list" := acl]))
        else if Truthy(codes) then
          match Iterate(lib, codes)
          case None => Err(ShapeError)
          case Some(cs) => Ok(Some(record["authority_code_list" := JArr(CodeGrants(cs))]))
        else Ok(None)
  }

  /** A `TablePrivInfo` with a table id and no authority code list grants its
      privilege codes, in order, one rule-less grant each; with table id 0 it
      is skipped. */
  lemma InfoGrantsItsCodes(lib: PyLib, tableId: int, codes: seq<string>)
    ensures tableId == 0 ==> NormalizeTablePriv(lib, Info(tableId, codes, None)) == Ok(None)
    ensures tableId != 0 && codes == [] ==> NormalizeTablePriv(lib, Info(tableId, codes, None)) == Ok(None)
    ensures tableId != 0 && codes != [] ==>
      var r := NormalizeTablePriv(lib, Info(tableId, codes, None));
      && r.Ok? && r.value.Some?
      && r.value.value["id"] == JStr(Str(lib, JNum(tableId)))
      && var acl := r.value.value["authority_code_list"];
         && acl.JArr? && |acl.items| == |codes|
         && forall i :: 0 <= i < |codes| ==>
              acl.items[i] == JObj(map["code" := JStr(codes[i]), "rule_list" := JNull])
  {
    if tableId != 0 && codes != [] {
      var d := EntryData(Info(tableId, codes, None));
      assert Get(d, "priv_codes") == JArr(StrValues(codes));
      assert Iterate(lib, JArr(StrValues(codes))).value == StrValues(codes);
    }
  }

  /** `_build_obj_priv_list`: every entry normalised in order, the skipped ones
      left out; the first refused entry stops the whole list. */
  function ObjPrivList(lib: PyLib, entries: seq<PrivEntry>): (r: Result<seq<Json>>)
    ensures r.Ok? <==> forall i :: 0 <= i < |entries| ==> NormalizeTablePriv(lib, entries[i]).Ok?
    ensures r.Err? ==> r.error == ShapeError
    ensures r.Ok? ==> |r.value| <= |entries|
    decreases |entries|
  {
    if entries == [] then Ok([])
    else
      var n := |entries| - 1;
      match ObjPrivList(lib, entries[..n])
      case Err(e) => Err(e)
      case Ok(acc) =>
        match NormalizeTablePriv(lib, entries[n])
        case Err(e) => Err(e)
        case Ok(None) => Ok(acc)
        case Ok(Some(rec)) => Ok(acc + [JObj(rec)])
  }

  /** The list of a concatenation is the two lists one after the other. */
  lemma {:induction false} ObjPrivListAppend(lib: PyLib, a: seq<PrivEntry>, b: seq<PrivEntry>)
    requires ObjPrivList(lib, a).Ok? && ObjPrivList(lib, b).Ok?
    ensures ObjPrivList(lib, a + b) == Ok(ObjPrivList(lib, a).value + ObjPrivList(lib, b).value)
    decreases |b|
  {
    if b == [] {
      assert a + b == a;
      assert ObjPrivList(lib, a).value + ObjPrivList(lib, b).value == ObjPrivList(lib, a).value;
    } else {
      var n := |b| - 1;
      assert ObjPrivList(lib, b[..n]).Ok?;
      assert (a + b)[..|a + b| - 1] == a + b[..n];
      assert (a + b)[|a + b| - 1] == b[n];
      ObjPrivListAppend(lib, a, b[..n]);
      var front := ObjPrivList(lib, a).value + ObjPrivList(lib, b[..n]).value;
      match NormalizeTablePriv(lib, b[n])
      case Ok(None) =>
      case Ok(Some(rec)) =>
        assert ObjPrivList(lib, b).value == ObjPrivList(lib, b[..n]).value + [JObj(rec)];
        assert front + [JObj(rec)] == ObjPrivList(lib, a).value + (ObjPrivList(lib, b[..n]).value + [JObj(rec)]);
        assert ObjPrivList(lib, a + b).value == front + [JObj(rec)];
    }
  }

  /** One entry alone gives its normalised record, or nothing when it is
      skipped; with `ObjPrivListAppend` this fixes the list of any entries as
      their records in order. */
  lemma ObjPrivListOne(lib: PyLib, e: PrivEntry)
    ensures NormalizeTablePriv(lib, e).Ok? && NormalizeTablePriv(lib, e).value.Some? ==>
      ObjPrivList(lib, [e]) == Ok([JObj(NormalizeTablePriv(lib, e).value.value)])
    ensures NormalizeTablePriv(lib, e) == Ok(None) ==> ObjPrivList(lib, [e]) == Ok([])
    ensures NormalizeTablePriv(lib, e).Err? ==> ObjPrivList(lib, [e]) == Err(ShapeError)
  {
    var one: seq<PrivEntry> := [e];
    assert one[..0] == [] && one[0] == e;
    assert ObjPrivList(lib, one[..0]) == Ok([]);
    match NormalizeTablePriv(lib, e)
    case Ok(Some(rec)) =>
      assert ObjPrivList(lib, one) == Ok([] + [JObj(rec)]);
      assert [] + [JObj(rec)] == [JObj(rec)];
    case _ =>
  }

  /** An entry that normalises to nothing (`None`, a zero table id, no
      privileges at all) leaves the list, wherever it stands, as it would be
      without it. */
  lemma SkippedEntryIsDropped(lib: PyLib, a: seq<PrivEntry>, e: PrivEntry, b: seq<PrivEntry>)
    requires NormalizeTablePriv(lib, e) == Ok(None)
    requires ObjPrivList(lib, a).Ok? && ObjPrivList(lib, b).Ok?
    ensures ObjPrivList(lib, a + [e] + b) == ObjPrivList(lib, a + b)
  {
    var one: seq<PrivEntry> := [e];
    assert ObjPrivList(lib, one) == Ok([]) by {
      assert one[..0] == [];
    }
    ObjPrivListAppend(lib, a, [e]);
    ObjPrivListAppend(lib, a + [e], b);
    ObjPrivListAppend(lib, a, b);
  }

  /** The loop of `_build_obj_priv_list`. */
  method BuildObjPrivList(lib: PyLib, entries: seq<PrivEntry>) returns (r: Result<seq<Json>>)
    ensures r == ObjPrivList(lib, entries)
  {
    var list: seq<Json> := [];
    for i := 0 to |entries|
      invariant ObjPrivList(lib, entries[..i]) == Ok(list)
    {
      assert entries[..i + 1][..i] == entries[..i];
      var payload := NormalizeTablePriv(lib, entries[i]);
      if payload.Err? {
        return Err(payload.error);
      }
      if payload.value.Some? {
        list := list + [JObj(payload.value.value)];
      }
    }
    assert entries[..|entries|] == entries;
    r := Ok(list);
  }

  // ---------------------------------------------------------------------------
  // Searching a role by name
  // ---------------------------------------------------------------------------

  /** The `list_roles` request for one page of the fuzzy name search, newest first. */
  function RoleQuery(name: string, page: int): map<string, Json>
  {
    map["keyword" := JStr(""),
        "common_condition" := JObj(map[
          "page" := JNum(page),
          "page_size" := JNum(PageSize),
          "order" := JStr("desc"),
          "order_by" := JStr("created_at"),
          "filters" := JArr([JObj(map[
            "name" := JStr("name_description"),
            "values" := JArr([JStr(name)]),
            "fuzzy" := JBool(true)])])])]
  }

  /** A dict whose `name` is exactly `name`. */
  predicate Named(role: Json, name: string) {
    role.JObj? && Get(role.fields, "name") == JStr(name)
  }

  /** Every role is a dict and none is named `name`. */
  predicate NoneNamed(roles: seq<Json>, name: string) {
    forall k :: 0 <= k < |roles| ==> roles[k].JObj? && !Named(roles[k], name)
  }

  /** `roles[j]` is named `name`, and every role before it is a dict of
      another name. */
  predicate FirstNamedAt(roles: seq<Json>, name: string, j: int) {
    0 <= j < |roles| && Named(roles[j], name) && NoneNamed(roles[..j], name)
  }

  /** How the scan of one page's roles ends. */
  datatype Scan = Match(at: nat) | NoMatch | NotADict(at: nat)

  /** The first role named `name`, unless a role that is not a dict comes first
      (`role.get` raises then). */
  function FirstMatch(roles: seq<Json>, name: string): (s: Scan)
    ensures s.Match? ==> s.at < |roles| && Named(roles[s.at], name)
    ensures s.NotADict? ==> s.at < |roles| && !roles[s.at].JObj?
    ensures !s.NoMatch? ==> forall k :: 0 <= k < s.at ==> roles[k].JObj? && !Named(roles[k], name)
    ensures s.NoMatch? ==> forall k :: 0 <= k < |roles| ==> roles[k].JObj? && !Named(roles[k], name)
    ensures s.NoMatch? <==> NoneNamed(roles, name)
    ensures s.Match? ==> FirstNamedAt(roles, name, s.at)
    ensures forall j :: FirstNamedAt(roles, name, j) ==> s == Match(j)
  {
    if roles == [] then NoMatch
    else if !roles[0].JObj? then NotADict(0)
    else if Named(roles[0], name) then Match(0)
    else
      match FirstMatch(roles[1..], name)
      case NoMatch => NoMatch
      case Match(i) => Match(i + 1)
      case NotADict(i) => NotADict(i + 1)
  }

  /** The `for role in role_list` loop of `_find_role_by_name`. */
  method ScanRoles(roles: seq<Json>, name: string) returns (s: Scan)
    ensures s == FirstMatch(roles, name)
  {
    for i := 0 to |roles|
      invariant forall k :: 0 <= k < i ==> roles[k].JObj? && !Named(roles[k], name)
    {
      if !roles[i].JObj? {
        return NotADict(i);
      }
      if Named(roles[i], name) {
        return Match(i);
      }
    }
    return NoMatch;
  }

  /** A page's `total` compared with an integer: a number, or a boolean as 0/1;
      `None` where Python raises `TypeError`. */
  function AsNumber(j: Json): Option<int>
  {
    match j
    case JNum(n) => Some(n)
    case JBool(b) => Some(if b then 1 else 0)
    case _ => None
  }

  /** The `role_list` of a page: `role_list`, else `list`, else empty; a page that
      is not a dict has none. */
  function RoleList(data: Json): Json
  {
    if data.JObj? then Or(Or(Get(data.fields, "role_list"), Get(data.fields, "list")), JArr([]))
    else JArr([])
  }

  /** The `total` of a page, `0` when absent, falsy or not a dict. */
  function Total(data: Json): Json
  {
    if data.JObj? then Or(Get(data.fields, "total"), JNum(0)) else JNum(0)
  }

  /** What one page decides. */
  datatype Step = Found(role: map<string, Json>) | Stop | Next | Failed(error: Error)

  /** The roles of a page: fewer than a full page, or enough to reach the
      `total` the page reports. */
  predicate LastPage(roles: seq<Json>, total: Json, page: int) {
    |roles| < PageSize || (Truthy(total) && AsNumber(total).Some? && page * PageSize >= AsNumber(total).value)
  }

  /** One iteration of the search: the first role of the page named `name`
      ends it; otherwise a short page, or a page at or past the reported total,
      ends it empty-handed; anything that Python cannot iterate or compare fails. */
  function PageStep(lib: PyLib, name: string, page: int, data: Json): (s: Step)
    ensures s.Found? ==> Get(s.role, "name") == JStr(name)
    ensures var roles := Iterate(lib, RoleList(data));
      && (s.Found? ==> roles.Some? && exists j :: FirstNamedAt(roles.value, name, j) && s.role == roles.value[j].fields)
      && (roles.Some? ==> forall j :: FirstNamedAt(roles.value, name, j) ==> s == Found(roles.value[j].fields))
      && (s.Stop? <==> roles.Some? && NoneNamed(roles.value, name) && LastPage(roles.value, Total(data), page))
      && (s.Next? <==>
            && roles.Some? && NoneNamed(roles.value, name) && |roles.value| >= PageSize
            && (!Truthy(Total(data)) || (AsNumber(Total(data)).Some? && page * PageSize < AsNumber(Total(data)).value)))
    ensures s.Failed? ==> s.error == ShapeError
    ensures !data.JObj? ==> s == Stop
  {
    match Iterate(lib, RoleList(data))
    case None => Failed(ShapeError)
    case Some(roles) =>
      match FirstMatch(roles, name)
      case NotADict(_) => Failed(ShapeError)
      case Match(i) => Found(roles[i].fields)
      case NoMatch =>
        if |roles| < PageSize then Stop
        else
          var total := Total(data);
          if !Truthy(total) then Next
          else
            match AsNumber(total)
            case None => Failed(ShapeError)
            case Some(n) => if page * PageSize >= n then Stop else Next
  }

  /** The body of the loop of `_find_role_by_name` once a page has arrived. */
  method DecidePage(lib: PyLib, name: string, page: int, data: Json) returns (s: Step)
    ensures s == PageStep(lib, name, page, data)
  {
    var roleList := JArr([]);
    var total := JNum(0);
    if data.JObj? {
      roleList := Or(Or(Get(data.fields, "role_list"), Get(data.fields, "list")), JArr([]));
      total := Or(Get(data.fields, "total"), JNum(0));
    }
    var roles := Iterate(lib, roleList);
    if roles.None? {
      return Failed(ShapeError);
    }
    var scan := ScanRoles(roles.value, name);
    if scan.NotADict? {
      return Failed(ShapeError);
    }
    if scan.Match? {
      return Found(roles.value[scan.at].fields);
    }
    if |roles.value| < PageSize {
      return Stop;
    }
    if Truthy(total) {
      var n := AsNumber(total);
      if n.None? {
        return Failed(ShapeError);
      }
      if page * PageSize >= n.value {
        return Stop;
      }
    }
    return Next;
  }

  // ---------------------------------------------------------------------------
  // The search by name, for any transport and any per-page request
  // ---------------------------------------------------------------------------

  /** An answer to a page query whose roles are all dicts, none named `name`. */
  predicate Skipped(lib: PyLib, answer: Result<Json>, name: string) {
    && answer.Ok? && Iterate(lib, RoleList(answer.value)).Some?
    && NoneNamed(Iterate(lib, RoleList(answer.value)).value, name)
  }

  /** An answer to the query for `page` that is the last page to read. */
  predicate Exhausted(lib: PyLib, answer: Result<Json>, page: int) {
    && answer.Ok? && Iterate(lib, RoleList(answer.value)).Some?
    && LastPage(Iterate(lib, RoleList(answer.value)).value, Total(answer.value), page)
  }

  /** An answer to a page query whose first role named `name` is `role`. */
  predicate FirstOnPage(lib: PyLib, answer: Result<Json>, name: string, role: map<string, Json>) {
    && answer.Ok? && Iterate(lib, RoleList(answer.value)).Some?
    && var roles := Iterate(lib, RoleList(answer.value)).value;
       exists j :: 0 <= j < |roles| && FirstNamedAt(roles, name, j) && role == roles[j].fields
  }

  /** What the answer to `req`, sent for `page` after the requests `h`, decides;
      a failed request fails the search with its error. */
  function Answer(lib: PyLib, serve: (seq<HttpRequest>, HttpRequest) -> HttpResponse,
                  h: seq<HttpRequest>, req: HttpRequest, name: string, page: int): (s: Step)
    ensures s.Found? ==> Get(s.role, "name") == JStr(name)
    ensures s.Failed? && Unwrap(serve(h, req)).Ok? ==> s.error == ShapeError
    ensures Unwrap(serve(h, req)).Err? ==> s == Failed(Unwrap(serve(h, req)).error)
  {
    match Unwrap(serve(h, req))
    case Err(e) => Failed(e)
    case Ok(data) => PageStep(lib, name, page, data)
  }

  /** The step `s` taken on the answer for `page` is what the page holds: a
      role picked is the first of that name on the page, the search stops on a
      page without the name that is the last page, and goes on only past a page
      without the name that is not. */
  predicate Reads(lib: PyLib, answer: Result<Json>, name: string, page: int, s: Step) {
    && (s.Found? ==> FirstOnPage(lib, answer, name, s.role))
    && (s.Stop? ==> Skipped(lib, answer, name) && Exhausted(lib, answer, page))
    && (s.Next? ==> Skipped(lib, answer, name) && !Exhausted(lib, answer, page))
  }

  /** What an answer decides says what the page holds; it stops exactly on a
      page without the name that is the last page. */
  lemma AnswerReadsPage(lib: PyLib, serve: (seq<HttpRequest>, HttpRequest) -> HttpResponse,
                        h: seq<HttpRequest>, req: HttpRequest, name: string, page: int)
    ensures Reads(lib, Unwrap(serve(h, req)), name, page, Answer(lib, serve, h, req, name, page))
    ensures Skipped(lib, Unwrap(serve(h, req)), name) && Exhausted(lib, Unwrap(serve(h, req)), page) ==>
      Answer(lib, serve, h, req, name, page) == Stop
  {
  }

  /** The search from `page` on, after the requests `h`, when `request(p)` is
      sent for page `p` and `decide(h', p)` is what its answer decides after the
      requests `h'`: its result and the requests sent by then. It gives up
      empty-handed after page `MaxPages`. */
  function Search(request: int -> HttpRequest, decide: (seq<HttpRequest>, int) -> Step,
                  h: seq<HttpRequest>, page: nat): (r: (Result<Option<map<string, Json>>>, seq<HttpRequest>))
    decreases MaxPages + 1 - page
  {
    if page > MaxPages then (Ok(None), h)
    else
      var step := decide(h, page);
      var h' := h + [request(page)];
      if step.Next? then Search(request, decide, h', page + 1)
      else (Ended(step), h')
  }

  /** Every role `decide` picks is named `name`. */
  ghost predicate FindsOnly(decide: (seq<HttpRequest>, int) -> Step, name: string) {
    forall h, page :: decide(h, page).Found? ==> Get(decide(h, page).role, "name") == JStr(name)
  }

  /** The search returns only a role some page picked. */
  lemma {:induction false} SearchFindsOnly(request: int -> HttpRequest, decide: (seq<HttpRequest>, int) -> Step,
                                           name: string, h: seq<HttpRequest>, page: nat)
    requires FindsOnly(decide, name)
    ensures var r := Search(request, decide, h, page).0;
      r.Ok? && r.value.Some? ==> Get(r.value.value, "name") == JStr(name)
    decreases MaxPages + 1 - page
  {
    if page <= MaxPages && decide(h, page).Next? {
      SearchFindsOnly(request, decide, name, h + [request(page)], page + 1);
    }
  }

  /** The result of the search when a page ends it. */
  function Ended(step: Step): (r: Result<Option<map<string, Json>>>)
    requires !step.Next?
    ensures r.Ok? && r.value.Some? <==> step.Found?
    ensures step.Found? ==> r.value.value == step.role
    ensures r.Err? <==> step.Failed?
  {
    match step
    case Found(role) => Ok(Some(role))
    case Stop => Ok(None)
    case Failed(e) => Err(e)
  }

  /** The requests sent, after `h`, before page `p` of a search that starts at
      page `from`. */
  function Sent(request: int -> HttpRequest, h: seq<HttpRequest>, from: int, p: int): seq<HttpRequest>
    requires from <= p
  {
    h + Requests(request, from, p - from)
  }

  /** A search that starts one page later, after that page's request. */
  lemma SentShift(request: int -> HttpRequest, h: seq<HttpRequest>, from: int, p: int)
    requires from < p
    ensures Sent(request, h + [request(from)], from + 1, p) == Sent(request, h, from, p)
  {
    var rest := Requests(request, from + 1, p - from - 1);
    assert Requests(request, from, p - from) == [request(from)] + rest;
    assert h + [request(from)] + rest == h + ([request(from)] + rest);
  }

  /** How the search from `page` went: each page before the last one read said
      go on, and the last one either ended it or was page `MaxPages`. */
  lemma {:induction false} SearchTrace(request: int -> HttpRequest, decide: (seq<HttpRequest>, int) -> Step,
                                       h: seq<HttpRequest>, page: nat)
    requires 1 <= page <= MaxPages
    ensures var (r, h') := Search(request, decide, h, page);
      var last := page + |h'| - |h| - 1;
      && page <= last <= MaxPages
      && h' == Sent(request, h, page, last + 1)
      && (forall p :: page <= p < last ==> decide(Sent(request, h, page, p), p).Next?)
      && var step := decide(Sent(request, h, page, last), last);
         && (step.Next? ==> last == MaxPages && r == Ok(None))
         && (!step.Next? ==> r == Ended(step))
    decreases MaxPages + 1 - page
  {
    var req := request(page);
    var (r, h') := Search(request, decide, h, page);
    var last := page + |h'| - |h| - 1;
    assert Sent(request, h, page, page) == h;
    assert Sent(request, h, page, page + 1) == h + [req] by {
      assert Requests(request, page, 1) == [req] + Requests(request, page + 1, 0);
    }
    if decide(h, page).Next? && page < MaxPages {
      assert (r, h') == Search(request, decide, h + [req], page + 1);
      SearchTrace(request, decide, h + [req], page + 1);
      SentShift(request, h, page, last + 1);
      SentShift(request, h, page, last);
      forall p | page <= p < last
        ensures decide(Sent(request, h, page, p), p).Next?
      {
        if p > page {
          SentShift(request, h, page, p);
        }
      }
    }
  }

  /** The answer to the request for page `p` of a search from page 1 after `h`. */
  function AnswerTo(serve: (seq<HttpRequest>, HttpRequest) -> HttpResponse, request: int -> HttpRequest,
                    h: seq<HttpRequest>, p: int): Result<Json>
    requires 1 <= p
  {
    Unwrap(serve(Sent(request, h, 1, p), request(p)))
  }

  /** A search from page 1 after `h` that gave `r` and left the requests `h'`
      read pages 1 to `last` and answered what they hold: every page before the
      last was full, below the reported total and without a role named `name`;
      a role it returns is the first of that name on the last page; when it
      returns none, the last page held none either and ended the search, or was
      page `MaxPages`. */
  ghost predicate AnswersPages(lib: PyLib, serve: (seq<HttpRequest>, HttpRequest) -> HttpResponse,
                               request: int -> HttpRequest, name: string, h: seq<HttpRequest>,
                               r: Result<Option<map<string, Json>>>, h': seq<HttpRequest>)
  {
    var last := |h'| - |h|;
    && 1 <= last <= MaxPages
    && h' == Sent(request, h, 1, last + 1)
    && (forall p :: 1 <= p < last ==>
          var answer := AnswerTo(serve, request, h, p);
          Skipped(lib, answer, name) && !Exhausted(lib, answer, p))
    && var answer := AnswerTo(serve, request, h, last);
       && (r.Ok? && r.value.Some? ==> FirstOnPage(lib, answer, name, r.value.value))
       && (r == Ok(None) ==> Skipped(lib, answer, name) && (Exhausted(lib, answer, last) || last == MaxPages))
  }

  /** A search from page 1 whose pages decide as their answers say answers
      what the pages it read hold. */
  lemma SearchReadsPages(lib: PyLib, serve: (seq<HttpRequest>, HttpRequest) -> HttpResponse,
                         request: int -> HttpRequest, decide: (seq<HttpRequest>, int) -> Step,
                         name: string, h: seq<HttpRequest>)
    requires forall p :: 1 <= p <= MaxPages ==>
      Reads(lib, AnswerTo(serve, request, h, p), name, p, decide(Sent(request, h, 1, p), p))
    ensures AnswersPages(lib, serve, request, name, h, Search(request, decide, h, 1).0, Search(request, decide, h, 1).1)
  {
    SearchTrace(request, decide, h, 1);
    var sr := Search(request, decide, h, 1);
    var r, h' := sr.0, sr.1;
    var last := |h'| - |h|;
    forall p | 1 <= p < last
      ensures var answer := AnswerTo(serve, request, h, p);
        Skipped(lib, answer, name) && !Exhausted(lib, answer, p)
    {
      assert decide(Sent(request, h, 1, p), p).Next?;
      assert Reads(lib, AnswerTo(serve, request, h, p), name, p, decide(Sent(request, h, 1, p), p));
    }
    var answer := AnswerTo(serve, request, h, last);
    var step := decide(Sent(request, h, 1, last), last);
    assert Reads(lib, answer, name, last, step);
    assert r.Ok? && r.value.Some? ==> FirstOnPage(lib, answer, name, r.value.value) by {
      if step.Found? {
        assert r == Ok(Some(step.role));
      }
    }
    assert r == Ok(None) ==> Skipped(lib, answer, name) && (Exhausted(lib, answer, last) || last == MaxPages) by {
      if step.Next? {
        assert last == MaxPages;
      }
    }
    assert AnswersPages(lib, serve, request, name, h, r, h');
  }

  /** The requests for `n` consecutive pages from `page` on. */
  function Requests(request: int -> HttpRequest, page: int, n: nat): (r: seq<HttpRequest>)
    ensures |r| == n
    decreases n
  {
    if n == 0 then [] else [request(page)] + Requests(request, page + 1, n - 1)
  }

  /** The search sends at least one and at most `MaxPages + 1 - page` requests:
      those for `page`, `page + 1`, ... in order, after `h`. */
  lemma {:induction false} SearchRequests(request: int -> HttpRequest, decide: (seq<HttpRequest>, int) -> Step,
                                          h: seq<HttpRequest>, page: nat)
    requires 1 <= page <= MaxPages
    ensures var h' := Search(request, decide, h, page).1;
      && |h| + 1 <= |h'| <= |h| + MaxPages + 1 - page
      && h' == h + Requests(request, page, |h'| - |h|)
    decreases MaxPages + 1 - page
  {
    var req := request(page);
    var h' := Search(request, decide, h, page).1;
    assert Requests(request, page, 1) == [req] + Requests(request, page + 1, 0);
    if decide(h, page).Next? {
      assert h' == Search(request, decide, h + [req], page + 1).1;
      if page < MaxPages {
        SearchRequests(request, decide, h + [req], page + 1);
        var n := |h'| - |h|;
        assert Requests(request, page, n) == [req] + Requests(request, page + 1, n - 1);
        assert h' == h + Requests(request, page, n);
      } else {
        assert h' == h + [req];
      }
    } else {
      assert h' == h + [req];
    }
  }

  /** The requests a search from page 1 after `h` left: between one and
      `MaxPages` page requests, for pages 1, 2, ... in order. */
  ghost predicate PagesSent(request: int -> HttpRequest, h: seq<HttpRequest>, h': seq<HttpRequest>) {
    && |h| + 1 <= |h'| <= |h| + MaxPages
    && h' == h + Requests(request, 1, |h'| - |h|)
    && h'[|h|] == request(1)
  }

  /** A search from page 1 sends the page requests from page 1 on. */
  lemma SearchFromFirstPage(request: int -> HttpRequest, decide: (seq<HttpRequest>, int) -> Step,
                            h: seq<HttpRequest>)
    ensures PagesSent(request, h, Search(request, decide, h, 1).1)
  {
    SearchRequests(request, decide, h, 1);
    var h' := Search(request, decide, h, 1).1;
    assert Requests(request, 1, |h'| - |h|)[0] == request(1);
  }

  // ---------------------------------------------------------------------------
  // Payloads
  // ---------------------------------------------------------------------------

  /** The `create_role` payload of `create_table_role`. */
  function CreatePayload(roleName: string, comment: string, objs: seq<Json>): map<string, Json>
  {
    map["name" := JStr(roleName),
        "description" := JStr(comment),
        "authority_code_list" := JArr([]),
        "obj_authority_code_list" := JArr(objs)]
  }

  /** The `update_role_info` payload of `update_table_role`. */
  function UpdatePayload(roleId: int, description: Json, codes: seq<Json>, objs: seq<Json>): map<string, Json>
  {
    map["id" := JNum(roleId),
        "description" := Or(description, JStr("")),
        "authority_code_list" := JArr(codes),
        "obj_authority_code_list" := JArr(objs)]
  }

  /** The truthy `code` of each stored authority, in order; an authority that
      is not a dict makes `item.get` raise. */
  function HeldCodes(items: seq<Json>): (r: Result<seq<Json>>)
    ensures r.Ok? <==> forall i :: 0 <= i < |items| ==> items[i].JObj?
    ensures r.Err? ==> r.error == ShapeError
    ensures r.Ok? ==> |r.value| <= |items| && forall k :: 0 <= k < |r.value| ==> Truthy(r.value[k])
    ensures |items| == 1 && items[0].JObj? ==>
      var code := Get(items[0].fields, "code");
      r == Ok(if Truthy(code) then [code] else [])
  {
    if items == [] then Ok([])
    else if !items[0].JObj? then Err(ShapeError)
    else
      var code := Get(items[0].fields, "code");
      assert |items| == 1 ==> items[1..] == [];
      match HeldCodes(items[1..])
      case Err(e) => Err(e)
      case Ok(rest) =>
        assert |items| == 1 ==> rest == [] && [code] + rest == [code];
        Ok(if Truthy(code) then [code] + rest else rest)
  }

  /** The codes held by two runs of authorities are those of the first run,
      then those of the second: with the one-authority case above, the result
      is exactly the truthy codes in order. */
  lemma {:induction false} HeldCodesAppend(a: seq<Json>, b: seq<Json>)
    requires HeldCodes(a).Ok? && HeldCodes(b).Ok?
    ensures HeldCodes(a + b) == Ok(HeldCodes(a).value + HeldCodes(b).value)
  {
    if a != [] {
      assert (a + b)[0] == a[0] && (a + b)[1..] == a[1..] + b;
      assert HeldCodes(a[1..]).Ok?;
      HeldCodesAppend(a[1..], b);
      var code := Get(a[0].fields, "code");
      var front := if Truthy(code) then [code] else [];
      assert HeldCodes(a).value == front + HeldCodes(a[1..]).value;
      assert HeldCodes(a + b).value == front + (HeldCodes(a[1..]).value + HeldCodes(b).value);
      assert front + (HeldCodes(a[1..]).value + HeldCodes(b).value)
          == (front + HeldCodes(a[1..]).value) + HeldCodes(b).value;
    } else {
      assert a + b == b;
      assert HeldCodes(a).value + HeldCodes(b).value == HeldCodes(b).value;
    }
  }

  /** When every authority carries a truthy code, all of them are kept, in order. */
  lemma {:induction false} HeldCodesKeepsEveryCode(items: seq<Json>)
    requires forall i :: 0 <= i < |items| ==> items[i].JObj? && Truthy(Get(items[i].fields, "code"))
    ensures HeldCodes(items).Ok?
    ensures |HeldCodes(items).value| == |items|
    ensures forall i :: 0 <= i < |items| ==> HeldCodes(items).value[i] == Get(items[i].fields, "code")
  {
    if items != [] {
      HeldCodesKeepsEveryCode(items[1..]);
    }
  }

  /** The request `import_local_file_to_table` hands to `upload_connector_file`:
      the table config must be non-empty and name at least one connector file;
      an import into an existing table must name it and gets an empty
      `existed_table` unless one is given. The first file id becomes the meta
      entry's file name, under the fixed volume `123456`. */
  function PrepareImport(tableConfig: map<string, Json>): (r: Result<ConnectorUpload>)
    ensures tableConfig == map[] ==> r == Err(InvalidArgument(TableConfigRequired))
    ensures tableConfig != map[] && !Truthy(Get(tableConfig, "conn_file_ids")) ==>
      r == Err(InvalidArgument(ConnFileIdsRequired))
    ensures
      && tableConfig != map[] && Truthy(Get(tableConfig, "conn_file_ids"))
      && !Truthy(Get(tableConfig, "new_table")) && !Truthy(Get(tableConfig, "table_id"))
      ==> r == Err(InvalidArgument(TableIdRequired))
    ensures
      && tableConfig != map[] && Truthy(Get(tableConfig, "conn_file_ids"))
      && (Truthy(Get(tableConfig, "new_table")) || Truthy(Get(tableConfig, "table_id")))
      ==> (r.Ok? <==> FirstItem(Get(tableConfig, "conn_file_ids")).Some?) && (r.Err? ==> r.error == ShapeError)
    ensures r.Ok? ==>
      && tableConfig != map[] && Truthy(Get(tableConfig, "conn_file_ids"))
      && r.value.volumeId == "123456" && r.value.fileItems == []
      && r.value.fileTypes == [] && r.value.pathRegex == "" && !r.value.unzipKeepStructure
      && r.value.dedupConfig == JNull && r.value.extraFields == map[]
      && (forall k :: k in tableConfig ==> k in r.value.tableConfig && r.value.tableConfig[k] == tableConfig[k])
      && (forall k :: k in r.value.tableConfig ==> k in tableConfig || k == "existed_table")
      && ("existed_table" !in tableConfig && !Truthy(Get(tableConfig, "new_table")) <==>
            "existed_table" in r.value.tableConfig && "existed_table" !in tableConfig)
      && ("existed_table" in r.value.tableConfig && "existed_table" !in tableConfig ==>
            r.value.tableConfig["existed_table"] == JArr([]))
      && |r.value.meta| == 1 && r.value.meta[0].JObj?
      && r.value.meta[0].fields.Keys == {"filename", "path"}
      && r.value.meta[0].fields["path"] == JStr("/")
      && FirstItem(Get(tableConfig, "conn_file_ids")).Some?
      && r.value.meta[0].fields["filename"] == FirstItem(Get(tableConfig, "conn_file_ids")).value
  {
    if tableConfig == map[] then Err(InvalidArgument(TableConfigRequired))
    else
      var ids := Or(Get(tableConfig, "conn_file_ids"), JArr([]));
      if !Truthy(ids) then Err(InvalidArgument(ConnFileIdsRequired))
      else if !Truthy(Get(tableConfig, "new_table")) && !Truthy(Get(tableConfig, "table_id")) then
        Err(InvalidArgument(TableIdRequired))
      else
        var config :=
          if !Truthy(Get(tableConfig, "new_table")) && "existed_table" !in tableConfig
          then tableConfig["existed_table" := JArr([])]
          else tableConfig;
        match FirstItem(ids)
        case None => Err(ShapeError)
        case Some(id) =>
          var meta := [JObj(map["filename" := id, "path" := JStr("/")])];
          Ok(ConnectorUpload("123456", [], meta, [], "", false, JNull, config, map[]))
  }

  /** `ids[0]`: a list's first element, a string's first character; `None` where
      Python raises (an empty sequence, a dict without key `0`, a scalar). */
  function FirstItem(ids: Json): (r: Option<Json>)
    ensures ids.JArr? && ids.items != [] ==> r == Some(ids.items[0])
    ensures ids.JStr? && ids.s != "" ==> r == Some(JStr([ids.s[0]]))
    ensures r.Some? <==> (ids.JArr? && ids.items != []) || (ids.JStr? && ids.s != "")
  {
    match ids
    case JArr(items) => if items == [] then None else Some(items[0])
    case JStr(s) => if s == "" then None else Some(JStr([s[0]]))
    case _ => None
  }

  /** The upload an import sends carries no files, and exactly the volume id,
      the one-entry meta and the completed table config as form fields. */
  lemma ImportUploadsTableConfig(lib: PyLib, tableConfig: map<string, Json>)
    requires PrepareImport(tableConfig).Ok?
    ensures var u := PrepareImport(tableConfig).value;
      var plan := ConnectorPlan(lib, u);
      && plan.Ok? && plan.value.0 == []
      && plan.value.1.Keys == {"VolumeID", "meta", "table_config"}
      && plan.value.1["VolumeID"] == JStr("123456")
      && plan.value.1["meta"] == JStr(lib.dumps(JArr(u.meta)))
      && plan.value.1["table_config"] == JStr(lib.dumps(JObj(u.tableConfig)))
  {
    var u := PrepareImport(tableConfig).value;
    var own := OwnFields(lib, u);
    assert u.tableConfig != map[] by {
      var k :| k in tableConfig;
      assert k in u.tableConfig;
    }
    assert own.Keys == {"VolumeID", "meta", "table_config"} by {
      assert HasField(own, "file_types", false, JStr(lib.dumps(JArr(Nums([])))));
      assert HasField(own, "dedup", false, JStr(lib.dumps(JNull)));
    }
  }

  /** The `run_sql` payload: refused when the statement is empty or only
      whitespace, and otherwise passed on unchanged. */
  function SqlRequest(statement: string): (r: Result<map<string, Json>>)
    ensures r.Err? <==> IsBlank(statement)
    ensures r.Err? ==> r.error == InvalidArgument(StatementRequired)
    ensures r.Ok? ==>
      && r.value.Keys == {"operation", "statement"}
      && r.value["operation"] == JStr("run_sql")
      && r.value["statement"] == JStr(statement)
  {
    if statement == "" || Strip(statement) == "" then Err(InvalidArgument(StatementRequired))
    else Ok(map["operation" := JStr("run_sql"), "statement" := JStr(statement)])
  }

  // ---------------------------------------------------------------------------
  // The client
  // ---------------------------------------------------------------------------

  class SDKClient {
    const raw: RawClient

    constructor (raw: RawClient)
      ensures this.raw == raw
    {
      this.raw := raw;
    }

    /** `SDKClient(raw)`: a missing raw client is refused. */
    static method FromRaw(raw: RawClient?) returns (r: Result<SDKClient>)
      ensures raw == null ==> r == Err(InvalidArgument(RawClientRequired))
      ensures raw != null ==> r.Ok? && r.value.raw == raw && fresh(r.value)
    {
      if raw == null {
        return Err(InvalidArgument(RawClientRequired));
      }
      var c := new SDKClient(raw);
      r := Ok(c);
    }

    /** The `list_roles` request for `page` of the search for `name`. */
    function ListRequest(name: string, page: int): HttpRequest
    {
      raw.JsonRequest("POST", Path(ListRoles), JObj(RoleQuery(name, page)), NoCallOptions)
    }

    /** The `list_roles` request of the search for `name`, page by page. */
    function Pager(name: string): int -> HttpRequest
    {
      page => ListRequest(name, page)
    }

    /** What the answer to the `list_roles` query for a page decides, after
        the requests sent before it. */
    function Decider(name: string): (seq<HttpRequest>, int) -> Step
    {
      (h, page) => Answer(raw.lib, raw.http.serve, h, ListRequest(name, page), name, page)
    }

    /** The search for `name` from `page` on, after the requests `h`: its result
        and the requests sent by then. A role it returns has that name. */
    function ScanFrom(h: seq<HttpRequest>, name: string, page: nat): (r: (Result<Option<map<string, Json>>>, seq<HttpRequest>))
      ensures r.0.Ok? && r.0.value.Some? ==> Get(r.0.value.value, "name") == JStr(name)
    {
      SearchFindsOnly(Pager(name), Decider(name), name, h, page);
      Search(Pager(name), Decider(name), h, page)
    }

    /** The whole search from the first page sends at least one and at most
        `MaxPages` requests, the `list_roles` queries for pages 1, 2, ... in order. */
    lemma SearchIsBounded(h: seq<HttpRequest>, name: string)
      ensures PagesSent(Pager(name), h, ScanFrom(h, name, 1).1)
    {
      SearchFromFirstPage(Pager(name), Decider(name), h);
      assert ScanFrom(h, name, 1) == Search(Pager(name), Decider(name), h, 1);
    }

    /** The search reads pages 1 to `last` and answers what they hold: every
        page before the last was full, below the reported total and without a
        role of that name; a role it returns is the first of that name on the
        last page; when it returns none, the last page held none either and
        ended the search, or was page `MaxPages`. */
    lemma SearchIsComplete(h: seq<HttpRequest>, name: string)
      ensures AnswersPages(raw.lib, raw.http.serve, Pager(name), name, h, ScanFrom(h, name, 1).0, ScanFrom(h, name, 1).1)
    {
      DeciderReadsPages(h, name);
      assert ScanFrom(h, name, 1) == Search(Pager(name), Decider(name), h, 1);
      SearchReadsPages(raw.lib, raw.http.serve, Pager(name), Decider(name), name, h);
    }

    /** Every page of the search for `name` decides what its answer holds. */
    lemma DeciderReadsPages(h: seq<HttpRequest>, name: string)
      ensures forall p :: 1 <= p <= MaxPages ==>
        Reads(raw.lib, AnswerTo(raw.http.serve, Pager(name), h, p), name, p, Decider(name)(Sent(Pager(name), h, 1, p), p))
    {
      forall p | 1 <= p <= MaxPages
        ensures Reads(raw.lib, AnswerTo(raw.http.serve, Pager(name), h, p), name, p,
                      Decider(name)(Sent(Pager(name), h, 1, p), p))
      {
        var hp := Sent(Pager(name), h, 1, p);
        assert Decider(name)(hp, p) == Answer(raw.lib, raw.http.serve, hp, Pager(name)(p), name, p);
        AnswerReadsPage(raw.lib, raw.http.serve, hp, Pager(name)(p), name, p);
      }
    }

    /** One iteration of the loop of `_find_role_by_name`: the `list_roles`
        query for `page`, and what its answer decides. */
    method SearchPage(name: string, page: int) returns (step: Step)
      modifies raw.http
      ensures raw.http.history == old(raw.http.history) + [ListRequest(name, page)]
      ensures step == Answer(raw.lib, raw.http.serve, old(raw.http.history), ListRequest(name, page), name, page)
    {
      assert Applied([]) == NoCallOptions;
      var response := raw.Invoke(ListRoles, Some(RoleQuery(name, page)), []);
      if response.Err? {
        return Failed(response.error);
      }
      step := DecidePage(raw.lib, name, page, response.value);
    }

    /** `_find_role_by_name`: the newest role with exactly that name, searching
        at most `MaxPages` pages. */
    method FindRoleByName(name: string) returns (r: Result<Option<map<string, Json>>>)
      modifies raw.http
      ensures (r, raw.http.history) == ScanFrom(old(raw.http.history), name, 1)
    {
      var page := 1;
      while page <= MaxPages
        invariant 1 <= page <= MaxPages + 1
        invariant ScanFrom(raw.http.history, name, page) == ScanFrom(old(raw.http.history), name, 1)
        decreases MaxPages + 1 - page
      {
        var step := SearchPage(name, page);
        assert Pager(name)(page) == ListRequest(name, page);
        if !step.Next? {
          return Ended(step);
        }
        page := page + 1;
      }
      r := Ok(None);
    }

    function CreateRequest(roleName: string, comment: string, objs: seq<Json>): HttpRequest
    {
      raw.JsonRequest("POST", Path(CreateRole), JObj(CreatePayload(roleName, comment, objs)), NoCallOptions)
    }

    /** `create_table_role` after the requests `h`: its result and the requests
        sent by then. */
    function CreateOutcome(h: seq<HttpRequest>, roleName: string, comment: string, privs: seq<PrivEntry>)
      : (r: (Result<(Json, bool)>, seq<HttpRequest>))
      ensures roleName == "" ==> r == (Err(InvalidArgument(RoleNameRequired)), h)
      ensures r.0.Ok? && !r.0.value.1 ==>
        && ScanFrom(h, roleName, 1).0.Ok? && ScanFrom(h, roleName, 1).0.value.Some?
        && r.1 == ScanFrom(h, roleName, 1).1
      ensures r.0.Ok? && r.0.value.1 ==>
        && ScanFrom(h, roleName, 1).0 == Ok(None)
        && ObjPrivList(raw.lib, privs).Ok?
        && r.1 == ScanFrom(h, roleName, 1).1 + [CreateRequest(roleName, comment, ObjPrivList(raw.lib, privs).value)]
      ensures roleName != "" && ScanFrom(h, roleName, 1).0 == Ok(None) ==>
        r == Create(ScanFrom(h, roleName, 1).1, roleName, comment, privs)
      ensures roleName != "" && ScanFrom(h, roleName, 1).0.Err? ==>
        r == (Err(ScanFrom(h, roleName, 1).0.error), ScanFrom(h, roleName, 1).1)
    {
      if roleName == "" then (Err(InvalidArgument(RoleNameRequired)), h)
      else
        var (found, h') := ScanFrom(h, roleName, 1);
        match found
        case Err(e) => (Err(e), h')
        case Ok(Some(role)) => (Ok((Get(role, "id"), false)), h')
        case Ok(None) => Create(h', roleName, comment, privs)
    }

    /** The last step of `create_table_role` after the requests `h`, once no
        role of that name was found: the privilege list, then `create_role`. */
    function Create(h: seq<HttpRequest>, roleName: string, comment: string, privs: seq<PrivEntry>)
      : (r: (Result<(Json, bool)>, seq<HttpRequest>))
      ensures r.0.Ok? ==> r.0.value.1
      ensures ObjPrivList(raw.lib, privs).Err? ==> r == (Err(ShapeError), h)
      ensures ObjPrivList(raw.lib, privs).Ok? ==>
        var req := CreateRequest(roleName, comment, ObjPrivList(raw.lib, privs).value);
        var answer := Unwrap(raw.http.serve(h, req));
        && r.1 == h + [req]
        && (answer.Err? ==> r.0 == Err(answer.error))
        && (answer.Ok? && answer.value.JObj? ==> r.0 == Ok((Get(answer.value.fields, "id"), true)))
        && (answer.Ok? && !answer.value.JObj? ==> r.0 == Ok((JNull, true)))
    {
      match ObjPrivList(raw.lib, privs)
      case Err(e) => (Err(e), h)
      case Ok(objs) =>
        var req := CreateRequest(roleName, comment, objs);
        var answer :=
          match Unwrap(raw.http.serve(h, req))
          case Err(e) => Err(e)
          case Ok(resp) => Ok((if resp.JObj? then Get(resp.fields, "id") else JNull, true));
        (answer, h + [req])
    }

    /** An existing role is reported, not created again: no `create_role` request
        is sent, only the search. */
    lemma ExistingRoleIsReused(h: seq<HttpRequest>, roleName: string, comment: string, privs: seq<PrivEntry>)
      requires roleName != ""
      requires var found := ScanFrom(h, roleName, 1).0; found.Ok? && found.value.Some?
      ensures var (found, h') := ScanFrom(h, roleName, 1);
        && CreateOutcome(h, roleName, comment, privs) == (Ok((Get(found.value.value, "id"), false)), h')
        && |h| < |h'|
        && h' == h + Requests(Pager(roleName), 1, |h'| - |h|)
    {
      SearchIsBounded(h, roleName);
    }

    /** The `create_role` step of `create_table_role`. */
    method SendCreate(roleName: string, comment: string, privs: seq<PrivEntry>) returns (r: Result<(Json, bool)>)
      modifies raw.http
      ensures (r, raw.http.history) == Create(old(raw.http.history), roleName, comment, privs)
    {
      var objs := BuildObjPrivList(raw.lib, privs);
      if objs.Err? {
        return Err(objs.error);
      }
      assert Applied([]) == NoCallOptions;
      var response := raw.Invoke(CreateRole, Some(CreatePayload(roleName, comment, objs.value)), []);
      if response.Err? {
        return Err(response.error);
      }
      r := Ok((if response.value.JObj? then Get(response.value.fields, "id") else JNull, true));
    }

    /** `create_table_role`: the id of an existing role of that name and `false`,
        or the id the service gives the new role and `true`. */
    method CreateTableRole(roleName: string, comment: string, privs: seq<PrivEntry>) returns (r: Result<(Json, bool)>)
      modifies raw.http
      ensures (r, raw.http.history) == CreateOutcome(old(raw.http.history), roleName, comment, privs)
    {
      if roleName == "" {
        return Err(InvalidArgument(RoleNameRequired));
      }
      var existing := FindRoleByName(roleName);
      if existing.Err? {
        return Err(existing.error);
      }
      // A role found by name has a `name` entry, so it is a truthy dict.
      if existing.value.Some? {
        return Ok((Get(existing.value.value, "id"), false));
      }
      r := SendCreate(roleName, comment, privs);
    }

    /** The `get_role` request `update_table_role` sends to fill in what the
        caller left out. */
    function RoleInfoRequest(roleId: int): HttpRequest
    {
      raw.JsonRequest("POST", Path(GetRole), JObj(map["id" := JNum(roleId)]), NoCallOptions)
    }

    function UpdateRequest(roleId: int, description: Json, codes: seq<Json>, objs: seq<Json>): HttpRequest
    {
      raw.JsonRequest("POST", Path(UpdateRoleInfo), JObj(UpdatePayload(roleId, description, codes, objs)), NoCallOptions)
    }

    /** The last step of `update_table_role` after the requests `h`: the
        privilege list, then the update. */
    function Finish(h: seq<HttpRequest>, roleId: int, description: Json, codes: seq<Json>, privs: seq<PrivEntry>)
      : (r: (Result<Json>, seq<HttpRequest>))
      ensures ObjPrivList(raw.lib, privs).Err? ==> r == (Err(ShapeError), h)
      ensures ObjPrivList(raw.lib, privs).Ok? ==>
        var req := UpdateRequest(roleId, description, codes, ObjPrivList(raw.lib, privs).value);
        r == (Unwrap(raw.http.serve(h, req)), h + [req])
    {
      match ObjPrivList(raw.lib, privs)
      case Err(e) => (Err(e), h)
      case Ok(objs) =>
        var req := UpdateRequest(roleId, description, codes, objs);
        (Unwrap(raw.http.serve(h, req)), h + [req])
    }

    /** `update_table_role` after the requests `h`: its result and the requests
        sent by then. The stored role is read first exactly when the comment or
        the global privileges are left out. */
    function UpdateOutcome(h: seq<HttpRequest>, roleId: int, comment: string, privs: seq<PrivEntry>,
                           globalPrivs: Option<seq<string>>): (r: (Result<Json>, seq<HttpRequest>))
      ensures roleId == 0 ==> r == (Err(InvalidArgument(RoleIdRequired)), h)
      ensures roleId != 0 && (comment == "" || globalPrivs.None?) ==>
        var req := RoleInfoRequest(roleId);
        && |h| + 1 <= |r.1| <= |h| + 2 && r.1[..|h| + 1] == h + [req]
        && r == Fetched(h + [req], roleId, comment, privs, globalPrivs, Unwrap(raw.http.serve(h, req)))
      ensures roleId != 0 && comment != "" && globalPrivs.Some? ==>
        r == Finish(h, roleId, JStr(comment), StrValues(globalPrivs.value), privs)
    {
      if roleId == 0 then (Err(InvalidArgument(RoleIdRequired)), h)
      else if comment != "" && globalPrivs.Some? then
        Finish(h, roleId, JStr(comment), StrValues(globalPrivs.value), privs)
      else
        var req := RoleInfoRequest(roleId);
        Fetched(h + [req], roleId, comment, privs, globalPrivs, Unwrap(raw.http.serve(h, req)))
    }

    /** The rest of `update_table_role` once `get_role` has answered, after the
        requests `h`. */
    function Fetched(h: seq<HttpRequest>, roleId: int, comment: string, privs: seq<PrivEntry>,
                     globalPrivs: Option<seq<string>>, answer: Result<Json>): (r: (Result<Json>, seq<HttpRequest>))
      ensures |h| <= |r.1| <= |h| + 1 && r.1[..|h|] == h
      ensures answer.Err? ==> r == (Err(answer.error), h)
      ensures answer.Ok? && !Truthy(answer.value) ==> r == (Err(NilRequest(MissingRole(roleId))), h)
      ensures answer.Ok? && Truthy(answer.value) && !answer.value.JObj? ==> r == (Err(ShapeError), h)
      ensures answer.Ok? && Truthy(answer.value) && answer.value.JObj? ==>
        var stored := answer.value.fields;
        var storedDescription := GetOr(stored, "description", JStr(""));
        var items := Iterate(raw.lib, GetOr(stored, "authority_list", JArr([])));
        var held := if items.Some? then HeldCodes(items.value) else Err(ShapeError);
        // both given: nothing is taken from the stored role
        && (comment != "" && globalPrivs.Some? ==>
              r == Finish(h, roleId, JStr(comment), StrValues(globalPrivs.value), privs))
        // comment given: the stored codes are kept
        && (comment != "" && globalPrivs.None? && held.Ok? ==>
              r == Finish(h, roleId, JStr(comment), held.value, privs))
        // global privileges given: the stored description is kept
        && (comment == "" && globalPrivs.Some? ==>
              r == Finish(h, roleId, storedDescription, StrValues(globalPrivs.value), privs))
        // neither given: both are kept
        && (comment == "" && globalPrivs.None? && held.Ok? ==>
              r == Finish(h, roleId, storedDescription, held.value, privs))
        // stored authorities that cannot be read
        && (globalPrivs.None? && held.Err? ==> r == (Err(ShapeError), h))
    {
      match answer
      case Err(e) => (Err(e), h)
      case Ok(resp) =>
        if !Truthy(resp) then (Err(NilRequest(MissingRole(roleId))), h)
        else if !resp.JObj? then (Err(ShapeError), h)
        else
          var description :=
            if comment == "" then GetOr(resp.fields, "description", JStr("")) else JStr(comment);
          if globalPrivs.Some? then
            Finish(h, roleId, description, StrValues(globalPrivs.value), privs)
          else
            match Iterate(raw.lib, GetOr(resp.fields, "authority_list", JArr([])))
            case None => (Err(ShapeError), h)
            case Some(items) =>
              match HeldCodes(items)
              case Err(e) => (Err(e), h)
              case Ok(codes) => Finish(h, roleId, description, codes, privs)
    }

    /** The `update_role_info` step of `update_table_role`. */
    method SendUpdate(roleId: int, description: Json, codes: seq<Json>, privs: seq<PrivEntry>) returns (r: Result<Json>)
      modifies raw.http
      ensures (r, raw.http.history) == Finish(old(raw.http.history), roleId, description, codes, privs)
    {
      var objs := BuildObjPrivList(raw.lib, privs);
      if objs.Err? {
        return Err(objs.error);
      }
      assert Applied([]) == NoCallOptions;
      r := raw.Invoke(UpdateRoleInfo, Some(UpdatePayload(roleId, description, codes, objs.value)), []);
    }

    /** What `update_table_role` does with the stored role `get_role` answered. */
    method UseStored(roleId: int, comment: string, privs: seq<PrivEntry>, globalPrivs: Option<seq<string>>,
                     answer: Result<Json>) returns (r: Result<Json>)
      modifies raw.http
      ensures (r, raw.http.history) == Fetched(old(raw.http.history), roleId, comment, privs, globalPrivs, answer)
    {
      if answer.Err? {
        return Err(answer.error);
      }
      if !Truthy(answer.value) {
        return Err(NilRequest(MissingRole(roleId)));
      }
      if !answer.value.JObj? {
        return Err(ShapeError);
      }
      var stored := answer.value.fields;
      var description := JStr(comment);
      if comment == "" {
        description := GetOr(stored, "description", JStr(""));
      }
      var codes: seq<Json>;
      if globalPrivs.Some? {
        codes := StrValues(globalPrivs.value);
      } else {
        var items := Iterate(raw.lib, GetOr(stored, "authority_list", JArr([])));
        if items.None? {
          return Err(ShapeError);
        }
        var held := HeldCodes(items.value);
        if held.Err? {
          return Err(held.error);
        }
        codes := held.value;
      }
      r := SendUpdate(roleId, description, codes, privs);
    }

    /** `update_table_role`. */
    method UpdateTableRole(roleId: int, comment: string, privs: seq<PrivEntry>, globalPrivs: Option<seq<string>>)
      returns (r: Result<Json>)
      modifies raw.http
      ensures (r, raw.http.history) == UpdateOutcome(old(raw.http.history), roleId, comment, privs, globalPrivs)
    {
      if roleId == 0 {
        return Err(InvalidArgument(RoleIdRequired));
      }
      if comment != "" && globalPrivs.Some? {
        r := SendUpdate(roleId, JStr(comment), StrValues(globalPrivs.value), privs);
        return;
      }
      assert Applied([]) == NoCallOptions;
      var answer := raw.Invoke(GetRole, Some(map["id" := JNum(roleId)]), []);
      r := UseStored(roleId, comment, privs, globalPrivs, answer);
    }

    /** `import_local_file_to_table`. */
    method ImportLocalFileToTable(tableConfig: map<string, Json>) returns (r: Result<Json>)
      modifies raw.http
      ensures PrepareImport(tableConfig).Err? ==>
        r == Err(PrepareImport(tableConfig).error) && raw.http.history == old(raw.http.history)
      ensures PrepareImport(tableConfig).Ok? ==>
        var plan := ConnectorPlan(raw.lib, PrepareImport(tableConfig).value);
        && plan.Ok?
        && var req := raw.MultipartRequest("/connectors/upload", plan.value.0, plan.value.1, NoCallOptions);
           raw.http.history == old(raw.http.history) + [req] && r == Unwrap(raw.http.serve(old(raw.http.history), req))
    {
      var upload := PrepareImport(tableConfig);
      if upload.Err? {
        return Err(upload.error);
      }
      ImportUploadsTableConfig(raw.lib, tableConfig);
      assert Applied([]) == NoCallOptions;
      r := raw.UploadConnectorFile(upload.value, []);
    }

    /** `run_sql`: a blank statement is refused before anything is sent. */
    method RunSql(statement: string, opts: seq<Option<CallOpt>>) returns (r: Result<Json>)
      modifies raw.http
      ensures SqlRequest(statement).Err? ==>
        r == Err(InvalidArgument(StatementRequired)) && raw.http.history == old(raw.http.history)
      ensures SqlRequest(statement).Ok? ==>
        var req := raw.JsonRequest("POST", Path(RunNl2sql), JObj(SqlRequest(statement).value), Applied(opts));
        raw.http.history == old(raw.http.history) + [req] && r == Unwrap(raw.http.serve(old(raw.http.history), req))
    {
      var payload := SqlRequest(statement);
      if payload.Err? {
        return Err(payload.error);
      }
      r := raw.Invoke(RunNl2sql, Some(payload.value), opts);
    }
  }
}
