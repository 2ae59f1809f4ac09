# moi-python-sdk in Dafny

A model of the two core classes of the MatrixOrigin MOI Python SDK:

- `RawClient` (moi/client.py). It is constructed from a base URL, an API key and client options. It assembles URLs (`_build_url`) and headers (`_build_headers`). It sends JSON and multipart requests over an HTTP session, and decodes the service's `{code, msg, request_id, data}` envelope (`_parse_response`). Every endpoint method checks its arguments before anything is sent.
- `SDKClient` (moi/sdk_client.py). It builds role, import and SQL helpers on a `RawClient`:
  - a paged search for a role by name;
  - creating a table role, or reusing an existing one;
  - updating a role while keeping its stored comment and global privileges;
  - importing an uploaded file into a table;
  - running a SQL statement.

The HTTP session is `Http.Transport`. It is a class that records every request it is given in `history`. It answers with `serve(history, request)`, a function fixed at construction, so an answer may depend on everything sent before. Every method that talks to the service has `modifies http`. It states the new history and what it returned:

- The `RawClient` methods ensure `http.history == old(http.history) + [req]` for the exact request `req`, or no new request when a guard refuses the call first.
- The `SDKClient` helpers each have an outcome function of the prior history. It gives the result and the history after the call. The method ensures `(r, raw.http.history) == Outcome(old(raw.http.history), ...)`.

The properties of those functions are proved as lemmas. Among them: the role search sends the `list_roles` queries for pages 1, 2, ... in order, at most 1000 of them; a role it returns has exactly the requested name; an existing role is never created again; a table privilege always has the same four-key shape; a `None` privilege entry changes nothing.

Python's failures are values: each operation returns `Errors.Result`. `Err` names the exception the source raises:

- `ValueError` on an argument is `InvalidArgument(reason)`;
- `ErrNilRequest` is `NilRequest`;
- `HTTPError` and `APIError` are `HttpError` and `ApiError`;
- a `TypeError`, `AttributeError` or `KeyError` on a malformed value is `ShapeError`.

Decoded JSON is `Py.Json`; Python truthiness, `dict.get`, `or`, `str()` and iteration are spelled out in module `Py`.

## Model

| member | source | states |
|---|---|---|
| Py.Iterate | moi/sdk_client.py:204-207 | `for x in v`: a list's items; for a string, character `i` as the one-character string `i`; for a dict, its keys in the library's order (exactly the dict's keys when the library lists them); no value (TypeError) exactly for `None`, booleans and numbers |
| Text.Strip | moi/client.py:33-39 | `str.strip()`: a slice of the string with only whitespace before and after it; empty exactly when the string is all whitespace; otherwise neither end is whitespace |
| Text.RStripChar | moi/client.py:47 | `path.rstrip('/')`: the longest prefix not ending in `/`, all dropped characters being `/` |
| Urls.UrlParse | moi/client.py:42 | `urlparse` with the leading-control stripping but without the bracketed-host check (see Left out): raises (no value) exactly when the network location holds one of `[` and `]` but not the other; otherwise the scheme and network location are those split off the cleaned input, the scheme has only scheme characters, the netloc has no `/`, `?` or `#`, the path has no `?` or `#`, and there is no query or fragment without its separator |
| Urls.Normalize | moi/client.py:46-47 | the normalised base URL is `scheme://netloc` plus the path without trailing slashes; it has no query or fragment and does not end in `/` |
| Urls.Configure | moi/client.py:33-47 | the construction checks in order, each an iff: blank base URL, then blank key, then no scheme or no host; it succeeds exactly when the base URL and key are not blank and the stripped URL parses with a scheme and a host; on success the key is the stripped key and the base URL is `scheme://netloc` of the parsed stripped URL plus its path without trailing slashes, in normal form |
| Query.Strs | moi/client.py:80-81 | each list item becomes `str(item)`, in order |
| Query.QueryCarriesRequested | moi/client.py:75-89 | for every key, the values the encoded query carries are exactly those the caller asked for under that key, in order |
| Query.NoneIsDropped | moi/client.py:78-79 | a parameter whose value is `None` contributes nothing to the query |
| Query.ListIsRepeated | moi/client.py:80-81 | a list parameter is repeated once per item (`doseq=True`), each as `str(item)` |
| Query.EntryRendered | moi/client.py:82-83 | a scalar parameter contributes exactly one value, `str(value)` |
| Query.RequestedOfKey | moi/client.py:77-83 | with distinct keys, what a key asks for is the rendering of its own value |
| Query.RequestedAbsent | moi/client.py:77-83 | a key the caller did not use asks for nothing |
| Query.ValuesOfAppend | moi/client.py:87 | the values of a key over two pair lists are those of each, in order |
| Query.ValuesOfExpand | moi/client.py:87 | the values one expanded parameter contributes to a key |
| Query.EncodeEmptyIff | moi/client.py:87-89 | the query string is empty exactly when no pair survives, so `?` is appended exactly then |
| Envelope.Unwrap | moi/client.py:113-139 | a non-2xx status, or a body that is not JSON, is an `HTTPError` with the status and body; a failing envelope code (truthy, not `OK`) is an `APIError` carrying code, message, request id and status; otherwise the envelope's data |
| Envelope.Decode | moi/client.py:141-150 | with a response type: `None` and `"null"` give `None`; a dict is built; a list has its dict items built and its other items kept; anything else is returned as is |
| Envelope.DecodeItems | moi/client.py:147-148 | one entry per list item, built exactly when the item is a dict |
| Envelope.ParseResponse | moi/client.py:113-150 | fails exactly when `Unwrap` fails, with its error; without a response type the data is returned as is, otherwise decoded |
| Envelope.HttpStatusDominates | moi/client.py:116-118 | a non-2xx status is an `HTTPError` whatever the body says |
| Http.Transport.Request | moi/client.py:223-229 | the session appends the request to its history and answers with `serve(old history, request)` |
| Client.ApplyCallOptions | moi/client.py:205-208 | the option loop gives `Applied(opts)`: every option in order, `None` skipped |
| Client.Normalized | moi/client.py:243-258 | `_normalize_file_items`: all items fault-free gives one `(field, (filename, fileobj))` per item, in order; otherwise the error names the first faulty index, with the fault checks in source order |
| Client.RawClient.NormalizeFileItems | moi/client.py:243-258 | the loop computes `Normalized` |
| Client.UploadPlan | moi/client.py:646-652 | no file item, then no meta, then item faults; the only form field is `meta` as JSON |
| Client.LeadingFields | moi/client.py:717-723 | `VolumeID` always; `meta`, `file_types`, `path_regex` present exactly when their arguments are truthy, with their JSON/text values |
| Client.OwnFields | moi/client.py:717-729 | as above, plus `unzip_keep_structure`, `dedup` and `table_config`, each present exactly when its argument is truthy; no other key |
| Client.ConnectorFields | moi/client.py:717-731 | `extra_fields` override the argument fields; every other key keeps its argument field; `VolumeID` is always present |
| Client.ConnectorPlan | moi/client.py:708-739 | empty volume id, then neither files nor table config, then item faults (an iff); on success the files and `ConnectorFields` |
| Client.GenaiFields | moi/client.py:875-878 | `payload` is the request as JSON; `file_names` is present exactly when the request has a truthy one |
| Client.MultipartOptionsAsWritten | moi/client.py:653-658 | as written, the multipart call binds positional options to `files` as well: it succeeds exactly when there are no options |
| Client.NoneOptionBreaksUploadsAsWritten | moi/client.py:653-658 | a single `None` option breaks the upload as written, though every other method skips `None` (`Applied([None]) == Applied([])`) |
| Client.RawClient.ApplyClientOptions | moi/client.py:50-53 | the client option loop applies every option in order, `None` skipped |
| Client.RawClient.Connect | moi/client.py:24-66 | fails exactly when `Configure` fails, with its error; otherwise a fresh valid client with the normalised URL, the stripped key, the configured User-Agent, headers and timeout, and the configured session or else a new one |
| Client.RawClient.Rooted | moi/client.py:70-71 | the path gets a leading `/` exactly when it lacks one, and is otherwise unchanged |
| Client.RawClient.UrlFor | moi/client.py:68-91 | the URL is `urljoin(base, rooted path)`, then `?` and the encoded query exactly when some pair survives |
| Client.RawClient.BuildUrl | moi/client.py:68-91 | the loop computes `UrlFor` |
| Client.RawClient.HeadersFor | moi/client.py:107-109 | a JSON call always carries `Content-Type` and `Accept: application/json` |
| Client.RawClient.HeadersForPrecedence | moi/client.py:93-111 | the headers hold exactly the keys some layer sets, each valued by the highest layer (`HeaderWinner`); the API key is always sent; defaults are never dropped; the call's headers win except over a JSON call's Content-Type and Accept |
| Client.RawClient.BuildHeaders | moi/client.py:93-111 | the statements compute `HeadersFor` |
| Client.RawClient.JsonRequest | moi/client.py:210-229 | the given verb to `UrlFor` of the path and query, with the layered headers of a JSON call (`Content-Type` and `Accept` are `application/json`); no body exactly when the payload is `None`; not streamed |
| Client.RawClient.MultipartRequest | moi/client.py:300-319 | a POST of the form to `UrlFor` of the path and query, not streamed; no `Content-Type`, and otherwise exactly the header keys some layer sets, each with the value of the layer that wins |
| Client.RawClient.DoJson | moi/client.py:192-231 | one request is sent, the JSON request for the applied options; the result is `ParseResponse` of its answer |
| Client.RawClient.PostJson | moi/client.py:152-171 | `_do_json` with POST |
| Client.RawClient.GetJson | moi/client.py:173-190 | `_do_json` with GET and no body |
| Client.RawClient.RequestJson | moi/client.py:260-268 | one request; the result is the envelope's data or its error |
| Client.RawClient.PostMultipart | moi/client.py:270-321 | one multipart request; the result is the envelope's data or its error |
| Client.RawClient.GetRaw | moi/client.py:323-362 | one GET; the response itself when 2xx, otherwise an `HTTPError` |
| Client.RawClient.Invoke | moi/client.py:368-984 | every endpoint method with a payload: `None` is refused and nothing is sent; otherwise exactly one JSON POST to the endpoint's path |
| Client.RawClient.InvokeFixed | moi/client.py:392-398 | the endpoint methods without payload: one POST with their fixed body |
| Client.RawClient.UploadLocalFiles | moi/client.py:633-658 | refused uploads send nothing; otherwise one multipart POST to `/connectors/file/upload` carrying the call options |
| Client.RawClient.UploadLocalFile | moi/client.py:660-668 | the same for the single pair `(fileobj, filename)` |
| Client.RawClient.UploadConnectorFile | moi/client.py:689-739 | refused uploads send nothing; otherwise one multipart POST to `/connectors/upload` with `ConnectorPlan`'s files and fields |
| Client.RawClient.CreateGenaiPipeline | moi/client.py:866-884 | with files: `None` refused, item faults refused, else one multipart POST of `GenaiFields` under `files`; without: `None` refused, else one JSON POST |
| Client.RawClient.GetGenaiJob | moi/client.py:886-890 | an empty id is refused and nothing is sent; otherwise one GET of `/v1/genai/jobs/<id>` |
| Client.RawClient.DownloadGenaiResult | moi/client.py:892-918 | an empty id is refused; otherwise one streamed GET whose response is returned when 2xx, else an `HTTPError` |
| Client.RawClient.HealthCheck | moi/client.py:963-974 | one GET of `/healthz`; a non-2xx status is an `HTTPError`; the body is returned as decoded JSON without an envelope |
| Sdk.CodeGrants | moi/sdk_client.py:207 | one `{code, rule_list: None}` grant per privilege code, in order |
| Sdk.NormalizeTablePriv | moi/sdk_client.py:183-216 | `None` skipped; an entry that is neither dataclass nor dict refused; skipped exactly when the table id is falsy or neither an authority list nor privilege codes is truthy; refused when the codes cannot be iterated; otherwise the four-key table privilege with the entry's authority list, or else one grant per code |
| Sdk.InfoGrantsItsCodes | moi/sdk_client.py:197-216 | a `TablePrivInfo` with table id 0 or no codes is skipped; otherwise it grants its codes in order, under `str(table_id)` |
| Sdk.ObjPrivList | moi/sdk_client.py:172-181 | succeeds exactly when every entry normalises; never longer than the entries |
| Sdk.ObjPrivListOne | moi/sdk_client.py:176-181 | one entry gives the list of its normalised record, the empty list when it is skipped, and `ShapeError` when it is refused; with `ObjPrivListAppend` this makes the list the kept records in entry order |
| Sdk.ObjPrivListAppend | moi/sdk_client.py:172-181 | the list of a concatenation is the two lists one after the other |
| Sdk.SkippedEntryIsDropped | moi/sdk_client.py:178-181 | an entry that normalises to nothing (`None`, a falsy table id, no privileges) leaves the list, wherever it stands, as it would be without it |
| Sdk.BuildObjPrivList | moi/sdk_client.py:172-181 | the loop computes `ObjPrivList` |
| Sdk.FirstMatch | moi/sdk_client.py:160-162 | the first role named exactly `name`, unless a non-dict role comes first: a match is the first named role after dicts only, and any such first named role is the match; no match exactly when every role is a dict with another name |
| Sdk.ScanRoles | moi/sdk_client.py:160-162 | the loop computes `FirstMatch` |
| Sdk.PageStep | moi/sdk_client.py:153-168 | the first role of the page named `name` (after dicts only) is found, and a found role is that one; the search stops empty-handed exactly when no role has the name and the page is short or reaches the reported total; it goes on exactly after a full page without a match below the total (or with no total); failures are type errors; a page that is not a dict ends the search |
| Sdk.DecidePage | moi/sdk_client.py:153-168 | the statements compute `PageStep` |
| Sdk.Answer | moi/sdk_client.py:153-168 | a failed request fails the search with its error; a role it picks has the name; an answer that was a valid envelope fails only by a type error |
| Sdk.AnswerReadsPage | moi/sdk_client.py:153-168 | a role the answer picks is the first of that name on the page; it stops exactly on a page without the name that is the last page, and goes on only past a page without the name that is not the last |
| Sdk.Ended | moi/sdk_client.py:160-170 | a matching page returns its role, a page that ends the search returns `None`, a failure its error |
| Sdk.Requests | moi/sdk_client.py:136-153 | `n` consecutive page requests |
| Sdk.SearchFindsOnly | moi/sdk_client.py:160-162 | the search returns only a role with exactly the requested name |
| Sdk.SearchRequests | moi/sdk_client.py:132-168 | the search from a page sends at least one and at most the remaining page requests, for consecutive pages, appended to the history |
| Sdk.SearchTrace | moi/sdk_client.py:132-170 | every page before the last one read said go on; the last ended the search with its result, or was page 1000 and gave `None` |
| Sdk.SearchReadsPages | moi/sdk_client.py:132-170 | for any transport, when each page decides what its answer holds, the search from page 1 answers what the pages it read hold (`AnswersPages`): earlier pages full, below the total and without the name; a returned role first of that name on the last page; `None` only after a last page without the name |
| Sdk.HeldCodes | moi/sdk_client.py:80-81 | succeeds exactly when every stored authority is a dict; one authority gives its code when truthy and nothing otherwise |
| Sdk.HeldCodesAppend | moi/sdk_client.py:80-81 | the codes held by two runs of authorities are those of the first then those of the second, so with the one-authority case the result is exactly the truthy codes in order |
| Sdk.HeldCodesKeepsEveryCode | moi/sdk_client.py:81 | when every authority has a truthy code, all of them are kept, in order |
| Sdk.PrepareImport | moi/sdk_client.py:92-115 | empty config, then no file ids, then no table id for an existing table, are refused; past those checks it succeeds exactly when `conn_file_ids[0]` exists (a non-empty list or string) and otherwise fails with `ShapeError`; on success the volume is `123456`; the config is kept with `existed_table` defaulted to `[]` exactly for an existing table without one; the one meta entry is `{filename, path: "/"}` with the first connector file id as its file name |
| Sdk.FirstItem | moi/sdk_client.py:107 | `ids[0]` for a non-empty list or string; nothing (an error) otherwise |
| Sdk.ImportUploadsTableConfig | moi/sdk_client.py:107-115 | the import upload carries no file and exactly the fields `VolumeID`, `meta`, `table_config` |
| Sdk.SqlRequest | moi/sdk_client.py:117-124 | refused exactly when the statement is empty or whitespace; otherwise exactly `{operation: run_sql, statement}` |
| Sdk.SDKClient.FromRaw | moi/sdk_client.py:26-29 | a missing raw client is refused; otherwise a fresh client over it |
| Sdk.SDKClient.ScanFrom | moi/sdk_client.py:131-170 | a role the search returns has the requested name (soundness; completeness is `SearchIsComplete`) |
| Sdk.SDKClient.SearchIsBounded | moi/sdk_client.py:132-136 | the whole search sends at least one and at most 1000 requests, the `list_roles` queries for pages 1, 2, ... in order, the first for page 1 (`PagesSent`) |
| Sdk.SDKClient.SearchIsComplete | moi/sdk_client.py:131-170 | every page read before the last was full, below the total and without the name; a returned role is the first of that name on the last page read; a `None` result means the last page held none and was the last page (or page 1000) |
| Sdk.SDKClient.SearchPage | moi/sdk_client.py:137-153 | one `list_roles` query for the page is sent, and its answer decides the step |
| Sdk.SDKClient.FindRoleByName | moi/sdk_client.py:131-170 | result and new history are those of `ScanFrom` from page 1 |
| Sdk.SDKClient.CreateOutcome | moi/sdk_client.py:35-57 | an empty name is refused before anything is sent; an existing role is reported with `false` after only the search; a role is created exactly when the search found nothing: then the result and history are `Create`'s after the search; a search error is passed on with the search's requests |
| Sdk.SDKClient.Create | moi/sdk_client.py:49-57 | a refused privilege list sends nothing; otherwise exactly one `create_role` request; the result is the answer's error, or its `id` (or `None` when the answer is not a dict) with `true` |
| Sdk.SDKClient.ExistingRoleIsReused | moi/sdk_client.py:45-47 | when the search finds the role, its id is returned with `false` and only `list_roles` queries were sent |
| Sdk.SDKClient.SendCreate | moi/sdk_client.py:49-57 | new history and result are those of `Create` |
| Sdk.SDKClient.CreateTableRole | moi/sdk_client.py:35-57 | new history and result are those of `CreateOutcome` |
| Sdk.SDKClient.Finish | moi/sdk_client.py:83-90 | a refused privilege list sends nothing; otherwise exactly one `update_role_info` request, whose unwrapped answer is the result |
| Sdk.SDKClient.UpdateOutcome | moi/sdk_client.py:59-90 | id 0 is refused before anything is sent; the stored role is read first exactly when the comment or the global privileges are left out, and what follows is `Fetched` on its answer; otherwise the update is sent directly with the comment and the given privileges |
| Sdk.SDKClient.Fetched | moi/sdk_client.py:73-90 | a failed read passes its error on; a falsy stored role is `ErrNilRequest` and nothing more is sent; for a stored dict, the update carries the given comment or else the stored description, and the given global privileges or else the stored truthy codes, in each of the four combinations; unreadable stored authorities are a type error |
| Sdk.SDKClient.SendUpdate | moi/sdk_client.py:83-90 | new history and result are those of `Finish` |
| Sdk.SDKClient.UseStored | moi/sdk_client.py:74-90 | new history and result are those of `Fetched` |
| Sdk.SDKClient.UpdateTableRole | moi/sdk_client.py:59-90 | new history and result are those of `UpdateOutcome` |
| Sdk.SDKClient.ImportLocalFileToTable | moi/sdk_client.py:92-115 | a refused config sends nothing; otherwise one multipart upload to `/connectors/upload` of the prepared config |
| Sdk.SDKClient.RunSql | moi/sdk_client.py:117-125 | a blank statement is refused and nothing is sent; otherwise one JSON POST to `/nl2sql/run_sql` with the call options |

## Left out

- The HTTP session: the `requests` library, sockets, retries and timeouts are not modelled. The service's answers are the function `serve(history, request)`, and the timeout is only passed along.
- Library routines are parameters (`Py.PyLib`), not models: `quote_plus` escaping inside `urlencode`, `urljoin`, `json.dumps`, the `repr` of lists and dicts under `str()`, and the key order of a dict (a Dafny `map` keeps no order).
- `resp_type(**data)` is a function parameter; an exception raised by that constructor is not modelled.
- Numbers in decoded JSON are integers. Floats, and `str()` of a float, are not modelled.
- `urlparse`: port validation, the NFKC check of the network location, and the lower-casing of `hostname` are not modelled. The model checks that a host is present, not how it is spelled.
- Urls.UrlParse, Urls.Configure: these follow an `urlsplit` that strips leading control characters and spaces, takes a scheme only when it starts with a letter, and raises for brackets only when they are unbalanced. That is the behaviour of the Python 3.9 security releases from 3.9.17 and the 3.10 ones from 3.10.12, before they took the bracketed-host check. Python 3.9.0 to 3.9.16, 3.10.0 to 3.10.11 and 3.11.0 to 3.11.3 keep leading control characters other than whitespace. Python 3.11.4 and later, 3.12, and the later 3.9 and 3.10 security releases also reject a bracketed host that is not an IPv6 or IPvFuture address, and text before `[` or between `]` and the port (`http://[x]`, `http://a[::1]`). On those versions `RawClient` raises for such a base URL, while the model accepts it.
- Urls.UrlParse: the contract states when parsing raises and what the scheme and network location are; how the rest is divided into path, `;params`, query and fragment is computed but not stated beyond the separators each part excludes.
- Iterables given as generators, sets or tuples are modelled as sequences. A generator passed as `meta` is always truthy in Python; here `meta` is a sequence, empty exactly when falsy.
- moi/options.py, moi/response.py and moi/errors.py are not part of this model. `APIEnvelope.from_dict` is taken to read `code`, `msg` and `request_id` (default empty) and `data` (default `None`) with `dict.get`; a body that is not a dict is a `ShapeError`.
- moi/stream.py is not part of this model: `Client.RawClient.DownloadGenaiResult` returns the response that `FileStream` would wrap, and closing it on error is not modelled.
- `upload_local_file_from_path` opens a file on disk; the file system is not modelled.
- moi/models.py (typed request and response records) is not part of this model.
- `copy.deepcopy` in `import_local_file_to_table`: values are immutable here, so the caller's config is unchanged by construction.
- The `if self is None` guards of `_do_json` and `post_multipart` cannot fire on a bound method and are left out.
- `post_multipart`'s `self._prepare_body(fields) or {}`: every caller passes a dict of fields, so the `or {}` branch only matters for an empty dict. That sends the same empty form.
- Client.RawClient.UploadConnectorFile: the source declares both a bare `*` and `*opts` in its parameter list, which Python's grammar does not accept. The model reads it as keyword-only arguments followed by the call options.
- Client.RawClient.UploadLocalFiles, Client.RawClient.UploadConnectorFile, Client.RawClient.CreateGenaiPipeline: these model the evidently intended binding, where the call options reach `post_multipart`. The behaviour as written is under Findings.

## Findings

| source | as written | input that shows it | evidently intended | confidence | as-written member | corrected member |
|---|---|---|---|---|---|---|
| moi/client.py:653-658 | `self.post_multipart("/connectors/file/upload", files=..., fields=..., *opts)`: Python binds the unpacked options positionally, so the first lands on `files`, which the keyword also sets, and the call raises `TypeError`. The same pattern is at 734-739 and 880. | `upload_local_files([(f, "a.csv")], [{}], None)`: even a `None` option, which every other method skips | the call options are applied to the multipart request | high, not executed | Client.MultipartOptionsAsWritten | Client.RawClient.UploadLocalFiles |
