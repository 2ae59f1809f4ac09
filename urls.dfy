/** Base URL parsing and the checks `RawClient.__init__` runs before a client exists
    (moi/client.py:33-47). `urlparse` is modelled after CPython's `urllib.parse`. */
module Urls {
  import opened Py
  import opened Errors
  import opened Text

  /** The six components `urlparse` returns. */
  datatype ParsedUrl = ParsedUrl(
    scheme: string, netloc: string, path: string,
    params: string, query: string, fragment: string)

  /** The client's identity: normalised base URL and trimmed API key. */
  datatype Identity = Identity(baseUrl: string, apiKey: string)

  predicate IsAsciiAlpha(c: char) {
    'a' <= c <= 'z' || 'A' <= c <= 'Z'
  }

  predicate IsSchemeChar(c: char) {
    IsAsciiAlpha(c) || '0' <= c <= '9' || c == '+' || c == '-' || c == '.'
  }

  /** The schemes whose path may carry `;params` (`urllib.parse.uses_params`). */
  const UsesParams: set<string> :=
    {"", "ftp", "hdl", "prospero", "http", "imap", "https", "shttp", "rtsp",
     "rtsps", "rtspu", "sip", "sips", "mms", "sftp", "tel"}

  /** `url.lstrip()` of the C0 controls and space, as `urlsplit` does first. */
  function StripLeadingControls(s: string): string {
    if s != [] && s[0] <= ' ' then StripLeadingControls(s[1..]) else s
  }

  /** Every tab, CR and LF removed, as `urlsplit` does next. */
  function RemoveUnsafe(s: string): (r: string)
    ensures '\t' !in r && '\r' !in r && '\n' !in r
    ensures forall i :: 0 <= i < |r| ==> r[i] in s
  {
    if s == [] then []
    else if s[0] == '\t' || s[0] == '\r' || s[0] == '\n' then RemoveUnsafe(s[1..])
    else [s[0]] + RemoveUnsafe(s[1..])
  }

  /** `scheme:rest` when everything before the first `:` is a scheme starting
      with a letter; the scheme comes back lower-cased. */
  function SplitScheme(url: string): (r: (string, string))
    ensures forall k :: 0 <= k < |r.0| ==> IsSchemeChar(r.0[k])
    ensures r.0 != [] ==> IsAsciiAlpha(r.0[0])
    ensures forall c :: c in r.1 ==> c in url
  {
    var i := IndexOf(url, ':');
    if 0 < i < |url| && IsAsciiAlpha(url[0]) && forall k :: 0 <= k < i ==> IsSchemeChar(url[k]) then
      (AsciiLower(url[..i]), url[i + 1..])
    else
      ("", url)
  }

  /** After `//`, the network location runs up to the first `/`, `?` or `#`. */
  function SplitNetloc(rest: string): (r: (string, string))
    requires |rest| >= 2
    ensures '/' !in r.0 && '?' !in r.0 && '#' !in r.0
    ensures r.1 == [] || r.1[0] in {'/', '?', '#'}
  {
    var d := 2 + IndexOfAny(rest[2..], {'/', '?', '#'});
    (rest[2..d], rest[d..])
  }

  /** `s.split(c, 1)` when `c` occurs, `(s, "")` otherwise. */
  function SplitOnce(s: string, c: char): (r: (string, string))
    ensures c !in r.0
    ensures forall x :: x in r.0 ==> x in s
    ensures c in s ==> s == r.0 + [c] + r.1
    ensures c !in s ==> r == (s, "")
  {
    var i := IndexOf(s, c);
    if i < |s| then (s[..i], s[i + 1..]) else (s, "")
  }

  /** `_splitparams`: the `;params` of the last path segment. */
  function SplitParams(url: string): (r: (string, string))
    requires ';' in url
    ensures forall x :: x in r.0 ==> x in url
  {
    if '/' in url then
      var j := LastIndexOf(url, '/');
      var i := j + IndexOf(url[j..], ';');
      if i == |url| then (url, "") else (url[..i], url[i + 1..])
    else
      var i := IndexOf(url, ';');
      (url[..i], url[i + 1..])
  }

  /** The scheme, the network location and what follows them in `url`, once
      leading controls and tabs and newlines are gone: the network location is
      present only after `//`. */
  function Location(url: string): (r: (string, string, string))
    ensures forall k :: 0 <= k < |r.0| ==> IsSchemeChar(r.0[k])
    ensures '/' !in r.1 && '?' !in r.1 && '#' !in r.1
  {
    var clean := RemoveUnsafe(StripLeadingControls(url));
    var (scheme, rest) := SplitScheme(clean);
    var (netloc, rest2) :=
      if |rest| >= 2 && rest[..2] == "//" then SplitNetloc(rest) else ("", rest);
    (scheme, netloc, rest2)
  }

  /** `urlparse(url)` with leading controls stripped and no bracketed-host
      check; `None` where it raises `ValueError`, which there is exactly when
      the network location holds one of `[` and `]` but not the other. */
  function UrlParse(url: string): (r: Option<ParsedUrl>)
    ensures var netloc := Location(url).1; r.None? <==> ('[' in netloc) != (']' in netloc)
    ensures r.Some? ==> r.value.scheme == Location(url).0 && r.value.netloc == Location(url).1
    ensures r.Some? ==> forall k :: 0 <= k < |r.value.scheme| ==> IsSchemeChar(r.value.scheme[k])
    ensures r.Some? ==> '/' !in r.value.netloc && '?' !in r.value.netloc && '#' !in r.value.netloc
    ensures r.Some? ==> '?' !in r.value.path && '#' !in r.value.path
    ensures r.Some? && '#' !in Location(url).2 ==> r.value.fragment == ""
    ensures r.Some? && '?' !in Location(url).2 ==> r.value.query == ""
  {
    var (scheme, netloc, rest2) := Location(url);
    if ('[' in netloc) != (']' in netloc) then None
    else
      var (rest3, fragment) := SplitOnce(rest2, '#');
      var (rest4, query) := SplitOnce(rest3, '?');
      var (path, params) :=
        if scheme in UsesParams && ';' in rest4 then SplitParams(rest4) else (rest4, "");
      Some(ParsedUrl(scheme, netloc, path, params, query, fragment))
  }

  /** `ParsedUrl.hostname` up to case: the host part of the network location,
      without user information, port or IPv6 brackets. */
  function HostName(netloc: string): (r: string)
    ensures netloc == [] ==> r == []
  {
    var at := LastIndexOf(netloc, '@');
    var hostinfo := if at < |netloc| then netloc[at + 1..] else netloc;
    if '[' in hostinfo then
      var bracketed := hostinfo[IndexOf(hostinfo, '[') + 1..];
      bracketed[..IndexOf(bracketed, ']')]
    else
      hostinfo[..IndexOf(hostinfo, ':')]
  }

  /** The shape every normalised base URL has: `scheme://` followed by a tail
      with no query, no fragment and no trailing slash. */
  predicate NormalForm(u: string) {
    && (var i := IndexOf(u, ':'); 0 < i && i + 3 <= |u| && u[i..i + 3] == "://")
    && '?' !in u && '#' !in u
    && u != [] && u[|u| - 1] != '/'
  }

  /** `f"{scheme}://{netloc}{path.rstrip('/')}"`. */
  function Normalize(p: ParsedUrl): (u: string)
    requires p.scheme != [] && p.netloc != []
    requires forall k :: 0 <= k < |p.scheme| ==> IsSchemeChar(p.scheme[k])
    requires '/' !in p.netloc && '?' !in p.netloc && '#' !in p.netloc
    requires '?' !in p.path && '#' !in p.path
    ensures NormalForm(u)
    ensures u == p.scheme + "://" + p.netloc + RStripChar(p.path, '/')
  {
    var tail := RStripChar(p.path, '/');
    var u := p.scheme + "://" + p.netloc + tail;
    assert u[|p.scheme|..|p.scheme| + 3] == "://";
    assert forall c :: c in tail ==> c in p.path;
    assert forall c :: c in p.scheme ==> IsSchemeChar(c);
    assert ':' !in u[..|p.scheme|] && u[|p.scheme|] == ':';
    assert u[|u| - 1] == if tail == [] then p.netloc[|p.netloc| - 1] else tail[|tail| - 1];
    u
  }

  /** The construction checks, in the source's order: blank base URL, blank key,
      then a base URL without scheme or host. */
  function Configure(baseUrl: string, apiKey: string): (r: Result<Identity>)
    ensures r == Err(BaseURLRequired) <==> IsBlank(baseUrl)
    ensures r == Err(APIKeyRequired) <==> !IsBlank(baseUrl) && IsBlank(apiKey)
    ensures r == Err(InvalidBaseURL) <==>
      && !IsBlank(baseUrl) && !IsBlank(apiKey)
      && var p := UrlParse(Strip(baseUrl));
         p.None? || p.value.scheme == [] || HostName(p.value.netloc) == []
    ensures r.Ok? <==>
      && !IsBlank(baseUrl) && !IsBlank(apiKey)
      && var p := UrlParse(Strip(baseUrl));
         p.Some? && p.value.scheme != [] && HostName(p.value.netloc) != []
    ensures r.Ok? ==> r.value.apiKey == Strip(apiKey) && r.value.apiKey != []
    ensures r.Ok? ==> NormalForm(r.value.baseUrl)
    ensures r.Ok? ==>
      && UrlParse(Strip(baseUrl)).Some?
      && var p := UrlParse(Strip(baseUrl)).value;
         && p.scheme != [] && HostName(p.netloc) != []
         && r.value.baseUrl == p.scheme + "://" + p.netloc + RStripChar(p.path, '/')
  {
    var base := Strip(baseUrl);
    if base == [] then Err(BaseURLRequired)
    else
      var key := Strip(apiKey);
      if key == [] then Err(APIKeyRequired)
      else
        var p := UrlParse(base);
        if p.None? || p.value.scheme == [] || HostName(p.value.netloc) == [] then Err(InvalidBaseURL)
        else Ok(Identity(Normalize(p.value), key))
  }
}
