/** Query strings as `RawClient._build_url` builds them (moi/client.py:75-89):
    the `params` dict it fills in a loop, and `urlencode(params, doseq=True)`. */
module Query {
  import opened Py
  import opened Text

  /** A value of the `params` dict: one string, or a list of strings for a
      repeated key. */
  datatype Param = One(value: string) | Many(values: seq<string>)

  /** What one `(key, value)` of the call's query parameters adds to `params`:
      nothing for `None`, the stringified elements for a list or tuple, the
      stringified value otherwise. */
  function Entry(lib: PyLib, key: string, value: Json): seq<(string, Param)>
  {
    match value
    case JNull => []
    case JArr(items) => [(key, Many(Strs(lib, items)))]
    case _ => [(key, One(Str(lib, value)))]
  }

  /** `[str(item) for item in items]`. */
  function Strs(lib: PyLib, items: seq<Json>): (r: seq<string>)
    ensures |r| == |items| && forall i :: 0 <= i < |items| ==> r[i] == Str(lib, items[i])
  {
    if items == [] then [] else [Str(lib, items[0])] + Strs(lib, items[1..])
  }

  /** Reference definition of `params` after the loop has seen all of `query`. */
  function Params(lib: PyLib, query: seq<(string, Json)>): seq<(string, Param)>
  {
    if query == [] then []
    else
      var last := query[|query| - 1];
      Params(lib, query[..|query| - 1]) + Entry(lib, last.0, last.1)
  }

  /** The `key=value` pairs `urlencode(..., doseq=True)` emits for one entry. */
  function Expand(entry: (string, Param)): seq<(string, string)>
  {
    match entry.1
    case One(v) => [(entry.0, v)]
    case Many(vs) => seq(|vs|, i requires 0 <= i < |vs| => (entry.0, vs[i]))
  }

  /** All pairs `urlencode` emits, entry by entry, in dict order. */
  function Pairs(params: seq<(string, Param)>): seq<(string, string)>
  {
    if params == [] then []
    else Pairs(params[..|params| - 1]) + Expand(params[|params| - 1])
  }

  /** `urlencode`'s output: percent-encoded pairs joined by `&`. */
  function Encode(lib: PyLib, pairs: seq<(string, string)>): string
  {
    Join("&", seq(|pairs|, i requires 0 <= i < |pairs| =>
      lib.quotePlus(pairs[i].0) + "=" + lib.quotePlus(pairs[i].1)))
  }

  /** The values paired with `key`, in order. */
  function ValuesOf(pairs: seq<(string, string)>, key: string): seq<string>
  {
    if pairs == [] then []
    else
      var last := pairs[|pairs| - 1];
      ValuesOf(pairs[..|pairs| - 1], key) + (if last.0 == key then [last.1] else [])
  }

  /** What the query string should carry for one parameter value: nothing for
      `None`, each element of a list or tuple in order, else the value itself. */
  function Rendered(lib: PyLib, value: Json): seq<string>
  {
    match value
    case JNull => []
    case JArr(items) => Strs(lib, items)
    case _ => [Str(lib, value)]
  }

  /** Everything the call's parameters ask for under `key`, in order. */
  function Requested(lib: PyLib, query: seq<(string, Json)>, key: string): seq<string>
  {
    if query == [] then []
    else
      var last := query[|query| - 1];
      Requested(lib, query[..|query| - 1], key) + (if last.0 == key then Rendered(lib, last.1) else [])
  }

  predicate DistinctKeys(query: seq<(string, Json)>) {
    forall i, j :: 0 <= i < j < |query| ==> query[i].0 != query[j].0
  }

  lemma {:induction false} ValuesOfAppend(a: seq<(string, string)>, b: seq<(string, string)>, key: string)
    ensures ValuesOf(a + b, key) == ValuesOf(a, key) + ValuesOf(b, key)
    decreases |b|
  {
    if b == [] {
      assert a + b == a;
    } else {
      assert (a + b)[..|a + b| - 1] == a + b[..|b| - 1];
      ValuesOfAppend(a, b[..|b| - 1], key);
    }
  }

  lemma {:induction false} ValuesOfExpand(entry: (string, Param), key: string)
    ensures ValuesOf(Expand(entry), key) ==
      if entry.0 != key then []
      else match entry.1 case One(v) => [v] case Many(vs) => vs
    decreases |Expand(entry)|
  {
    match entry.1
    case One(v) =>
      assert Expand(entry)[..0] == [];
    case Many(vs) =>
      if vs != [] {
        var shorter := (entry.0, Many(vs[..|vs| - 1]));
        assert Expand(entry)[..|vs| - 1] == Expand(shorter);
        ValuesOfExpand(shorter, key);
      }
  }

  /** Every value the query string carries under `key` is exactly what the
      caller asked for under that key, in the caller's order: `None` adds
      nothing and a list `[a, b]` adds `a` then `b`. */
  lemma {:induction false} QueryCarriesRequested(lib: PyLib, query: seq<(string, Json)>, key: string)
    ensures ValuesOf(Pairs(Params(lib, query)), key) == Requested(lib, query, key)
    decreases |query|
  {
    if query != [] {
      var init := query[..|query| - 1];
      var last := query[|query| - 1];
      QueryCarriesRequested(lib, init, key);
      var entry := Entry(lib, last.0, last.1);
      var ps := Params(lib, init);
      assert Params(lib, query) == ps + entry;
      if entry == [] {
        assert ps + entry == ps;
        assert last.1 == JNull;
      } else {
        assert (ps + entry)[..|ps + entry| - 1] == ps;
        assert Pairs(ps + entry) == Pairs(ps) + Expand(entry[0]);
        ValuesOfAppend(Pairs(ps), Expand(entry[0]), key);
        ValuesOfExpand(entry[0], key);
        EntryRendered(lib, last.0, last.1);
      }
    }
  }

  lemma EntryRendered(lib: PyLib, key: string, value: Json)
    requires value != JNull
    ensures |Entry(lib, key, value)| == 1
    ensures var e := Entry(lib, key, value)[0];
      e.0 == key && (match e.1 case One(v) => [v] case Many(vs) => vs) == Rendered(lib, value)
  {
  }

  /** With a dict's distinct keys, the values under the key of entry `j` are that
      entry's rendering alone. */
  lemma {:induction false} RequestedOfKey(lib: PyLib, query: seq<(string, Json)>, j: nat)
    requires DistinctKeys(query) && j < |query|
    ensures Requested(lib, query, query[j].0) == Rendered(lib, query[j].1)
    decreases |query|
  {
    var init := query[..|query| - 1];
    if j == |query| - 1 {
      RequestedAbsent(lib, init, query[j].0);
    } else {
      RequestedOfKey(lib, init, j);
    }
  }

  lemma {:induction false} RequestedAbsent(lib: PyLib, query: seq<(string, Json)>, key: string)
    requires forall i :: 0 <= i < |query| ==> query[i].0 != key
    ensures Requested(lib, query, key) == []
    decreases |query|
  {
    if query != [] {
      RequestedAbsent(lib, query[..|query| - 1], key);
    }
  }

  /** A key whose value is `None` never reaches the query string. */
  lemma NoneIsDropped(lib: PyLib, query: seq<(string, Json)>, j: nat)
    requires DistinctKeys(query) && j < |query| && query[j].1 == JNull
    ensures ValuesOf(Pairs(Params(lib, query)), query[j].0) == []
  {
    QueryCarriesRequested(lib, query, query[j].0);
    RequestedOfKey(lib, query, j);
  }

  /** A list or tuple value yields one pair per element, in order. */
  lemma ListIsRepeated(lib: PyLib, query: seq<(string, Json)>, j: nat)
    requires DistinctKeys(query) && j < |query| && query[j].1.JArr?
    ensures var items := query[j].1.items;
      ValuesOf(Pairs(Params(lib, query)), query[j].0) == Strs(lib, items)
  {
    QueryCarriesRequested(lib, query, query[j].0);
    RequestedOfKey(lib, query, j);
  }

  /** The encoded query string is empty exactly when no pair remains, so no `?`
      is added then. */
  lemma {:induction false} EncodeEmptyIff(lib: PyLib, pairs: seq<(string, string)>)
    ensures Encode(lib, pairs) == "" <==> pairs == []
  {
    var parts := seq(|pairs|, i requires 0 <= i < |pairs| =>
      lib.quotePlus(pairs[i].0) + "=" + lib.quotePlus(pairs[i].1));
    if pairs != [] {
      JoinNonEmpty("&", parts);
    }
  }

  lemma {:induction false} JoinNonEmpty(sep: string, parts: seq<string>)
    requires parts != [] && parts[0] != []
    ensures Join(sep, parts) != []
  {
  }
}
