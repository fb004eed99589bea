/**
  The Param-based client (client.go): every request is a list of `Param`s
  turned into a query by `EncodeUrl`, which adds each of them as it is, empty
  values included. The searches append a fixed suffix to the caller's list:
  `extended=1`, the API key and the request type. Performing the GET
  (`Execute`) is not part of this model: each operation ends with the URL it
  would request; what `GetNzb` then does with the response body is
  `Nzb.Convert`.
*/
module Client {
  import opened Wrappers
  import opened Query
  import opened Params

  /** The (key, value) pairs of a Param list, in order. */
  function PairsOf(params: seq<Param>): (pairs: seq<(string, string)>)
    ensures |pairs| == |params|
    ensures forall i :: 0 <= i < |params| ==> pairs[i] == (params[i].name, params[i].value)
  {
    seq(|params|, i requires 0 <= i < |params| => (params[i].name, params[i].value))
  }

  lemma PairsOfAppend(p1: seq<Param>, p2: seq<Param>)
    ensures PairsOf(p1 + p2) == PairsOf(p1) + PairsOf(p2)
  {
  }

  /** `EncodeUrl(base, params...)`: every param is added with `Add`, in order. */
  method EncodeUrl(base: string, baseParses: bool, params: seq<Param>) returns (r: Result<Url, UrlError>)
    ensures !baseParses ==> r == Failure(BaseUrlUnparsable)
    ensures baseParses ==> r.Success? && r.value.base == base && r.value.query == FromPairs(PairsOf(params))
  {
    if !baseParses {
      return Failure(BaseUrlUnparsable);
    }
    var q: Values := map[];
    for i := 0 to |params|
      invariant q == FromPairs(PairsOf(params[..i]))
    {
      assert PairsOf(params[..i + 1]) == PairsOf(params[..i]) + [(params[i].name, params[i].value)];
      FromPairsSnoc(PairsOf(params[..i]), params[i].name, params[i].value);
      q := Add(q, params[i].name, params[i].value);
    }
    assert params[..|params|] == params;
    return Success(Url(base, q));
  }

  /** Under each key, the query holds the values of the params with that key, in
      list order, empty ones included; a key is present exactly when some param has it. */
  lemma EncodedValues(params: seq<Param>, key: string)
    ensures ValuesOf(FromPairs(PairsOf(params)), key) == Lookup(PairsOf(params), key)
    ensures key in FromPairs(PairsOf(params)) <==> exists i :: 0 <= i < |params| && params[i].name == key
  {
    FromPairsValues(PairsOf(params), key);
    FromPairsKeys(PairsOf(params), key);
    LookupNonEmpty(PairsOf(params), key);
    if exists i :: 0 <= i < |params| && params[i].name == key {
      var i :| 0 <= i < |params| && params[i].name == key;
      assert PairsOf(params)[i].0 == key;
    }
  }

  /** Each param's value is among its key's values, even when it is empty. */
  lemma EveryParamAdded(params: seq<Param>, i: nat)
    requires i < |params|
    ensures params[i].value in ValuesOf(FromPairs(PairsOf(params)), params[i].name)
  {
    var pairs := PairsOf(params);
    var key := params[i].name;
    FromPairsValues(pairs, key);
    assert pairs == pairs[..i] + [pairs[i]] + pairs[i + 1..];
    LookupAppend(pairs[..i] + [pairs[i]], pairs[i + 1..], key);
    LookupAppend(pairs[..i], [pairs[i]], key);
    assert [pairs[i]][..0] == [];
  }

  // ---------------------------------------------------------------------------
  // Params private to the client

  /** `extended()`: asks the server for every extended attribute. */
  function Extended(): Param { Param("extended", "1") }

  /** `nzbid(id)`: the id of the NZB to fetch. */
  function NzbId(id: string): Param { Param("id", id) }

  /** The list a search passes to EncodeUrl: the caller's params, then the fixed suffix. */
  function SearchParams(params: seq<Param>, key: string, t: string): (p: seq<Param>)
    ensures |p| == |params| + 3
    ensures p[..|params|] == params
    ensures p[|params|..] == [Param("extended", "1"), Param("apikey", key), Param("t", t)]
  {
    params + [Extended(), Apikey(key), Type(t)]
  }

  /** The values the suffix adds under a key. */
  function SuffixValues(key: string, t: string, k: string): seq<string>
  {
    (if k == "extended" then ["1"] else []) + (if k == "apikey" then [key] else []) + (if k == "t" then [t] else [])
  }

  /** A search's query: under every key, the caller's values first, then what the suffix adds. */
  lemma SearchQuery(params: seq<Param>, key: string, t: string, k: string)
    ensures ValuesOf(FromPairs(PairsOf(SearchParams(params, key, t))), k)
            == ValuesOf(FromPairs(PairsOf(params)), k) + SuffixValues(key, t, k)
  {
    var suffix := [Extended(), Apikey(key), Type(t)];
    PairsOfAppend(params, suffix);
    FromPairsValues(PairsOf(SearchParams(params, key, t)), k);
    FromPairsValues(PairsOf(params), k);
    LookupAppend(PairsOf(params), PairsOf(suffix), k);
    assert PairsOf(suffix) == [("extended", "1"), ("apikey", key), ("t", t)];
    LookupSuffix(key, t, k);
  }

  lemma LookupSuffix(key: string, t: string, k: string)
    ensures Lookup([("extended", "1"), ("apikey", key), ("t", t)], k) == SuffixValues(key, t, k)
  {
    var s := [("extended", "1"), ("apikey", key), ("t", t)];
    var s1, s2 := [("extended", "1")], [("extended", "1"), ("apikey", key)];
    assert s1[..0] == [] && s2[..1] == s1 && s[..2] == s2;
    assert Lookup(s1, k) == if k == "extended" then ["1"] else [];
    assert Lookup(s2, k) == Lookup(s1, k) + if k == "apikey" then [key] else [];
  }

  /** `q` is a search's query: under every key, the caller's values first, then
      what the suffix adds, and nothing else; a key it holds has at least one value. */
  ghost predicate IsSearchQuery(q: Values, params: seq<Param>, key: string, t: string)
  {
    && (forall k :: ValuesOf(q, k) == ValuesOf(FromPairs(PairsOf(params)), k) + SuffixValues(key, t, k))
    && (forall k :: k in q ==> q[k] != [])
  }

  lemma SearchQueryAllKeys(params: seq<Param>, key: string, t: string)
    ensures IsSearchQuery(FromPairs(PairsOf(SearchParams(params, key, t))), params, key, t)
  {
    forall k ensures ValuesOf(FromPairs(PairsOf(SearchParams(params, key, t))), k)
                     == ValuesOf(FromPairs(PairsOf(params)), k) + SuffixValues(key, t, k) {
      SearchQuery(params, key, t, k);
    }
    var q := FromPairs(PairsOf(SearchParams(params, key, t)));
    forall k | k in q ensures q[k] != [] {
      FromPairsKeys(PairsOf(SearchParams(params, key, t)), k);
    }
  }

  // ---------------------------------------------------------------------------
  // The requests

  method BookSearch(url: string, key: string, params: seq<Param>, baseParses: bool) returns (r: Result<Url, UrlError>)
    ensures r.Failure? <==> !baseParses
    ensures r.Success? ==> r.value.base == url && IsSearchQuery(r.value.query, params, key, "book")
  {
    r := EncodeUrl(url, baseParses, SearchParams(params, key, "book"));
    SearchQueryAllKeys(params, key, "book");
  }

  /** `GetCapabilities(url)`: only the request type, and no API key. */
  method GetCapabilities(url: string, baseParses: bool) returns (r: Result<Url, UrlError>)
    ensures r.Failure? <==> !baseParses
    ensures r.Success? ==> r.value == Url(url, map["t" := ["caps"]])
  {
    r := EncodeUrl(url, baseParses, [Type("caps")]);
    assert PairsOf([Type("caps")]) == [] + [("t", "caps")];
    FromPairsSnoc([], "t", "caps");
    var e: Values := map[];
    assert FromPairs([]) == e;
    AddFresh(e, "t", "caps");
  }

  /** `GetNzb(url, key, id)`: the key, the id and the request type, each once, even when empty. */
  method GetNzb(url: string, key: string, id: string, baseParses: bool) returns (r: Result<Url, UrlError>)
    ensures r.Failure? <==> !baseParses
    ensures r.Success? ==> r.value == Url(url, map["apikey" := [key], "id" := [id], "t" := ["get"]])
  {
    var params := [Apikey(key), NzbId(id), Type("get")];
    r := EncodeUrl(url, baseParses, params);
    var p1 := [] + [("apikey", key)];
    var p2 := p1 + [("id", id)];
    assert PairsOf(params) == p2 + [("t", "get")];
    FromPairsSnoc([], "apikey", key);
    FromPairsSnoc(p1, "id", id);
    FromPairsSnoc(p2, "t", "get");
    var e: Values := map[];
    var m1 := e["apikey" := [key]];
    var m2 := m1["id" := [id]];
    assert FromPairs([]) == e;
    AddFresh(e, "apikey", key);
    AddFresh(m1, "id", id);
    AddFresh(m2, "t", "get");
  }

  method MovieSearch(url: string, key: string, params: seq<Param>, baseParses: bool) returns (r: Result<Url, UrlError>)
    ensures r.Failure? <==> !baseParses
    ensures r.Success? ==> r.value.base == url && IsSearchQuery(r.value.query, params, key, "movie")
  {
    r := EncodeUrl(url, baseParses, SearchParams(params, key, "movie"));
    SearchQueryAllKeys(params, key, "movie");
  }

  method MusicSearch(url: string, key: string, params: seq<Param>, baseParses: bool) returns (r: Result<Url, UrlError>)
    ensures r.Failure? <==> !baseParses
    ensures r.Success? ==> r.value.base == url && IsSearchQuery(r.value.query, params, key, "music")
  {
    r := EncodeUrl(url, baseParses, SearchParams(params, key, "music"));
    SearchQueryAllKeys(params, key, "music");
  }

  method Search(url: string, key: string, params: seq<Param>, baseParses: bool) returns (r: Result<Url, UrlError>)
    ensures r.Failure? <==> !baseParses
    ensures r.Success? ==> r.value.base == url && IsSearchQuery(r.value.query, params, key, "search")
  {
    r := EncodeUrl(url, baseParses, SearchParams(params, key, "search"));
    SearchQueryAllKeys(params, key, "search");
  }

  method TvSearch(url: string, key: string, params: seq<Param>, baseParses: bool) returns (r: Result<Url, UrlError>)
    ensures r.Failure? <==> !baseParses
    ensures r.Success? ==> r.value.base == url && IsSearchQuery(r.value.query, params, key, "tvsearch")
  {
    r := EncodeUrl(url, baseParses, SearchParams(params, key, "tvsearch"));
    SearchQueryAllKeys(params, key, "tvsearch");
  }
}
