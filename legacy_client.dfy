/**
  The older client surface (client/newznab.go): requests are described by
  request records, the query is passed to `EncodeUrl` as a flat list that
  alternates keys and values, and a pair whose value is empty is left out of
  the query. Performing the GET (`Execute`) is not part of this model: each
  operation here ends with the URL it would request.
*/
module LegacyClient {
  import opened Wrappers
  import opened Query
  import Text

  // ---------------------------------------------------------------------------
  // EncodeUrl

  /** The flat list read two at a time: key, value, key, value, ... */
  function FlatPairs(params: seq<string>): (pairs: seq<(string, string)>)
    ensures |pairs| == |params| / 2
    ensures forall j :: 0 <= j < |pairs| ==> pairs[j] == (params[2 * j], params[2 * j + 1])
  {
    seq(|params| / 2, j requires 0 <= j < |params| / 2 => (params[2 * j], params[2 * j + 1]))
  }

  /** The pairs EncodeUrl adds to the query: those with a non-empty value, in order. */
  function Kept(pairs: seq<(string, string)>): (kept: seq<(string, string)>)
    ensures |kept| <= |pairs|
    ensures forall i :: 0 <= i < |kept| ==> kept[i].1 != ""
  {
    if pairs == [] then []
    else
      var last := pairs[|pairs| - 1];
      Kept(pairs[..|pairs| - 1]) + (if last.1 != "" then [last] else [])
  }

  /** The values a single pair leaves in the query. */
  function Present(value: string): seq<string>
  {
    if value == "" then [] else [value]
  }

  /** `EncodeUrl(base, params...)`: an odd-length list is refused before anything
      else; otherwise each pair with a non-empty value is added with `Add`. */
  method EncodeUrl(base: string, baseParses: bool, params: seq<string>) returns (r: Result<Url, UrlError>)
    ensures |params| % 2 != 0 ==> r == Failure(OddParameterCount)
    ensures |params| % 2 == 0 && !baseParses ==> r == Failure(BaseUrlUnparsable)
    ensures |params| % 2 == 0 && baseParses ==>
      r.Success? && r.value.base == base && r.value.query == FromPairs(Kept(FlatPairs(params)))
  {
    if |params| % 2 != 0 {
      return Failure(OddParameterCount);
    }
    if !baseParses {
      return Failure(BaseUrlUnparsable);
    }
    var q: Values := map[];
    var i := 0;
    assert FlatPairs(params[..0]) == [];
    while i < |params|
      invariant 0 <= i <= |params| && i % 2 == 0
      invariant q == FromPairs(Kept(FlatPairs(params[..i])))
    {
      EvenGap(i, |params|);
      EncodeStep(q, params, i);
      var key := params[i];
      var val := params[i + 1];
      if |val| > 0 {
        q := Add(q, key, val);
      }
      i := i + 2;
    }
    assert params[..i] == params;
    return Success(Url(base, q));
  }

  lemma EvenGap(i: int, n: int)
    requires i % 2 == 0 && n % 2 == 0 && i < n
    ensures i + 2 <= n
  {
  }

  /** One turn of EncodeUrl's loop. */
  lemma EncodeStep(q: Values, params: seq<string>, i: nat)
    requires i % 2 == 0 && i + 2 <= |params|
    requires q == FromPairs(Kept(FlatPairs(params[..i])))
    ensures (if params[i + 1] != "" then Add(q, params[i], params[i + 1]) else q)
            == FromPairs(Kept(FlatPairs(params[..i + 2])))
  {
    FlatPairsGrow(params, i);
    KeptSnoc(FlatPairs(params[..i]), (params[i], params[i + 1]));
    if params[i + 1] != "" {
      FromPairsSnoc(Kept(FlatPairs(params[..i])), params[i], params[i + 1]);
    } else {
      assert Kept(FlatPairs(params[..i])) + [] == Kept(FlatPairs(params[..i]));
    }
  }

  lemma FlatPairsGrow(params: seq<string>, i: nat)
    requires i % 2 == 0 && i + 2 <= |params|
    ensures FlatPairs(params[..i + 2]) == FlatPairs(params[..i]) + [(params[i], params[i + 1])]
  {
    var longer, shorter := FlatPairs(params[..i + 2]), FlatPairs(params[..i]);
    assert |longer| == |shorter| + 1;
    forall j | 0 <= j < |shorter| ensures longer[j] == shorter[j] {
    }
  }

  lemma KeptSnoc(pairs: seq<(string, string)>, p: (string, string))
    ensures Kept(pairs + [p]) == Kept(pairs) + (if p.1 != "" then [p] else [])
  {
    assert (pairs + [p])[..|pairs|] == pairs;
  }

  // ---------------------------------------------------------------------------
  // What EncodeUrl's query holds

  lemma {:induction false} KeptAppend(p1: seq<(string, string)>, p2: seq<(string, string)>)
    ensures Kept(p1 + p2) == Kept(p1) + Kept(p2)
    decreases |p2|
  {
    if p2 == [] {
      assert p1 + p2 == p1;
    } else {
      var p2' := p2[..|p2| - 1];
      assert (p1 + p2)[..|p1 + p2| - 1] == p1 + p2';
      KeptAppend(p1, p2');
    }
  }

  /** The values in a list that are not empty, in order. */
  function DropEmpty(values: seq<string>): (r: seq<string>)
  {
    if values == [] then []
    else DropEmpty(values[..|values| - 1]) + Present(values[|values| - 1])
  }

  /** Under each key, the query holds that key's values from the list, in list
      order, with the empty ones left out. */
  lemma {:induction false} LookupKept(pairs: seq<(string, string)>, key: string)
    ensures Lookup(Kept(pairs), key) == DropEmpty(Lookup(pairs, key))
  {
    if pairs != [] {
      var init, last := pairs[..|pairs| - 1], pairs[|pairs| - 1];
      LookupKept(init, key);
      LookupAppend(Kept(init), if last.1 != "" then [last] else [], key);
      assert Lookup([last], key) == if last.0 == key then [last.1] else [] by {
        assert [last][..0] == [];
      }
      var vs := Lookup(pairs, key);
      if last.0 == key {
        assert vs[..|vs| - 1] == Lookup(init, key);
      } else {
        assert vs == Lookup(init, key);
      }
    }
  }

  /** What EncodeUrl's query holds under each key: that key's values from the
      list, in list order, with the empty ones left out. */
  lemma EncodedValues(params: seq<string>, key: string)
    ensures ValuesOf(FromPairs(Kept(FlatPairs(params))), key) == DropEmpty(Lookup(FlatPairs(params), key))
  {
    FromPairsValues(Kept(FlatPairs(params)), key);
    LookupKept(FlatPairs(params), key);
  }

  /** Reading a list two at a time splits at any even position. */
  lemma FlatPairsConcat(a: seq<string>, b: seq<string>)
    requires |a| % 2 == 0
    ensures FlatPairs(a + b) == FlatPairs(a) + FlatPairs(b)
  {
    var whole := a + b;
    forall j | |a| / 2 <= j < |whole| / 2 ensures FlatPairs(whole)[j] == FlatPairs(b)[j - |a| / 2] {
      var k := j - |a| / 2;
      assert whole[2 * j] == b[2 * k] && whole[2 * j + 1] == b[2 * k + 1];
    }
  }

  lemma FlatPairsSplit(a: seq<string>, key: string, value: string, b: seq<string>)
    requires |a| % 2 == 0
    ensures FlatPairs(a + [key, value] + b) == FlatPairs(a) + [(key, value)] + FlatPairs(b)
  {
    assert a + [key, value] + b == a + ([key, value] + b);
    FlatPairsConcat(a, [key, value] + b);
    FlatPairsConcat([key, value], b);
  }

  /** A pair with an empty value leaves no trace: the query is the one the list
      without that pair gives. */
  lemma EmptyValueLeavesNoTrace(a: seq<string>, key: string, b: seq<string>)
    requires |a| % 2 == 0
    ensures Kept(FlatPairs(a + [key, ""] + b)) == Kept(FlatPairs(a + b))
  {
    FlatPairsSplit(a, key, "", b);
    FlatPairsConcat(a, b);
    KeptAppend(FlatPairs(a) + [(key, "")], FlatPairs(b));
    KeptSnoc(FlatPairs(a), (key, ""));
    KeptAppend(FlatPairs(a), FlatPairs(b));
  }

  /** A pair with a non-empty value is always added: its value is among its key's values. */
  lemma NonEmptyValueAdded(a: seq<string>, key: string, value: string, b: seq<string>)
    requires |a| % 2 == 0 && value != ""
    ensures value in Lookup(Kept(FlatPairs(a + [key, value] + b)), key)
  {
    var pa, pb := FlatPairs(a), FlatPairs(b);
    FlatPairsSplit(a, key, value, b);
    KeptAppend(pa + [(key, value)], pb);
    KeptAppend(pa, [(key, value)]);
    assert [(key, value)][..0] == [];
    LookupAppend(Kept(pa) + [(key, value)], Kept(pb), key);
    LookupAppend(Kept(pa), [(key, value)], key);
    assert Lookup([(key, value)], key) == [value];
  }

  /** EncodeUrl adds at most one value per pair: at most half as many as the list is long. */
  lemma AtMostHalf(params: seq<string>, key: string)
    ensures |Kept(FlatPairs(params))| <= |params| / 2
    ensures |Lookup(Kept(FlatPairs(params)), key)| <= |params| / 2
  {
    LookupLength(Kept(FlatPairs(params)), key);
  }

  /** A key that exactly one pair carries gets that pair's value, unless it is empty. */
  lemma KeyedQuery(pairs: seq<(string, string)>, i: nat)
    requires i < |pairs|
    requires forall j :: 0 <= j < |pairs| && j != i ==> pairs[j].0 != pairs[i].0
    ensures ValuesOf(FromPairs(Kept(pairs)), pairs[i].0) == Present(pairs[i].1)
  {
    var k := pairs[i].0;
    FromPairsValues(Kept(pairs), k);
    LookupSingle(pairs, i);
    LookupKept(pairs, k);
    DropEmptySingle(pairs[i].1);
  }

  lemma DropEmptySingle(v: string)
    ensures DropEmpty([v]) == Present(v)
  {
    assert [v][..0] == [];
  }

  /** Only keys from the list appear in the query. */
  lemma QueryKeys(pairs: seq<(string, string)>, k: string)
    requires k in FromPairs(Kept(pairs))
    ensures exists j :: 0 <= j < |pairs| && pairs[j].0 == k
  {
    PresentKeyHasValues(Kept(pairs), k);
    KeptKeyHasValues(pairs, k);
    LookupWitness(pairs, k);
  }

  /** A key left with values after dropping the empty ones had values before. */
  lemma KeptKeyHasValues(pairs: seq<(string, string)>, k: string)
    requires Lookup(Kept(pairs), k) != []
    ensures Lookup(pairs, k) != []
  {
    LookupKept(pairs, k);
  }

  /** No two pairs share a key. */
  predicate DistinctKeys(pairs: seq<(string, string)>)
  {
    forall i, j :: 0 <= i < j < |pairs| ==> pairs[i].0 != pairs[j].0
  }

  /** `q` holds each listed key with its own value, or without it when the value
      is empty, and no key that is not listed; a key it holds has at least one value. */
  ghost predicate Carries(q: Values, pairs: seq<(string, string)>)
  {
    && (forall i :: 0 <= i < |pairs| ==> ValuesOf(q, pairs[i].0) == Present(pairs[i].1))
    && (forall k :: k in q ==> exists i :: 0 <= i < |pairs| && pairs[i].0 == k)
    && (forall k :: k in q ==> q[k] != [])
  }

  /** A list whose keys all differ gives each key the value of its own pair, if not empty. */
  lemma DistinctKeysQuery(pairs: seq<(string, string)>)
    requires DistinctKeys(pairs)
    ensures Carries(FromPairs(Kept(pairs)), pairs)
  {
    forall i | 0 <= i < |pairs| ensures ValuesOf(FromPairs(Kept(pairs)), pairs[i].0) == Present(pairs[i].1) {
      KeyedQuery(pairs, i);
    }
    forall k | k in FromPairs(Kept(pairs)) ensures exists i :: 0 <= i < |pairs| && pairs[i].0 == k {
      QueryKeys(pairs, k);
    }
    forall k | k in FromPairs(Kept(pairs)) ensures FromPairs(Kept(pairs))[k] != [] {
      FromPairsKeys(Kept(pairs), k);
    }
  }

  /** The flat argument list written out from its pairs: key, value, key, value, ... */
  function Flatten(pairs: seq<(string, string)>): (params: seq<string>)
    ensures |params| == 2 * |pairs|
    ensures FlatPairs(params) == pairs
  {
    var params := seq(2 * |pairs|, i requires 0 <= i < 2 * |pairs| =>
      if i % 2 == 0 then pairs[i / 2].0 else pairs[i / 2].1);
    assert forall j :: 0 <= j < |pairs| ==> params[2 * j] == pairs[j].0 && params[2 * j + 1] == pairs[j].1;
    params
  }

  // The requests (records of the `model` package, whose fields are all strings here)

  datatype Api = Api(url: string, key: string)
  datatype CapsRequest = CapsRequest(api: Api)
  datatype GetRequest = GetRequest(api: Api, id: string)
  datatype MovieSearchRequest = MovieSearchRequest(api: Api, query: string, categories: seq<string>, imdbId: string)
  datatype SearchRequest = SearchRequest(api: Api, query: string, categories: seq<string>)
  datatype TvSearchRequest = TvSearchRequest(
    api: Api, query: string, categories: seq<string>, season: string, episode: string,
    tvRageId: string, tvdbId: string, traktId: string, tvMazeId: string, imdbId: string, tmdbId: string)

  /** The `cat` value: the categories joined by commas, or "" when there are none. */
  function CategoryValue(categories: seq<string>): string
  {
    if |categories| > 0 then Text.Join(categories, ',') else ""
  }

  /** `cat` is empty, and so dropped from the query, only for no categories or
      the single empty category; two or more always leave at least a comma. */
  lemma CategoryValueEmpty(categories: seq<string>)
    ensures CategoryValue(categories) == Text.Join(categories, ',')
    ensures CategoryValue(categories) == "" <==> categories == [] || categories == [""]
  {
    if |categories| >= 2 {
      var rest := Text.Join(categories[1..], ',');
      assert Text.Join(categories, ',')[|categories[0]|] == ',';
    }
  }

  // ---------------------------------------------------------------------------
  // The argument lists each request passes to EncodeUrl, as pairs

  function CapsPairs(): (pairs: seq<(string, string)>)
    ensures DistinctKeys(pairs)
  {
    [("t", "caps"), ("o", "json")]
  }

  function GetNzbPairs(m: GetRequest): (pairs: seq<(string, string)>)
    ensures DistinctKeys(pairs)
  {
    [("apikey", m.api.key), ("t", "get"), ("o", "json"), ("id", m.id)]
  }

  function MovieSearchPairs(m: MovieSearchRequest): (pairs: seq<(string, string)>)
    ensures DistinctKeys(pairs)
  {
    [("apikey", m.api.key), ("t", "movie"), ("o", "json"), ("extended", "1"),
     ("q", m.query), ("cat", CategoryValue(m.categories)), ("imdbid", m.imdbId)]
  }

  function SearchPairs(m: SearchRequest): (pairs: seq<(string, string)>)
    ensures DistinctKeys(pairs)
  {
    [("apikey", m.api.key), ("t", "search"), ("o", "json"), ("extended", "1"),
     ("q", m.query), ("cat", CategoryValue(m.categories))]
  }

  function TvSearchPairs(m: TvSearchRequest): (pairs: seq<(string, string)>)
    ensures DistinctKeys(pairs)
  {
    [("apikey", m.api.key), ("t", "tvsearch"), ("o", "json"), ("extended", "1"),
     ("q", m.query), ("cat", CategoryValue(m.categories)),
     ("season", m.season), ("ep", m.episode), ("rid", m.tvRageId), ("tvdbid", m.tvdbId),
     ("traktid", m.traktId), ("tvmazeid", m.tvMazeId), ("imdbid", m.imdbId), ("tmdbid", m.tmdbId)]
  }

  // ---------------------------------------------------------------------------
  // The URLs each request asks for: every key once, with its value unless empty

  method Caps(c: CapsRequest, baseParses: bool) returns (r: Result<Url, UrlError>)
    ensures r.Failure? <==> !baseParses
    ensures r.Success? ==> r.value.base == c.api.url && Carries(r.value.query, CapsPairs())
  {
    var pairs := CapsPairs();
    r := EncodeUrl(c.api.url, baseParses, Flatten(pairs));
    if r.Success? {
      DistinctKeysQuery(pairs);
    }
  }

  method GetNzb(m: GetRequest, baseParses: bool) returns (r: Result<Url, UrlError>)
    ensures r.Failure? <==> !baseParses
    ensures r.Success? ==> r.value.base == m.api.url && Carries(r.value.query, GetNzbPairs(m))
  {
    var pairs := GetNzbPairs(m);
    r := EncodeUrl(m.api.url, baseParses, Flatten(pairs));
    if r.Success? {
      DistinctKeysQuery(pairs);
    }
  }

  method MovieSearch(m: MovieSearchRequest, baseParses: bool) returns (r: Result<Url, UrlError>)
    ensures r.Failure? <==> !baseParses
    ensures r.Success? ==> r.value.base == m.api.url && Carries(r.value.query, MovieSearchPairs(m))
  {
    var pairs := MovieSearchPairs(m);
    r := EncodeUrl(m.api.url, baseParses, Flatten(pairs));
    if r.Success? {
      DistinctKeysQuery(pairs);
    }
  }

  method Search(m: SearchRequest, baseParses: bool) returns (r: Result<Url, UrlError>)
    ensures r.Failure? <==> !baseParses
    ensures r.Success? ==> r.value.base == m.api.url && Carries(r.value.query, SearchPairs(m))
  {
    var pairs := SearchPairs(m);
    r := EncodeUrl(m.api.url, baseParses, Flatten(pairs));
    if r.Success? {
      DistinctKeysQuery(pairs);
    }
  }

  method TvSearch(m: TvSearchRequest, baseParses: bool) returns (r: Result<Url, UrlError>)
    ensures r.Failure? <==> !baseParses
    ensures r.Success? ==> r.value.base == m.api.url && Carries(r.value.query, TvSearchPairs(m))
  {
    var pairs := TvSearchPairs(m);
    r := EncodeUrl(m.api.url, baseParses, Flatten(pairs));
    if r.Success? {
      DistinctKeysQuery(pairs);
    }
  }
}
