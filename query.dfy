/**
  The query half of a URL as both clients build it: Go's `url.Values`, a map
  from each key to the values added under it, in the order they were added.
  Turning it into text (`Encode`, which sorts the keys and percent-escapes)
  and parsing the base URL are not part of this model: `url.Parse`'s verdict
  on the base URL is given to the builders as a parameter.
*/
module Query {

  type Values = map<string, seq<string>>

  /** The URL a builder returns: the parsed base with its query string replaced
      by `query`. `base` stands for the base URL without any query of its own,
      because assigning `RawQuery` discards whatever query the base carried. */
  datatype Url = Url(base: string, query: Values)

  datatype UrlError =
    | OddParameterCount   // "incorrect number of parameters to EncodeUrl"
    | BaseUrlUnparsable   // the error `url.Parse` reported for the base URL

  /** `q[key]`, where an absent key has no values. */
  function ValuesOf(q: Values, key: string): seq<string>
  {
    if key in q then q[key] else []
  }

  /** `url.Values.Add`: appends to the key's values and changes nothing else. */
  function Add(q: Values, key: string, value: string): (r: Values)
    ensures ValuesOf(r, key) == ValuesOf(q, key) + [value]
    ensures forall k :: k != key ==> ValuesOf(r, k) == ValuesOf(q, k)
    ensures r.Keys == q.Keys + {key}
  {
    q[key := ValuesOf(q, key) + [value]]
  }

  /** Adding under a key not yet present gives it that one value. */
  lemma AddFresh(q: Values, key: string, value: string)
    requires key !in q
    ensures Add(q, key, value) == q[key := [value]]
  {
    assert ValuesOf(q, key) + [value] == [value];
  }

  /** The values paired with `key`, in list order. */
  function Lookup(pairs: seq<(string, string)>, key: string): seq<string>
  {
    if pairs == [] then []
    else
      var last := pairs[|pairs| - 1];
      Lookup(pairs[..|pairs| - 1], key) + (if last.0 == key then [last.1] else [])
  }

  /** The query that adding `pairs` one by one to an empty `url.Values` gives. */
  function FromPairs(pairs: seq<(string, string)>): Values
  {
    if pairs == [] then map[]
    else
      var last := pairs[|pairs| - 1];
      Add(FromPairs(pairs[..|pairs| - 1]), last.0, last.1)
  }

  lemma FromPairsSnoc(pairs: seq<(string, string)>, key: string, value: string)
    ensures FromPairs(pairs + [(key, value)]) == Add(FromPairs(pairs), key, value)
  {
    assert (pairs + [(key, value)])[..|pairs|] == pairs;
  }

  /** Every key carries exactly its values from the list, in list order. */
  lemma {:induction false} FromPairsValues(pairs: seq<(string, string)>, key: string)
    ensures ValuesOf(FromPairs(pairs), key) == Lookup(pairs, key)
  {
    if pairs != [] {
      FromPairsValues(pairs[..|pairs| - 1], key);
    }
  }

  /** A key is present exactly when it has at least one value: `Add` never leaves an empty list. */
  lemma {:induction false} FromPairsKeys(pairs: seq<(string, string)>, key: string)
    ensures key in FromPairs(pairs) <==> Lookup(pairs, key) != []
    ensures key in FromPairs(pairs) ==> FromPairs(pairs)[key] != []
  {
    FromPairsValues(pairs, key);
    if pairs != [] {
      FromPairsKeys(pairs[..|pairs| - 1], key);
    }
  }

  /** A key in the query has at least one value in the list. */
  lemma PresentKeyHasValues(pairs: seq<(string, string)>, key: string)
    requires key in FromPairs(pairs)
    ensures Lookup(pairs, key) != []
  {
    FromPairsKeys(pairs, key);
  }

  /** Values under one key keep the order of the list: those of an earlier part come first. */
  lemma {:induction false} LookupAppend(p1: seq<(string, string)>, p2: seq<(string, string)>, key: string)
    ensures Lookup(p1 + p2, key) == Lookup(p1, key) + Lookup(p2, key)
    decreases |p2|
  {
    if p2 != [] {
      var p2' := p2[..|p2| - 1];
      assert (p1 + p2)[..|p1 + p2| - 1] == p1 + p2';
      LookupAppend(p1, p2', key);
    } else {
      assert p1 + p2 == p1;
    }
  }

  /** A key that no pair carries gets no values. */
  lemma {:induction false} LookupAbsent(pairs: seq<(string, string)>, key: string)
    requires forall j :: 0 <= j < |pairs| ==> pairs[j].0 != key
    ensures Lookup(pairs, key) == []
  {
    if pairs != [] {
      LookupAbsent(pairs[..|pairs| - 1], key);
    }
  }

  /** A key is in the query exactly when some pair carries it. */
  lemma {:induction false} LookupNonEmpty(pairs: seq<(string, string)>, key: string)
    ensures Lookup(pairs, key) != [] <==> exists i :: 0 <= i < |pairs| && pairs[i].0 == key
  {
    if pairs != [] {
      var init := pairs[..|pairs| - 1];
      LookupNonEmpty(init, key);
      if exists i :: 0 <= i < |pairs| && pairs[i].0 == key {
        var i :| 0 <= i < |pairs| && pairs[i].0 == key;
        if i < |init| {
          assert init[i].0 == key;
        }
      }
      if exists i :: 0 <= i < |init| && init[i].0 == key {
        var i :| 0 <= i < |init| && init[i].0 == key;
        assert pairs[i].0 == key;
      }
    }
  }

  /** A key with values is carried by some pair. */
  lemma LookupWitness(pairs: seq<(string, string)>, key: string)
    requires Lookup(pairs, key) != []
    ensures exists i :: 0 <= i < |pairs| && pairs[i].0 == key
  {
    LookupNonEmpty(pairs, key);
  }

  /** Every value is one pair's value: a key never gets more values than there are pairs. */
  lemma {:induction false} LookupLength(pairs: seq<(string, string)>, key: string)
    ensures |Lookup(pairs, key)| <= |pairs|
  {
    if pairs != [] {
      LookupLength(pairs[..|pairs| - 1], key);
    }
  }

  /** A key that only one pair carries gets exactly that pair's value. */
  lemma {:induction false} LookupSingle(pairs: seq<(string, string)>, i: nat)
    requires i < |pairs|
    requires forall j :: 0 <= j < |pairs| && j != i ==> pairs[j].0 != pairs[i].0
    ensures Lookup(pairs, pairs[i].0) == [pairs[i].1]
  {
    var init := pairs[..|pairs| - 1];
    if i == |pairs| - 1 {
      LookupAbsent(init, pairs[i].0);
    } else {
      LookupSingle(init, i);
    }
  }
}
