/**
 * Builders of the discovery backend's requests
 * (qp-discovery-ui api/actions/fetchDiscoveryResource.ts): every request is
 * a fetching-client action with a backend identifier, a method, an
 * endpoint and query parameters.
 */
module DiscoveryActions {
  import opened Wrappers
  import opened Js
  import opened Strings
  import Query

  /** `createAction`: the identifier defaults to 'discovery', the method to GET, the endpoint to '' and the params to {}. */
  function CreateAction(clientIdentifier: Option<string>, httpMethod: Option<string>, endpoint: Option<string>, params: Option<Object>): (r: Query.Action)
    ensures r.clientIdentifier == (if clientIdentifier.Some? then clientIdentifier.value else "discovery")
    ensures r.httpMethod == (if httpMethod.Some? then httpMethod.value else "GET")
    ensures r.endpoint == (if endpoint.Some? then endpoint.value else "")
    ensures r.params == Some(if params.Some? then params.value else map[])
    ensures r.body.None? && r.headers.None?
  {
    Query.Action(
      if httpMethod.Some? then httpMethod.value else "GET",
      if endpoint.Some? then endpoint.value else "",
      if clientIdentifier.Some? then clientIdentifier.value else "discovery",
      None, None,
      Some(if params.Some? then params.value else map[]))
  }

  /** `fetchContentMetadata`: airings are programs of the EPG backend; everything else is a catalog URN. */
  function FetchContentMetadata(resourceId: string, resourceType: string, clientIdentifier: string, params: Object): (r: Query.Action)
    ensures resourceType == "airing" ==> r.clientIdentifier == "epg" && r.endpoint == "/program/" + resourceId && r.params == Some(map[])
    ensures resourceType != "airing" ==> r.clientIdentifier == clientIdentifier && r.params == Some(params)
    ensures resourceType != "airing" ==> r.endpoint == "/urn/resource/catalog/" + resourceType + "/" + resourceId
    ensures r.httpMethod == "GET"
  {
    if resourceType == "airing" then
      CreateAction(Some("epg"), None, Some("/program" + "/" + resourceId), None)
    else
      CreateAction(Some(clientIdentifier), None, Some("/urn/resource/catalog/" + resourceType + "/" + resourceId), Some(params))
  }

  /** `fetchContentLookup`: the paging parameters are sent only when both are given and non-zero. */
  function FetchContentLookup(query: string, pageNumber: Option<int>, pageSize: Option<int>): (r: Query.Action)
    ensures r.clientIdentifier == "metadata" && r.endpoint == "/lookup" && r.params.Some?
    ensures Get(r.params.value, "mode") == Str("detail") && Get(r.params.value, "query") == Str(query)
    ensures ("pageNumber" in r.params.value) <==> pageNumber.Some? && pageNumber.value != 0 && pageSize.Some? && pageSize.value != 0
    ensures ("pageNumber" in r.params.value) <==> ("pageSize" in r.params.value)
    ensures "pageNumber" in r.params.value ==> r.params.value["pageNumber"] == Num(pageNumber.value) && r.params.value["pageSize"] == Num(pageSize.value)
  {
    var base := map["mode" := Str("detail"), "query" := Str(query)];
    var paging := if pageNumber.Some? && pageNumber.value != 0 && pageSize.Some? && pageSize.value != 0
      then map["pageNumber" := Num(pageNumber.value), "pageSize" := Num(pageSize.value)]
      else map[];
    CreateAction(Some("metadata"), None, Some("/lookup"), Some(Spread(base, paging)))
  }

  /** `fetchContentIdsLookup`: one page as large as the id list, with the ids comma-separated. */
  function FetchContentIdsLookup(ids: seq<string>): (r: Query.Action)
    ensures r.clientIdentifier == "metadata" && r.endpoint == "" && r.params.Some?
    ensures Get(r.params.value, "pageSize") == Num(|ids|)
    ensures Get(r.params.value, "mode") == Str("detail") && Get(r.params.value, "st") == Str("published")
    ensures Get(r.params.value, "ids") == Str(Join(ids, ","))
  {
    CreateAction(Some("metadata"), None, Some(""),
      Some(map["mode" := Str("detail"), "st" := Str("published"), "pageSize" := Num(|ids|), "ids" := Str(Join(ids, ","))]))
  }

  /** The server can recover the ids from the `ids` parameter when no id contains a comma. */
  lemma IdsParameterRoundTrip(ids: seq<string>)
    requires |ids| > 0
    requires forall i :: 0 <= i < |ids| ==> ',' !in ids[i]
    ensures Split(Get(FetchContentIdsLookup(ids).params.value, "ids").s, ',') == ids
  {
    SplitJoin(ids, ',');
  }

  /**
   * The query string `k1=v1&k2=v2` as the object JSON.PARSE builds from
   * it: a pair without exactly one '=' makes the JSON invalid (None), and a
   * repeated key keeps its last value.
   */
  function ParseQueryParams(pairs: seq<string>): (r: Option<Object>)
    decreases |pairs|
  {
    if |pairs| == 0 then Some(map[])
    else
      var init := ParseQueryParams(pairs[..|pairs| - 1]);
      var kv := Split(pairs[|pairs| - 1], '=');
      if init.None? || |kv| != 2 then None
      else Some(init.value[kv[0] := Str(kv[1])])
  }

  /** The pairs are `keys[i]=values[i]` with '='-free keys and values, and the keys are distinct. */
  predicate WellFormedPairs(pairs: seq<string>, keys: seq<string>, values: seq<string>)
  {
    && |pairs| == |keys| == |values|
    && (forall i :: 0 <= i < |pairs| ==> pairs[i] == keys[i] + "=" + values[i])
    && (forall i :: 0 <= i < |pairs| ==> '=' !in keys[i] && '=' !in values[i])
    && (forall i, j :: 0 <= i < j < |keys| ==> keys[i] != keys[j])
  }

  /** The pairs parse to an object with exactly the keys, each holding its value. */
  predicate ParsesToPairs(pairs: seq<string>, keys: seq<string>, values: seq<string>)
    requires |keys| == |values|
  {
    && ParseQueryParams(pairs).Some?
    && (forall k :: k in ParseQueryParams(pairs).value ==> k in keys)
    && (forall i :: 0 <= i < |keys| ==> keys[i] in ParseQueryParams(pairs).value && ParseQueryParams(pairs).value[keys[i]] == Str(values[i]))
  }

  /** Distinct keys with '='-free keys and values parse to exactly that key/value object. */
  lemma {:induction false} ParseQueryParamsPairs(pairs: seq<string>, keys: seq<string>, values: seq<string>)
    requires WellFormedPairs(pairs, keys, values)
    ensures ParsesToPairs(pairs, keys, values)
    decreases |pairs|
  {
    if |pairs| > 0 {
      var n := |pairs| - 1;
      var ps, ks, vs := pairs[..n], keys[..n], values[..n];
      assert WellFormedPairs(ps, ks, vs) by {
        assert forall i :: 0 <= i < n ==> ps[i] == pairs[i] && ks[i] == keys[i] && vs[i] == values[i];
      }
      ParseQueryParamsPairs(ps, ks, vs);
      ParsePairsStep(pairs, keys, values);
    }
  }

  /** The step of ParseQueryParamsPairs: from the pairs without the last one to all of them. */
  lemma ParsePairsStep(pairs: seq<string>, keys: seq<string>, values: seq<string>)
    requires WellFormedPairs(pairs, keys, values) && |pairs| > 0
    requires ParsesToPairs(pairs[..|pairs| - 1], keys[..|pairs| - 1], values[..|pairs| - 1])
    ensures ParsesToPairs(pairs, keys, values)
  {
    var n := |pairs| - 1;
    LastPairParses(pairs, keys[n], values[n]);
    var ks, vs := keys[..n], values[..n];
    assert forall i :: 0 <= i < n ==> ks[i] != keys[n];
    ExtendKeyedObject(ParseQueryParams(pairs[..n]).value, ks, vs, keys[n], values[n]);
    LastSplit(keys);
    LastSplit(values);
  }

  /** A non-empty sequence is its prefix followed by its last element. */
  lemma LastSplit<T>(s: seq<T>)
    requires |s| > 0
    ensures s == s[..|s| - 1] + [s[|s| - 1]]
  {
  }

  /** Adding a new key with its value to an object holding exactly the earlier keys and values. */
  lemma ExtendKeyedObject(init: Object, ks: seq<string>, vs: seq<string>, k: string, v: string)
    requires |ks| == |vs|
    requires forall key :: key in init ==> key in ks
    requires forall i :: 0 <= i < |ks| ==> ks[i] in init && init[ks[i]] == Str(vs[i])
    requires forall i :: 0 <= i < |ks| ==> ks[i] != k
    ensures var o := init[k := Str(v)];
            (forall key :: key in o ==> key in ks + [k])
            && (forall i :: 0 <= i < |ks| + 1 ==> (ks + [k])[i] in o && o[(ks + [k])[i]] == Str((vs + [v])[i]))
  {
    var o := init[k := Str(v)];
    forall i | 0 <= i < |ks| + 1
      ensures (ks + [k])[i] in o && o[(ks + [k])[i]] == Str((vs + [v])[i])
    {
      if i < |ks| {
        assert (ks + [k])[i] == ks[i] && (vs + [v])[i] == vs[i];
      }
    }
  }

  /** A last pair `k=v` with '='-free k and v adds k with value v to what the earlier pairs parse to. */
  lemma LastPairParses(pairs: seq<string>, k: string, v: string)
    requires |pairs| > 0 && pairs[|pairs| - 1] == k + "=" + v && '=' !in k && '=' !in v
    requires ParseQueryParams(pairs[..|pairs| - 1]).Some?
    ensures ParseQueryParams(pairs) == Some(ParseQueryParams(pairs[..|pairs| - 1]).value[k := Str(v)])
  {
    SplitAtSeparator(k, v, '=');
    SplitWithoutSeparator(v, '=');
    assert Split(pairs[|pairs| - 1], '=') == [k, v];
  }

  /**
   * `fetchRelatedContents`: the part before the first '?' is the endpoint
   * and the part after it is parsed as `k=v` pairs joined by '&'. A link
   * without '?' makes the source throw (None).
   */
  function FetchRelatedContents(relatedContentsLink: string): (r: Option<Query.Action>)
    ensures '?' !in relatedContentsLink ==> r.None?
    ensures r.Some? ==> r.value.clientIdentifier == "discovery" && r.value.params.Some?
    ensures r.Some? ==> '?' !in r.value.endpoint && IsPrefix(r.value.endpoint + "?", relatedContentsLink)
  {
    var pieces := Split(relatedContentsLink, '?');
    if |pieces| < 2 then None
    else
      var parsed := ParseQueryParams(Split(pieces[1], '&'));
      if parsed.None? then None
      else
        SplitHead(relatedContentsLink, '?');
        Some(CreateAction(None, None, Some(pieces[0]), Some(parsed.value)))
  }

  /** The first piece of a split holds no separator and, when more follow, is followed by one in the string. */
  lemma {:induction false} SplitHead(s: string, c: char)
    ensures c !in Split(s, c)[0]
    ensures |Split(s, c)| == 1 <==> c !in s
    ensures |Split(s, c)| > 1 ==> IsPrefix(Split(s, c)[0] + [c], s)
    decreases |s|
  {
    if s != [] && s[0] != c {
      SplitHead(s[1..], c);
      var rest := Split(s[1..], c);
      if |rest| > 1 {
        assert s == [s[0]] + s[1..];
        assert ([s[0]] + rest[0] + [c]) == [s[0]] + (rest[0] + [c]);
      }
      assert c in s <==> c in s[1..] by {
        assert s == [s[0]] + s[1..];
      }
    }
  }

  /** A link built from a path and a query string of distinct pairs yields that path and those parameters. */
  lemma RelatedContentsRoundTrip(path: string, pairs: seq<string>, keys: seq<string>, values: seq<string>)
    requires |pairs| > 0 && '?' !in path
    requires WellFormedPairs(pairs, keys, values)
    requires forall i :: 0 <= i < |pairs| ==> '&' !in pairs[i] && '?' !in pairs[i]
    ensures var r := FetchRelatedContents(path + "?" + Join(pairs, "&"));
            && r.Some? && r.value.endpoint == path && r.value.params.Some?
            && (forall i :: 0 <= i < |keys| ==> Get(r.value.params.value, keys[i]) == Str(values[i]))
  {
    var q := Join(pairs, "&");
    var link := path + "?" + q;
    var pieces := Split(link, '?');
    assert pieces == [path, q] by {
      JoinAvoids(pairs, "&", '?');
      SplitWithoutSeparator(q, '?');
      SplitAtSeparator(path, q, '?');
      assert link == path + ['?'] + q;
    }
    assert Split(pieces[1], '&') == pairs by {
      SplitJoin(pairs, '&');
    }
    ParseQueryParamsPairs(pairs, keys, values);
    var parsed := ParseQueryParams(pairs);
    assert FetchRelatedContents(link) == Some(CreateAction(None, None, Some(path), Some(parsed.value)));
  }
}
