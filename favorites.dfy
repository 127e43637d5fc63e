/**
 * The favourites ("liked") client of the discovery layer: the request for
 * each kind of favourite call, the paged list request and how a response
 * decides the liked flag.
 */
module Favorites {
  import opened Wrappers
  import opened Js
  import Strings
  import Query

  datatype FavoriteFetchType = InitFetch | Like | Unlike | FetchAll

  /** The part of a fetching-library response isLiked reads. */
  datatype QueryResponse = QueryResponse(status: int, payload: Value)

  /** `response.payload.header.code === 0`, or the TypeError of reading through a missing payload or header. */
  function HeaderCodeIsZero(payload: Value): Result<bool, string>
  {
    if payload.Undefined? || payload.Null? then Err("TypeError")
    else
      var header := Prop(payload, "header");
      if header.Undefined? || header.Null? then Err("TypeError")
      else Ok(Prop(header, "code") == Num(0))
  }

  /** `response && response.status === 200 && response.payload.header.code === 0`, judged by its truthiness. */
  function Success(response: Option<QueryResponse>): Result<bool, string>
  {
    if response.None? || response.value.status != 200 then Ok(false)
    else HeaderCodeIsZero(response.value.payload)
  }

  /** The response was a 200 whose header code is 0. */
  predicate Succeeded(response: Option<QueryResponse>)
  {
    response.Some? && response.value.status == 200 && HeaderCodeIsZero(response.value.payload) == Ok(true)
  }

  /**
   * isLiked: for InitFetch and Like the item is liked iff the call
   * succeeded; for any other type iff it did not. Reading the code of a 200
   * response without a payload header throws.
   */
  function IsLiked(response: Option<QueryResponse>, fetchType: FavoriteFetchType): (r: Result<bool, string>)
    ensures r.Err? <==> response.Some? && response.value.status == 200 && HeaderCodeIsZero(response.value.payload).Err?
    ensures r.Ok? && (fetchType == InitFetch || fetchType == Like) ==> (r.value <==> Succeeded(response))
    ensures r.Ok? && (fetchType == Unlike || fetchType == FetchAll) ==> (r.value <==> !Succeeded(response))
  {
    var success := Success(response);
    if success.Err? then success
    else if fetchType == InitFetch || fetchType == Like then success
    else Ok(!success.value)
  }

  /** A like and an unlike read the same response in opposite ways. */
  lemma LikeAndUnlikeDisagree(response: Option<QueryResponse>)
    requires IsLiked(response, Like).Ok?
    ensures IsLiked(response, Unlike).Ok?
    ensures IsLiked(response, Unlike).value == !IsLiked(response, Like).value
    ensures IsLiked(response, InitFetch) == IsLiked(response, Like)
  {
  }

  /**
   * handleFetchAllQuery's result: the payload's data when the screen was
   * mounted before and after the query and the response succeeded, [] in
   * every other case; a 200 without a payload header throws.
   */
  function FetchAllResult(mountedBefore: bool, response: QueryResponse, mountedAfter: bool): (r: Result<Value, string>)
    ensures r.Err? <==> mountedBefore && mountedAfter && response.status == 200 && HeaderCodeIsZero(response.payload).Err?
    ensures r.Ok? && mountedBefore && mountedAfter && Succeeded(Some(response)) ==> r.value == Prop(response.payload, "data")
    ensures r.Ok? && !(mountedBefore && mountedAfter && Succeeded(Some(response))) ==> r.value == Arr([])
  {
    if !mountedBefore || !mountedAfter then Ok(Arr([]))
    else if response.status != 200 then Ok(Arr([]))
    else
      match HeaderCodeIsZero(response.payload)
      case Err(e) => Err(e)
      case Ok(zero) => if zero then Ok(Prop(response.payload, "data")) else Ok(Arr([]))
  }

  /** The list call returns data exactly on a response that would mark a liked item as liked. */
  lemma FetchAllAgreesWithLike(response: QueryResponse)
    requires IsLiked(Some(response), Like).Ok?
    ensures FetchAllResult(true, response, true).Ok?
    ensures IsLiked(Some(response), Like).value ==> FetchAllResult(true, response, true).value == Prop(response.payload, "data")
    ensures !IsLiked(Some(response), Like).value ==> FetchAllResult(true, response, true).value == Arr([])
  {
  }

  /** favAction: a favourites-backend request carrying the bearer access token and the ovat token. */
  function FavAction(httpMethod: string, endpoint: string, body: Option<Value>,
                     ovatToken: Option<string>, accessToken: Option<string>): (r: Query.Action)
    ensures r.clientIdentifier == "favorite" && r.httpMethod == httpMethod && r.endpoint == endpoint
    ensures r.body == body && r.params.None?
    ensures r.headers.Some? && r.headers.value.Keys == {"Authorization", "X-Authorization"}
    ensures |r.headers.value["Authorization"]| >= 7 && r.headers.value["Authorization"][..7] == "Bearer "
    ensures accessToken.Some? ==> r.headers.value["Authorization"] == "Bearer " + accessToken.value
    ensures r.headers.value["X-Authorization"] == if ovatToken.Some? then ovatToken.value else ""
  {
    var bearer := "Bearer " + (if accessToken.Some? then accessToken.value else "undefined");
    var ovat := if ovatToken.Some? && ovatToken.value != "" then ovatToken.value else "";
    Query.Action(httpMethod, endpoint, "favorite", body,
                 Some(map["Authorization" := bearer, "X-Authorization" := ovat]), None)
  }

  /**
   * actionForType: Like puts `create` with the item id in the body, Unlike
   * deletes `delete/<id>`, InitFetch gets `lookup/<id>`; FetchAll has no
   * case and yields undefined.
   */
  function ActionForType(fetchType: FavoriteFetchType, resourceId: string,
                         ovatToken: Option<string>, accessToken: Option<string>): (r: Option<Query.Action>)
    ensures r.None? <==> fetchType == FetchAll
    ensures fetchType == Like ==> r.value.httpMethod == "PUT" && r.value.endpoint == "create"
                                  && r.value.body == Some(Obj(map["itemId" := Str(resourceId)]))
    ensures fetchType == Unlike ==> r.value.httpMethod == "DELETE" && r.value.endpoint == "delete/" + resourceId
                                    && r.value.body.None?
    ensures fetchType == InitFetch ==> r.value.httpMethod == "GET" && r.value.endpoint == "lookup/" + resourceId
                                       && r.value.body.None?
  {
    match fetchType
    case Like => Some(FavAction("PUT", "create", Some(Obj(map["itemId" := Str(resourceId)])), ovatToken, accessToken))
    case Unlike => Some(FavAction("DELETE", "delete/" + resourceId, None, ovatToken, accessToken))
    case InitFetch => Some(FavAction("GET", "lookup/" + resourceId, None, ovatToken, accessToken))
    case FetchAll => None
  }

  /** The item a request is about can be read back from it, and the three calls never share a request. */
  lemma ActionForTypeNamesItem(resourceId: string, ovatToken: Option<string>, accessToken: Option<string>)
    ensures ActionForType(Unlike, resourceId, ovatToken, accessToken).value.endpoint[7..] == resourceId
    ensures ActionForType(InitFetch, resourceId, ovatToken, accessToken).value.endpoint[7..] == resourceId
    ensures ActionForType(Like, resourceId, ovatToken, accessToken).value.body.value.fields["itemId"] == Str(resourceId)
    ensures ActionForType(Like, resourceId, ovatToken, accessToken) != ActionForType(Unlike, resourceId, ovatToken, accessToken)
    ensures ActionForType(Unlike, resourceId, ovatToken, accessToken) != ActionForType(InitFetch, resourceId, ovatToken, accessToken)
    ensures ActionForType(InitFetch, resourceId, ovatToken, accessToken) != ActionForType(Like, resourceId, ovatToken, accessToken)
  {
  }

  /** A numeric list parameter `name=<n>` (the key given with its '='), present only when the number is truthy. */
  function NumberParam(key: string, value: Option<int>): seq<string>
  {
    if value.Some? && value.value != 0 then [key + Strings.IntToString(value.value)] else []
  }

  /** A text list parameter `name=<s>` (the key given with its '='), present only when the text is truthy. */
  function TextParam(key: string, value: Option<string>): seq<string>
  {
    if value.Some? && value.value != "" then [key + value.value] else []
  }

  /** The parameters of the favourites list request, in the order they are written. */
  function FavoriteParams(pageNumber: Option<int>, pageSize: Option<int>, sort: Option<string>, order: Option<string>): seq<string>
  {
    NumberParam("pageNumber=", pageNumber) + NumberParam("pageSize=", pageSize) + TextParam("sort=", sort) + TextParam("order=", order)
  }

  /** A query string: '?' before the first parameter and '&' before each later one; empty without parameters. */
  function QueryString(params: seq<string>): string
  {
    if params == [] then "" else "?" + Strings.Join(params, "&")
  }

  /** Joining one more piece onto a non-empty list adds the separator and the piece. */
  lemma {:induction false} JoinSnoc(parts: seq<string>, p: string, sep: string)
    requires parts != []
    ensures Strings.Join(parts + [p], sep) == Strings.Join(parts, sep) + sep + p
  {
    if |parts| == 1 {
      assert (parts + [p])[1..] == [p];
    } else {
      assert (parts + [p])[1..] == parts[1..] + [p];
      JoinSnoc(parts[1..], p, sep);
    }
  }

  /** Appending a parameter: '?' when the string is still empty, '&' otherwise. */
  lemma QueryStringSnoc(params: seq<string>, p: string)
    ensures QueryString(params + [p]) == QueryString(params) + (if QueryString(params) != "" then "&" else "?") + p
  {
    if params != [] {
      JoinSnoc(params, p, "&");
    } else {
      assert params + [p] == [p];
    }
  }

  /** Appending at most one parameter to the parameters written so far. */
  lemma QueryStringAppend(params: seq<string>, extra: seq<string>)
    requires |extra| <= 1
    ensures QueryString(params + extra)
         == if extra == [] then QueryString(params)
            else QueryString(params) + (if QueryString(params) != "" then "&" else "?") + extra[0]
  {
    if extra == [] {
      assert params + extra == params;
    } else {
      QueryStringSnoc(params, extra[0]);
      assert extra == [extra[0]];
    }
  }

  /**
   * fetchAllFavorite: builds the list request by appending each truthy
   * parameter to the params string in the order pageNumber, pageSize, sort,
   * order.
   */
  method FetchAllFavorite(ovatToken: Option<string>, accessToken: Option<string>, pageNumber: Option<int>,
                          pageSize: Option<int>, sort: Option<string>, order: Option<string>) returns (action: Query.Action)
    ensures action == FavAction("GET", "list" + QueryString(FavoriteParams(pageNumber, pageSize, sort, order)), None, ovatToken, accessToken)
  {
    ghost var p1 := NumberParam("pageNumber=", pageNumber);
    ghost var p2 := p1 + NumberParam("pageSize=", pageSize);
    ghost var p3 := p2 + TextParam("sort=", sort);
    ghost var p4 := p3 + TextParam("order=", order);
    assert p4 == FavoriteParams(pageNumber, pageSize, sort, order);
    var params := "";
    QueryStringAppend([], p1);
    assert [] + p1 == p1;
    if pageNumber.Some? && pageNumber.value != 0 {
      var piece := "pageNumber=" + Strings.IntToString(pageNumber.value);
      params := params + (if params != "" then "&" else "?") + piece;
    }
    assert params == QueryString(p1);
    QueryStringAppend(p1, NumberParam("pageSize=", pageSize));
    if pageSize.Some? && pageSize.value != 0 {
      var piece := "pageSize=" + Strings.IntToString(pageSize.value);
      params := params + (if params != "" then "&" else "?") + piece;
    }
    assert params == QueryString(p2);
    QueryStringAppend(p2, TextParam("sort=", sort));
    if sort.Some? && sort.value != "" {
      var piece := "sort=" + sort.value;
      params := params + (if params != "" then "&" else "?") + piece;
    }
    assert params == QueryString(p3);
    QueryStringAppend(p3, TextParam("order=", order));
    if order.Some? && order.value != "" {
      var piece := "order=" + order.value;
      params := params + (if params != "" then "&" else "?") + piece;
    }
    assert params == QueryString(p4);
    var endpoint := "list" + params;
    assert endpoint == "list" + QueryString(FavoriteParams(pageNumber, pageSize, sort, order));
    action := FavAction("GET", endpoint, None, ovatToken, accessToken);
  }

  /** Without any truthy parameter the list request is plain `list`. */
  lemma NoParamsPlainList(pageNumber: Option<int>, pageSize: Option<int>, sort: Option<string>, order: Option<string>)
    requires pageNumber.None? || pageNumber.value == 0
    requires pageSize.None? || pageSize.value == 0
    requires sort.None? || sort.value == ""
    requires order.None? || order.value == ""
    ensures QueryString(FavoriteParams(pageNumber, pageSize, sort, order)) == ""
  {
  }

  /** A parameter piece of the list request contains no '&' when its text does not. */
  lemma ParamsAvoidAmpersand(pageNumber: Option<int>, pageSize: Option<int>, sort: Option<string>, order: Option<string>)
    requires sort.Some? ==> '&' !in sort.value
    requires order.Some? ==> '&' !in order.value
    ensures forall i :: 0 <= i < |FavoriteParams(pageNumber, pageSize, sort, order)| ==>
              '&' !in FavoriteParams(pageNumber, pageSize, sort, order)[i]
  {
    var ps := FavoriteParams(pageNumber, pageSize, sort, order);
    forall i | 0 <= i < |ps|
      ensures '&' !in ps[i]
    {
      var a := NumberParam("pageNumber=", pageNumber);
      var b := NumberParam("pageSize=", pageSize);
      var c := TextParam("sort=", sort);
      assert ps == a + b + c + TextParam("order=", order);
      if a != [] {
        IntToStringAvoids(pageNumber.value);
      }
      if b != [] {
        IntToStringAvoids(pageSize.value);
      }
    }
  }

  /** A number's text has no '&'. */
  lemma IntToStringAvoids(n: int)
    ensures '&' !in Strings.IntToString(n)
    ensures '&' !in "pageNumber=" + Strings.IntToString(n) && '&' !in "pageSize=" + Strings.IntToString(n)
  {
    var t := Strings.NatToString(if n < 0 then -n else n);
    assert forall i :: 0 <= i < |t| ==> t[i] != '&';
  }

  /**
   * The list request's parameters are recovered by splitting its query
   * string on '&', when the sort and order texts contain no '&'.
   */
  lemma FetchAllParamsRoundTrip(pageNumber: Option<int>, pageSize: Option<int>, sort: Option<string>, order: Option<string>)
    requires sort.Some? ==> '&' !in sort.value
    requires order.Some? ==> '&' !in order.value
    requires FavoriteParams(pageNumber, pageSize, sort, order) != []
    ensures var q := QueryString(FavoriteParams(pageNumber, pageSize, sort, order));
            q[0] == '?' && Strings.Split(q[1..], '&') == FavoriteParams(pageNumber, pageSize, sort, order)
  {
    var ps := FavoriteParams(pageNumber, pageSize, sort, order);
    ParamsAvoidAmpersand(pageNumber, pageSize, sort, order);
    var q := QueryString(ps);
    assert q[1..] == Strings.Join(ps, "&");
    Strings.SplitJoin(ps, '&');
  }
}
