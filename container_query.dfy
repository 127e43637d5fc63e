/**
 * Paging through a storefront tab's containers
 * (qp-discovery-ui hooks/useFetchContainerQuery.ts): each answered page
 * either replaces (page 1) or extends the containers, advances the page
 * number and recomputes whether more pages exist.
 */
module ContainerQuery {
  import opened Wrappers
  import Js
  import Paging

  /** Containers are the adapter's view models, opaque here. */
  datatype ContainerState = ContainerState(
    hasMore: bool,
    error: bool,
    errorObject: Js.Value,
    loading: bool,
    pageNumber: int,
    containers: Option<seq<Js.Value>>)

  const InitialState: ContainerState := ContainerState(false, false, Js.Undefined, true, 1, None)

  /** An answered query: the adapted containers of `payload.data` and `payload.header.count`, either possibly missing. */
  datatype PageResponse = PageResponse(error: bool, errorObject: Js.Value, data: Option<seq<Js.Value>>, count: Option<int>)

  /** The reported number of containers, 0 when the payload, its header or the count is missing. */
  function TotalContainers(count: Option<int>): int
  {
    if count.Some? then count.value else 0
  }

  /** More pages exist when the total is known and the pages so far have not reached it. */
  function PageHasMore(count: Option<int>, pageSize: int, pageNumber: int): (r: bool)
    ensures r ==> TotalContainers(count) != 0
    ensures TotalContainers(count) != 0 ==> (r <==> pageSize * pageNumber < TotalContainers(count))
  {
    var total := TotalContainers(count);
    if total != 0 then pageSize * pageNumber < total else false
  }

  /** With a non-negative page size and number, more pages exist iff the total is positive and beyond them. */
  lemma HasMoreRule(count: Option<int>, pageSize: nat, pageNumber: nat)
    ensures PageHasMore(count, pageSize, pageNumber) <==> 0 < TotalContainers(count) && pageSize * pageNumber < TotalContainers(count)
  {
  }

  /**
   * Paging through a tab of a known total: pages 1, 2, ... report more
   * containers until, and not after, the page that completes the total.
   */
  lemma HasMoreUntilLastPage(count: Option<int>, pageSize: int, pageNumber: nat)
    requires pageSize > 0
    ensures PageHasMore(count, pageSize, pageNumber) <==> pageNumber < Paging.PageCount(TotalContainers(count), pageSize)
  {
    Paging.MoreIffBeforeLastPage(TotalContainers(count), pageSize, pageNumber);
  }

  function DataOrEmpty(data: Option<seq<Js.Value>>): seq<Js.Value>
  {
    if data.Some? then data.value else []
  }

  /** `handleQuery` once the query for `pageNumber` has answered; an unmounted screen keeps its state. */
  function HandleQuery(s: ContainerState, mounted: bool, pageNumber: int, pageSize: int, response: PageResponse): (r: ContainerState)
    ensures !mounted ==> r == s
    ensures mounted ==> !r.loading && r.pageNumber == pageNumber + 1 && r.error == response.error && r.errorObject == response.errorObject
    ensures mounted ==> r.hasMore == PageHasMore(response.count, pageSize, pageNumber)
    ensures mounted && (pageNumber == 1 || s.containers.None?) ==> r.containers == Some(DataOrEmpty(response.data))
    ensures mounted && pageNumber != 1 && s.containers.Some? ==> r.containers == Some(s.containers.value + DataOrEmpty(response.data))
  {
    if !mounted then s
    else
      var previous := if pageNumber != 1 && s.containers.Some? then s.containers.value else [];
      assert [] + DataOrEmpty(response.data) == DataOrEmpty(response.data);
      s.(hasMore := PageHasMore(response.count, pageSize, pageNumber), loading := false,
         error := response.error, errorObject := response.errorObject,
         containers := Some(previous + DataOrEmpty(response.data)),
         pageNumber := pageNumber + 1)
  }

  /** `reset` (and the start of every fetch): the initial state, in error when known to be offline. */
  function Reset(isInternetReachable: Js.Value): (r: ContainerState)
    ensures r.error <==> isInternetReachable == Js.Bool(false)
    ensures r.loading && r.pageNumber == 1 && r.containers.None? && !r.hasMore
  {
    InitialState.(error := isInternetReachable == Js.Bool(false))
  }

  /** Loading page after page, each at the page number the previous one left. */
  function LoadPages(s: ContainerState, pageSize: int, responses: seq<PageResponse>): ContainerState
    decreases |responses|
  {
    if |responses| == 0 then s
    else LoadPages(HandleQuery(s, true, s.pageNumber, pageSize, responses[0]), pageSize, responses[1..])
  }

  function AllContainers(responses: seq<PageResponse>): seq<Js.Value>
  {
    if |responses| == 0 then [] else DataOrEmpty(responses[0].data) + AllContainers(responses[1..])
  }

  /** After a reset, loading k pages in turn holds exactly their containers in order, and asks next for page k + 1. */
  lemma {:induction false} LoadPagesAccumulates(isInternetReachable: Js.Value, pageSize: int, responses: seq<PageResponse>)
    requires |responses| > 0
    ensures LoadPages(Reset(isInternetReachable), pageSize, responses).containers == Some(AllContainers(responses))
    ensures LoadPages(Reset(isInternetReachable), pageSize, responses).pageNumber == |responses| + 1
  {
    var first := HandleQuery(Reset(isInternetReachable), true, 1, pageSize, responses[0]);
    LaterPagesAppend(first, pageSize, responses[1..]);
    assert AllContainers(responses) == DataOrEmpty(responses[0].data) + AllContainers(responses[1..]);
  }

  lemma {:induction false} LaterPagesAppend(s: ContainerState, pageSize: int, responses: seq<PageResponse>)
    requires s.containers.Some? && s.pageNumber >= 2
    ensures LoadPages(s, pageSize, responses).containers == Some(s.containers.value + AllContainers(responses))
    ensures LoadPages(s, pageSize, responses).pageNumber == s.pageNumber + |responses|
    decreases |responses|
  {
    if |responses| > 0 {
      var next := HandleQuery(s, true, s.pageNumber, pageSize, responses[0]);
      LaterPagesAppend(next, pageSize, responses[1..]);
      assert s.containers.value + DataOrEmpty(responses[0].data) + AllContainers(responses[1..]) ==
             s.containers.value + AllContainers(responses);
    } else {
      assert s.containers.value + [] == s.containers.value;
    }
  }
}
