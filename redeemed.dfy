/**
 * The My Content logic over redeemed (rented) assets: ordering by expiry,
 * merging playback bookmarks into assets, building a carousel container for
 * a list of assets and the index arithmetic of loading its next page.
 */
module Redeemed {
  import opened Wrappers
  import opened Js
  import Keyed

  /** A redeemed asset; validityEndDate is the parsed end of validity in milliseconds. */
  datatype VodEntitlement = VodEntitlement(
    serviceID: string,
    assetType: string,
    validityEndDate: int,
    offset: Value,
    updatedTimestamp: Value)

  /** A playback bookmark of the player SDK. */
  datatype Bookmark = Bookmark(itemId: string, offset: Value, updatedTimestamp: Value)

  /** sortByExpiringAscending: negative when a expires first. */
  function SortByExpiringAscending(a: VodEntitlement, b: VodEntitlement): (r: int)
    ensures r < 0 <==> a.validityEndDate < b.validityEndDate
    ensures r == 0 <==> a.validityEndDate == b.validityEndDate
  {
    a.validityEndDate - b.validityEndDate
  }

  /** sortByExpiringDescending: negative when a expires last. */
  function SortByExpiringDescending(a: VodEntitlement, b: VodEntitlement): (r: int)
    ensures r < 0 <==> a.validityEndDate > b.validityEndDate
    ensures r == 0 <==> a.validityEndDate == b.validityEndDate
  {
    b.validityEndDate - a.validityEndDate
  }

  /** The two orders are each other's reverse, and each is antisymmetric. */
  lemma ComparatorsAreNegations(a: VodEntitlement, b: VodEntitlement)
    ensures SortByExpiringDescending(a, b) == -SortByExpiringAscending(a, b)
    ensures SortByExpiringAscending(b, a) == -SortByExpiringAscending(a, b)
    ensures SortByExpiringDescending(a, b) == SortByExpiringAscending(b, a)
  {
  }

  /** The asset with a bookmark's playback position and its time. */
  function WithBookmark(asset: VodEntitlement, bookmark: Bookmark): VodEntitlement
  {
    asset.(offset := bookmark.offset, updatedTimestamp := bookmark.updatedTimestamp)
  }

  /** mixin: no asset gives undefined; otherwise the asset carries the bookmark's offset and timestamp. */
  function Mixin(asset: Option<VodEntitlement>, bookmark: Bookmark): (r: Option<VodEntitlement>)
    ensures r.None? <==> asset.None?
    ensures r.Some? ==> r.value.offset == bookmark.offset && r.value.updatedTimestamp == bookmark.updatedTimestamp
    ensures r.Some? ==> r.value.serviceID == asset.value.serviceID
                        && r.value.assetType == asset.value.assetType
                        && r.value.validityEndDate == asset.value.validityEndDate
  {
    if asset.None? then None else Some(WithBookmark(asset.value, bookmark))
  }

  /** The bookmarks of one item, in order. */
  function BookmarksFor(bookmarks: seq<Bookmark>, id: string): (r: seq<Bookmark>)
    ensures forall b :: b in r ==> b in bookmarks && b.itemId == id
    ensures |r| == 0 <==> forall i :: 0 <= i < |bookmarks| ==> bookmarks[i].itemId != id
  {
    if bookmarks == [] then []
    else if bookmarks[0].itemId == id then [bookmarks[0]] + BookmarksFor(bookmarks[1..], id)
    else BookmarksFor(bookmarks[1..], id)
  }

  /** The head of the filtered list is the first matching bookmark. */
  lemma {:induction false} BookmarksForHead(bookmarks: seq<Bookmark>, id: string)
    requires |BookmarksFor(bookmarks, id)| > 0
    ensures exists i :: 0 <= i < |bookmarks| && bookmarks[i] == BookmarksFor(bookmarks, id)[0]
                        && forall j :: 0 <= j < i ==> bookmarks[j].itemId != id
  {
    if bookmarks[0].itemId != id {
      BookmarksForHead(bookmarks[1..], id);
      var i :| 0 <= i < |bookmarks[1..]| && bookmarks[1..][i] == BookmarksFor(bookmarks[1..], id)[0]
               && forall j :: 0 <= j < i ==> bookmarks[1..][j].itemId != id;
      assert bookmarks[i + 1] == BookmarksFor(bookmarks, id)[0];
      forall j | 0 <= j < i + 1
        ensures bookmarks[j].itemId != id
      {
        if j > 0 {
          assert bookmarks[j] == bookmarks[1..][j - 1];
        }
      }
    } else {
      assert bookmarks[0] == BookmarksFor(bookmarks, id)[0];
    }
  }

  /** mixinAllContents: the asset with the offset of the first bookmark for it, or unchanged when there is none. */
  function MixinAllContents(asset: VodEntitlement, bookmarks: seq<Bookmark>): (r: VodEntitlement)
    ensures r.serviceID == asset.serviceID && r.assetType == asset.assetType
            && r.validityEndDate == asset.validityEndDate
  {
    var filtered := BookmarksFor(bookmarks, asset.serviceID);
    if |filtered| > 0 then WithBookmark(asset, filtered[0]) else asset
  }

  /** With no bookmark for the asset, mixinAllContents returns it as it is. */
  lemma MixinAllContentsWithoutBookmark(asset: VodEntitlement, bookmarks: seq<Bookmark>)
    requires forall i :: 0 <= i < |bookmarks| ==> bookmarks[i].itemId != asset.serviceID
    ensures MixinAllContents(asset, bookmarks) == asset
  {
  }

  /** With bookmarks for the asset, the first of them decides offset and timestamp; later ones are ignored. */
  lemma MixinAllContentsFirstBookmark(asset: VodEntitlement, bookmarks: seq<Bookmark>)
    requires exists i :: 0 <= i < |bookmarks| && bookmarks[i].itemId == asset.serviceID
    ensures exists i :: 0 <= i < |bookmarks| && bookmarks[i].itemId == asset.serviceID
                        && (forall j :: 0 <= j < i ==> bookmarks[j].itemId != asset.serviceID)
                        && MixinAllContents(asset, bookmarks) == Mixin(Some(asset), bookmarks[i]).value
  {
    var filtered := BookmarksFor(bookmarks, asset.serviceID);
    assert |filtered| > 0;
    BookmarksForHead(bookmarks, asset.serviceID);
    var i :| 0 <= i < |bookmarks| && bookmarks[i] == filtered[0]
             && forall j :: 0 <= j < i ==> bookmarks[j].itemId != asset.serviceID;
    assert filtered[0] in filtered;
  }

  /** `_redeemedAssetsMap`: the redeemed assets indexed by serviceID, a later one winning. */
  function RedeemedAssetsMap(redeemed: seq<VodEntitlement>): map<string, VodEntitlement>
  {
    Keyed.IndexBy(redeemed, (a: VodEntitlement) => a.serviceID, (a: VodEntitlement) => a)
  }

  /** The assets map has an entry for exactly the redeemed serviceIDs, holding the last entitlement with that id. */
  lemma RedeemedAssetsMapKeys(redeemed: seq<VodEntitlement>, id: string)
    ensures id in RedeemedAssetsMap(redeemed) <==> exists i :: 0 <= i < |redeemed| && redeemed[i].serviceID == id
    ensures id in RedeemedAssetsMap(redeemed) ==> RedeemedAssetsMap(redeemed)[id].serviceID == id
    ensures forall i :: 0 <= i < |redeemed| && redeemed[i].serviceID == id && NoneAfter(redeemed, id, i) ==>
      RedeemedAssetsMap(redeemed)[id] == redeemed[i]
  {
    forall i | 0 <= i < |redeemed| && redeemed[i].serviceID == id && NoneAfter(redeemed, id, i)
      ensures id in RedeemedAssetsMap(redeemed) && RedeemedAssetsMap(redeemed)[id] == redeemed[i]
    {
      Keyed.IndexByLastWins(redeemed, (a: VodEntitlement) => a.serviceID, (a: VodEntitlement) => a, i);
    }
    Keyed.IndexByKeys(redeemed, (a: VodEntitlement) => a.serviceID, (a: VodEntitlement) => a, id);
    if id in RedeemedAssetsMap(redeemed) {
      var i :| 0 <= i < |redeemed| && redeemed[i].serviceID == id;
      var last := LastWithId(redeemed, id, i);
      Keyed.IndexByLastWins(redeemed, (a: VodEntitlement) => a.serviceID, (a: VodEntitlement) => a, last);
    }
  }

  /** No entitlement after index `i` has serviceID `id`. */
  predicate NoneAfter(redeemed: seq<VodEntitlement>, id: string, i: int)
    requires 0 <= i < |redeemed|
  {
    forall j :: i < j < |redeemed| ==> redeemed[j].serviceID != id
  }

  /** The last position carrying a serviceID, at or after a known one. */
  function LastWithId(redeemed: seq<VodEntitlement>, id: string, i: nat): (last: nat)
    requires i < |redeemed| && redeemed[i].serviceID == id
    ensures i <= last < |redeemed| && redeemed[last].serviceID == id
    ensures forall j :: last < j < |redeemed| ==> redeemed[j].serviceID != id
    decreases |redeemed| - i
  {
    if exists j :: i < j < |redeemed| && redeemed[j].serviceID == id
    then
      var j :| i < j < |redeemed| && redeemed[j].serviceID == id;
      LastWithId(redeemed, id, j)
    else i
  }

  /** The lookup `_redeemedAssetsMap[bmk.itemId]`, undefined for an unknown id. */
  function Lookup(index: map<string, VodEntitlement>, id: string): Option<VodEntitlement>
  {
    if id in index then Some(index[id]) else None
  }

  /** The continue-watching assets: each bookmark mixed into the entitlement it names, dropping bookmarks without one. */
  function ContinueWatchingAssets(bookmarks: seq<Bookmark>, index: map<string, VodEntitlement>): (r: seq<VodEntitlement>)
    ensures |r| <= |bookmarks|
  {
    if bookmarks == [] then []
    else
      var head := Mixin(Lookup(index, bookmarks[0].itemId), bookmarks[0]);
      (if head.Some? then [head.value] else []) + ContinueWatchingAssets(bookmarks[1..], index)
  }

  /**
   * Every continue-watching asset is a redeemed asset carrying the offset of
   * a bookmark for it, and every bookmark of a redeemed asset contributes one.
   */
  lemma {:induction false} ContinueWatchingAssetsFromBookmarks(bookmarks: seq<Bookmark>, index: map<string, VodEntitlement>)
    ensures forall a :: a in ContinueWatchingAssets(bookmarks, index) ==>
              exists b :: b in bookmarks && b.itemId in index && a == WithBookmark(index[b.itemId], b)
    ensures (forall i :: 0 <= i < |bookmarks| ==> bookmarks[i].itemId in index) ==>
              |ContinueWatchingAssets(bookmarks, index)| == |bookmarks|
  {
    if bookmarks != [] {
      ContinueWatchingAssetsFromBookmarks(bookmarks[1..], index);
      var r := ContinueWatchingAssets(bookmarks, index);
      var rest := ContinueWatchingAssets(bookmarks[1..], index);
      forall a | a in r
        ensures exists b :: b in bookmarks && b.itemId in index && a == WithBookmark(index[b.itemId], b)
      {
        if a in rest {
          var b :| b in bookmarks[1..] && b.itemId in index && a == WithBookmark(index[b.itemId], b);
          assert b in bookmarks;
        } else {
          assert bookmarks[0] in bookmarks;
        }
      }
      if forall i :: 0 <= i < |bookmarks| ==> bookmarks[i].itemId in index {
        assert bookmarks[0].itemId in index;
        forall i | 0 <= i < |bookmarks[1..]|
          ensures bookmarks[1..][i].itemId in index
        {
          assert bookmarks[1..][i] == bookmarks[i + 1];
        }
      }
    }
  }

  /** JavaScript's index rule for slice: negative counts from the end, then clamped to the length. */
  function SliceIndex(i: int, len: nat): (r: nat)
    ensures r <= len
    ensures 0 <= i <= len ==> r == i
  {
    if i < 0 then (if len + i < 0 then 0 else len + i) else if i < len then i else len
  }

  /** `s.slice(start, end)`. */
  function JsSlice<T>(s: seq<T>, start: int, end: int): (r: seq<T>)
    ensures |r| <= |s|
    ensures 0 <= start <= end <= |s| ==> r == s[start..end]
  {
    var a := SliceIndex(start, |s|);
    var b := SliceIndex(end, |s|);
    if a < b then s[a..b] else []
  }

  /** The ContainerVm fields this logic sets and reads. */
  datatype Container = Container(
    id: string,
    name: string,
    size: string,
    resources: Option<seq<Value>>,
    contentIds: Option<seq<string>>,
    pageNumber: int,
    lazyLoading: bool,
    maxResources: int,
    continueWatching: Value)

  /** The service ids of the assets, in order. */
  function AssetIds(assets: seq<VodEntitlement>): (r: seq<string>)
    ensures |r| == |assets|
    ensures forall i :: 0 <= i < |assets| ==> r[i] == assets[i].serviceID
  {
    if assets == [] then [] else [assets[0].serviceID] + AssetIds(assets[1..])
  }

  /**
   * The ids containerForAssets asks metadata for: none when the container is
   * switched off (showContainer === false) or has no assets; otherwise the
   * first min(maxResources, page size) ids.
   */
  function ContainerRequest(assets: seq<VodEntitlement>, maxResources: int, showContainer: Value, pageSize: int): (r: Option<seq<string>>)
    ensures r.None? <==> showContainer == Bool(false) || |assets| == 0
    ensures r.Some? && 0 <= maxResources && 0 <= pageSize ==>
              var n := if maxResources < pageSize then maxResources else pageSize;
              r.value == AssetIds(assets)[..if n < |assets| then n else |assets|]
  {
    if showContainer == Bool(false) then None
    else
      var assetIds := AssetIds(assets);
      if |assetIds| <= 0 then None
      else Some(JsSlice(assetIds, 0, if maxResources < pageSize then maxResources else pageSize))
  }

  /**
   * containerForAssets: undefined when switched off or empty; otherwise a
   * carousel on its first page holding every asset id and the fetched
   * resources (undefined when the metadata request failed).
   */
  function ContainerForAssets(id: string, name: string, assets: seq<VodEntitlement>, maxResources: int,
                              continueWatching: Value, showContainer: Value, showFooterTitle: Value,
                              fetched: Option<seq<Value>>): (r: Option<Container>)
    ensures r.None? <==> showContainer == Bool(false) || |assets| == 0
    ensures r.Some? ==> r.value.id == id && r.value.contentIds == Some(AssetIds(assets))
                        && r.value.pageNumber == 1 && !r.value.lazyLoading
                        && r.value.resources == fetched && r.value.maxResources == maxResources
    ensures r.Some? ==> (r.value.size == "large" <==> Truthy(showFooterTitle))
  {
    if showContainer == Bool(false) then None
    else
      var assetIds := AssetIds(assets);
      if |assetIds| <= 0 then None
      else Some(Container(id, name, if Truthy(showFooterTitle) then "large" else "regular",
                          fetched, Some(assetIds), 1, false, maxResources, continueWatching))
  }

  /**
   * The ids loadMoreResources asks for: nothing without ids, without a page
   * number or while a page is loading; otherwise the slice from
   * pageNumber * size up to the next page boundary, capped by a truthy
   * maxResources, and nothing when that slice is empty.
   */
  function LoadMoreRequest(container: Container, pageSize: int): (r: Option<seq<string>>)
    ensures (container.contentIds.None? || |container.contentIds.value| == 0
             || container.pageNumber == 0 || container.lazyLoading) ==> r.None?
    ensures r.Some? ==> |r.value| > 0
  {
    if container.contentIds.None? || |container.contentIds.value| <= 0 || container.pageNumber == 0 || container.lazyLoading
    then None
    else
      var startIndex := container.pageNumber * pageSize;
      var endIndex := startIndex + pageSize;
      var actualEndIndex :=
        if container.maxResources != 0
        then (if endIndex < container.maxResources then endIndex else container.maxResources)
        else endIndex;
      var assetIds := JsSlice(container.contentIds.value, startIndex, actualEndIndex);
      if |assetIds| <= 0 then None else Some(assetIds)
  }

  /** The end of the page a container asks for, before clipping to the id list. */
  function PageEnd(container: Container, pageSize: int): int
  {
    var endIndex := (container.pageNumber + 1) * pageSize;
    if 0 < container.maxResources < endIndex then container.maxResources else endIndex
  }

  /**
   * On a positive page number and page size with a non-negative maximum, the
   * page is exactly ids[pageNumber * size .. min(next boundary, maxResources, |ids|)],
   * so it never holds more than a page nor an id beyond maxResources.
   */
  lemma LoadMorePage(container: Container, pageSize: int)
    requires container.contentIds.Some? && container.pageNumber > 0 && !container.lazyLoading
    requires pageSize > 0 && container.maxResources >= 0
    ensures var ids := container.contentIds.value;
            var lo := container.pageNumber * pageSize;
            var hi := if PageEnd(container, pageSize) < |ids| then PageEnd(container, pageSize) else |ids|;
            LoadMoreRequest(container, pageSize) == if lo < hi then Some(ids[lo..hi]) else None
  {
    var ids := container.contentIds.value;
    var lo := container.pageNumber * pageSize;
    assert lo >= 0;
    assert (container.pageNumber + 1) * pageSize == lo + pageSize;
  }

  /** The container after a page of resources arrived: the next page number, the resources appended. */
  function Appended(container: Container, resources: seq<Value>): Container
  {
    container.(
      lazyLoading := false,
      pageNumber := if container.pageNumber != 0 then container.pageNumber + 1 else 1,
      resources := Some((if container.resources.Some? then container.resources.value else []) + resources))
  }

  /**
   * loadMoreResources' state update: when the request exists, the metadata
   * came back and the screen is still mounted, the container with the same id
   * is replaced by the argument container advanced by one page; every other
   * container is kept. Otherwise the state is left alone (None).
   */
  function LoadMoreResources(containers: seq<Container>, container: Container, pageSize: int,
                             fetched: Option<seq<Value>>, mounted: bool): (r: Option<seq<Container>>)
    ensures r.Some? <==> LoadMoreRequest(container, pageSize).Some? && fetched.Some? && mounted
    ensures r.Some? ==> (|r.value| == |containers|
                         && forall i :: 0 <= i < |containers| ==>
                              r.value[i] == if containers[i].id == container.id then Appended(container, fetched.value) else containers[i])
  {
    if LoadMoreRequest(container, pageSize).None? || fetched.None? || !mounted then None
    else Some(seq(|containers|, i requires 0 <= i < |containers| =>
                if containers[i].id == container.id then Appended(container, fetched.value) else containers[i]))
  }

  /** After a page arrived, the next request starts where the previous page ended. */
  lemma LoadMoreAdvances(container: Container, pageSize: int, fetched: seq<Value>)
    requires container.contentIds.Some? && container.pageNumber > 0 && !container.lazyLoading
    requires pageSize > 0 && container.maxResources >= 0
    ensures var ids := container.contentIds.value;
            var next := Appended(container, fetched);
            var lo := (container.pageNumber + 1) * pageSize;
            (LoadMoreRequest(next, pageSize).Some? ==> SliceAt(ids, lo, LoadMoreRequest(next, pageSize).value))
            && next.resources.Some? && |next.resources.value| == |if container.resources.Some? then container.resources.value else []| + |fetched|
  {
    var ids := container.contentIds.value;
    var next := Appended(container, fetched);
    assert next.pageNumber == container.pageNumber + 1;
    var lo := next.pageNumber * pageSize;
    assert lo == (container.pageNumber + 1) * pageSize;
    var hi := if PageEnd(next, pageSize) < |ids| then PageEnd(next, pageSize) else |ids|;
    LoadMorePage(next, pageSize);
    if lo < hi {
      assert |ids[lo..hi]| == hi - lo;
      assert SliceAt(ids, lo, ids[lo..hi]);
    }
  }

  /** v sits in ids at position lo. */
  predicate SliceAt<T(==)>(ids: seq<T>, lo: int, v: seq<T>)
  {
    0 <= lo && lo + |v| <= |ids| && ids[lo..lo + |v|] == v
  }

  /** The first page of containerForAssets and the first loadMore page are adjacent slices of the ids. */
  lemma FirstPagesAdjacent(assets: seq<VodEntitlement>, maxResources: int, pageSize: int, c: Container)
    requires pageSize > 0 && maxResources > 0
    requires c.contentIds == Some(AssetIds(assets)) && c.pageNumber == 1 && !c.lazyLoading && c.maxResources == maxResources
    requires ContainerRequest(assets, maxResources, Undefined, pageSize).Some?
    ensures var first := ContainerRequest(assets, maxResources, Undefined, pageSize).value;
            var second := LoadMoreRequest(c, pageSize);
            var ids := AssetIds(assets);
            first == ids[..|first|]
            && (second.Some? ==> |first| == pageSize && second.value == ids[pageSize..pageSize + |second.value|])
  {
    LoadMorePage(c, pageSize);
  }
}
