/**
 * The "up next" recommendation after playback
 * (screens/hooks/useUpNextRecommendations.ts): the request for
 * recommendations, the choice of one item (preferring content the user has
 * redeemed but not started) and the remaining-rental label mixed into it.
 */
module UpNext {
  import opened Wrappers
  import opened Js
  import opened Strings
  import Query
  import DiscoveryActions

  const TVEpisodeCategory: string := "tvepisode"
  const DefaultMaxUpNextItems: int := 30
  const MsPerHour: int := 3600000

  /** The fields of a resource view model the recommendation logic reads. */
  datatype Resource = Resource(
    id: string,
    category: string,
    providerName: Value,
    seriesId: Value,
    seasonNumber: Value,
    episodeNumber: Value,
    contentGenre: Option<map<string, seq<string>>>)

  /** A rental: `validityEndDate` is the end of the viewing window in epoch milliseconds. */
  datatype RedeemedAsset = RedeemedAsset(serviceID: string, validityEndDate: int)

  datatype UpNextType = UpNextKind | SomethingNewKind

  /** The configured maximum of Up Next items; a missing or zero setting means 30. */
  function MaxUpNextItems(configured: Option<int>): (r: int)
    ensures configured.Some? && configured.value != 0 ==> r == configured.value
    ensures configured.None? || configured == Some(0) ==> r == DefaultMaxUpNextItems
  {
    if configured.Some? && configured.value != 0 then configured.value else DefaultMaxUpNextItems
  }

  /** The genres of the resource in the app language, or none. */
  function Genres(res: Resource, appLanguage: string): seq<string>
  {
    if res.contentGenre.Some? && appLanguage in res.contentGenre.value then res.contentGenre.value[appLanguage] else []
  }

  /**
   * `createUpNextAction`: the query names genres, category, id and page
   * size; an up-next query also names the provider; for an episode the id
   * is the series and one item is asked for, after the same episode.
   */
  function CreateUpNextAction(kind: UpNextType, res: Resource, pageSize: int, excludes: Option<seq<string>>, appLanguage: string): (r: Query.Action)
    ensures r.endpoint == "/upnext" && r.clientIdentifier == "metadata" && r.params.Some?
    ensures Get(r.params.value, "g") == Str(Join(Genres(res, appLanguage), ","))
    ensures Get(r.params.value, "cty") == Str(res.category)
    ensures res.category == TVEpisodeCategory ==>
      Get(r.params.value, "id") == res.seriesId && Get(r.params.value, "pageSize") == Num(1) &&
      Get(r.params.value, "snum") == res.seasonNumber && Get(r.params.value, "epnum") == res.episodeNumber
    ensures res.category != TVEpisodeCategory ==>
      Get(r.params.value, "id") == Str(res.id) && Get(r.params.value, "pageSize") == Num(pageSize) &&
      "snum" !in r.params.value && "epnum" !in r.params.value
    ensures ("pn" in r.params.value) <==> kind == UpNextKind
    ensures kind == UpNextKind ==> r.params.value["pn"] == res.providerName
    ensures ("exclude" in r.params.value) <==> excludes.Some?
    ensures excludes.Some? ==> r.params.value["exclude"] == Str(Join(excludes.value, ","))
  {
    var base := map["g" := Str(Join(Genres(res, appLanguage), ",")), "cty" := Str(res.category), "id" := Str(res.id), "pageSize" := Num(pageSize)];
    // each conditional spread overwrites the keys it names
    var withProvider := if kind == UpNextKind then base["pn" := res.providerName] else base;
    var withEpisode := if res.category == TVEpisodeCategory
      then withProvider["id" := res.seriesId]["snum" := res.seasonNumber]["epnum" := res.episodeNumber]["pageSize" := Num(1)]
      else withProvider;
    var withExclude := if excludes.Some? then withEpisode["exclude" := Str(Join(excludes.value, ","))] else withEpisode;
    DiscoveryActions.CreateAction(Some("metadata"), None, Some("/upnext"), Some(withExclude))
  }

  /** Integer division truncating toward zero, as moment's whole-unit `diff` rounds. */
  function TruncDiv(x: int, d: int): int
    requires d > 0
  {
    if x >= 0 then x / d else -((-x) / d)
  }

  /** `Math.ceil(x / d)` for an integer x. */
  function CeilDiv(x: int, d: int): int
    requires d > 0
  {
    -((-x) / d)
  }

  /** The rental label: one day, or a number of days. */
  datatype ExpiryLabel = ExpiresInDay | ExpiresInDays(days: int)

  /** The days left in the window, rounded up from the whole hours left, and at least 1. */
  function ExpiryDays(validityEndDate: int, now: int): (days: int)
    ensures days >= 1
    ensures var hours := TruncDiv(validityEndDate - now, MsPerHour);
      (hours <= 24 ==> days == 1) && (hours > 24 ==> (days - 1) * 24 < hours <= days * 24)
  {
    var hours := TruncDiv(validityEndDate - now, MsPerHour);
    var d := CeilDiv(hours, 24);
    CeilDivBounds(hours, 24);
    if d > 1 then d else 1
  }

  /** `Math.ceil(x / d)` is the least multiple count covering x. */
  lemma CeilDivBounds(x: int, d: int)
    requires d > 0
    ensures (CeilDiv(x, d) - 1) * d < x <= CeilDiv(x, d) * d
  {
    var q := (-x) / d;
    var r := (-x) % d;
    assert -x == d * q + r && 0 <= r < d;
    assert CeilDiv(x, d) == -q;
    assert (-q - 1) * d == -(d * q) - d;
  }

  /** `expiresIn`: no label without a rental; "1 day" when a day is left, else the days left. */
  function ExpiresIn(asset: Option<RedeemedAsset>, now: int): (r: Option<ExpiryLabel>)
    ensures r.None? <==> asset.None?
    ensures r.Some? && r.value.ExpiresInDays? ==> r.value.days > 1
    ensures r.Some? && r.value.ExpiresInDays? ==> r.value.days == ExpiryDays(asset.value.validityEndDate, now)
    ensures r.Some? ==> (r.value == ExpiresInDay <==> ExpiryDays(asset.value.validityEndDate, now) == 1)
  {
    if asset.None? then None
    else
      var days := ExpiryDays(asset.value.validityEndDate, now);
      if days == 1 then Some(ExpiresInDay) else Some(ExpiresInDays(days))
  }

  /** The one-day label covers exactly the windows that end less than 25 hours from now. */
  lemma OneDayLabel(asset: RedeemedAsset, now: int)
    ensures ExpiresIn(Some(asset), now) == Some(ExpiresInDay) <==> asset.validityEndDate - now < 25 * MsPerHour
  {
    var diff := asset.validityEndDate - now;
    var hours := TruncDiv(diff, MsPerHour);
    if diff < 25 * MsPerHour {
      assert hours <= 24;
      assert CeilDiv(hours, 24) <= 1;
    } else {
      assert hours >= 25;
      assert CeilDiv(hours, 24) >= 2;
    }
  }

  /** The first rental of a resource, as `redeemedAssets.find`. */
  function FindRedeemed(redeemed: seq<RedeemedAsset>, id: string): (r: Option<RedeemedAsset>)
    ensures r.Some? ==> r.value in redeemed && r.value.serviceID == id
    ensures r.None? <==> forall a :: a in redeemed ==> a.serviceID != id
    ensures forall i :: 0 <= i < |redeemed| && redeemed[i].serviceID == id && NoneBefore(redeemed, id, i) ==> r == Some(redeemed[i])
  {
    if |redeemed| == 0 then None
    else if redeemed[0].serviceID == id then Some(redeemed[0])
    else FindRedeemed(redeemed[1..], id)
  }

  /** No rental before index `i` is for resource `id`. */
  predicate NoneBefore(redeemed: seq<RedeemedAsset>, id: string, i: int)
    requires 0 <= i <= |redeemed|
  {
    forall j :: 0 <= j < i ==> redeemed[j].serviceID != id
  }

  /** The chosen item with its rental label. */
  datatype UpNextItem = UpNextItem(resource: Resource, expiresIn: Option<ExpiryLabel>)

  /** `mixinRedeemed`. */
  function MixinRedeemed(res: Resource, redeemed: seq<RedeemedAsset>, now: int): (r: UpNextItem)
    ensures r.resource == res
    ensures r.expiresIn.None? <==> forall a :: a in redeemed ==> a.serviceID != res.id
    ensures forall i :: 0 <= i < |redeemed| && redeemed[i].serviceID == res.id && NoneBefore(redeemed, res.id, i) ==>
      r.expiresIn == ExpiresIn(Some(redeemed[i]), now)
  {
    UpNextItem(res, ExpiresIn(FindRedeemed(redeemed, res.id), now))
  }

  /** `_.difference(a, b)`: the elements of `a` not in `b`, in order. */
  function Difference(a: seq<string>, b: seq<string>): (r: seq<string>)
    ensures forall x :: x in r <==> x in a && x !in b
  {
    if |a| == 0 then []
    else if a[0] in b then Difference(a[1..], b)
    else [a[0]] + Difference(a[1..], b)
  }

  function Without(a: seq<string>, x: string): (r: seq<string>)
    ensures forall y :: y in r <==> y in a && y != x
  {
    if |a| == 0 then []
    else if a[0] == x then Without(a[1..], x)
    else [a[0]] + Without(a[1..], x)
  }

  /** `_.intersection(a, b)`: the distinct elements of `a` that are in `b`, in the order of `a`. */
  function Intersection(a: seq<string>, b: seq<string>): (r: seq<string>)
    ensures forall x :: x in r <==> x in a && x in b
    ensures |r| > 0 ==> r[0] in a && r[0] in b
  {
    if |a| == 0 then []
    else if a[0] in b then [a[0]] + Without(Intersection(a[1..], b), a[0])
    else Intersection(a[1..], b)
  }

  /** The intersection starts with the first element of `a` that is in `b`. */
  lemma {:induction false} IntersectionHead(a: seq<string>, b: seq<string>, j: nat)
    requires j < |a| && a[j] in b
    requires forall k :: 0 <= k < j ==> a[k] !in b
    ensures |Intersection(a, b)| > 0 && Intersection(a, b)[0] == a[j]
  {
    if j > 0 {
      IntersectionHead(a[1..], b, j - 1);
    }
  }

  /** `resources.find(r => r.id === id)`. */
  function FindById(resources: seq<Resource>, id: string): Option<Resource>
  {
    if |resources| == 0 then None
    else if resources[0].id == id then Some(resources[0])
    else FindById(resources[1..], id)
  }

  lemma {:induction false} FindByIdFirst(resources: seq<Resource>, j: nat)
    requires j < |resources|
    requires forall k :: 0 <= k < j ==> resources[k].id != resources[j].id
    ensures FindById(resources, resources[j].id) == Some(resources[j])
  {
    if j > 0 {
      FindByIdFirst(resources[1..], j - 1);
    }
  }

  function Ids(resources: seq<Resource>): (r: seq<string>)
    ensures |r| == |resources| && forall i :: 0 <= i < |r| ==> r[i] == resources[i].id
  {
    if |resources| == 0 then [] else [resources[0].id] + Ids(resources[1..])
  }

  function RedeemedIds(redeemed: seq<RedeemedAsset>): (r: seq<string>)
    ensures forall x :: x in r <==> exists a :: a in redeemed && a.serviceID == x
  {
    if |redeemed| == 0 then []
    else
      var rest := RedeemedIds(redeemed[1..]);
      assert forall a :: a in redeemed ==> a == redeemed[0] || a in redeemed[1..];
      [redeemed[0].serviceID] + rest
  }

  /** A preferred id is one the user has redeemed and has no bookmark for. */
  predicate Preferred(id: string, bookmarkIds: seq<string>, redeemed: seq<RedeemedAsset>)
  {
    id in RedeemedIds(redeemed) && id !in bookmarkIds
  }

  /**
   * `fetchUpNextItem` once the query has answered: nothing on an error or
   * without results; a single result as it is; otherwise the first result
   * the user has redeemed but not started, or else the first result.
   */
  function FetchUpNextItem(resources: Option<seq<Resource>>, error: bool, bookmarkIds: seq<string>, redeemed: seq<RedeemedAsset>, now: int): (r: Option<UpNextItem>)
    ensures error || resources.None? || resources == Some([]) ==> r.None?
    ensures r.Some? ==> r.value.resource in resources.value
  {
    if error || resources.None? then None
    else
      var res := resources.value;
      if |res| == 1 then Some(MixinRedeemed(res[0], redeemed, now))
      else
        var preferredIds := Intersection(Ids(res), Difference(RedeemedIds(redeemed), bookmarkIds));
        if |preferredIds| > 0 then
          var found := FindById(res, preferredIds[0]);
          FindByIdMember(res, preferredIds[0]);
          if found.Some? then Some(MixinRedeemed(found.value, redeemed, now)) else None
        else if |res| > 0 then Some(MixinRedeemed(res[0], redeemed, now))
        else None
  }

  lemma {:induction false} FindByIdMember(resources: seq<Resource>, id: string)
    ensures FindById(resources, id).Some? ==> FindById(resources, id).value in resources
    ensures id in Ids(resources) ==> FindById(resources, id).Some?
  {
    if |resources| > 0 {
      FindByIdMember(resources[1..], id);
      if id in Ids(resources) && resources[0].id != id {
        var i :| 0 <= i < |resources| && Ids(resources)[i] == id;
        assert Ids(resources[1..])[i - 1] == id;
      }
    }
  }

  /** A single result is taken as it is, preferred or not. */
  lemma SingleResultAsIs(res: Resource, bookmarkIds: seq<string>, redeemed: seq<RedeemedAsset>, now: int)
    ensures FetchUpNextItem(Some([res]), false, bookmarkIds, redeemed, now) == Some(MixinRedeemed(res, redeemed, now))
  {
  }

  /** Among several results, the first redeemed-but-unbookmarked one is chosen. */
  lemma PrefersRedeemedNotStarted(resources: seq<Resource>, bookmarkIds: seq<string>, redeemed: seq<RedeemedAsset>, now: int, j: nat)
    requires |resources| > 1 && j < |resources|
    requires Preferred(resources[j].id, bookmarkIds, redeemed)
    requires forall k :: 0 <= k < j ==> !Preferred(resources[k].id, bookmarkIds, redeemed)
    ensures FetchUpNextItem(Some(resources), false, bookmarkIds, redeemed, now) == Some(MixinRedeemed(resources[j], redeemed, now))
  {
    var ids := Ids(resources);
    var unwatched := Difference(RedeemedIds(redeemed), bookmarkIds);
    IntersectionHead(ids, unwatched, j);
    FindByIdFirst(resources, j);
  }

  /** With no redeemed-but-unbookmarked result, the first result is chosen. */
  lemma NoPreferredTakesFirst(resources: seq<Resource>, bookmarkIds: seq<string>, redeemed: seq<RedeemedAsset>, now: int)
    requires |resources| > 1
    requires forall k :: 0 <= k < |resources| ==> !Preferred(resources[k].id, bookmarkIds, redeemed)
    ensures FetchUpNextItem(Some(resources), false, bookmarkIds, redeemed, now) == Some(MixinRedeemed(resources[0], redeemed, now))
  {
    var ids := Ids(resources);
    var unwatched := Difference(RedeemedIds(redeemed), bookmarkIds);
    forall x | x in ids
      ensures x !in unwatched
    {
      var k :| 0 <= k < |ids| && ids[k] == x;
      assert !Preferred(resources[k].id, bookmarkIds, redeemed);
    }
  }
}
