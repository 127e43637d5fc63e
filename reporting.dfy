/**
 * The attribute builders behind the app's analytics events. Each condense
 * function fills a fresh attribute object key by key, setting a key only when
 * its source value is truthy; removeUndefined strips blank values from an
 * attribute object in place before it is sent.
 */
module Reporting {
  import opened Wrappers
  import opened Js
  import Strings

  /** The values removeUndefined deletes: undefined, '' and 0. Null and false stay. */
  predicate Blank(v: Value)
  {
    v == Undefined || v == Str("") || v == Num(0)
  }

  /** The attribute object removeUndefined leaves behind. */
  function WithoutBlank(m: Object): Object
  {
    map k | k in m && !Blank(m[k]) :: m[k]
  }

  /** The attribute set only when its condition holds. */
  function SetIf(attributes: Object, cond: bool, key: string, value: Value): Object
  {
    if cond then attributes[key := value] else attributes
  }

  /** An optional string argument as the JavaScript value it is. */
  function OptStr(o: Option<string>): Value
  {
    if o.Some? then Str(o.value) else Undefined
  }

  /** An optional number argument as the JavaScript value it is. */
  function OptNum(o: Option<int>): Value
  {
    if o.Some? then Num(o.value) else Undefined
  }

  /** An optional boolean argument as the JavaScript value it is. */
  function OptBool(o: Option<bool>): Value
  {
    if o.Some? then Bool(o.value) else Undefined
  }

  /** An attribute object held by reference, as removeUndefined receives it. */
  class AttributeObject {
    var attributes: Object

    constructor(attributes: Object)
      ensures this.attributes == attributes
    {
      this.attributes := attributes;
    }

    /**
     * removeUndefined: walks the keys and deletes, in place, every key whose
     * value is undefined, '' or 0; it returns the same object.
     */
    method RemoveUndefined() returns (r: Object)
      modifies this
      ensures attributes == WithoutBlank(old(attributes))
      ensures r == attributes
    {
      ghost var start := attributes;
      var keys := attributes.Keys;
      while keys != {}
        invariant keys <= attributes.Keys <= start.Keys
        invariant forall k :: k in attributes ==> attributes[k] == start[k]
        invariant forall k :: k in start ==> (k in attributes <==> k in keys || !Blank(start[k]))
        decreases keys
      {
        var key :| key in keys;
        if Blank(attributes[key]) {
          attributes := attributes - {key};
        }
        keys := keys - {key};
      }
      r := attributes;
    }
  }

  /** removeUndefined keeps exactly the keys whose value is not undefined, '' or 0, with their values. */
  lemma WithoutBlankKeeps(m: Object, k: string)
    ensures k in WithoutBlank(m) <==> k in m && !Blank(m[k])
    ensures k in WithoutBlank(m) ==> WithoutBlank(m)[k] == m[k]
  {
  }

  /** null and false are not deleted, although they are falsy. */
  lemma WithoutBlankKeepsNullAndFalse(m: Object, k: string)
    requires k in m && (m[k] == Null || m[k] == Bool(false))
    ensures k in WithoutBlank(m) && WithoutBlank(m)[k] == m[k]
  {
  }

  /** A second removeUndefined changes nothing. */
  lemma WithoutBlankIdempotent(m: Object)
    ensures WithoutBlank(WithoutBlank(m)) == WithoutBlank(m)
  {
  }

  /** An object all of whose values are truthy comes through removeUndefined unchanged. */
  lemma WithoutBlankOfTruthy(m: Object)
    requires forall k :: k in m ==> Truthy(m[k])
    ensures WithoutBlank(m) == m
  {
    forall k | k in m
      ensures !Blank(m[k])
    {
      assert Truthy(m[k]);
    }
  }

  /** condenseSearchData: each key is set only when its argument is truthy. */
  function CondenseSearchData(searchString: string, totalItems: int, position: Option<int>): (r: Object)
    ensures r.Keys <= {"searchString", "totalItems", "searchItemPosition"}
    ensures forall k :: k in r ==> Truthy(r[k])
    ensures ("searchString" in r <==> searchString != "")
            && ("searchString" in r ==> r["searchString"] == Str(searchString))
    ensures ("totalItems" in r <==> totalItems != 0)
            && ("totalItems" in r ==> r["totalItems"] == Num(totalItems))
    ensures ("searchItemPosition" in r <==> position.Some? && position.value != 0)
            && ("searchItemPosition" in r ==> r["searchItemPosition"] == OptNum(position))
  {
    var a := SetIf(map[], Truthy(Str(searchString)), "searchString", Str(searchString));
    var b := SetIf(a, Truthy(Num(totalItems)), "totalItems", Num(totalItems));
    SetIf(b, Truthy(OptNum(position)), "searchItemPosition", OptNum(position))
  }

  /** A search with no results reports no totalItems at all. */
  lemma SearchWithoutResultsOmitsTotal(searchString: string, position: Option<int>)
    ensures "totalItems" !in CondenseSearchData(searchString, 0, position)
  {
  }

  /** Search attributes need no cleaning: removeUndefined leaves them as they are. */
  lemma SearchDataIsClean(searchString: string, totalItems: int, position: Option<int>)
    ensures WithoutBlank(CondenseSearchData(searchString, totalItems, position))
         == CondenseSearchData(searchString, totalItems, position)
  {
    WithoutBlankOfTruthy(CondenseSearchData(searchString, totalItems, position));
  }

  /**
   * condensePreferanceData: prefStreamWithMobileData is written only when
   * streamOverCellular is true, and the value written is its negation.
   */
  function CondensePreferanceData(qp: Option<string>, streamOverCellular: Option<bool>,
                                  sendPushNotification: Option<bool>, prefDownloadOnWifiOnly: Option<bool>): (r: Object)
    ensures r.Keys <= {"prefStreamQuality", "prefStreamWithMobileData", "prefEnablePushNotifications", "prefDownloadOnWifiOnly"}
    ensures ("prefStreamQuality" in r <==> qp.Some? && qp.value != "")
            && ("prefStreamQuality" in r ==> r["prefStreamQuality"] == OptStr(qp))
    ensures ("prefStreamWithMobileData" in r <==> streamOverCellular == Some(true))
            && ("prefStreamWithMobileData" in r ==> r["prefStreamWithMobileData"] == Bool(false))
    ensures ("prefEnablePushNotifications" in r <==> sendPushNotification == Some(true))
            && ("prefEnablePushNotifications" in r ==> r["prefEnablePushNotifications"] == Bool(true))
    ensures ("prefDownloadOnWifiOnly" in r <==> prefDownloadOnWifiOnly == Some(true))
            && ("prefDownloadOnWifiOnly" in r ==> r["prefDownloadOnWifiOnly"] == Bool(true))
  {
    var cellular := OptBool(streamOverCellular);
    var a := SetIf(map[], Truthy(OptStr(qp)), "prefStreamQuality", OptStr(qp));
    var b := SetIf(a, Truthy(cellular), "prefStreamWithMobileData", Bool(!Truthy(cellular)));
    var c := SetIf(b, Truthy(OptBool(sendPushNotification)), "prefEnablePushNotifications", OptBool(sendPushNotification));
    SetIf(c, Truthy(OptBool(prefDownloadOnWifiOnly)), "prefDownloadOnWifiOnly", OptBool(prefDownloadOnWifiOnly))
  }

  /** prefStreamWithMobileData is false whenever it is sent: removeUndefined does not delete false. */
  lemma MobileDataPreferenceSentAsFalse(qp: Option<string>, sendPushNotification: Option<bool>, prefDownloadOnWifiOnly: Option<bool>)
    ensures var r := WithoutBlank(CondensePreferanceData(qp, Some(true), sendPushNotification, prefDownloadOnWifiOnly));
            "prefStreamWithMobileData" in r && r["prefStreamWithMobileData"] == Bool(false)
  {
    var r := CondensePreferanceData(qp, Some(true), sendPushNotification, prefDownloadOnWifiOnly);
    WithoutBlankKeepsNullAndFalse(r, "prefStreamWithMobileData");
  }

  /** The ResourceVm properties read by name, and the genre table read as a map of language to genre names. */
  datatype ContentResource = ContentResource(fields: Object, contentGenre: Option<map<string, seq<string>>>)

  /** Each copied detail attribute and the resource property it is read from. */
  const DetailFields: map<string, string> := map[
    "priceCode" := "credits",
    "contentId" := "id",
    "storeFrontId" := "storeFrontId",
    "tabId" := "tabId",
    "tabName" := "tabName",
    "containerName" := "containerName",
    "collectionID" := "collectionID",
    "collectionName" := "collectionName",
    "containerId" := "containerId",
    "contentKey" := "key",
    "contentName" := "name",
    "runningTime" := "runningTime",
    "seriesName" := "seriesTitle",
    "networkId" := "network",
    "providerId" := "providerName",
    "origin" := "origin"
  ]

  /** The attributes taken from a present resource, besides contentType. */
  function ResourceAttributes(res: ContentResource): (r: Object)
    ensures forall a :: a in DetailFields ==> (a in r <==> Truthy(Get(res.fields, DetailFields[a])))
    ensures forall a :: a in DetailFields && a in r ==> r[a] == Get(res.fields, DetailFields[a])
    ensures "contentGenre" in r <==> res.contentGenre.Some? && "en" in res.contentGenre.value
    ensures "contentGenre" in r ==> r["contentGenre"] == Str(Strings.Join(res.contentGenre.value["en"], ", "))
    ensures "contentType" !in r && "searchItemPosition" !in r
    ensures r.Keys <= DetailFields.Keys + {"contentGenre"}
  {
    assert "contentType" !in DetailFields && "searchItemPosition" !in DetailFields && "contentGenre" !in DetailFields;
    var copied := map a | a in DetailFields && Truthy(Get(res.fields, DetailFields[a])) :: Get(res.fields, DetailFields[a]);
    if res.contentGenre.Some? && "en" in res.contentGenre.value
    then copied["contentGenre" := Str(Strings.Join(res.contentGenre.value["en"], ", "))]
    else copied
  }

  /**
   * getContentDetailsAttributes: the search position when truthy; and, when a
   * resource is given, each truthy detail property under its attribute name,
   * the English genres joined by ', ', and contentType 'VOD'.
   */
  function GetContentDetailsAttributes(resource: Option<ContentResource>, searchPosition: Option<string>): (r: Object)
    ensures ("contentType" in r <==> resource.Some?)
            && (resource.Some? ==> r["contentType"] == Str("VOD"))
    ensures ("searchItemPosition" in r <==> searchPosition.Some? && searchPosition.value != "")
            && ("searchItemPosition" in r ==> r["searchItemPosition"] == OptStr(searchPosition))
    ensures forall a :: a in DetailFields ==>
              (a in r <==> resource.Some? && Truthy(Get(resource.value.fields, DetailFields[a])))
    ensures forall a :: a in DetailFields && a in r && resource.Some? ==>
              r[a] == Get(resource.value.fields, DetailFields[a])
    ensures "contentGenre" in r <==>
              resource.Some? && resource.value.contentGenre.Some? && "en" in resource.value.contentGenre.value
    ensures "contentGenre" in r ==>
              r["contentGenre"] == Str(Strings.Join(resource.value.contentGenre.value["en"], ", "))
    ensures resource.None? ==> r.Keys <= {"searchItemPosition"}
    ensures r.Keys <= DetailFields.Keys + {"contentGenre", "contentType", "searchItemPosition"}
  {
    var withPosition := SetIf(map[], Truthy(OptStr(searchPosition)), "searchItemPosition", OptStr(searchPosition));
    if resource.None? then withPosition
    else (withPosition + ResourceAttributes(resource.value))["contentType" := Str("VOD")]
  }

  /** The player properties condensePlayerData reads. */
  datatype PlayerConfig = PlayerConfig(contentType: Option<string>, mediaURL: Option<string>, drmType: Option<string>)

  /** The player attributes of condensePlayerData: truthy config values, isCasting whenever given, and the active tracks. */
  function PlayerAttributes(playerConfig: Option<PlayerConfig>, isCast: Option<bool>,
                            activeTextTrack: Option<string>, activeAudioTrack: Option<string>): (r: Object)
    ensures ("contentType" in r <==> playerConfig.Some? && Truthy(OptStr(playerConfig.value.contentType)))
            && ("contentType" in r ==> r["contentType"] == OptStr(playerConfig.value.contentType))
    ensures ("isCasting" in r <==> isCast.Some?) && ("isCasting" in r ==> r["isCasting"] == OptBool(isCast))
    ensures ("playbackURL" in r <==> playerConfig.Some? && Truthy(OptStr(playerConfig.value.mediaURL)))
            && ("playbackURL" in r ==> r["playbackURL"] == OptStr(playerConfig.value.mediaURL))
    ensures ("drmName" in r <==> playerConfig.Some? && Truthy(OptStr(playerConfig.value.drmType)))
            && ("drmName" in r ==> r["drmName"] == OptStr(playerConfig.value.drmType))
    ensures ("subtitleLanguage" in r <==> Truthy(OptStr(activeTextTrack)))
            && ("subtitleLanguage" in r ==> r["subtitleLanguage"] == OptStr(activeTextTrack))
    ensures ("audioLanguage" in r <==> Truthy(OptStr(activeAudioTrack)))
            && ("audioLanguage" in r ==> r["audioLanguage"] == OptStr(activeAudioTrack))
    ensures r.Keys <= {"contentType", "playbackURL", "drmName", "isCasting", "subtitleLanguage", "audioLanguage"}
  {
    var fromConfig :=
      if playerConfig.None? then map[]
      else
        var config := playerConfig.value;
        var a := SetIf(map[], Truthy(OptStr(config.contentType)), "contentType", OptStr(config.contentType));
        var b := SetIf(a, Truthy(OptStr(config.mediaURL)), "playbackURL", OptStr(config.mediaURL));
        SetIf(b, Truthy(OptStr(config.drmType)), "drmName", OptStr(config.drmType));
    var c := SetIf(fromConfig, isCast.Some?, "isCasting", OptBool(isCast));
    var d := SetIf(c, Truthy(OptStr(activeTextTrack)), "subtitleLanguage", OptStr(activeTextTrack));
    SetIf(d, Truthy(OptStr(activeAudioTrack)), "audioLanguage", OptStr(activeAudioTrack))
  }

  /** `...attributes` of an `any` argument, taken to be an object or nothing: the model spreads only objects. */
  function ExtraAttributes(attributes: Value): Object
  {
    if attributes.Obj? then attributes.fields else map[]
  }

  /**
   * condensePlayerData: the extra attributes, then the content details, then
   * the player attributes, each later layer winning on a shared key.
   */
  function CondensePlayerData(resource: Option<ContentResource>, playerConfig: Option<PlayerConfig>, isCast: Option<bool>,
                              activeTextTrack: Option<string>, activeAudioTrack: Option<string>, attributes: Value): (r: Object)
    ensures var extra := ExtraAttributes(attributes);
            var details := GetContentDetailsAttributes(resource, None);
            var player := PlayerAttributes(playerConfig, isCast, activeTextTrack, activeAudioTrack);
            && r.Keys == extra.Keys + details.Keys + player.Keys
            && (forall k :: k in player ==> r[k] == player[k])
            && (forall k :: k in details && k !in player ==> r[k] == details[k])
            && (forall k :: k in extra && k !in details && k !in player ==> r[k] == extra[k])
  {
    var details := GetContentDetailsAttributes(resource, None);
    var player := PlayerAttributes(playerConfig, isCast, activeTextTrack, activeAudioTrack);
    Spread(Spread(ExtraAttributes(attributes), details), player)
  }

  /** The player's content type wins over the resource's 'VOD', which wins over any contentType passed in. */
  lemma PlayedContentType(resource: Option<ContentResource>, playerConfig: Option<PlayerConfig>, isCast: Option<bool>,
                          activeTextTrack: Option<string>, activeAudioTrack: Option<string>, attributes: Value)
    ensures var r := CondensePlayerData(resource, playerConfig, isCast, activeTextTrack, activeAudioTrack, attributes);
            if playerConfig.Some? && playerConfig.value.contentType.Some? && playerConfig.value.contentType.value != ""
            then r["contentType"] == Str(playerConfig.value.contentType.value)
            else if resource.Some? then r["contentType"] == Str("VOD")
            else ("contentType" in r <==> "contentType" in ExtraAttributes(attributes))
  {
    var details := GetContentDetailsAttributes(resource, None);
    var player := PlayerAttributes(playerConfig, isCast, activeTextTrack, activeAudioTrack);
    var r := CondensePlayerData(resource, playerConfig, isCast, activeTextTrack, activeAudioTrack, attributes);
    if playerConfig.Some? && playerConfig.value.contentType.Some? && playerConfig.value.contentType.value != "" {
      assert "contentType" in player;
    } else {
      assert "contentType" !in player;
    }
  }
}
