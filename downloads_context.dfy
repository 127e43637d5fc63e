/**
 * The downloads context: the user's network preferences for streaming and
 * downloading held in a reducer, which downloads are purged as expired or
 * stale, and whether the downloads are paused or resumed when the network
 * changes.
 */
module DownloadsContext {
  import opened Wrappers
  import opened Js

  /** The PreferenceUpdates action types. */
  const InitType := "Init"
  const StreamOverCellularType := "UpdateStreamOverWifi"
  const DownloadOverWifiOnlyType := "UpdateDownloadOverWifi"

  datatype PreferenceUpdate = Init | StreamOverCellular | DownloadOverWifiOnly

  function PreferenceType(e: PreferenceUpdate): (r: string)
    ensures r in {InitType, StreamOverCellularType, DownloadOverWifiOnlyType}
  {
    match e
    case Init => InitType
    case StreamOverCellular => StreamOverCellularType
    case DownloadOverWifiOnly => DownloadOverWifiOnlyType
  }

  /** Both preferences start undefined. */
  datatype State = State(streamOverCellular: Option<bool>, downloadOverWifiOnly: Option<bool>)

  const InitialState := State(None, None)

  datatype Action = Action(actionType: string, streamOverCellular: Option<bool>, downloadOverWifiOnly: Option<bool>)

  /**
   * StateHandlerReducer: Init takes both preferences from the action, each
   * update action only its own; another type has no case and gives undefined.
   */
  function StateHandlerReducer(s: State, a: Action): (r: Option<State>)
    ensures r.None? <==> a.actionType !in {InitType, StreamOverCellularType, DownloadOverWifiOnlyType}
    ensures a.actionType == InitType ==>
              r == Some(State(a.streamOverCellular, a.downloadOverWifiOnly))
    ensures a.actionType == DownloadOverWifiOnlyType ==>
              r == Some(s.(downloadOverWifiOnly := a.downloadOverWifiOnly))
    ensures a.actionType == StreamOverCellularType ==>
              r == Some(s.(streamOverCellular := a.streamOverCellular))
  {
    if a.actionType == InitType then
      Some(s.(streamOverCellular := a.streamOverCellular, downloadOverWifiOnly := a.downloadOverWifiOnly))
    else if a.actionType == DownloadOverWifiOnlyType then
      Some(s.(downloadOverWifiOnly := a.downloadOverWifiOnly))
    else if a.actionType == StreamOverCellularType then
      Some(s.(streamOverCellular := a.streamOverCellular))
    else None
  }

  /** updatePreference: the event's own field takes the new value, the other keeps the current one. */
  function UpdatePreference(s: State, e: PreferenceUpdate, value: bool): Action
  {
    Action(PreferenceType(e),
           if e == StreamOverCellular then Some(value) else s.streamOverCellular,
           if e == DownloadOverWifiOnly then Some(value) else s.downloadOverWifiOnly)
  }

  /** updatePreference replaces only the field named by the event; with Init it changes nothing. */
  lemma UpdatePreferenceReplacesOnlyNamed(s: State, e: PreferenceUpdate, value: bool)
    ensures var r := StateHandlerReducer(s, UpdatePreference(s, e, value));
            match e
            case StreamOverCellular => r == Some(s.(streamOverCellular := Some(value)))
            case DownloadOverWifiOnly => r == Some(s.(downloadOverWifiOnly := Some(value)))
            case Init => r == Some(s)
  {
  }

  /**
   * The startup init, as written: dispatched only when both stored
   * preferences are defined, and it stores whether downloading over
   * cellular is allowed into downloadOverWifiOnly.
   */
  function InitActionAsWritten(streamOverCellular: Option<bool>, downloadOverCellular: Option<bool>): (r: Option<Action>)
    ensures r.Some? <==> streamOverCellular.Some? && downloadOverCellular.Some?
    ensures r.Some? ==> r.value.actionType == InitType && r.value.streamOverCellular == streamOverCellular
                        && r.value.downloadOverWifiOnly == downloadOverCellular
  {
    if streamOverCellular.Some? && downloadOverCellular.Some?
    then Some(Action(InitType, streamOverCellular, downloadOverCellular))
    else None
  }

  /** The startup init with the stored cellular permission turned into the Wi-Fi-only flag it denies. */
  function InitAction(streamOverCellular: Option<bool>, downloadOverCellular: Option<bool>): (r: Option<Action>)
    ensures r.Some? <==> streamOverCellular.Some? && downloadOverCellular.Some?
    ensures r.Some? ==> r.value.actionType == InitType && r.value.streamOverCellular == streamOverCellular
                        && r.value.downloadOverWifiOnly == Some(!downloadOverCellular.value)
  {
    if streamOverCellular.Some? && downloadOverCellular.Some?
    then Some(Action(InitType, streamOverCellular, Some(!downloadOverCellular.value)))
    else None
  }

  /** The state after the startup init (unchanged when it is not dispatched). */
  function AfterInit(s: State, init: Option<Action>): State
  {
    if init.Some? && StateHandlerReducer(s, init.value).Some? then StateHandlerReducer(s, init.value).value else s
  }

  /** Init sets both preferences at once. */
  lemma InitSetsBoth(s: State, streamOverCellular: bool, downloadOverCellular: bool)
    ensures AfterInit(s, InitAction(Some(streamOverCellular), Some(downloadOverCellular)))
         == State(Some(streamOverCellular), Some(!downloadOverCellular))
  {
  }

  datatype NetworkCommand = PauseAll | ResumeAll

  /**
   * handleNetworkChange: pause every download when offline, or on cellular
   * while the Wi-Fi-only preference is truthy; otherwise resume every download.
   */
  function NetworkChangeCommand(networkType: string, downloadOverWifiOnly: Option<bool>, isInternetReachable: Value): (r: NetworkCommand)
    ensures r == PauseAll <==>
              isInternetReachable == Bool(false) || (networkType == "cellular" && downloadOverWifiOnly == Some(true))
  {
    var networkPreference := !Truthy(if downloadOverWifiOnly.Some? then Bool(downloadOverWifiOnly.value) else Undefined);
    var isOffline := isInternetReachable == Bool(false);
    if (networkType == "cellular" && networkPreference == false) || isOffline then PauseAll else ResumeAll
  }

  /**
   * The guard of enqueueing a download (DownloadButton): refused when
   * downloading over cellular is not allowed and the network is cellular, or
   * when offline. It is the meaning the stored permission has elsewhere.
   */
  predicate EnqueueRefused(downloadOverCellular: Option<bool>, networkType: string, isInternetReachable: Value)
  {
    (downloadOverCellular == Some(false) && networkType == "cellular") || isInternetReachable == Bool(false)
  }

  /**
   * As written, a user who allows downloads only over Wi-Fi has queued
   * downloads resumed on cellular, although a new download is refused there.
   */
  lemma WifiOnlyUserResumedOnCellularAsWritten()
    ensures var s := AfterInit(InitialState, InitActionAsWritten(Some(true), Some(false)));
            EnqueueRefused(Some(false), "cellular", Bool(true))
            && NetworkChangeCommand("cellular", s.downloadOverWifiOnly, Bool(true)) == ResumeAll
  {
  }

  /**
   * With the corrected init, downloads are paused exactly where a new
   * download would be refused, for every stored permission and network.
   */
  lemma PauseAgreesWithEnqueueGuard(streamOverCellular: bool, downloadOverCellular: bool,
                                    networkType: string, isInternetReachable: Value)
    ensures var s := AfterInit(InitialState, InitAction(Some(streamOverCellular), Some(downloadOverCellular)));
            NetworkChangeCommand(networkType, s.downloadOverWifiOnly, isInternetReachable) == PauseAll
            <==> EnqueueRefused(Some(downloadOverCellular), networkType, isInternetReachable)
  {
    InitSetsBoth(InitialState, streamOverCellular, downloadOverCellular);
  }

  /** A download as the player SDK reports it; expiration is in milliseconds, when set. */
  datatype Download = Download(id: string, state: string, expiration: Option<int>)

  /** An item is purged when its expiry (0 when unset) is before now, or when it is STALE. */
  predicate ShouldPurge(d: Download, now: int)
  {
    var expiration := if d.expiration.Some? && d.expiration.value != 0 then d.expiration.value else 0;
    expiration < now || d.state == "STALE"
  }

  /** removeExpiredAndStaleDownloads: the ids handed to purgeDownload, in list order. */
  function PurgedIds(downloads: seq<Download>, now: int): (r: seq<string>)
    ensures |r| <= |downloads|
    ensures forall id :: id in r ==> exists i :: 0 <= i < |downloads| && downloads[i].id == id && ShouldPurge(downloads[i], now)
  {
    if downloads == [] then []
    else
      var rest := PurgedIds(downloads[1..], now);
      assert forall id :: id in rest ==> exists i :: 0 <= i < |downloads| && downloads[i].id == id && ShouldPurge(downloads[i], now) by {
        forall id | id in rest
          ensures exists i :: 0 <= i < |downloads| && downloads[i].id == id && ShouldPurge(downloads[i], now)
        {
          var j :| 0 <= j < |downloads[1..]| && downloads[1..][j].id == id && ShouldPurge(downloads[1..][j], now);
          assert downloads[j + 1] == downloads[1..][j];
        }
      }
      if ShouldPurge(downloads[0], now) then [downloads[0].id] + rest else rest
  }

  /** Every expired or stale download is purged. */
  lemma {:induction false} PurgesEveryExpiredOrStale(downloads: seq<Download>, now: int, i: nat)
    requires i < |downloads| && ShouldPurge(downloads[i], now)
    ensures downloads[i].id in PurgedIds(downloads, now)
  {
    if i > 0 {
      assert downloads[1..][i - 1] == downloads[i];
      PurgesEveryExpiredOrStale(downloads[1..], now, i - 1);
    }
  }

  /** The purge keeps list order: the ids of a concatenation are those of its first part, then those of the rest. */
  lemma {:induction false} PurgedIdsAppend(a: seq<Download>, b: seq<Download>, now: int)
    ensures PurgedIds(a + b, now) == PurgedIds(a, now) + PurgedIds(b, now)
    decreases |a|
  {
    if a == [] {
      assert a + b == b;
    } else {
      assert (a + b)[0] == a[0];
      assert (a + b)[1..] == a[1..] + b;
      PurgedIdsAppend(a[1..], b, now);
    }
  }

  /** One download contributes its id exactly when it is expired or stale. */
  lemma PurgedIdsSingle(d: Download, now: int)
    ensures PurgedIds([d], now) == if ShouldPurge(d, now) then [d.id] else []
  {
    assert [d][1..] == [];
  }

  /** A download without an expiration is purged as soon as the clock is past 0. */
  lemma NoExpirationIsPurged(d: Download, now: int)
    requires d.expiration.None? && now > 0
    ensures ShouldPurge(d, now)
  {
  }

  /** The download manager calls a network change makes: one per download, all of the same kind. */
  function NetworkChangeCalls(downloads: seq<Download>, command: NetworkCommand): (r: seq<(NetworkCommand, string)>)
    ensures |r| == |downloads|
    ensures forall i :: 0 <= i < |downloads| ==> r[i] == (command, downloads[i].id)
  {
    if downloads == [] then [] else [(command, downloads[0].id)] + NetworkChangeCalls(downloads[1..], command)
  }
}
