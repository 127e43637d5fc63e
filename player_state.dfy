/**
 * The playback state hook of the player controller
 * (qp-playerController-ui/src/hooks/usePlayerState.tsx): a reducer fed by
 * the player SDK's listener callbacks.
 */
module PlayerState {
  import opened Wrappers

  /** The SDK's playback states that the app distinguishes; any other value is kept by name. */
  datatype PlaybackStateValue = IDLE | LOADING | STARTED | PAUSED | STOPPED | OtherPlayback(name: string)

  /** The SDK's buffering and seeking states. */
  datatype ActivityState = ACTIVE | INACTIVE

  /** A track of the stream as the player SDK reports it (`TrackVariantInfo`). */
  datatype TrackVariantInfo = TrackVariantInfo(variantType: string, displayName: string, languageCode: string)

  datatype PlaybackStateStatic = PlaybackStateStatic(
    playerID: int,
    playbackState: PlaybackStateValue,
    bufferingState: ActivityState,
    seekingState: ActivityState,
    currentPosition: int,
    duration: int,
    tracks: seq<TrackVariantInfo>,
    selectedTracks: seq<TrackVariantInfo>,
    isAirplayConnected: bool)

  const InitialState: PlaybackStateStatic := PlaybackStateStatic(-1, IDLE, INACTIVE, INACTIVE, 0, 0, [], [], false)

  /**
   * A partial state spread over the current one by STATE_CHANGE and PROGRESS;
   * `None` is a field the payload does not carry. The listener sends the
   * three activity states and the position/duration pair respectively.
   */
  datatype Patch = Patch(
    playbackState: Option<PlaybackStateValue>,
    bufferingState: Option<ActivityState>,
    seekingState: Option<ActivityState>,
    currentPosition: Option<int>,
    duration: Option<int>)

  datatype PlaybackAction =
    | PlayerInit(initID: int)
    | PlayerDeinit(deinitID: int)
    | StateChange(change: Patch)
    | Progress(progress: Patch)
    | TrackAvailabilityChange(available: seq<TrackVariantInfo>)
    | TrackChanged(selected: seq<TrackVariantInfo>)
    | AirplayConnected(connected: bool)
    | Error
    | Reset

  function Pick<T>(given: Option<T>, current: T): T
  {
    if given.Some? then given.value else current
  }

  /** `{ ...state, ...payload }` for a partial payload. */
  function Merge(s: PlaybackStateStatic, p: Patch): (r: PlaybackStateStatic)
    ensures r.playerID == s.playerID && r.tracks == s.tracks && r.selectedTracks == s.selectedTracks
    ensures r.isAirplayConnected == s.isAirplayConnected
    ensures p.playbackState.Some? ==> r.playbackState == p.playbackState.value
    ensures p.playbackState.None? ==> r.playbackState == s.playbackState
    ensures p.currentPosition.Some? ==> r.currentPosition == p.currentPosition.value
    ensures p.currentPosition.None? ==> r.currentPosition == s.currentPosition
    ensures p.bufferingState.Some? ==> r.bufferingState == p.bufferingState.value
    ensures p.bufferingState.None? ==> r.bufferingState == s.bufferingState
    ensures p.seekingState.Some? ==> r.seekingState == p.seekingState.value
    ensures p.seekingState.None? ==> r.seekingState == s.seekingState
    ensures p.duration.Some? ==> r.duration == p.duration.value
    ensures p.duration.None? ==> r.duration == s.duration
  {
    s.(playbackState := Pick(p.playbackState, s.playbackState),
       bufferingState := Pick(p.bufferingState, s.bufferingState),
       seekingState := Pick(p.seekingState, s.seekingState),
       currentPosition := Pick(p.currentPosition, s.currentPosition),
       duration := Pick(p.duration, s.duration))
  }

  /** `pbStateReducer`; every action type has a case, so the reducer never returns undefined. */
  function PbStateReducer(s: PlaybackStateStatic, a: PlaybackAction): (r: PlaybackStateStatic)
    ensures a.PlayerInit? ==> r == s.(playerID := a.initID)
    ensures a.PlayerDeinit? ==> r == if s.playerID == a.deinitID then s.(playerID := -1) else s
    ensures a.Error? ==> r == s.(bufferingState := INACTIVE, seekingState := INACTIVE)
    ensures a.Reset? ==> r == InitialState
    ensures a.TrackAvailabilityChange? ==> r == s.(tracks := a.available)
    ensures a.TrackChanged? ==> r == s.(selectedTracks := a.selected)
    ensures a.AirplayConnected? ==> r == s.(isAirplayConnected := a.connected)
    ensures a.StateChange? || a.Progress? ==> r.playerID == s.playerID && r.tracks == s.tracks
  {
    match a
    case PlayerInit(id) => s.(playerID := id)
    case PlayerDeinit(id) => if s.playerID == id then s.(playerID := -1) else s
    case StateChange(p) => Merge(s, p)
    case Progress(p) => Merge(s, p)
    case TrackAvailabilityChange(tracks) => s.(tracks := tracks)
    case AirplayConnected(connected) => s.(isAirplayConnected := connected)
    case TrackChanged(tracks) => s.(selectedTracks := tracks)
    case Error => s.(bufferingState := INACTIVE, seekingState := INACTIVE)
    case Reset => InitialState
  }

  /** The player listener's progress callback only moves position and duration. */
  lemma ProgressKeepsPlaybackState(s: PlaybackStateStatic, position: int, duration: int)
    ensures var r := PbStateReducer(s, Progress(Patch(None, None, None, Some(position), Some(duration))));
      r == s.(currentPosition := position, duration := duration)
  {
  }

  /** The state-change callback moves the three activity states and nothing else. */
  lemma StateChangeKeepsProgress(s: PlaybackStateStatic, pb: PlaybackStateValue, buffering: ActivityState, seeking: ActivityState)
    ensures var r := PbStateReducer(s, StateChange(Patch(Some(pb), Some(buffering), Some(seeking), None, None)));
      r == s.(playbackState := pb, bufferingState := buffering, seekingState := seeking)
  {
  }

  function Run(s: PlaybackStateStatic, actions: seq<PlaybackAction>): PlaybackStateStatic
    decreases |actions|
  {
    if actions == [] then s else Run(PbStateReducer(s, actions[0]), actions[1..])
  }

  predicate TouchesPlayerId(a: PlaybackAction, id: int)
  {
    a.PlayerInit? || a.Reset? || (a.PlayerDeinit? && a.deinitID == id)
  }

  /**
   * A player id survives every action but a matching PLAYER_DEINIT, a new
   * PLAYER_INIT and RESET; in particular deinitialising a stale id never
   * clears the current one.
   */
  lemma {:induction false} RunKeepsPlayerId(s: PlaybackStateStatic, actions: seq<PlaybackAction>)
    requires forall i :: 0 <= i < |actions| ==> !TouchesPlayerId(actions[i], s.playerID)
    ensures Run(s, actions).playerID == s.playerID
    decreases |actions|
  {
    if actions != [] {
      RunKeepsPlayerId(PbStateReducer(s, actions[0]), actions[1..]);
    }
  }
}
