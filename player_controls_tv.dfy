/**
 * The TV player controls (qp-playerController-ui/src/views/PlayerControlsTV.tsx):
 * the remote's fast-forward and rewind keys are counted, and after a burst
 * of presses the controls ask the player for a trick-play speed factor
 * computed from the count and the previous speed.
 */
module PlayerControlsTv {
  import opened Wrappers
  import Js

  /** The speeds `_getPlaybackSpeed` can leave behind when it starts from 1. */
  predicate ValidSpeed(speed: int)
  {
    speed == 1 || speed == 2 || speed == 4 || speed == 8 || speed == 16
  }

  /** The speed `_getPlaybackSpeed` stores. */
  function NextSpeed(count: int, eventType: string, speed: int): int
  {
    if count == 1 then speed
    else if eventType == "fastForward" then
      if count < 1 then 2 else if speed >= 16 then 2 else speed * 2
    else if eventType == "rewind" then
      if count > -1 then 2 else if speed >= 16 then 2 else speed * 2
    else 1
  }

  /** The factor `_getPlaybackSpeed` returns: the (possibly reset) count times the new speed. */
  function SpeedFactor(count: int, eventType: string, speed: int): int
  {
    if count == 1 then 1
    else
      var c := if eventType == "fastForward" then (if count < 1 then 1 else count)
               else if eventType == "rewind" then (if count > -1 then -1 else count)
               else 1;
      c * NextSpeed(count, eventType, speed)
  }

  /** A single press needs no computation: factor 1 and the speed is left alone. */
  lemma SinglePress(eventType: string, speed: int)
    ensures SpeedFactor(1, eventType, speed) == 1 && NextSpeed(1, eventType, speed) == speed
  {
  }

  /** Repeated fast-forward presses double the speed, wrapping from 16 back to 2, and scale it by the count. */
  lemma FastForwardDoubles(count: int, speed: int)
    requires count > 1
    ensures NextSpeed(count, "fastForward", speed) == if speed >= 16 then 2 else 2 * speed
    ensures SpeedFactor(count, "fastForward", speed) == count * NextSpeed(count, "fastForward", speed)
  {
  }

  /** Rewind with a non-negative count always restarts at speed 2 and factor -2. */
  lemma RewindRestarts(count: int, speed: int)
    requires count > -1 && count != 1
    ensures NextSpeed(count, "rewind", speed) == 2 && SpeedFactor(count, "rewind", speed) == -2
  {
  }

  /** Any other event type resets the speed to 1 and yields factor 1. */
  lemma UnknownEventResets(count: int, eventType: string, speed: int)
    requires count != 1 && eventType != "fastForward" && eventType != "rewind"
    ensures SpeedFactor(count, eventType, speed) == 1 && NextSpeed(count, eventType, speed) == 1
  {
  }

  /** The speed never leaves {1, 2, 4, 8, 16}. */
  lemma NextSpeedValid(count: int, eventType: string, speed: int)
    requires ValidSpeed(speed)
    ensures ValidSpeed(NextSpeed(count, eventType, speed))
  {
  }

  /** A request to the player controller. */
  datatype Command = ToggleForward(forwardFactor: int) | ToggleRewind(rewindFactor: int)

  /** The reducer state of the controls (fields the reducer and `_togglePlayPause` touch). */
  datatype ControlState = ControlState(showControls: bool, animations: Js.Value, showCaptions: bool, paused: bool)

  datatype ControlAction =
    | ShowControls(show: bool)
    | Animations(value: Js.Value)
    | UpdateState(update: Js.Value)
    | CaptionControls(captions: bool)
    | OtherControl(name: string)

  /** `controlReducer`: an action name without a case yields undefined (`None`). */
  function ControlReducer(s: ControlState, a: ControlAction): (r: Option<ControlState>)
    ensures r.None? <==> a.OtherControl?
    ensures a.ShowControls? ==> r == Some(s.(showControls := a.show))
    ensures a.Animations? ==> r == Some(s.(animations := a.value))
    ensures a.UpdateState? ==> r == Some(s.(animations := a.update))
    ensures a.CaptionControls? ==> r == Some(s.(showCaptions := a.captions))
  {
    match a
    case ShowControls(v) => Some(s.(showControls := v))
    case Animations(v) => Some(s.(animations := v))
    case UpdateState(v) => Some(s.(animations := v))
    case CaptionControls(v) => Some(s.(showCaptions := v))
    case OtherControl(_) => None
  }

  /** The optional playback callbacks `_togglePlayPause` may call. */
  datatype Callback = OnPause | OnPlay

  /**
   * The mutable locals of one mounted TV controls component: the key press
   * counter, the current trick-play speed, and the reducer state object
   * whose `paused` field `_togglePlayPause` overwrites in place.
   */
  class TvControls {
    var keyPressedCount: int
    var playbackSpeed: int
    var controls: ControlState

    ghost predicate Valid()
      reads this
    {
      keyPressedCount >= 0 && ValidSpeed(playbackSpeed)
    }

    constructor (showOnStart: bool, animations: Js.Value)
      ensures Valid() && keyPressedCount == 0 && playbackSpeed == 1
      ensures controls == ControlState(showOnStart, animations, false, false)
    {
      keyPressedCount := 0;
      playbackSpeed := 1;
      controls := ControlState(showOnStart, animations, false, false);
    }

    /** `_getPlaybackSpeed`: updates the speed and returns the factor. */
    method GetPlaybackSpeed(count: int, eventType: string) returns (factor: int)
      requires Valid()
      modifies this`playbackSpeed
      ensures Valid()
      ensures playbackSpeed == NextSpeed(count, eventType, old(playbackSpeed))
      ensures factor == SpeedFactor(count, eventType, old(playbackSpeed))
    {
      NextSpeedValid(count, eventType, playbackSpeed);
      if count == 1 {
        return 1;
      }
      var c := count;
      if eventType == "fastForward" {
        if c < 1 {
          playbackSpeed := 2;
          c := 1;
        } else if playbackSpeed >= 16 {
          playbackSpeed := 2;
        } else {
          playbackSpeed := playbackSpeed * 2;
        }
      } else if eventType == "rewind" {
        if c > -1 {
          playbackSpeed := 2;
          c := -1;
        } else if playbackSpeed >= 16 {
          playbackSpeed := 2;
        } else {
          playbackSpeed := playbackSpeed * 2;
        }
      } else {
        playbackSpeed := 1;
        c := 1;
      }
      factor := c * playbackSpeed;
    }

    /**
     * `handleRewindForwardEvent`: computes the factor, clears the counter and,
     * for the two trick-play keys, sends the command and resets the speed to 1.
     */
    method HandleRewindForwardEvent(count: int, eventType: string) returns (command: Option<Command>)
      requires Valid()
      modifies this`playbackSpeed, this`keyPressedCount
      ensures Valid() && keyPressedCount == 0
      ensures eventType == "fastForward" ==> command == Some(ToggleForward(SpeedFactor(count, eventType, old(playbackSpeed)))) && playbackSpeed == 1
      ensures eventType == "rewind" ==> command == Some(ToggleRewind(SpeedFactor(count, eventType, old(playbackSpeed)))) && playbackSpeed == 1
      ensures eventType != "fastForward" && eventType != "rewind" ==> command.None? && playbackSpeed == NextSpeed(count, eventType, old(playbackSpeed))
    {
      var speedFactor := GetPlaybackSpeed(count, eventType);
      keyPressedCount := 0;
      command := None;
      if eventType == "fastForward" {
        command := Some(ToggleForward(speedFactor));
        playbackSpeed := 1;
      } else if eventType == "rewind" {
        command := Some(ToggleRewind(speedFactor));
        playbackSpeed := 1;
      }
    }

    /**
     * The remote's TV event listener. An event whose `eventKeyAction` is 0 is
     * ignored, so a press is counted from the other half of the key event
     * only. Fast-forward and rewind bump the counter and, unless that
     * direction is disabled, schedule the (debounced) handler with the new
     * count, returned here; play/pause asks the controls to toggle the
     * controls and playback, returned as a flag.
     */
    method KeyEvent(eventType: string, eventKeyAction: Js.Value, disableForward: bool, disableRewind: bool)
      returns (scheduled: Option<int>, togglePlayPause: bool)
      requires Valid()
      modifies this`keyPressedCount
      ensures Valid()
      ensures eventKeyAction == Js.Num(0) ==> keyPressedCount == old(keyPressedCount) && scheduled.None? && !togglePlayPause
      ensures eventKeyAction != Js.Num(0) && (eventType == "fastForward" || eventType == "rewind") ==> keyPressedCount == old(keyPressedCount) + 1
      ensures eventType != "fastForward" && eventType != "rewind" ==> keyPressedCount == old(keyPressedCount) && scheduled.None?
      ensures scheduled.Some? ==> scheduled.value == keyPressedCount && scheduled.value >= 1
      ensures eventKeyAction != Js.Num(0) && eventType == "fastForward" ==> (scheduled.Some? <==> !disableForward)
      ensures eventKeyAction != Js.Num(0) && eventType == "rewind" ==> (scheduled.Some? <==> !disableRewind)
      ensures togglePlayPause <==> eventKeyAction != Js.Num(0) && eventType == "playPause"
    {
      scheduled := None;
      togglePlayPause := false;
      if eventKeyAction == Js.Num(0) {
        return;
      }
      if eventType == "fastForward" {
        keyPressedCount := keyPressedCount + 1;
        if !disableForward {
          scheduled := Some(keyPressedCount);
        }
      } else if eventType == "rewind" {
        keyPressedCount := keyPressedCount + 1;
        if !disableRewind {
          scheduled := Some(keyPressedCount);
        }
      } else if eventType == "playPause" {
        togglePlayPause := true;
      }
    }

    /** `_togglePlayPause`: flips `paused` in place and calls onPause or onPlay when that callback exists. */
    method TogglePlayPause(hasOnPause: bool, hasOnPlay: bool) returns (called: Option<Callback>)
      modifies this`controls
      ensures controls == old(controls).(paused := !old(controls).paused)
      ensures called == if controls.paused then (if hasOnPause then Some(OnPause) else None)
                        else (if hasOnPlay then Some(OnPlay) else None)
    {
      controls := controls.(paused := !controls.paused);
      called := None;
      if controls.paused {
        if hasOnPause {
          called := Some(OnPause);
        }
      } else if hasOnPlay {
        called := Some(OnPlay);
      }
    }
  }

  /**
   * A burst of n ≥ 1 presses handled from speed 1 (where every handled burst
   * leaves the speed): one press plays at normal speed; more fast-forward
   * presses give 2n; rewind gives -2 however many presses there were.
   */
  lemma BurstFactor(n: int, eventType: string)
    requires n >= 1
    ensures eventType == "fastForward" ==> SpeedFactor(n, eventType, 1) == if n == 1 then 1 else 2 * n
    ensures eventType == "rewind" ==> SpeedFactor(n, eventType, 1) == if n == 1 then 1 else -2
  {
  }
}
