/**
 * The touch-screen player controls
 * (qp-playerController-ui/src/views/PlayerControlsView.tsx): a reducer for
 * the visible controls, play/pause, the ±T seek buttons and the screen-touch
 * and lock handlers. Animations and timers are reduced to the requests the
 * handlers make; the seek step `FORWORD_BACKWORD_TIME` is a parameter.
 */
module PlayerControlsView {
  import opened Wrappers
  import Js

  /** The reducer state of the controls. */
  datatype ControlsState = ControlsState(paused: bool, showControls: bool, animations: Js.Value)

  datatype ControlsAction =
    | ShowControls(show: bool)
    | Animations(value: Js.Value)
    | UpdateState(update: Js.Value)
    | PauseState(pause: bool)
    | OtherAction(name: string)

  /** `controlsReducer`: each named action replaces one field; a name without a case yields undefined. */
  function ControlsReducer(s: ControlsState, a: ControlsAction): (r: Option<ControlsState>)
    ensures r.None? <==> a.OtherAction?
    ensures a.ShowControls? ==> r == Some(s.(showControls := a.show))
    ensures (a.Animations? || a.UpdateState?) ==> r.Some? && r.value.paused == s.paused && r.value.showControls == s.showControls
    ensures a.Animations? ==> r.value.animations == a.value
    ensures a.UpdateState? ==> r.value.animations == a.update
    ensures a.PauseState? ==> r == Some(s.(paused := a.pause))
  {
    match a
    case ShowControls(v) => Some(s.(showControls := v))
    case Animations(v) => Some(s.(animations := v))
    case UpdateState(v) => Some(s.(animations := v))
    case PauseState(v) => Some(s.(paused := v))
    case OtherAction(_) => None
  }

  /** The seek target of the rewind button: T before the current time, but not before 0. */
  function RewindTarget(currentTime: int, step: int): (r: int)
    ensures r >= 0 && r >= currentTime - step
    ensures r == 0 || r == currentTime - step
  {
    if currentTime - step > 0 then currentTime - step else 0
  }

  /** The seek target of the fast-forward button: T after the current time, but not past the duration. */
  function FastForwardTarget(currentTime: int, duration: int, step: int): (r: int)
    ensures r <= duration && r <= currentTime + step
    ensures r == duration || r == currentTime + step
  {
    if currentTime + step < duration then currentTime + step else duration
  }

  /** Rewinding an in-range position by a non-negative step stays in range and never moves forward. */
  lemma RewindStaysInRange(currentTime: int, duration: int, step: int)
    requires 0 <= currentTime <= duration && step >= 0
    ensures 0 <= RewindTarget(currentTime, step) <= currentTime <= duration
  {
  }

  /** Fast-forwarding an in-range position by a non-negative step stays in range and never moves back. */
  lemma FastForwardStaysInRange(currentTime: int, duration: int, step: int)
    requires 0 <= currentTime <= duration && step >= 0
    ensures 0 <= currentTime <= FastForwardTarget(currentTime, duration, step) <= duration
  {
  }

  /** `hideControlAnimation` schedules the hide timer unless casting or paused. */
  predicate HideScheduled(isCasting: bool, playbackState: string)
  {
    !isCasting && playbackState != "PAUSED"
  }

  /** The optional playback callbacks. */
  datatype Callback = OnPause | OnPlay

  /** What a screen touch asks of the control animations. */
  datatype ControlsAnimation = ShowAnimation | HideAnimation(scheduled: bool)

  /** The state of one mounted controls view. */
  class ControlsView {
    var controls: ControlsState
    var seekedTo: int
    var isControlLocked: bool
    var showLock: bool
    var showRating: bool
    var showBrightnessControl: bool

    constructor (showOnStart: bool, animations: Js.Value)
      ensures controls == ControlsState(false, showOnStart, animations)
      ensures seekedTo == 0 && !isControlLocked && !showLock && !showRating && !showBrightnessControl
    {
      controls := ControlsState(false, showOnStart, animations);
      seekedTo := 0;
      isControlLocked := false;
      showLock := false;
      showRating := false;
      showBrightnessControl := false;
    }

    /**
     * `handlePlayPause`: toggles paused; calls onPause when now paused and it
     * exists, and otherwise calls onPlay if that exists (so pausing without an
     * onPause handler still calls onPlay).
     */
    method HandlePlayPause(hasOnPause: bool, hasOnPlay: bool) returns (called: Option<Callback>)
      modifies this`controls
      ensures controls == old(controls).(paused := !old(controls).paused)
      ensures called == Some(OnPause) <==> controls.paused && hasOnPause
      ensures called == Some(OnPlay) <==> !(controls.paused && hasOnPause) && hasOnPlay
      ensures called.None? <==> !(controls.paused && hasOnPause) && !hasOnPlay
    {
      var newValue := !controls.paused;
      controls := controls.(paused := newValue);
      if newValue && hasOnPause {
        called := Some(OnPause);
      } else if hasOnPlay {
        called := Some(OnPlay);
      } else {
        called := None;
      }
    }

    /** `handleRewind`: records the clamped rewind target. */
    method HandleRewind(currentTime: int, step: int)
      modifies this`seekedTo
      ensures seekedTo == RewindTarget(currentTime, step) && seekedTo >= 0
    {
      seekedTo := RewindTarget(currentTime, step);
    }

    /** `handleFastFwd`: records the clamped fast-forward target. */
    method HandleFastFwd(currentTime: int, duration: int, step: int)
      modifies this`seekedTo
      ensures seekedTo == FastForwardTarget(currentTime, duration, step) && seekedTo <= duration
    {
      seekedTo := FastForwardTarget(currentTime, duration, step);
    }

    /**
     * `handleOnScreenTouch`: hides the rating and brightness overlays; while
     * locked it flips the lock badge (scheduling its hide when it appears);
     * unless locked, or casting with the controls shown, it toggles the
     * controls and returns the animation it starts.
     */
    method HandleOnScreenTouch(isCasting: bool, playbackState: string) returns (animation: Option<ControlsAnimation>, hideLockScheduled: bool)
      modifies this`controls, this`showLock, this`showRating, this`showBrightnessControl
      ensures !showRating && !showBrightnessControl
      ensures showLock == (if isControlLocked then !old(showLock) else old(showLock))
      ensures hideLockScheduled <==> isControlLocked && !old(showLock)
      ensures (isControlLocked || (isCasting && old(controls).showControls)) ==> animation.None? && controls == old(controls)
      ensures !(isControlLocked || (isCasting && old(controls).showControls)) ==>
                controls == old(controls).(showControls := !old(controls).showControls) &&
                animation == Some(if controls.showControls then ShowAnimation else HideAnimation(HideScheduled(isCasting, playbackState)))
    {
      showRating := false;
      showBrightnessControl := false;
      hideLockScheduled := false;
      if isControlLocked {
        var wasShown := showLock;
        showLock := !showLock;
        if !wasShown {
          hideLockScheduled := true;
        }
      }
      if isControlLocked || (isCasting && controls.showControls) {
        return None, hideLockScheduled;
      }
      var show := !controls.showControls;
      if show {
        animation := Some(ShowAnimation);
      } else {
        animation := Some(HideAnimation(HideScheduled(isCasting, playbackState)));
      }
      controls := controls.(showControls := show);
    }

    /**
     * `handleLockControlEvent`: flips the lock and hides the lock badge;
     * locking hides the controls (and the brightness slider), unlocking shows them.
     */
    method HandleLockControlEvent()
      modifies this`controls, this`showLock, this`isControlLocked, this`showBrightnessControl
      ensures isControlLocked == !old(isControlLocked) && !showLock
      ensures controls == old(controls).(showControls := old(isControlLocked))
      ensures showBrightnessControl == (if old(isControlLocked) then old(showBrightnessControl) else false)
    {
      showLock := false;
      if !isControlLocked {
        showBrightnessControl := false;
        controls := controls.(showControls := false);
      } else {
        controls := controls.(showControls := true);
      }
      isControlLocked := !isControlLocked;
    }
  }
}
