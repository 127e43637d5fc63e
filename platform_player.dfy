/**
 * Track and seek decisions of the app's player screen
 * (src/screens/components/PlatformPlayer.tsx). The player SDK and Google
 * Cast calls are returned as commands instead of being made.
 */
module PlatformPlayer {
  import opened Wrappers
  import Js
  import opened PlayerState

  /** The track summary the selection menus show (`TrackInfo` without the unset type). */
  datatype TrackInfo = TrackInfo(displayName: string, languageCode: string)

  function Info(v: TrackVariantInfo): TrackInfo
  {
    TrackInfo(v.displayName, v.languageCode)
  }

  /** The tracks of one type, summarised, in stream order (the array pipeline of `filterAndMapVariantsToCode`). */
  function TracksOfType(variants: seq<TrackVariantInfo>, variantType: string): seq<TrackInfo>
  {
    if |variants| == 0 then []
    else (if variants[0].variantType == variantType then [Info(variants[0])] else [])
         + TracksOfType(variants[1..], variantType)
  }

  /** `filterAndMapVariantsToCode`: a missing variant list gives no tracks. */
  function FilterAndMapVariantsToCode(variants: Option<seq<TrackVariantInfo>>, variantType: string): (r: seq<TrackInfo>)
    ensures variants.None? ==> r == []
    ensures variants.Some? ==> |r| <= |variants.value|
  {
    match variants
    case None => []
    case Some(vs) => TracksOfTypeLength(vs, variantType); TracksOfType(vs, variantType)
  }

  lemma {:induction false} TracksOfTypeLength(vs: seq<TrackVariantInfo>, t: string)
    ensures |TracksOfType(vs, t)| <= |vs|
    decreases |vs|
  {
    if |vs| > 0 {
      TracksOfTypeLength(vs[1..], t);
    }
  }

  /** Filtering distributes over concatenation, so stream order is kept. */
  lemma {:induction false} TracksOfTypeAppend(a: seq<TrackVariantInfo>, b: seq<TrackVariantInfo>, t: string)
    ensures TracksOfType(a + b, t) == TracksOfType(a, t) + TracksOfType(b, t)
    decreases |a|
  {
    if |a| == 0 {
      assert a + b == b;
    } else {
      var head := if a[0].variantType == t then [Info(a[0])] else [];
      assert (a + b)[0] == a[0];
      assert (a + b)[1..] == a[1..] + b;
      TracksOfTypeAppend(a[1..], b, t);
      calc {
        TracksOfType(a + b, t);
        head + TracksOfType(a[1..] + b, t);
        head + (TracksOfType(a[1..], t) + TracksOfType(b, t));
        (head + TracksOfType(a[1..], t)) + TracksOfType(b, t);
      }
    }
  }

  /** Exactly the variants of the type are kept: every kept track comes from one, and every one is kept. */
  lemma {:induction false} TracksOfTypeMembers(vs: seq<TrackVariantInfo>, t: string, info: TrackInfo)
    ensures info in TracksOfType(vs, t) <==> exists i :: 0 <= i < |vs| && vs[i].variantType == t && Info(vs[i]) == info
    decreases |vs|
  {
    if |vs| > 0 {
      TracksOfTypeMembers(vs[1..], t, info);
      if info in TracksOfType(vs[1..], t) {
        var i :| 0 <= i < |vs[1..]| && vs[1..][i].variantType == t && Info(vs[1..][i]) == info;
        assert vs[i + 1] == vs[1..][i];
      }
      if exists i :: 0 <= i < |vs| && vs[i].variantType == t && Info(vs[i]) == info {
        var i :| 0 <= i < |vs| && vs[i].variantType == t && Info(vs[i]) == info;
        if i > 0 {
          assert vs[1..][i - 1] == vs[i];
        }
      }
    }
  }

  /** The display name of the first track of the type, if any (the `find` the active variant helper performs). */
  function FirstDisplayName(variants: seq<TrackVariantInfo>, variantType: string): Option<string>
  {
    if |variants| == 0 then None
    else if variants[0].variantType == variantType then Some(variants[0].displayName)
    else FirstDisplayName(variants[1..], variantType)
  }

  /** `filterAndMapActiveVariantsToCode`: undefined for a missing list, '' when no track has the type. */
  function FilterAndMapActiveVariantsToCode(variants: Option<seq<TrackVariantInfo>>, variantType: string): (r: Option<string>)
    ensures variants.None? <==> r.None?
  {
    match variants
    case None => None
    case Some(vs) =>
      match FirstDisplayName(vs, variantType)
      case Some(name) => Some(name)
      case None => Some("")
  }

  /** The active track is the first one of the type: its name, or '' when there is none. */
  lemma ActiveVariantIsFirst(vs: seq<TrackVariantInfo>, t: string)
    ensures (forall i :: 0 <= i < |vs| ==> vs[i].variantType != t) ==> FilterAndMapActiveVariantsToCode(Some(vs), t) == Some("")
    ensures forall i :: FirstOfType(vs, t, i) ==> FilterAndMapActiveVariantsToCode(Some(vs), t) == Some(vs[i].displayName)
  {
    if forall i :: 0 <= i < |vs| ==> vs[i].variantType != t {
      FirstDisplayNameAbsent(vs, t);
    }
    forall i | FirstOfType(vs, t, i)
      ensures FilterAndMapActiveVariantsToCode(Some(vs), t) == Some(vs[i].displayName)
    {
      FirstDisplayNameAt(vs, t, i);
    }
  }

  /** Variant i has the type and none before it does. */
  predicate FirstOfType(vs: seq<TrackVariantInfo>, t: string, i: int)
  {
    0 <= i < |vs| && vs[i].variantType == t && forall j :: 0 <= j < i ==> vs[j].variantType != t
  }

  /** The `find` gives the name of the first variant of the type. */
  lemma {:induction false} FirstDisplayNameAt(vs: seq<TrackVariantInfo>, t: string, i: int)
    requires FirstOfType(vs, t, i)
    ensures FirstDisplayName(vs, t) == Some(vs[i].displayName)
    decreases i
  {
    if i > 0 {
      assert vs[0].variantType != t;
      assert FirstOfType(vs[1..], t, i - 1) by {
        assert forall j :: 0 <= j < i - 1 ==> vs[1..][j] == vs[j + 1];
      }
      FirstDisplayNameAt(vs[1..], t, i - 1);
    }
  }

  /** The `find` gives nothing when no variant has the type. */
  lemma {:induction false} FirstDisplayNameAbsent(vs: seq<TrackVariantInfo>, t: string)
    requires forall i :: 0 <= i < |vs| ==> vs[i].variantType != t
    ensures FirstDisplayName(vs, t) == None
    decreases |vs|
  {
    if |vs| > 0 {
      assert forall i :: 0 <= i < |vs| - 1 ==> vs[1..][i] == vs[i + 1];
      FirstDisplayNameAbsent(vs[1..], t);
    }
  }

  /** `castPlayerStateAdaptor`: Google Cast player states: 2 playing, 3 paused, 4 buffering and 5 loading. */
  function CastPlayerStateAdaptor(castPlayerState: int): (r: PlaybackStateValue)
    ensures r == STARTED <==> castPlayerState == 2
    ensures r == PAUSED <==> castPlayerState == 3
    ensures r == LOADING <==> castPlayerState == 4 || castPlayerState == 5
    ensures r == IDLE <==> !(2 <= castPlayerState <= 5)
  {
    match castPlayerState
    case 1 => IDLE
    case 2 => STARTED
    case 3 => PAUSED
    case 4 => LOADING
    case 5 => LOADING
    case _ => IDLE
  }

  /** A call the selection handlers make on Google Cast or the player SDK. */
  datatype PlayerCommand =
    | ToggleSubtitles(enabled: bool, castLanguageCode: Option<string>)
    | SetPreferredTrackVariant(kind: string, languageCode: Js.Value, displayName: Js.Value, mimeType: string, trackType: string)
    | CastSeek(targetMs: int)
    | PlayerSeek(position: int)

  function OrUndefined(s: Option<string>): Js.Value
  {
    match s
    case None => Js.Undefined
    case Some(x) => Js.Str(x)
  }

  /**
   * `handleTextTrackSelection`: the name 'Off' clears both name and language;
   * a phone casting toggles the cast subtitles, otherwise an existing player
   * gets the preferred TEXT variant.
   */
  function HandleTextTrackSelection(name: string, languageCode: string, isCastSessionActive: bool, isTV: bool, hasPlayer: bool): (r: Option<PlayerCommand>)
    ensures isCastSessionActive && !isTV ==> r == Some(ToggleSubtitles(name != "Off", if name == "Off" then None else Some(languageCode)))
    ensures !(isCastSessionActive && !isTV) ==> (r.Some? <==> hasPlayer)
    ensures r.Some? && r.value.SetPreferredTrackVariant? ==>
              r.value.kind == "TEXT" && r.value.trackType == "TEXT" && r.value.mimeType == "" &&
              (name == "Off" ==> r.value.languageCode == Js.Undefined && r.value.displayName == Js.Undefined) &&
              (name != "Off" ==> r.value.languageCode == Js.Str(languageCode) && r.value.displayName == Js.Str(name))
  {
    var trackName := if name == "Off" then None else Some(name);
    var trackLanguageCode := if name == "Off" then None else Some(languageCode);
    if isCastSessionActive && !isTV then
      Some(ToggleSubtitles(name != "Off", trackLanguageCode))
    else if hasPlayer then
      Some(SetPreferredTrackVariant("TEXT", OrUndefined(trackLanguageCode), OrUndefined(trackName), "", "TEXT"))
    else None
  }

  /** `handleAudioTrackSelection`: the string 'Off' clears name and language; otherwise the selection's fields are used. */
  function HandleAudioTrackSelection(selection: Js.Value, hasPlayer: bool): (r: Option<PlayerCommand>)
    ensures r.Some? <==> hasPlayer
    ensures r.Some? ==> r.value.SetPreferredTrackVariant? && r.value.kind == "AUDIO" && r.value.trackType == "AUDIO" && r.value.mimeType == ""
    ensures r.Some? && selection == Js.Str("Off") ==> r.value.languageCode == Js.Undefined && r.value.displayName == Js.Undefined
    ensures r.Some? && selection != Js.Str("Off") ==>
              r.value.languageCode == Js.Prop(selection, "languageCode") && r.value.displayName == Js.Prop(selection, "name")
  {
    var off := selection == Js.Str("Off");
    var trackName := if off then Js.Undefined else Js.Prop(selection, "name");
    var trackLanguageCode := if off then Js.Undefined else Js.Prop(selection, "languageCode");
    if hasPlayer then Some(SetPreferredTrackVariant("AUDIO", trackLanguageCode, trackName, "", "AUDIO")) else None
  }

  /**
   * `handleRewindForward` by `value` milliseconds: a phone casting seeks the
   * cast session from its progress (the call takes seconds; the target is
   * kept here in milliseconds); a TV seeks unconditionally; a phone seeks
   * only when the target lies before the duration.
   */
  function HandleRewindForward(value: int, isCastSessionActive: bool, isTV: bool, hasPlayer: bool,
                               castProgressMs: int, currentPosition: int, duration: int): (r: Option<PlayerCommand>)
    ensures isCastSessionActive && !isTV ==> r == Some(CastSeek(castProgressMs + value))
    ensures !(isCastSessionActive && !isTV) && isTV ==> (r.Some? <==> hasPlayer)
    ensures !isTV ==> (r.Some? && r.value.PlayerSeek? <==> !isCastSessionActive && hasPlayer && currentPosition + value < duration)
    ensures r.Some? && r.value.PlayerSeek? ==> r.value.position == currentPosition + value
  {
    if isCastSessionActive && !isTV then Some(CastSeek(castProgressMs + value))
    else if hasPlayer then
      if isTV then Some(PlayerSeek(currentPosition + value))
      else if currentPosition + value < duration then Some(PlayerSeek(currentPosition + value))
      else None
    else None
  }
}
