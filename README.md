# TV_Pass logic layer in Dafny

TV_Pass is a React Native video app for phones and TVs: a storefront of
rentable and subscribed content, a programme guide (EPG), a player with
trick-play controls, downloads and a "My content" screen. Under its UI sits a
layer of small deterministic logic: reducers that track login, purchases,
playback, credits, player setup, navigation, rentals, the EPG and download
preferences; builders of backend requests and readers of their answers;
adapters of catalog data; and selection, paging and grouping rules. This
project models that layer in Dafny and proves what each piece promises.

One module per source file:

- `Adapters`: catalog data adapters.
- `EvergentApi`, `ProfileEvergentApi`: envelopes of the subscriber-management backend.
- `Auth`, `Iap`, `Credits`, `PlatformSetup`, `AppNavigation`, `TvodEntitlement`, `DownloadsContext`: the context providers.
- `PlayerState`, `PlayerControlsTv`, `PlayerControlsView`, `PlatformPlayer`: the player.
- `EpgGuideScreen`, `EpgQuery`, `EpgGuideView`: the programme guide.
- `Stylesheet`, `RedeemButton`, `Carousel`: the UI helpers with logic.
- `UpNext`, `ContainerQuery`, `DiscoveryActions`, `Favorites`, `Redeemed`: the discovery and My content hooks.
- `LanguageSelection`, `DownloadsGrouping`, `Reporting`: language texts, the downloads list and the analytics attributes.

Shared modules model what the code relies on from JavaScript and its
libraries:

- `Js`: dynamically typed values, truthiness and object spread.
- `Strings`: number to string, `split`/`join`, `includes`, `slice(-n)`.
- `Keyed`: indexing a list into an object with `reduce`.
- `Query`: the fetching client's `Action`.
- `Wrappers`: `Option` and `Result`.

How the model represents the source:

- Reducers are functions from state and action to state. A reducer whose
  `switch` has no default answers `None` for an unknown action, as the
  source returns `undefined`.
- A thrown error is an `Err` result.
- Objects the code changes in place are classes:
  - the TV controls' speed and key count (`PlayerControlsTv.TvControls`);
  - the touch controls' view state (`PlayerControlsView.ControlsView`);
  - the carousel's index refs (`Carousel.CarouselIndex`);
  - the EPG time bar's module-level counter and slots (`EpgQuery.EpgTimeline`);
  - the attribute object `removeUndefined` cleans (`Reporting.AttributeObject`);
  - the payload `requestBody` edits (`ProfileEvergentApi.Payload`).
- Loops in the source are methods with loop invariants, proved against
  specification functions.
- The clock (`now`), `decrypt`, query answers and SDK results are
  parameters. Calls into the player SDK, Google Cast and the download
  manager are returned as commands instead of being made.

## Model

| member | source | states |
|---|---|---|
| Adapters.Capitalize | src/components/qp-discovery-ui/src/models/Adapters.ts:34-39 | a non-string gives ''; a string keeps its length, its first character is upper-cased and the rest is unchanged |
| Adapters.CapitalizeEach | src/components/qp-discovery-ui/src/models/Adapters.ts:51-54 | the word list keeps its length and each word is capitalized on its own |
| Adapters.CapitalizeWordsSpec | src/components/qp-discovery-ui/src/models/Adapters.ts:58-61 | split on ' ', capitalize each word, join with ' ' upper-cases exactly the characters at the start or after a space (the reference CapitalizeAfterSpaces), and keeps the length |
| Adapters.SplitPieces | src/components/qp-discovery-ui/src/models/Adapters.ts:58-61 | by induction on the string: the capitalised pieces of the split, re-joined, are the reference capitalisation, from the start and from inside a word |
| Adapters.AdaptedValue | src/components/qp-discovery-ui/src/models/Adapters.ts:48-67 | without the capitalise flag, or for a non-string n, the value is stored as is; with it, a string, and each string of a list, is the reference capitalisation CapitalizeAfterSpaces of itself |
| Adapters.AdaptLocalizedValues | src/components/qp-discovery-ui/src/models/Adapters.ts:42-45 | a missing list gives the empty map |
| Adapters.AdaptLocalizedValuesKeys | src/components/qp-discovery-ui/src/models/Adapters.ts:46-70 | a language is a key of the result exactly when some entry of the list has it |
| Adapters.AdaptLocalizedValuesLastWins | src/components/qp-discovery-ui/src/models/Adapters.ts:46-70 | each language maps to the adapted value of its last entry |
| Adapters.AdaptRatingValuesSpec | src/components/qp-discovery-ui/src/models/Adapters.ts:83-90 | the keys are exactly the rating systems, each mapping to the value of its last rating |
| Adapters.AdaptProgramRatingValuesSpec | src/components/qp-discovery-ui/src/models/Adapters.ts:104-111 | the keys are exactly the rating bodies, each mapping to the code of its last rating |
| Adapters.AdaptDataStoreImageSpec | src/components/qp-discovery-ui/src/models/Adapters.ts:114-121 | the keys are exactly the image keys, each mapping to the url of its last image |
| Adapters.AdaptRatingValuesKeys | src/components/qp-discovery-ui/src/models/Adapters.ts:83-90 | for every list, the empty one included, the keys are exactly the rating systems it holds |
| Adapters.AdaptProgramRatingValuesKeys | src/components/qp-discovery-ui/src/models/Adapters.ts:104-111 | for every list, the empty one included, the keys are exactly the rating bodies it holds |
| Adapters.AdaptDataStoreImageKeys | src/components/qp-discovery-ui/src/models/Adapters.ts:114-121 | for every list, the empty one included, the keys are exactly the image keys it holds |
| Adapters.CheckIsFreeContent | src/components/qp-discovery-ui/src/models/Adapters.ts:74-81 | the loop returns true exactly when some entitlement's sp list contains 'urn:package:aha:free' |
| Adapters.TimestampBounds | src/components/qp-discovery-ui/src/models/Adapters.ts:124-125 | the minutes lie in 0..59 and h*3600 + mm*60 <= seconds < h*3600 + mm*60 + 60, for every input |
| Adapters.TimestampShape | src/components/qp-discovery-ui/src/models/Adapters.ts:123-136 | the minutes part is always emitted and is last; the hours part is emitted exactly when seconds >= 3600; the string is 'Xh Ym' or 'Ym' (or 'Xhr Y mins' / 'Y mins' in full form) |
| Adapters.ProgramActiveWindow | src/components/qp-discovery-ui/src/models/Adapters.ts:295-304 | an airing is never active without both times, never at or before its start, never at or after its end, and an active airing starts before it ends |
| Adapters.ProgramActiveBetween | src/components/qp-discovery-ui/src/models/Adapters.ts:295-304 | an airing active at two instants is active at every instant between them |
| Adapters.ProgramActiveSomewhere | src/components/qp-discovery-ui/src/models/Adapters.ts:295-304 | an airing with both times is active at some second exactly when its window holds one strictly between start and end |
| EvergentApi.ResponseKeyRoundTrip | src/utils/EvergentAPIUtil.ts:26-67 | reading each endpoint's response key back through the reverse table gives that endpoint, for all 19 endpoints |
| EvergentApi.ResponseKeysDistinct | src/utils/EvergentAPIUtil.ts:26-67 | distinct endpoints get distinct response keys |
| EvergentApi.Credentials | src/utils/EvergentAPIUtil.ts:74-80 | the credential fields are exactly the user key, the password key and channelPartnerID; all are '' without a configuration; with one, they hold the API user, the decrypted token and the partner id |
| EvergentApi.EnvelopeSpec | src/utils/EvergentAPIUtil.ts:81-88 | the message fields are the credential keys plus the payload keys; a payload field wins over a credential, and a credential the payload lacks is kept |
| EvergentApi.RequestBodyCredentials | src/utils/EvergentAPIUtil.ts:75-80 | without a payload the message holds exactly 'apiuser'/'apipassword'/channelPartnerID for AddTVODOrder and 'apiUser'/'apiPassword'/channelPartnerID for every other endpoint, all '' without a configuration |
| EvergentApi.RequestBodyPayloadWins | src/utils/EvergentAPIUtil.ts:82-87 | a payload field is spread last, so the message carries the payload's value for it |
| EvergentApi.ResponsePayload | src/utils/EvergentAPIUtil.ts:91-97 | the result is undefined or the truthy value under the endpoint's response key, and it is that value whenever the value is truthy |
| EvergentApi.IsSuccessSpec | src/utils/EvergentAPIUtil.ts:99-102 | success holds exactly when the response object under the key has responseCode '1', and then responsePayload returns that object |
| EvergentApi.ErrorCode | src/utils/EvergentAPIUtil.ts:104-115 | undefined unless the response message is truthy and its failureMessage is truthy with a positive length; then the errorCode of its first entry, and a thrown TypeError when that entry is null or undefined |
| EvergentApi.ErrorCodeOfFailureList | src/utils/EvergentAPIUtil.ts:104-115 | for a failureMessage list: an empty list gives no code, a first object entry gives its errorCode, and a null or undefined first entry throws |
| ProfileEvergentApi.DuplicateCaseUnreachable | src/features/profile/data/utils/EvergentAPIUtil.ts:56-87 | the second UpdateProfile case is the first match for no endpoint, while the first one is the match for UpdateProfile |
| ProfileEvergentApi.DropFalsyContactIdSpec | src/features/profile/data/utils/EvergentAPIUtil.ts:107-109 | a contactID survives exactly when it is truthy; every other field is kept with its value; dropping twice is dropping once |
| ProfileEvergentApi.RequestBodyContactId | src/features/profile/data/utils/EvergentAPIUtil.ts:107-117 | the message carries contactID exactly when the payload had a truthy one, and then with the payload's value |
| ProfileEvergentApi.RequestBody | src/features/profile/data/utils/EvergentAPIUtil.ts:95-118 | the caller's payload object is changed in place to the one without a falsy contactID, and the message is the credential envelope of the changed payload (none when there is no payload) |
| ProfileEvergentApi.Payload.constructor | src/features/profile/data/utils/EvergentAPIUtil.ts:95 | the payload object requestBody receives holds the caller's fields |
| ProfileEvergentApi.ResponsePayload | src/features/profile/data/utils/EvergentAPIUtil.ts:120-126 | the value under the response key when it is present and truthy; otherwise the thrown InternalServerError |
| ProfileEvergentApi.AssertErrorCode | src/features/profile/data/utils/EvergentAPIUtil.ts:133-147 | the error object with the first failure's message and code exactly when the payload's message has a truthy failureMessage of positive length whose first entry is not null or undefined; the thrown InternalServerError exactly when there is no such failureMessage; otherwise the thrown TypeError |
| ProfileEvergentApi.AssertErrorCodeMatchesErrorCode | src/features/profile/data/utils/EvergentAPIUtil.ts:133-147 | on responses under the same message name, the error object carries the code errorCode reads, both throw on the same responses, and no failure means an undefined code (see also src/utils/EvergentAPIUtil.ts lines 104-115) |
| ProfileEvergentApi.StringFailureMessage | src/features/profile/data/utils/EvergentAPIUtil.ts:133-147 | a non-empty string as failureMessage yields an error object whose message and code are undefined |
| ProfileEvergentApi.ParseResponseSpec | src/features/profile/data/utils/EvergentAPIUtil.ts:199-207 | the payload is returned exactly when the status is accepted and isSuccess holds, and it is the value under the response key; a failed success check throws assertErrorCode's error |
| ProfileEvergentApi.EvergentDeviceType | src/features/profile/data/utils/EvergentAPIUtil.ts:159-175 | undefined off android and ios; otherwise the TV, tablet or mobile name of the platform, in that order of precedence |
| ProfileEvergentApi.TvTakesPrecedence | src/features/profile/data/utils/EvergentAPIUtil.ts:159-175 | on a TV the tablet flag makes no difference, and the TV name differs from the non-TV one |
| ProfileEvergentApi.AppType | src/features/profile/data/utils/EvergentAPIUtil.ts:176-188 | undefined off android and ios; otherwise 'Android TV'/'Android' or 'Apple TV'/'iOS' by the TV flag |
| ProfileEvergentApi.AppTypeMatchesDeviceType | src/features/profile/data/utils/EvergentAPIUtil.ts:149-188 | the device message's app type and device type are defined on the same platforms, and each names a TV exactly on a TV |
| ProfileEvergentApi.AppTypeInjective | src/features/profile/data/utils/EvergentAPIUtil.ts:176-188 | distinct platforms or TV flags never share an app type |
| ProfileEvergentApi.GetAction | src/features/profile/data/utils/EvergentAPIUtil.ts:190-197 | the method is the given one when truthy, else POST; the client is 'ums', the endpoint is the endpoint's path and the body is the request |
| ProfileEvergentApi.GetActionReadBack | src/features/profile/data/utils/EvergentAPIUtil.ts:190-197 | the action's endpoint path reads back as the endpoint it was built for, and its body is the request unchanged |
| ProfileEvergentApi.GetActionInjective | src/features/profile/data/utils/EvergentAPIUtil.ts:190-197 | two equal actions were built for the same endpoint and request |
| Auth.GracePeriodSpec | src/contexts/AuthContextProvider.tsx:85-93 | no grace period for a missing or non-positive expiry or a non-positive grace; otherwise in grace exactly while now < expiry + grace |
| Auth.IsSubscribedSpec | src/contexts/AuthContextProvider.tsx:106-127 | no profile is never subscribed; subscriptionStatus always is; a cancelled subscription that expired before now never is; without a configured grace period an inactive subscription is not; otherwise, cancelled but not yet expired included, exactly the grace period decides |
| Auth.ControlReducer | src/contexts/AuthContextProvider.tsx:155-191 | LOG_IN gives SUBSCRIBED exactly when isSubscribed holds and LOGGED_IN otherwise, clears the error and stores the token, the profile and the action's signedUpInSession and silentLogin; LOG_IN_ERROR goes to INIT with the error; LOG_OUT goes to NOT_LOGGED_IN without error; UPDATE_ACCOUNT_PROFILE changes only the profile; an unknown action changes nothing; only LOG_IN touches the token and the session flags |
| Auth.RunKeepsErrorOnlyWhenInit | src/contexts/AuthContextProvider.tsx:155-191 | over any sequence of dispatches, an error is only ever held in the INIT state |
| Auth.RunWithoutLogInKeepsToken | src/contexts/AuthContextProvider.tsx:155-191 | a sequence of dispatches without LOG_IN never changes the access token |
| Auth.AuthActionFor | src/contexts/AuthContextProvider.tsx:562-580 | the client is always 'ums' with the given method, endpoint and body; the headers are exactly Authorization: 'Bearer ' + token for a truthy token, and empty otherwise |
| Iap.IapReducer | src/utils/IAPContextProvider.tsx:87-164 | INIT sets only initState; PURCHASE_REQUEST sets loading and clears success, error and queueProcessed while recording the action's errorObject, skuId and productType and keeping the queued errors; PURCHASE_ERROR sets error, transactionSuccess false, clears queueProcessed, empties queueTaskErrors, records errorObject and keeps skuId/productType unless truthy new ones come; PURCHASE_SUCCESS sets success and error false, clears queueProcessed, records errorObject, skuId and productType and keeps the queued errors; RESET_TRANSACTION is the initial state with initState preserved; QUEUE_PROCESSED sets only queueProcessed; QUEUE_TASK_ERROR appends exactly the one error; any other type changes nothing; only INIT touches initState |
| Iap.RunKeepsConsistentTransaction | src/utils/IAPContextProvider.tsx:87-164 | over any sequence of dispatches, success and error are both set or both unset, are opposite when set, and a loading state has no outcome |
| Iap.QueueTaskErrorsAccumulate | src/utils/IAPContextProvider.tsx:149-154 | n QUEUE_TASK_ERROR dispatches append exactly those n errors, in order, and change nothing else |
| Iap.RequestBody | src/utils/IAPContextProvider.tsx:166-186 | the message has the endpoint's request key as its only key, holding the request fields |
| Iap.RequestBodySpec | src/utils/IAPContextProvider.tsx:166-186 | the receipt is the txID of the payment information unless the payload replaces it; payload fields win; the three credential fields and paymentmethodInfo are always present |
| PlayerState.Merge | src/components/qp-playerController-ui/src/hooks/usePlayerState.tsx:82-87 | `{ ...state, ...payload }`: each of playbackState, bufferingState, seekingState, currentPosition and duration takes the payload's value when the payload carries it and keeps the state's otherwise, and the fields outside the payload type are untouched |
| PlayerState.PbStateReducer | src/components/qp-playerController-ui/src/hooks/usePlayerState.tsx:69-104 | PLAYER_INIT sets only playerID; PLAYER_DEINIT resets playerID to -1 exactly when the ids match and otherwise changes nothing; ERROR sets buffering and seeking to INACTIVE only; RESET gives the initial state (IDLE, position 0, no tracks); TRACK_AVAILABILITY_CHANGE, TRACK_CHANGED and AIRPLAY_CONNECTED each change their one field; STATE_CHANGE and PROGRESS keep the player id and tracks |
| PlayerState.ProgressKeepsPlaybackState | src/components/qp-playerController-ui/src/hooks/usePlayerState.tsx:85-87 | a progress update moves position and duration and nothing else |
| PlayerState.StateChangeKeepsProgress | src/components/qp-playerController-ui/src/hooks/usePlayerState.tsx:82-84 | a state change moves the playback, buffering and seeking states and nothing else |
| PlayerState.RunKeepsPlayerId | src/components/qp-playerController-ui/src/hooks/usePlayerState.tsx:72-103 | over any dispatch sequence without a matching PLAYER_DEINIT, a PLAYER_INIT or a RESET, the player id is unchanged; a stale deinit never clears the current id |
| PlayerControlsTv.SinglePress | src/components/qp-playerController-ui/src/views/PlayerControlsTV.tsx:790-793 | one press gives factor 1 and leaves the speed alone, for every event type |
| PlayerControlsTv.FastForwardDoubles | src/components/qp-playerController-ui/src/views/PlayerControlsTV.tsx:794-818 | with count > 1 the speed doubles, or goes back to 2 once it is at least 16, and the factor is count times the new speed |
| PlayerControlsTv.RewindRestarts | src/components/qp-playerController-ui/src/views/PlayerControlsTV.tsx:804-818 | rewind with count > -1 (other than a single press) sets speed 2 and gives factor -2 |
| PlayerControlsTv.UnknownEventResets | src/components/qp-playerController-ui/src/views/PlayerControlsTV.tsx:814-817 | any other event type sets speed 1 and gives factor 1 |
| PlayerControlsTv.NextSpeedValid | src/components/qp-playerController-ui/src/views/PlayerControlsTV.tsx:790-818 | from a speed in {1, 2, 4, 8, 16} the next speed is again in that set |
| PlayerControlsTv.BurstFactor | src/components/qp-playerController-ui/src/views/PlayerControlsTV.tsx:148-160 | a burst of n presses handled from speed 1 plays at 1 for one press, 2n for fast-forward, and -2 for rewind however many presses (see also lines 790-818) |
| PlayerControlsTv.ControlReducer | src/components/qp-playerController-ui/src/views/PlayerControlsTV.tsx:78-89 | each named action replaces only its own field (updateState replaces the animations, captionControls the captions); a name without a case gives undefined |
| PlayerControlsTv.TvControls.constructor | src/components/qp-playerController-ui/src/views/PlayerControlsTV.tsx:208-211 | the key counter starts at 0 and the speed at 1; controls are shown as showOnStart says, captions hidden and not paused (see also lines 124-132) |
| PlayerControlsTv.TvControls.GetPlaybackSpeed | src/components/qp-playerController-ui/src/views/PlayerControlsTV.tsx:790-819 | the speed field becomes NextSpeed of the old speed and the factor returned is SpeedFactor, keeping the speed in {1, 2, 4, 8, 16} |
| PlayerControlsTv.TvControls.HandleRewindForwardEvent | src/components/qp-playerController-ui/src/views/PlayerControlsTV.tsx:148-161 | the counter is cleared; fast-forward and rewind send their command with the computed factor and reset the speed to 1; any other type sends nothing and keeps the speed NextSpeed gives |
| PlayerControlsTv.TvControls.KeyEvent | src/components/qp-playerController-ui/src/views/PlayerControlsTV.tsx:172-194 | an event whose eventKeyAction is 0 changes nothing and schedules nothing; otherwise a fast-forward or rewind key adds one to the counter and schedules the handler with the new count (at least 1) exactly when that direction is not disabled, play/pause asks for the play/pause toggle, and other keys change nothing |
| PlayerControlsTv.TvControls.TogglePlayPause | src/components/qp-playerController-ui/src/views/PlayerControlsTV.tsx:704-712 | paused is flipped in place; onPause is called when it is now paused and the callback exists, onPlay when it is now playing and that callback exists |
| PlayerControlsView.ControlsReducer | src/components/qp-playerController-ui/src/views/PlayerControlsView.tsx:157-168 | each named action replaces only its own field (updateState replaces the animations); a name without a case gives undefined |
| PlayerControlsView.RewindTarget | src/components/qp-playerController-ui/src/views/PlayerControlsView.tsx:326-328 | the seek target is the current time minus the step, or 0 when that is negative |
| PlayerControlsView.FastForwardTarget | src/components/qp-playerController-ui/src/views/PlayerControlsView.tsx:334-336 | the seek target is the current time plus the step, or the duration when that is past it |
| PlayerControlsView.RewindStaysInRange | src/components/qp-playerController-ui/src/views/PlayerControlsView.tsx:326-328 | from a position inside the programme a rewind lands inside it and never moves forward |
| PlayerControlsView.FastForwardStaysInRange | src/components/qp-playerController-ui/src/views/PlayerControlsView.tsx:334-336 | from a position inside the programme a fast-forward lands inside it and never moves back |
| PlayerControlsView.ControlsView.constructor | src/components/qp-playerController-ui/src/views/PlayerControlsView.tsx:147-155 | not paused, controls shown as showOnStart says, nothing seeked, and no lock, rating or brightness overlay |
| PlayerControlsView.ControlsView.HandlePlayPause | src/components/qp-playerController-ui/src/views/PlayerControlsView.tsx:312-324 | paused is flipped; onPause is called exactly when now paused and it exists, otherwise onPlay when it exists (so pausing without onPause calls onPlay) |
| PlayerControlsView.ControlsView.HandleRewind | src/components/qp-playerController-ui/src/views/PlayerControlsView.tsx:326-329 | the recorded seek target is the clamped rewind target |
| PlayerControlsView.ControlsView.HandleFastFwd | src/components/qp-playerController-ui/src/views/PlayerControlsView.tsx:334-337 | the recorded seek target is the clamped fast-forward target |
| PlayerControlsView.ControlsView.HandleOnScreenTouch | src/components/qp-playerController-ui/src/views/PlayerControlsView.tsx:342-363 | the rating and brightness overlays close; while locked the lock badge flips and its hide is scheduled when it appears; unless locked or casting with controls shown, the controls flip and the show or hide animation starts (the hide is not scheduled while casting or paused) (see also lines 216-220) |
| PlayerControlsView.ControlsView.HandleLockControlEvent | src/components/qp-playerController-ui/src/views/PlayerControlsView.tsx:407-430 | the lock flips and the badge hides; locking hides the controls and the brightness slider, unlocking shows the controls |
| PlatformPlayer.FilterAndMapVariantsToCode | src/screens/components/PlatformPlayer.tsx:105-118 | a missing variant list gives no tracks; otherwise there are never more tracks than variants |
| PlatformPlayer.TracksOfTypeLength | src/screens/components/PlatformPlayer.tsx:106-114 | filtering by type never lengthens the list |
| PlatformPlayer.TracksOfTypeAppend | src/screens/components/PlatformPlayer.tsx:106-114 | filtering distributes over concatenation, so the tracks keep the order of the stream |
| PlatformPlayer.TracksOfTypeMembers | src/screens/components/PlatformPlayer.tsx:106-114 | a track is offered exactly when some variant of that type has its name and language |
| PlatformPlayer.FilterAndMapActiveVariantsToCode | src/screens/components/PlatformPlayer.tsx:120-131 | undefined exactly when the variant list is missing |
| PlatformPlayer.ActiveVariantIsFirst | src/screens/components/PlatformPlayer.tsx:120-131 | the active track is the display name of the first variant of the type, or '' when no variant has the type |
| PlatformPlayer.CastPlayerStateAdaptor | src/screens/components/PlatformPlayer.tsx:133-149 | Google Cast state 2 maps to STARTED, 3 to PAUSED, 4 and 5 to LOADING, and every other number to IDLE, each in both directions |
| PlatformPlayer.HandleTextTrackSelection | src/screens/components/PlatformPlayer.tsx:304-320 | a phone casting toggles the cast subtitles (enabled unless 'Off', with the language unless 'Off'); otherwise a command is sent exactly when there is a player, a TEXT preference whose name and language are cleared for 'Off' |
| PlatformPlayer.HandleAudioTrackSelection | src/screens/components/PlatformPlayer.tsx:322-333 | a command is sent exactly when there is a player: an AUDIO preference whose name and language are cleared for the string 'Off' and otherwise taken from the selection |
| PlatformPlayer.HandleRewindForward | src/screens/components/PlatformPlayer.tsx:345-361 | a phone casting seeks the cast session to its progress plus the offset; a TV seeks whenever there is a player; a phone not casting seeks only when the target is before the duration; a player seek goes to the current position plus the offset |
| EpgGuideScreen.HourLabelSlice | src/screens/EpgGuideScreen.tsx:30-31 | the two-character slice of the hour modulo 12, with '0' turned into '12', is the 12-hour label |
| EpgGuideScreen.CalculateEpgTimeBarSlots | src/screens/EpgGuideScreen.tsx:21-37 | the bar holds 48 labels and label k is the one for 30·k minutes after midnight |
| EpgGuideScreen.HourLabelValue | src/screens/EpgGuideScreen.tsx:30-31 | the hour label is all digits and reads as the hour on a 12-hour clock, with midnight and noon read as 12 |
| EpgGuideScreen.SlotShape | src/screens/EpgGuideScreen.tsx:28-32 | slot k shows hour k/2 on a 12-hour clock, minutes '00' or '30' by parity, and 'am' exactly in the first 24 slots |
| EpgGuideScreen.FirstSlot | src/screens/EpgGuideScreen.tsx:24-32 | the bar starts at '12:00am' |
| EpgGuideScreen.LastSlot | src/screens/EpgGuideScreen.tsx:22-32 | the bar ends at '11:30pm' |
| EpgQuery.ResponseReducer | src/components/qp-discovery-ui/src/hooks/useFetchEpgQuery.ts:55-94 | RESET gives the empty initial state; LOADING sets loading; ERROR clears loading and records the error; ADD_CHANNELS clears loading, appends the channels, takes hasMore (false when absent) and the time bar, and merges the new schedules over the current ones, keeping every other channel's; any other type changes nothing |
| EpgQuery.ResponseReducerAsWritten | src/components/qp-discovery-ui/src/hooks/useFetchEpgQuery.ts:11-73 | as written the schedules live in one shared Map: ADD_CHANNELS writes the new schedules into it and no other action touches it |
| EpgQuery.ResetKeepsStaleSchedulesAsWritten | src/components/qp-discovery-ui/src/hooks/useFetchEpgQuery.ts:11-73 | as written a schedule added before RESET is still in the shared Map after it |
| EpgQuery.ResetClearsSchedules | src/components/qp-discovery-ui/src/hooks/useFetchEpgQuery.ts:57-58 | with the schedules held as a value, RESET leaves no schedule behind |
| EpgQuery.AsWrittenAgreesOutsideReset | src/components/qp-discovery-ui/src/hooks/useFetchEpgQuery.ts:55-94 | for every action but RESET the shared-Map reading and the value reading give the same state |
| EpgQuery.DedupFromDistinct | src/components/qp-discovery-ui/src/hooks/useFetchEpgQuery.ts:117-119 | the deduplicated channels have distinct ids, none of them already seen |
| EpgQuery.DedupFromKeepsIds | src/components/qp-discovery-ui/src/hooks/useFetchEpgQuery.ts:117-119 | every channel id not seen before is kept |
| EpgQuery.DedupFromKeepsFirst | src/components/qp-discovery-ui/src/hooks/useFetchEpgQuery.ts:117-119 | for each id, the first channel with it is the one kept |
| EpgQuery.DedupFromAppend | src/components/qp-discovery-ui/src/hooks/useFetchEpgQuery.ts:117-119 | deduplication goes left to right, so the channels keep their order |
| EpgQuery.ProcessEpgResponse | src/components/qp-discovery-ui/src/hooks/useFetchEpgQuery.ts:112-129 | no data gives no channels and no schedules; otherwise the adapted channels without duplicate ids and the airings indexed by channel id |
| EpgQuery.ProcessedChannelsDistinct | src/components/qp-discovery-ui/src/hooks/useFetchEpgQuery.ts:117-119 | the channels of a response have distinct ids and cover every channel id of the response |
| EpgQuery.ProcessedSchedulesLastWins | src/components/qp-discovery-ui/src/hooks/useFetchEpgQuery.ts:120-126 | each channel id has a schedule, and a later channel with the same id overwrites an earlier one |
| EpgQuery.ProcessedSchedulesKeys | src/components/qp-discovery-ui/src/hooks/useFetchEpgQuery.ts:120-126 | exactly the channel ids of the response have a schedule |
| EpgQuery.HasMoreUntilLastPage | src/components/qp-discovery-ui/src/hooks/useFetchEpgQuery.ts:165-166 | with a positive page size, more channels are reported after page n exactly when n is below the number of pages the total (0 without a count) fills |
| EpgQuery.HasMoreBounds | src/components/qp-discovery-ui/src/hooks/useFetchEpgQuery.ts:165-166 | no count means no more pages, a total equal to the pages fetched means none, and a larger total with a positive page size means more |
| EpgQuery.EpgTimeline.constructor | src/components/qp-discovery-ui/src/hooks/useFetchEpgQuery.ts:50-53 | the counter starts at 06:00 (360 minutes) and the time bar is empty |
| EpgQuery.EpgTimeline.CalculateEpgTimeBarSlots | src/components/qp-discovery-ui/src/hooks/useFetchEpgQuery.ts:131-140 | the bar ends with 48 labels, label k being the time 30·k minutes after 06:00, and the counter at 06:00 of the next day; a second call adds nothing and no call drops an earlier label |
| EpgQuery.FirstTimeLabel | src/components/qp-discovery-ui/src/hooks/useFetchEpgQuery.ts:134-136 | the first label is '06:00' (see also lines 50) |
| EpgQuery.LastTimeLabel | src/components/qp-discovery-ui/src/hooks/useFetchEpgQuery.ts:132-136 | the 48th label is '05:30' of the next day |
| EpgGuideView.RelativeWidth | src/components/qp-discovery-ui/src/views/EpgGuideView.tsx:314-319 | the width is the largest whole number of units not above 200 per hour of the span |
| EpgGuideView.HourWidth | src/components/qp-discovery-ui/src/views/EpgGuideView.tsx:314-319 | k whole hours are exactly 200k units wide |
| EpgGuideView.RelativeWidthMonotone | src/components/qp-discovery-ui/src/views/EpgGuideView.tsx:314-319 | a tile that does not end before it starts has a non-negative width that grows with its end |
| EpgGuideView.RelativeWidthStart | src/components/qp-discovery-ui/src/views/EpgGuideView.tsx:314-319 | a later start never gives a wider tile |
| EpgGuideView.ScheduleTile | src/components/qp-discovery-ui/src/views/EpgGuideView.tsx:402-407 | the tile starts at the later of the airing's and the day's starts and ends at the earlier of their ends |
| EpgGuideView.TileWithinDay | src/components/qp-discovery-ui/src/views/EpgGuideView.tsx:402-419 | an airing that overlaps the day gives a tile inside the day, never wider than the whole day |
| EpgGuideView.TileInsideDayUnclipped | src/components/qp-discovery-ui/src/views/EpgGuideView.tsx:402-407 | an airing inside the day is drawn as it is |
| Stylesheet.Mixin | src/components/qp-common-ui/src/styles/stylesheet.ts:7-9 | the merged styles have the names of both sets; an override wins, and every other base style is kept |
| Stylesheet.CreateStyles | src/components/qp-common-ui/src/styles/stylesheet.ts:11-13 | a missing argument counts as no styles, so one missing side gives the other side's styles and two give none |
| Stylesheet.MixinIdempotent | src/components/qp-common-ui/src/styles/stylesheet.ts:7-9 | mixing in the same overrides a second time changes nothing |
| Stylesheet.RatiosDistinct | src/components/qp-common-ui/src/styles/stylesheet.ts:15-22 | the six aspect ratios have distinct numeric values |
| Stylesheet.FromString | src/components/qp-common-ui/src/styles/stylesheet.ts:25-42 | each of the six names reads as its own aspect ratio ('4x3' as the 3 by 4 one), and any other string as 1x1 |
| Stylesheet.AspectRatioRoundTrip | src/components/qp-common-ui/src/styles/stylesheet.ts:25-61 | reading back the string form of an aspect ratio gives the same aspect ratio |
| Stylesheet.AsStringInjective | src/components/qp-common-ui/src/styles/stylesheet.ts:44-61 | distinct aspect ratios have distinct string forms |
| Stylesheet.ImageTypeAsString | src/components/qp-common-ui/src/styles/stylesheet.ts:74-87 | poster, cover and banner are '0', '1' and '2', and exactly the other types are '3' |
| RedeemButton.UseRedeemState | src/screens/components/RedeemButton.tsx:88-112 | loading the entitlement shows the check; an entitlement means Entitled; loading credits otherwise shows the check; otherwise the asset is redeemable exactly when both the balance and the price are truthy and the balance covers the price |
| RedeemButton.EntitledRegardlessOfCredits | src/screens/components/RedeemButton.tsx:95-97 | once settled, an entitled asset is Entitled whatever the credit state |
| RedeemButton.FreeAssetNeedsNoCredit | src/screens/components/RedeemButton.tsx:108-110 | an asset without a price or priced at 0 is never offered for redemption |
| RedeemButton.MoreCreditsStillRedeemable | src/screens/components/RedeemButton.tsx:108-110 | raising a positive balance never takes away the possibility to redeem |
| Credits.CreditsReducer | src/utils/CreditsContextProvider.tsx:116-139 | UPDATE_CREDITS stores the credits, PAUSE_REFRESH and RESUME_REFRESH set the refresh state, each clearing loading; any other type changes nothing |
| Credits.FetchCredits | src/utils/CreditsContextProvider.tsx:143-163 | nothing is dispatched without a query, a configuration and a token, or when the answer is unsuccessful; a dispatch only ever stores the answer's accountCreditPoints, and only when it is at least zero |
| Credits.FetchStoresNonNegative | src/utils/CreditsContextProvider.tsx:149-155 | a successful answer with a non-negative number is stored, and a negative number is not |
| Credits.RunKeepsCreditsNonNegative | src/utils/CreditsContextProvider.tsx:116-165 | from a non-negative balance no run of fetches, pauses and resumes stores a negative one (see also lines 22-25) |
| Credits.RefreshFollowsPauseAndResume | src/utils/CreditsContextProvider.tsx:42-60 | after a pause the periodic refresh is stopped, after a resume it runs, and a fetch leaves it as it was (see also lines 164-165) |
| Credits.CreditsRefreshInterval | src/utils/CreditsContextProvider.tsx:177 | the interval is the configured one when set and non-zero, otherwise 30 seconds, and never 0 (see also lines 8) |
| PlatformSetup.PltfmReducer | src/platform/PlatformContextProvider.tsx:46-75 | CONFIGURING marks configuration in progress; CONFIGURED marks it done, clears the error and stores the three services; ERROR clears both flags and the services, records the failure and counts one more attempt; an unknown action gives undefined |
| PlatformSetup.PlatformClientType | src/platform/PlatformContextProvider.tsx:97-111 | iOS is 'iosmobile'; elsewhere the client is 'androidtv' exactly on a TV configured as a TV client, otherwise 'androidmobile' |
| PlatformSetup.Attempt | src/platform/PlatformContextProvider.tsx:115-183 | configuration starts exactly when there is a token, nothing is in progress or done, and fewer than three attempts failed; otherwise nothing changes; a success leaves the count of attempts and a failure adds one |
| PlatformSetup.RunKeepsSetupInvariant | src/platform/PlatformContextProvider.tsx:173-183 | across any run of the effect nothing stays in progress, at most three attempts are counted, a configured state has fewer than three, and the number of starts is bounded by the failures plus one success (see also lines 46-75) |
| PlatformSetup.ConfigurationStartsAtMostThreeTimes | src/platform/PlatformContextProvider.tsx:173-183 | from the initial state, however often the effect runs, configuration is started at most three times (see also lines 22) |
| AppNavigation.NavigationName | src/utils/AppContextProvider.tsx:86-133 | no navigation state is named 'APP_PREVIEW' |
| AppNavigation.NavigationNameInjective | src/utils/AppContextProvider.tsx:86-133 | two navigation states have the same name exactly when they are the same state |
| AppNavigation.AppReducer | src/utils/AppContextProvider.tsx:86-134 | each action moves to its own screen: INIT, AUTH, PURCHASE_SUBSCRIPTION with the token and the auth context's signed-up flag, BROWSE_APP with the token and the downloads flag, OFFLINE, PREVIEW_APP, FORCE_UPDATE or REGION_LOCK; an unknown action gives undefined |
| AppNavigation.UserTypeRoutes | src/utils/AppContextProvider.tsx:94-112 | dispatching a user type other than INIT leads to AUTH, PURCHASE_SUBSCRIPTION or BROWSE_APP, the last without routing to the downloads (see also lines 212-216) |
| AppNavigation.ManageAppContextAsWritten | src/utils/AppContextProvider.tsx:173-218 | as written the startup decision agrees with the corrected one except in the preview mode, which it does not recognise |
| AppNavigation.PreviewLeftWhenOfflineAsWritten | src/utils/AppContextProvider.tsx:182-196 | as written a user previewing the app off TV who goes offline without downloads is sent to the offline screen |
| AppNavigation.ManageAppContext | src/utils/AppContextProvider.tsx:173-218 | without a configuration, with the network type unknown or before the splash screen has loaded nothing is dispatched; the decision is never INIT or an unknown action (see also lines 157-160) |
| AppNavigation.BrowsingSurvivesGoingOffline | src/utils/AppContextProvider.tsx:181-187 | a user browsing or previewing who loses the network stays where they are |
| AppNavigation.OfflineRouting | src/utils/AppContextProvider.tsx:188-209 | off TV, going offline elsewhere leads to the offline screen without downloads, and to the downloads otherwise |
| AppNavigation.OnlineRouting | src/utils/AppContextProvider.tsx:211-217 | when not known to be offline off TV, the user's login state alone decides, and INIT dispatches nothing |
| Carousel.TripleIndex | src/components/qp-discovery-ui/src/views/CarouselView.tsx:71-73 | position i of the three copies shows item i modulo the number of items |
| Carousel.LoopedResources | src/components/qp-discovery-ui/src/views/CarouselView.tsx:69-73 | a looping carousel of at least three items lays them out three times over, position i showing item i modulo their number; otherwise the items as given |
| Carousel.NormalisedIntoMiddleCopy | src/components/qp-discovery-ui/src/views/CarouselView.tsx:82-89 | any index of the tripled list is moved into the middle copy onto the same item, and left alone exactly when it is already there |
| Carousel.AutoplayNext | src/components/qp-discovery-ui/src/views/CarouselView.tsx:128-151 | the next index, or 0 once past the end, so it stays within the list |
| Carousel.AutoplayInterval | src/components/qp-discovery-ui/src/views/CarouselView.tsx:68 | the given interval, or 5 seconds when it is missing or 0 |
| Carousel.AutoplayNeedsLooping | src/components/qp-discovery-ui/src/views/CarouselView.tsx:125-126 | the autoplay timer runs exactly on a looping carousel of at least three items whose interval is missing or not negative (see also lines 68-70) |
| Carousel.CarouselIndex.constructor | src/components/qp-discovery-ui/src/views/CarouselView.tsx:59-73 | the current index starts at the initial scroll index (0 without one), nothing is to be swapped, and the list has the length of the laid-out items (see also lines 180) |
| Carousel.CarouselIndex.OnViewableItemsChanged | src/components/qp-discovery-ui/src/views/CarouselView.tsx:75-99 | the current index becomes the first viewable one when there is one; it is reported exactly when an onIndexChange callback is given, and without one the handler throws before any swap or autoplay; otherwise a looping carousel records a swap into the middle copy when the index is outside it, and restarts autoplay (see also line 48) |
| Carousel.CarouselIndex.OnMomentumScrollEnd | src/components/qp-discovery-ui/src/views/CarouselView.tsx:106-117 | a pending swap is applied once, the list jumps to that index in the middle copy, and the swap is cleared |
| Carousel.CarouselIndex.Advance | src/components/qp-discovery-ui/src/views/CarouselView.tsx:128-151 | the autoplay tick and the orientation change step to the next item, wrapping to 0 past the end |
| UpNext.MaxUpNextItems | src/screens/hooks/useUpNextRecommendations.ts:123 | the configured maximum when set and non-zero, otherwise 30 |
| UpNext.CreateUpNextAction | src/screens/hooks/useUpNextRecommendations.ts:51-85 | a metadata query to /upnext naming the joined genres in the app language and the category; an episode asks for one item after its own season and episode of its series, anything else for a page of its own id; the provider is named exactly for an up-next query and the exclusions exactly when given |
| UpNext.ExpiryDays | src/screens/hooks/useUpNextRecommendations.ts:93-97 | at least one day is always shown; with at most 24 whole hours left it is one day, and otherwise it is the whole hours left divided by 24 and rounded up (more than days-1 times 24 hours, at most days times 24) |
| UpNext.ExpiresIn | src/screens/hooks/useUpNextRecommendations.ts:87-105 | there is a label exactly when there is a rental; it is the one-day label exactly when the rounded-up day count is 1, and otherwise the days label with that count, which is more than 1 |
| UpNext.OneDayLabel | src/screens/hooks/useUpNextRecommendations.ts:93-101 | the one-day label is shown exactly for windows ending less than 25 hours from now |
| UpNext.FindRedeemed | src/screens/hooks/useUpNextRecommendations.ts:115 | a rental found is one of the user's for that resource; none is found exactly when the user has none for it; otherwise it is the rental at the first position with that resource, as find returns |
| UpNext.MixinRedeemed | src/screens/hooks/useUpNextRecommendations.ts:110-120 | the resource is kept; it carries an expiry label exactly when the user has rented it, and the label is that of the first rental for it (see also lines 86-101) |
| UpNext.Difference | src/screens/hooks/useUpNextRecommendations.ts:159 | the redeemed ids without a bookmark: exactly the elements of the first list not in the second |
| UpNext.Intersection | src/screens/hooks/useUpNextRecommendations.ts:159 | exactly the elements of the first list that are in the second, the first of them from both |
| UpNext.IntersectionHead | src/screens/hooks/useUpNextRecommendations.ts:159-161 | the intersection starts with the first element of the first list that is in the second |
| UpNext.FetchUpNextItem | src/screens/hooks/useUpNextRecommendations.ts:122-170 | nothing on an error, without results or with an empty list; anything chosen is one of the results |
| UpNext.SingleResultAsIs | src/screens/hooks/useUpNextRecommendations.ts:148-151 | a single result is taken as it is, whether preferred or not |
| UpNext.PrefersRedeemedNotStarted | src/screens/hooks/useUpNextRecommendations.ts:153-162 | among several results the first one the user has redeemed but not started is chosen |
| UpNext.NoPreferredTakesFirst | src/screens/hooks/useUpNextRecommendations.ts:164-166 | among several results with none redeemed but not started, the first result is chosen |
| ContainerQuery.HasMoreUntilLastPage | src/components/qp-discovery-ui/src/hooks/useFetchContainerQuery.ts:68-72 | with a positive page size, more containers are reported after page n exactly when n is below the number of pages the total (0 without a count) fills |
| ContainerQuery.HasMoreRule | src/components/qp-discovery-ui/src/hooks/useFetchContainerQuery.ts:68-72 | with a non-negative page size and number, more pages exist exactly when the total is positive and beyond them |
| ContainerQuery.HandleQuery | src/components/qp-discovery-ui/src/hooks/useFetchContainerQuery.ts:47-85 | an unmounted screen keeps its state; otherwise loading stops, the error is the answer's, the next page is one further, hasMore follows the paging rule, and page 1 (or a first page) replaces the containers while a later page appends them |
| ContainerQuery.Reset | src/components/qp-discovery-ui/src/hooks/useFetchContainerQuery.ts:105-110 | the initial state on page 1 without containers, loading and without more pages, in error exactly when known to be offline (see also lines 37-44 and 87-93) |
| ContainerQuery.LoadPagesAccumulates | src/components/qp-discovery-ui/src/hooks/useFetchContainerQuery.ts:47-95 | after a reset, loading k pages in turn holds exactly their containers in order, and the next page asked for is k + 1 |
| ContainerQuery.LaterPagesAppend | src/components/qp-discovery-ui/src/hooks/useFetchContainerQuery.ts:81-82 | pages after the first only ever append to the containers, advancing the page number once per page |
| DiscoveryActions.CreateAction | src/components/qp-discovery-ui/src/api/actions/fetchDiscoveryResource.ts:11-23 | the identifier defaults to 'discovery', the method to GET, the endpoint to '' and the parameters to none, and no body or headers are set |
| DiscoveryActions.FetchContentMetadata | src/components/qp-discovery-ui/src/api/actions/fetchDiscoveryResource.ts:70-89 | an airing is fetched as a program of the EPG backend without parameters; any other type as its catalog URN on the given backend with the given parameters; always with GET |
| DiscoveryActions.FetchContentLookup | src/components/qp-discovery-ui/src/api/actions/fetchDiscoveryResource.ts:156-170 | a metadata lookup in detail mode for the query; the paging parameters are sent together, with their values, exactly when both are given and non-zero |
| DiscoveryActions.FetchContentIdsLookup | src/components/qp-discovery-ui/src/api/actions/fetchDiscoveryResource.ts:172-183 | a metadata request for published content in detail mode, one page as large as the id list, with the ids comma-separated |
| DiscoveryActions.IdsParameterRoundTrip | src/components/qp-discovery-ui/src/api/actions/fetchDiscoveryResource.ts:172-183 | splitting the ids parameter at commas gives back the id list, when no id contains a comma |
| DiscoveryActions.ParseQueryParamsPairs | src/components/qp-discovery-ui/src/api/actions/fetchDiscoveryResource.ts:135 | pairs k=v with distinct keys and no '=' inside a key or value parse to the object holding exactly those keys with those values |
| DiscoveryActions.LastPairParses | src/components/qp-discovery-ui/src/api/actions/fetchDiscoveryResource.ts:135 | one more pair k=v adds k with value v to what the earlier pairs parse to |
| DiscoveryActions.FetchRelatedContents | src/components/qp-discovery-ui/src/api/actions/fetchDiscoveryResource.ts:132-140 | a link without '?' fails; otherwise the endpoint is the part before the first '?', and the request goes to the discovery backend with parameters |
| DiscoveryActions.RelatedContentsRoundTrip | src/components/qp-discovery-ui/src/api/actions/fetchDiscoveryResource.ts:132-140 | a link built from a path and a query string of distinct pairs gives back that path and every one of those parameters |
| TvodEntitlement.TvodReducer | src/screens/hooks/useTVODEntitlement.tsx:166-205 | RESET gives the initial state while loading; REDEEM clears both errors and starts loading; REDEEM_ERROR stops loading with a redeem error; ENTITLEMENT_CHECK_ERROR stops loading with the check error; SET_ENTITLEMENT stops loading, clears the error and stores the entitlement and token, entitled exactly when the entitlement is truthy; any other type changes nothing |
| TvodEntitlement.RedeemFlow | src/screens/hooks/useTVODEntitlement.tsx:277-306 | nothing happens without a configuration, a token and a mounted screen; otherwise REDEEM comes first and at most one more action follows; the credits are refreshed only for a placed order seen while mounted |
| TvodEntitlement.RedeemSuccessEntitles | src/screens/hooks/useTVODEntitlement.tsx:244-299 | a placed order entitles the asset to the redeemed content id with its token, clears loading and errors, and refreshes the credits |
| TvodEntitlement.RedeemFailureReported | src/screens/hooks/useTVODEntitlement.tsx:286-305 | every failed redeem seen while mounted stops loading with a redeem error, keeps the entitlement as it was and does not refresh the credits |
| TvodEntitlement.EntitlementCheck | src/screens/hooks/useTVODEntitlement.tsx:308-363 | nothing without an asset id, a configuration and a token; otherwise RESET, then exactly one more action while still mounted: the first entitlement with its token when there is one, the not-entitled error object when the list is empty, and the failure itself when the call failed |
| TvodEntitlement.NoEntitlementRecordsError | src/screens/hooks/useTVODEntitlement.tsx:329-353 | an empty entitlement list leaves the screen not loading, not entitled and holding a truthy error, the one created for the not-entitled case |
| TvodEntitlement.EntitlementCheckSettles | src/screens/hooks/useTVODEntitlement.tsx:315-363 | a check answered while mounted never leaves the screen loading, and finds the asset entitled exactly when the first entitlement returned is truthy |
| LanguageSelection.GetLanguageDesc | src/features/language-selection/utils/index.tsx:44-58 | on the content screen the Tamil description exactly for Tamil and the Telugu one otherwise; on the app screen a description exactly for the three known languages |
| LanguageSelection.AppLanguageDescriptionsDistinct | src/features/language-selection/utils/index.tsx:49-57 | on the app screen the three known languages get three different description constant names |
| LanguageSelection.GetTitleForLanguage | src/features/language-selection/utils/index.tsx:61-72 | Tamil and Telugu show their own title constants, and every other language shows the localized English title |
| LanguageSelection.GetHighlightableWords | src/features/language-selection/utils/index.tsx:75-86 | always one word: the Tamil or Telugu highlight constant for those languages, and the localized content string for any other |
| LanguageSelection.GetLocalizedKey | src/features/language-selection/utils/index.tsx:95-106 | English and every unknown language use the English key |
| LanguageSelection.LocalizedKeysDistinct | src/features/language-selection/utils/index.tsx:95-106 | two languages share a key name exactly when they are equal or both fall back to English |
| LanguageSelection.FormAppLanguageList | src/features/language-selection/utils/index.tsx:88-93 | the list is English followed by the selected content language |
| DownloadsGrouping.CreateSeriesMetadata | src/screens/MyContent/DownloadsScreen.tsx:22-53 | a completed TV series entry whose id and key are the episode's series id and whose name is its series title ('' when missing), holding just that episode |
| DownloadsGrouping.SeriesSubtitle | src/screens/MyContent/DownloadsScreen.tsx:23-36 | a series entry's subtitle counts its episodes, in the plural form exactly for more than one |
| DownloadsGrouping.ItemStep | src/screens/MyContent/DownloadsScreen.tsx:84-86 | a download that is not a series episode leaves every series as it was |
| DownloadsGrouping.ExistingSeriesStep | src/screens/MyContent/DownloadsScreen.tsx:75-78 | a later episode of a known series is appended to that series and to no other |
| DownloadsGrouping.NewSeriesStep | src/screens/MyContent/DownloadsScreen.tsx:79-82 | the first episode of a series creates its entry |
| DownloadsGrouping.GroupDownloads | src/screens/MyContent/DownloadsScreen.tsx:63-90 | the list built in one pass, with the series updated in place, is the grouped list of the downloads |
| DownloadsGrouping.SlotsSeries | src/screens/MyContent/DownloadsScreen.tsx:73-86 | every series entry of the layout is a series of the downloads not seen before |
| DownloadsGrouping.ResolveUnreferenced | src/screens/MyContent/DownloadsScreen.tsx:76-78 | updating a series that no entry of the list names leaves the list as it was |
| DownloadsGrouping.SlotsUnique | src/screens/MyContent/DownloadsScreen.tsx:73-86 | no two series entries name the same series, and each series of the downloads has one |
| DownloadsGrouping.GroupedAt | src/screens/MyContent/DownloadsScreen.tsx:73-89 | each entry of the list is either a download as it is or the whole series its slot names |
| DownloadsGrouping.OneEntryPerSeries | src/screens/MyContent/DownloadsScreen.tsx:73-89 | each series of the downloads has exactly one entry, holding all its episodes |
| DownloadsGrouping.SeriesEntryShape | src/screens/MyContent/DownloadsScreen.tsx:22-82 | a series entry is a completed series with that id whose first episode created it and whose episodes are all episodes of it |
| DownloadsGrouping.OtherDownloadsPassThrough | src/screens/MyContent/DownloadsScreen.tsx:84-86 | the downloads that are not series episodes are listed as they are, in their order |
| DownloadsGrouping.SeriesTableGrows | src/screens/MyContent/DownloadsScreen.tsx:75-78 | after a later episode of a known series, the series table differs only in that series, which gains the episode at its end |
| DownloadsGrouping.GroupedCountsEveryDownload | src/screens/MyContent/DownloadsScreen.tsx:73-89 | the list accounts for every download exactly once |
| DownloadsGrouping.SeriesAtFirstEpisode | src/screens/MyContent/DownloadsScreen.tsx:79-82 | a series entry stands where its first episode was, after the entries of the downloads before it |
| Reporting.AttributeObject.constructor | src/utils/ReportingUtils.ts:378 | the attribute object handed to removeUndefined holds the given attributes |
| Reporting.AttributeObject.RemoveUndefined | src/utils/ReportingUtils.ts:378-383 | after the call the object holds the blank-free version of its old attributes, and the object returned is that same object |
| Reporting.WithoutBlankKeeps | src/utils/ReportingUtils.ts:378-383 | a key survives removeUndefined exactly when it was present with a value other than undefined, '' or 0, and it keeps its value |
| Reporting.WithoutBlankKeepsNullAndFalse | src/utils/ReportingUtils.ts:380 | null and false are kept with their values, although they are falsy |
| Reporting.WithoutBlankIdempotent | src/utils/ReportingUtils.ts:378-383 | a second removeUndefined changes nothing |
| Reporting.WithoutBlankOfTruthy | src/utils/ReportingUtils.ts:378-383 | an object whose values are all truthy comes through unchanged |
| Reporting.CondenseSearchData | src/utils/ReportingUtils.ts:280-292 | only the three search keys can appear, each exactly when its argument is truthy and then with that argument's value; every value sent is truthy |
| Reporting.SearchWithoutResultsOmitsTotal | src/utils/ReportingUtils.ts:285-287 | a search with zero results sends no totalItems |
| Reporting.SearchDataIsClean | src/utils/ReportingUtils.ts:280-292 | search attributes are left as they are by removeUndefined (see also lines 378-383) |
| Reporting.CondensePreferanceData | src/utils/ReportingUtils.ts:294-319 | only the four preference keys can appear; quality when non-empty, and the stream, push and Wi-Fi keys exactly when their flag is true, with prefStreamWithMobileData then sent as false |
| Reporting.MobileDataPreferenceSentAsFalse | src/utils/ReportingUtils.ts:309-311 | whenever streaming over cellular is on, the cleaned preference attributes report prefStreamWithMobileData as false (see also lines 378-383) |
| Reporting.ResourceAttributes | src/utils/ReportingUtils.ts:189-240 | each detail attribute is present exactly when its resource property is truthy and carries that value; the genre is present exactly when English genres exist and is then those genres joined by ', '; neither contentType nor the search position comes from here, and no other key appears |
| Reporting.GetContentDetailsAttributes | src/utils/ReportingUtils.ts:183-244 | contentType 'VOD' exactly when a resource is given; the search position exactly when truthy; the detail attributes exactly when the resource property is truthy; the genre, when present, is the English genres joined by ', '; without a resource nothing but the search position; no key outside the detail attributes, contentGenre, contentType and searchItemPosition |
| Reporting.PlayerAttributes | src/utils/ReportingUtils.ts:152-174 | contentType, playbackURL and drmName exactly when the player config gives a truthy contentType, mediaURL and drmType, with those values; isCasting whenever casting is given; subtitleLanguage and audioLanguage exactly when the active text and audio tracks are truthy, with those values; and no other key |
| Reporting.CondensePlayerData | src/utils/ReportingUtils.ts:144-181 | the keys are the union of the passed attributes, the content details and the player attributes, with player attributes winning over details and details over the passed ones |
| Reporting.PlayedContentType | src/utils/ReportingUtils.ts:153-180 | the reported contentType is the player's when non-empty, otherwise 'VOD' when a resource is given, otherwise whatever the caller passed (see also lines 241) |
| Redeemed.SortByExpiringAscending | src/screens/hooks/useFetchRedeemed.ts:47-49 | negative exactly when the first entitlement's validity ends earlier, zero exactly when both end together |
| Redeemed.SortByExpiringDescending | src/screens/hooks/useFetchRedeemed.ts:51-53 | negative exactly when the first entitlement's validity ends later, zero exactly when both end together |
| Redeemed.ComparatorsAreNegations | src/screens/hooks/useFetchRedeemed.ts:47-53 | the descending order is the negation of the ascending one, and the ascending comparator is antisymmetric |
| Redeemed.Mixin | src/screens/hooks/useFetchRedeemed.ts:55-65 | a missing asset gives undefined; otherwise the same asset with the bookmark's offset and timestamp |
| Redeemed.BookmarksFor | src/screens/hooks/useFetchRedeemed.ts:68 | the filtered bookmarks all belong to the item, and the list is empty exactly when no bookmark names it |
| Redeemed.BookmarksForHead | src/screens/hooks/useFetchRedeemed.ts:68-72 | the head of the filtered list is the first bookmark in the whole list that names the item |
| Redeemed.MixinAllContents | src/screens/hooks/useFetchRedeemed.ts:66-78 | the asset keeps its identity, type and validity end |
| Redeemed.MixinAllContentsWithoutBookmark | src/screens/hooks/useFetchRedeemed.ts:67-77 | an asset without a bookmark is returned unchanged |
| Redeemed.MixinAllContentsFirstBookmark | src/screens/hooks/useFetchRedeemed.ts:68-75 | with bookmarks for the asset, the result is the asset mixed with the first of them, and later ones are ignored |
| Redeemed.RedeemedAssetsMapKeys | src/screens/hooks/useFetchRedeemed.ts:275-281 | the assets map has an entry for exactly the redeemed service ids, and each holds the last entitlement with that id |
| Redeemed.ContinueWatchingAssets | src/screens/hooks/useFetchRedeemed.ts:285-287 | never more assets than bookmarks |
| Redeemed.ContinueWatchingAssetsFromBookmarks | src/screens/hooks/useFetchRedeemed.ts:285-287 | every continue-watching asset is a redeemed asset carrying one of its bookmarks, and when every bookmark names a redeemed asset none is dropped |
| Redeemed.SliceIndex | src/screens/hooks/useFetchRedeemed.ts:441 | a slice index lands within the list, and an index already inside it is used as is (see also lines 236) |
| Redeemed.JsSlice | src/screens/hooks/useFetchRedeemed.ts:441 | a slice is never longer than the list and, on in-range bounds, is exactly that part of it (see also lines 236) |
| Redeemed.AssetIds | src/screens/hooks/useFetchRedeemed.ts:230 | one id per asset, in order, each the asset's service id |
| Redeemed.ContainerRequest | src/screens/hooks/useFetchRedeemed.ts:226-236 | no request exactly when the container is switched off or has no assets; otherwise the first min(maxResources, page size) ids |
| Redeemed.ContainerForAssets | src/screens/hooks/useFetchRedeemed.ts:204-260 | undefined exactly when switched off or empty; otherwise a container on page 1, not loading, with every asset id, the fetched resources and the given maximum, large exactly when footer titles are shown |
| Redeemed.LoadMoreRequest | src/screens/hooks/useFetchRedeemed.ts:427-444 | nothing is requested without ids, without a page number or while loading, and a request is never empty |
| Redeemed.LoadMorePage | src/screens/hooks/useFetchRedeemed.ts:438-444 | the request is exactly the ids from pageNumber times the page size up to the next page boundary, capped by the maximum and the list length |
| Redeemed.LoadMoreResources | src/screens/hooks/useFetchRedeemed.ts:427-484 | the state changes exactly when a page was requested, fetched and the screen is mounted; then only the container with the same id advances by one page with the new resources appended |
| Redeemed.LoadMoreAdvances | src/screens/hooks/useFetchRedeemed.ts:438-478 | after a page arrives the next request starts where the previous page ended, and the resources grow by the fetched ones |
| Redeemed.FirstPagesAdjacent | src/screens/hooks/useFetchRedeemed.ts:438-441 | the first page of a new container and the first loaded-more page are adjacent slices of its ids (see also lines 236 and 253-254) |
| Favorites.IsLiked | src/components/qp-discovery-ui/src/hooks/useFavorites.ts:54-61 | for InitFetch and Like the item is liked exactly when the call succeeded, for the other types exactly when it did not; a 200 response without a payload header is an error |
| Favorites.LikeAndUnlikeDisagree | src/components/qp-discovery-ui/src/hooks/useFavorites.ts:54-61 | a like and an unlike read the same response in opposite ways, and an initial fetch reads it like a like |
| Favorites.FetchAllResult | src/components/qp-discovery-ui/src/hooks/useFavorites.ts:62-81 | the payload's data exactly when the hook stayed mounted and the response succeeded, [] otherwise; a 200 response without a payload header is an error |
| Favorites.FetchAllAgreesWithLike | src/components/qp-discovery-ui/src/hooks/useFavorites.ts:55-77 | the list call returns data on exactly the responses that would mark an item as liked |
| Favorites.FavAction | src/components/qp-discovery-ui/src/hooks/useFavorites.ts:180-200 | a favourites-client request with the given method, endpoint and body, a bearer Authorization header and the ovat token (or '') as X-Authorization, and nothing else in the headers |
| Favorites.ActionForType | src/components/qp-discovery-ui/src/hooks/useFavorites.ts:116-153 | Like is a PUT of create with the item id in the body, Unlike a DELETE of delete/<id>, InitFetch a GET of lookup/<id>; FetchAll has no request |
| Favorites.ActionForTypeNamesItem | src/components/qp-discovery-ui/src/hooks/useFavorites.ts:116-153 | the item id can be read back from each request, and the three calls never build the same request |
| Favorites.FetchAllFavorite | src/components/qp-discovery-ui/src/hooks/useFavorites.ts:155-178 | the list request is a GET of 'list' followed by the query string of the truthy parameters in the order pageNumber, pageSize, sort, order |
| Favorites.QueryStringSnoc | src/components/qp-discovery-ui/src/hooks/useFavorites.ts:168-175 | a later parameter is joined with '&' once the string is non-empty and with '?' before that |
| Favorites.NoParamsPlainList | src/components/qp-discovery-ui/src/hooks/useFavorites.ts:163-177 | without any truthy parameter the request is plain 'list' |
| Favorites.FetchAllParamsRoundTrip | src/components/qp-discovery-ui/src/hooks/useFavorites.ts:163-177 | when sort and order contain no '&', splitting the query string after its '?' on '&' gives back exactly the parameters written |
| DownloadsContext.PreferenceType | src/utils/DownloadsContextProvider.tsx:24-28 | every preference event is one of the three action types the reducer knows |
| DownloadsContext.StateHandlerReducer | src/utils/DownloadsContextProvider.tsx:44-63 | Init takes both preferences from the action, each update action replaces only its own preference, and an unknown type has no case and yields undefined |
| DownloadsContext.UpdatePreferenceReplacesOnlyNamed | src/utils/DownloadsContextProvider.tsx:97-103 | updatePreference changes only the preference its event names, to the new value; with Init nothing changes (see also lines 44-63) |
| DownloadsContext.InitActionAsWritten | src/utils/DownloadsContextProvider.tsx:84-93 | the startup init is dispatched exactly when both stored preferences are defined, and stores the cellular download permission as the Wi-Fi-only flag |
| DownloadsContext.InitAction | src/utils/DownloadsContextProvider.tsx:84-93 | the startup init, dispatched under the same condition, stores the negation of the cellular download permission as the Wi-Fi-only flag |
| DownloadsContext.InitSetsBoth | src/utils/DownloadsContextProvider.tsx:84-93 | after the corrected init the state holds the stream preference and the negated cellular permission (see also lines 46-51) |
| DownloadsContext.NetworkChangeCommand | src/utils/DownloadsContextProvider.tsx:223-241 | every download is paused exactly when the device is offline or on cellular with the Wi-Fi-only flag true; otherwise they are resumed |
| DownloadsContext.WifiOnlyUserResumedOnCellularAsWritten | src/utils/DownloadsContextProvider.tsx:86-92 | with the init as written, a user who forbids downloading over cellular has queued downloads resumed on cellular, where a new download is refused (see also lines 224 and 237, and the enqueue guard of src/features/downloads/presentation/components/atoms/DownloadButton/index.tsx, lines 112-116) |
| DownloadsContext.PauseAgreesWithEnqueueGuard | src/utils/DownloadsContextProvider.tsx:223-241 | with the corrected init, downloads are paused on exactly the networks where a new download would be refused (see also the enqueue guard of src/features/downloads/presentation/components/atoms/DownloadButton/index.tsx, lines 112-116) |
| DownloadsContext.PurgedIds | src/utils/DownloadsContextProvider.tsx:190-204 | only ids of downloads that are expired or stale are purged, never more than there are downloads |
| DownloadsContext.PurgedIdsAppend | src/utils/DownloadsContextProvider.tsx:190-204 | the purge goes through the list in order: the ids purged from a concatenation are those of the first part followed by those of the rest |
| DownloadsContext.PurgedIdsSingle | src/utils/DownloadsContextProvider.tsx:190-204 | a single download is purged, by its id, exactly when it is expired or stale |
| DownloadsContext.PurgesEveryExpiredOrStale | src/utils/DownloadsContextProvider.tsx:193-199 | every download whose expiry is before now, or that is stale, is purged |
| DownloadsContext.NoExpirationIsPurged | src/utils/DownloadsContextProvider.tsx:193-197 | a download without an expiration counts as expired once the clock is past 0 |
| DownloadsContext.NetworkChangeCalls | src/utils/DownloadsContextProvider.tsx:225-236 | a network change makes one call per download, in order, all pauses or all resumes |

Members without a row are proof helpers: step lemmas of an induction, and
small functions a contract is stated with. The shared modules stand for
JavaScript built-ins and are used by the rows above.

## Left out

- Rendering, styles, animations, focus handling and the screens themselves. They are UI, not logic.
- Timers, intervals and debounce; the autoplay and refresh intervals (AutoplayInterval, CreditsRefreshInterval) are modelled only as values. Timing and concurrency are not the point of the logic.
- Network calls, the player SDK, Google Cast, the download manager, AsyncStorage and analytics. Their answers are parameters and their calls are returned as commands.
- `decrypt`, `moment` and `Date`. The clock and decrypted credentials are parameters, and times are integers in milliseconds.
- Floating point: numbers are integers. `relativeWidth` rounds down with integer division, and the completed percentage of My content is not modelled.
- Concurrency of React: stale closures, the order of awaited effects and re-renders are not modelled. Each handler sees the state it is given.
- `useFetchEpgQuery` keeps its Map in module-level state that actions mutate in place. The model threads that Map through the reducer as a value (`EpgQuery.ResponseReducerAsWritten`). The collection of airing ids and the dispatch sequencing of `handleQuery` are not modelled.
- The airing and resource adapters (`epgAiringAdapter`, `metaDataResourceAdapter`) are opaque values. `getDefaultImage` and the other image helpers of Adapters.ts are not modelled.
- `decodeURI` and JSON escaping in the discovery request builders are not modelled. Strings are taken as given.
- PlayerControlsView.HandleRewind and PlayerControlsView.HandleFastFwd do not model the onRewindPress and onForwardPress callbacks they also call. The seek step `FORWORD_BACKWORD_TIME` lives in a constants file that is not part of this model, so it is a parameter.
- `hideControlAnimation` and the lock and brightness timers of PlayerControlsView are requests, not animations.
- PlatformPlayer: the Google Cast seek takes seconds. The model keeps the target in milliseconds and does not model the division.
- Credits: JavaScript compares a string `accountCreditPoints` with 0 after converting it to a number. The model treats strings, arrays and objects as not comparable, so they are never dispatched.
- AuthContextProvider: the login, logout, token refresh, `setUserAuthDelegate` and region check flows are network calls and are not modelled.
- LanguageSelection: the language constants live in a constants file that is not part of this model. They appear by name, and the three languages are taken to be distinct.
- `UserPreferenceUtils` (the stored preferences behind `canStreamOverCellular` and `canDownloadOverCellular`) is not part of this model. Its values are parameters.
- DownloadsContext: `sendLocalPush`, `recordPlaybackProgress`, the download state reporting effect and `removeDownlaodsBookmarks` are storage, push and analytics I/O and are not modelled.
- Reporting.ExtraAttributes: only an object argument is spread. Spreading a string or an array, which would add index keys, is not modelled.
- Reporting: the other condense functions (errors, downloads, subscription) are not modelled. `contentGenre` joins the English genres on the assumption that they are strings.
- Reporting.MobileDataPreferenceSentAsFalse: the source sends `!streamOverCellular`, so `prefStreamWithMobileData` is false whenever it is present. This is stated as the source behaves and not claimed as a defect.
- Redeemed: `validityEndDate` is taken as already parsed to an integer, and `parseInt` of malformed text is not modelled. `fetchResources`, `expiresIn`, `completedPercent` and the other carousels of `fetchMyContent` are not modelled.
- Favorites: the `useFavorite` hook's mount lifecycle is reduced to the mounted flags of FetchAllResult. FetchAll has no case in `actionForType` and yields no request.
- Favorites.FetchAllFavorite: its ghost prefixes p1..p4 of the parameter list exist only for the proof. The method is the four straight-line `if`s of the source.
- DownloadsGrouping: a series id is present or undefined. A null series id, which the source would group under the key 'null', is not modelled.
- Carousel.CarouselIndex.constructor requires the index bounds that the list component guarantees for the indices it reports.
- Js.Prop: a property read on null or undefined gives undefined instead of throwing a TypeError. The Evergent failure readers (EvergentApi.ErrorCode, ProfileEvergentApi.AssertErrorCode) and Favorites.HeaderCodeIsZero model that throw themselves.
- PlatformPlayer.HandleAudioTrackSelection: a null or undefined selection, on which the source throws before the player check, is read as a selection without a name or a language.
- EvergentApi.ErrorCode and ProfileEvergentApi.AssertErrorCode: an object `failureMessage` counts as having a length only when its `length` property is a number. JavaScript's coercion of other `length` values (true, a numeric string) in the comparison with 0 is not modelled.
- Adapters: `toUpperCase` is modelled on ASCII letters only. Unicode case mapping is not modelled.

## Findings

| source | as written | input that shows it | evidently intended | confidence | as-written member | corrected member |
|---|---|---|---|---|---|---|
| src/utils/AppContextProvider.tsx:182-187 | the offline guard compares the navigation state with 'APP_PREVIEW', which no action sets; the preview state is 'PREVIEW_APP' | a phone user in the preview state ('PREVIEW_APP') goes offline with no downloads | previewing is kept like browsing when the network is lost | not executed | AppNavigation.PreviewLeftWhenOfflineAsWritten | AppNavigation.BrowsingSurvivesGoingOffline |
| src/components/qp-discovery-ui/src/hooks/useFetchEpgQuery.ts:11-73 | RESET returns `initialState`, whose `containers` Map is the same object ADD_CHANNELS has written into | ADD_CHANNELS with a schedule for channel "c1", then RESET | RESET leaves an empty schedule map | not executed | EpgQuery.ResetKeepsStaleSchedulesAsWritten | EpgQuery.ResetClearsSchedules |
| src/utils/DownloadsContextProvider.tsx:86-92 | the init stores the stored permission to download over cellular into `downloadOverWifiOnly`, its opposite | stream preference true, download over cellular false, then the network becomes cellular | downloads are paused on cellular for a user who forbids downloading over cellular, as the enqueue guard refuses new downloads there | not executed | DownloadsContext.WifiOnlyUserResumedOnCellularAsWritten | DownloadsContext.PauseAgreesWithEnqueueGuard |
