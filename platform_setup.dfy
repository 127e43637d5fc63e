/**
 * Setup of the player platform SDK (src/platform/PlatformContextProvider.tsx):
 * a reducer tracks configuration, and an effect starts configuration when
 * a token is present, at most until three attempts have failed.
 */
module PlatformSetup {
  import opened Wrappers
  import Js

  const MaxPlatformSetupRetryAttempts: int := 3

  /** The SDK handles are opaque values; `Js.Null` is no handle. */
  datatype PlatformState = PlatformState(
    isConfiguring: bool,
    isConfigured: bool,
    platformAuthorizer: Js.Value,
    contentAuthorizer: Js.Value,
    bookmarkService: Js.Value,
    error: Js.Value,
    retryAttempts: int)

  const InitialState: PlatformState := PlatformState(false, false, Js.Null, Js.Null, Js.Null, Js.Null, 0)

  /** The three services a successful configuration hands over. */
  datatype Services = Services(platformAuthorizer: Js.Value, contentAuthorizer: Js.Value, bookmarkService: Js.Value)

  datatype PlatformAction = Configuring | Configured(services: Services) | Error(failure: Js.Value) | OtherAction(name: string)

  /** `pltfmReducer`: it has no default case, so an unknown action yields undefined. */
  function PltfmReducer(s: PlatformState, a: PlatformAction): (r: Option<PlatformState>)
    ensures r.None? <==> a.OtherAction?
    ensures a.Configuring? ==> r == Some(s.(isConfiguring := true))
    ensures a.Configured? ==> r == Some(s.(isConfigured := true, isConfiguring := false, error := Js.Null,
                                          platformAuthorizer := a.services.platformAuthorizer,
                                          contentAuthorizer := a.services.contentAuthorizer,
                                          bookmarkService := a.services.bookmarkService))
    ensures a.Error? ==> r.Some? && !r.value.isConfigured && !r.value.isConfiguring && r.value.error == a.failure
    ensures a.Error? ==> r.value.platformAuthorizer == Js.Null && r.value.contentAuthorizer == Js.Null && r.value.bookmarkService == Js.Null
    ensures a.Error? ==> r.value.retryAttempts == s.retryAttempts + 1
  {
    match a
    case Configuring => Some(s.(isConfiguring := true))
    case Configured(p) =>
      Some(s.(isConfigured := true, isConfiguring := false, error := Js.Null,
              platformAuthorizer := p.platformAuthorizer, contentAuthorizer := p.contentAuthorizer,
              bookmarkService := p.bookmarkService))
    case Error(e) =>
      Some(s.(isConfigured := false, isConfiguring := false, error := e,
              platformAuthorizer := Js.Null, contentAuthorizer := Js.Null, bookmarkService := Js.Null,
              retryAttempts := s.retryAttempts + 1))
    case OtherAction(_) => None
  }

  /** The effect's guard for starting `configureQpNxgLib`. */
  predicate StartsConfiguration(hasAuthToken: bool, s: PlatformState)
  {
    hasAuthToken && !s.isConfiguring && !s.isConfigured && s.retryAttempts < MaxPlatformSetupRetryAttempts
  }

  /** `platformClient.type`: iOS is a mobile client; Android TV counts as a TV client only when configured to. */
  function PlatformClientType(os: string, isTV: bool, configureTvClient: bool): (r: string)
    ensures os == "ios" ==> r == "iosmobile"
    ensures os != "ios" ==> (r == "androidtv" <==> isTV && configureTvClient)
    ensures os != "ios" && !(isTV && configureTvClient) ==> r == "androidmobile"
  {
    if os == "ios" then "iosmobile" else if isTV then (if configureTvClient then "androidtv" else "androidmobile") else "androidmobile"
  }

  /**
   * One run of the setup effect: when the guard holds it dispatches
   * CONFIGURING and then CONFIGURED or ERROR, depending on whether the SDK
   * calls succeed. The flag says whether configuration was started.
   */
  function Attempt(s: PlatformState, hasAuthToken: bool, succeeds: bool, services: Services, failure: Js.Value): (r: (PlatformState, bool))
    ensures r.1 <==> StartsConfiguration(hasAuthToken, s)
    ensures !r.1 ==> r.0 == s
    ensures r.1 && succeeds ==> r.0.isConfigured && r.0.retryAttempts == s.retryAttempts
    ensures r.1 && !succeeds ==> !r.0.isConfigured && r.0.retryAttempts == s.retryAttempts + 1
  {
    if StartsConfiguration(hasAuthToken, s) then
      var configuring := PltfmReducer(s, Configuring).value;
      var outcome := if succeeds then Configured(services) else Error(failure);
      (PltfmReducer(configuring, outcome).value, true)
    else (s, false)
  }

  datatype Effect = Effect(hasAuthToken: bool, succeeds: bool, services: Services, failure: Js.Value)

  /** Runs the effect once per entry; the count is how many times configuration started. */
  function Run(s: PlatformState, effects: seq<Effect>): (r: (PlatformState, nat))
    decreases |effects|
  {
    if |effects| == 0 then (s, 0)
    else
      var e := effects[0];
      var step := Attempt(s, e.hasAuthToken, e.succeeds, e.services, e.failure);
      var rest := Run(step.0, effects[1..]);
      (rest.0, rest.1 + (if step.1 then 1 else 0))
  }

  /** What a run from the initial state keeps: no attempt in flight, and retries bounded by the cap. */
  predicate SetupInvariant(s: PlatformState, started: nat)
  {
    !s.isConfiguring && 0 <= s.retryAttempts <= MaxPlatformSetupRetryAttempts &&
    (s.isConfigured ==> s.retryAttempts < MaxPlatformSetupRetryAttempts) &&
    started <= s.retryAttempts + (if s.isConfigured then 1 else 0)
  }

  lemma {:induction false} RunKeepsSetupInvariant(s: PlatformState, started: nat, effects: seq<Effect>)
    requires SetupInvariant(s, started)
    ensures SetupInvariant(Run(s, effects).0, started + Run(s, effects).1)
    decreases |effects|
  {
    if |effects| > 0 {
      var e := effects[0];
      var step := Attempt(s, e.hasAuthToken, e.succeeds, e.services, e.failure);
      var started' := started + (if step.1 then 1 else 0);
      assert SetupInvariant(step.0, started');
      RunKeepsSetupInvariant(step.0, started', effects[1..]);
    }
  }

  /** However often the effect runs, configuration is started at most three times. */
  lemma ConfigurationStartsAtMostThreeTimes(effects: seq<Effect>)
    ensures Run(InitialState, effects).1 <= MaxPlatformSetupRetryAttempts
  {
    RunKeepsSetupInvariant(InitialState, 0, effects);
  }
}
