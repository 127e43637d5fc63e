/**
 * The authentication context (contexts/AuthContextProvider.tsx): whether an
 * account counts as subscribed, including the configured grace period after
 * expiry, the reducer that tracks the user's login state, and the builder of
 * authenticated backend actions.
 */
module Auth {
  import opened Wrappers
  import Js
  import Query

  datatype UserType = INIT | NOT_LOGGED_IN | LOGGED_IN | SUBSCRIBED

  /** The fields of the account profile that the subscription rule reads. */
  datatype AccountProfile = AccountProfile(subscriptionStatus: bool, hasSubCancelled: bool, prevSubExpDateTime: Option<int>)

  /** `isWithinGracePeriod`; `now` is the clock reading `new Date().getTime()`. */
  predicate IsWithinGracePeriod(subscriptionExpiryDate: Option<int>, gracePeriodInMs: int, now: int)
  {
    if subscriptionExpiryDate.None? || subscriptionExpiryDate.value <= 0 || gracePeriodInMs <= 0 then false
    else now < subscriptionExpiryDate.value + gracePeriodInMs
  }

  /** A grace period is only ever granted for a positive expiry and a positive period, and then until expiry + grace. */
  lemma GracePeriodSpec(expiry: Option<int>, grace: int, now: int)
    ensures (expiry.None? || expiry.value <= 0 || grace <= 0) ==> !IsWithinGracePeriod(expiry, grace, now)
    ensures expiry.Some? && expiry.value > 0 && grace > 0 ==>
      (IsWithinGracePeriod(expiry, grace, now) <==> now < expiry.value + grace)
  {
  }

  /** `hasSubCancelled && prevSubExpDateTime < now` (an undefined date compares false). */
  predicate CancelledAndExpired(p: AccountProfile, now: int)
  {
    p.hasSubCancelled && p.prevSubExpDateTime.Some? && p.prevSubExpDateTime.value < now
  }

  /**
   * `isSubscribed`. `gracePeriodMs` is `appConfig.subscriptionGracePeriodMs`,
   * `None` without a configuration; a missing value counts as 0.
   */
  predicate IsSubscribed(accountProfile: Option<AccountProfile>, gracePeriodMs: Option<int>, now: int)
  {
    if accountProfile.None? then false
    else
      var p := accountProfile.value;
      if p.subscriptionStatus then true
      else if CancelledAndExpired(p, now) then false
      else
        var grace := if gracePeriodMs.Some? && gracePeriodMs.value != 0 then gracePeriodMs.value else 0;
        IsWithinGracePeriod(p.prevSubExpDateTime, grace, now)
  }

  /**
   * No profile is never subscribed; an active subscription always is; a
   * cancelled subscription that expired before now never is; otherwise,
   * cancelled or not, exactly the grace period decides.
   */
  lemma IsSubscribedSpec(accountProfile: Option<AccountProfile>, gracePeriodMs: Option<int>, now: int)
    ensures accountProfile.None? ==> !IsSubscribed(accountProfile, gracePeriodMs, now)
    ensures accountProfile.Some? && accountProfile.value.subscriptionStatus ==> IsSubscribed(accountProfile, gracePeriodMs, now)
    ensures accountProfile.Some? && !accountProfile.value.subscriptionStatus && CancelledAndExpired(accountProfile.value, now) ==>
      !IsSubscribed(accountProfile, gracePeriodMs, now)
    ensures accountProfile.Some? && !accountProfile.value.subscriptionStatus && gracePeriodMs.None? ==>
      !IsSubscribed(accountProfile, gracePeriodMs, now)
    ensures accountProfile.Some? && !accountProfile.value.subscriptionStatus && !accountProfile.value.hasSubCancelled ==>
      (IsSubscribed(accountProfile, gracePeriodMs, now) <==>
       IsWithinGracePeriod(accountProfile.value.prevSubExpDateTime, if gracePeriodMs.Some? then gracePeriodMs.value else 0, now))
    ensures accountProfile.Some? && !accountProfile.value.subscriptionStatus && !CancelledAndExpired(accountProfile.value, now) ==>
      (IsSubscribed(accountProfile, gracePeriodMs, now) <==>
       IsWithinGracePeriod(accountProfile.value.prevSubExpDateTime, if gracePeriodMs.Some? then gracePeriodMs.value else 0, now))
  {
  }

  /** An error value thrown by a login attempt; its content does not matter to the reducer. */
  datatype AuthError = AuthError(message: string)

  /** The data fields of `UserState` (the callbacks it also carries hold no state). */
  datatype UserState = UserState(
    userType: UserType,
    signedUpInSession: bool,
    error: Option<AuthError>,
    accessToken: Option<string>,
    accountProfile: Option<AccountProfile>,
    silentLogin: Option<bool>)

  const InitialState: UserState := UserState(INIT, false, None, None, None, None)

  datatype AuthAction =
    | LogIn(value: Option<string>, signedUpInSession: bool, profile: Option<AccountProfile>, silent: Option<bool>)
    | LogInError(failure: Option<AuthError>)
    | LogOut
    | UpdateAccountProfile(newProfile: Option<AccountProfile>)
    | Unknown(name: string)

  /** `controlReducer`; the grace period and the clock are those of the provider at dispatch time. */
  function ControlReducer(s: UserState, a: AuthAction, gracePeriodMs: Option<int>, now: int): (r: UserState)
    ensures a.LogIn? ==>
      (r.userType == SUBSCRIBED <==> IsSubscribed(a.profile, gracePeriodMs, now)) &&
      (r.userType == LOGGED_IN <==> !IsSubscribed(a.profile, gracePeriodMs, now)) &&
      r.error.None? && r.accessToken == a.value && r.accountProfile == a.profile &&
      r.signedUpInSession == a.signedUpInSession && r.silentLogin == a.silent
    ensures a.LogInError? ==> r == s.(userType := INIT, error := a.failure)
    ensures a.LogOut? ==> r == s.(userType := NOT_LOGGED_IN, error := None)
    ensures a.UpdateAccountProfile? ==> r == s.(accountProfile := a.newProfile)
    ensures a.Unknown? ==> r == s
    ensures !a.LogIn? ==> r.accessToken == s.accessToken && r.signedUpInSession == s.signedUpInSession && r.silentLogin == s.silentLogin
  {
    match a
    case LogIn(value, signedUp, profile, silent) =>
      s.(userType := if IsSubscribed(profile, gracePeriodMs, now) then SUBSCRIBED else LOGGED_IN,
         error := None, accessToken := value, signedUpInSession := signedUp,
         accountProfile := profile, silentLogin := silent)
    case LogInError(failure) => s.(userType := INIT, error := failure)
    case LogOut => s.(userType := NOT_LOGGED_IN, error := None)
    case UpdateAccountProfile(profile) => s.(accountProfile := profile)
    case Unknown(_) => s
  }

  /** An error is only ever kept while the user type is INIT. */
  predicate ErrorOnlyWhenInit(s: UserState)
  {
    s.error.Some? ==> s.userType == INIT
  }

  /** The state after dispatching a sequence of actions, each with its own clock reading. */
  function Run(s: UserState, actions: seq<AuthAction>, gracePeriodMs: Option<int>, clock: seq<int>): UserState
    requires |clock| == |actions|
    decreases |actions|
  {
    if actions == [] then s
    else Run(ControlReducer(s, actions[0], gracePeriodMs, clock[0]), actions[1..], gracePeriodMs, clock[1..])
  }

  /** From the initial state, no sequence of actions leaves an error outside INIT. */
  lemma {:induction false} RunKeepsErrorOnlyWhenInit(s: UserState, actions: seq<AuthAction>, gracePeriodMs: Option<int>, clock: seq<int>)
    requires |clock| == |actions|
    requires ErrorOnlyWhenInit(s)
    ensures ErrorOnlyWhenInit(Run(s, actions, gracePeriodMs, clock))
    decreases |actions|
  {
    if actions != [] {
      RunKeepsErrorOnlyWhenInit(ControlReducer(s, actions[0], gracePeriodMs, clock[0]), actions[1..], gracePeriodMs, clock[1..]);
    }
  }

  /** The access token only changes through LOG_IN, whatever else is dispatched. */
  lemma {:induction false} RunWithoutLogInKeepsToken(s: UserState, actions: seq<AuthAction>, gracePeriodMs: Option<int>, clock: seq<int>)
    requires |clock| == |actions|
    requires forall i :: 0 <= i < |actions| ==> !actions[i].LogIn?
    ensures Run(s, actions, gracePeriodMs, clock).accessToken == s.accessToken
    decreases |actions|
  {
    if actions != [] {
      RunWithoutLogInKeepsToken(ControlReducer(s, actions[0], gracePeriodMs, clock[0]), actions[1..], gracePeriodMs, clock[1..]);
    }
  }

  /** `authAction`: a Bearer header exactly when the token is truthy; always the 'ums' client. */
  function AuthActionFor(httpMethod: string, endpoint: string, body: Option<Js.Value>, accessToken: Option<string>): (r: Query.Action)
    ensures r.clientIdentifier == "ums" && r.httpMethod == httpMethod && r.endpoint == endpoint && r.body == body
    ensures r.headers.Some?
    ensures accessToken.Some? && accessToken.value != "" ==> r.headers.value == map["Authorization" := "Bearer " + accessToken.value]
    ensures accessToken.None? || accessToken.value == "" ==> r.headers.value == map[]
  {
    var headers := if accessToken.Some? && accessToken.value != "" then map["Authorization" := "Bearer " + accessToken.value] else map[];
    Query.Action(httpMethod, endpoint, "ums", body, Some(headers), None)
  }
}
