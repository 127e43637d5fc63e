/**
 * The rental (TVOD) entitlement of one asset
 * (screens/hooks/useTVODEntitlement.tsx): a reducer over the entitlement
 * check and the redeem flow, and the actions each flow dispatches given
 * the backend's answers.
 */
module TvodEntitlement {
  import opened Js

  /** `entitlement` and `tvodToken` are the backend's values; `error` is undefined when there is none. */
  datatype EntitlementState = EntitlementState(
    loading: bool,
    error: Value,
    redeemError: bool,
    entitled: bool,
    entitlement: Value,
    tvodToken: Value)

  const InitialState: EntitlementState := EntitlementState(false, Undefined, false, false, Undefined, Undefined)

  datatype TvodAction =
    | Reset
    | Redeem
    | RedeemError(redeemFailure: Value)
    | EntitlementCheckError(checkFailure: Value)
    | SetEntitlement(newEntitlement: Value, newTvodToken: Value)
    | OtherAction(name: string)

  /** The entitlement reducer; an unknown action keeps the state. */
  function TvodReducer(s: EntitlementState, a: TvodAction): (r: EntitlementState)
    ensures a.Reset? ==> r == InitialState.(loading := true)
    ensures a.Redeem? ==> r == s.(error := Undefined, redeemError := false, loading := true)
    ensures a.RedeemError? ==> r == s.(loading := false, redeemError := true, error := a.redeemFailure)
    ensures a.EntitlementCheckError? ==> r == s.(loading := false, error := a.checkFailure)
    ensures a.SetEntitlement? ==> !r.loading && r.error == Undefined && r.redeemError == s.redeemError
    ensures a.SetEntitlement? ==> (r.entitled <==> Truthy(a.newEntitlement)) && r.entitlement == a.newEntitlement && r.tvodToken == a.newTvodToken
    ensures a.OtherAction? ==> r == s
  {
    match a
    case Reset => InitialState.(loading := true)
    case Redeem => s.(error := Undefined, redeemError := false, loading := true)
    case RedeemError(e) => s.(loading := false, redeemError := true, error := e)
    case EntitlementCheckError(e) => s.(loading := false, error := e)
    case SetEntitlement(ent, token) =>
      s.(error := Undefined, loading := false, entitled := Truthy(ent), entitlement := ent, tvodToken := token)
    case OtherAction(_) => s
  }

  function Run(s: EntitlementState, actions: seq<TvodAction>): EntitlementState
    decreases |actions|
  {
    if |actions| == 0 then s else Run(TvodReducer(s, actions[0]), actions[1..])
  }

  lemma RunPair(s: EntitlementState, actions: seq<TvodAction>)
    requires |actions| == 2
    ensures Run(s, actions) == TvodReducer(TvodReducer(s, actions[0]), actions[1])
  {
    var s1 := TvodReducer(s, actions[0]);
    var rest := actions[1..];
    assert Run(s, actions) == Run(s1, rest);
    assert rest[0] == actions[1] && |rest[1..]| == 0;
    assert Run(s1, rest) == Run(TvodReducer(s1, rest[0]), rest[1..]);
  }

  /** The answer to `content/checkredeem`: no platform authorizer, a query error or FLM failure (thrown), or the token. */
  datatype RedeemTokenOutcome = NoPlatformAuthorizer | TokenRequestFailed(tokenFailure: Value) | RedeemRequestToken(token: Value)

  /** The answer to the AddTVODOrder call: success with the order's token and validity, or the error thrown. */
  datatype OrderOutcome = OrderPlaced(tvodToken: Value, validityTill: Value) | OrderFailed(orderFailure: Value)

  /** `redeem` may start only with an app config and an access token, while mounted. */
  predicate RedeemMayStart(hasAppConfig: bool, accessToken: Value, mounted: bool)
  {
    hasAppConfig && Truthy(accessToken) && mounted
  }

  /**
   * The actions `redeem` dispatches for an asset, and whether it then
   * refreshes the credits. `mountedAfter` is whether the screen is still
   * mounted when the answers arrive.
   */
  function RedeemFlow(contentId: string, hasAppConfig: bool, accessToken: Value, mounted: bool,
                      tokenOutcome: RedeemTokenOutcome, orderOutcome: OrderOutcome, mountedAfter: bool): (r: (seq<TvodAction>, bool))
    ensures !RedeemMayStart(hasAppConfig, accessToken, mounted) ==> r == ([], false)
    ensures RedeemMayStart(hasAppConfig, accessToken, mounted) ==> |r.0| > 0 && r.0[0] == Redeem && |r.0| <= 2
    ensures r.1 ==> mountedAfter && orderOutcome.OrderPlaced?
  {
    if !RedeemMayStart(hasAppConfig, accessToken, mounted) then ([], false)
    else
      match tokenOutcome
      case NoPlatformAuthorizer => ([Redeem, RedeemError(Undefined)], false)
      case TokenRequestFailed(e) => (if mountedAfter then [Redeem, RedeemError(e)] else [Redeem], false)
      case RedeemRequestToken(token) =>
        if !Truthy(token) then ([Redeem, RedeemError(Undefined)], false)
        else
          match orderOutcome
          case OrderPlaced(tvodToken, validityTill) =>
            if mountedAfter then
              ([Redeem, SetEntitlement(Obj(map["contentId" := Str(contentId), "validityTill" := validityTill]), tvodToken)], true)
            else ([Redeem], false)
          case OrderFailed(e) => (if mountedAfter then [Redeem, RedeemError(e)] else [Redeem], false)
  }

  /** A placed order makes the asset entitled, with its token, and refreshes the credits. */
  lemma RedeemSuccessEntitles(s: EntitlementState, contentId: string, accessToken: Value, token: Value, tvodToken: Value, validityTill: Value)
    requires Truthy(accessToken) && Truthy(token)
    ensures var flow := RedeemFlow(contentId, true, accessToken, true, RedeemRequestToken(token), OrderPlaced(tvodToken, validityTill), true);
            var t := Run(s, flow.0);
            flow.1 && t.entitled && !t.loading && !t.redeemError && t.error == Undefined && t.tvodToken == tvodToken &&
            Prop(t.entitlement, "contentId") == Str(contentId)
  {
    var flow := RedeemFlow(contentId, true, accessToken, true, RedeemRequestToken(token), OrderPlaced(tvodToken, validityTill), true);
    RunPair(s, flow.0);
  }

  /** Every failure of a started redeem, seen while mounted, ends loading with a redeem error and keeps the entitlement. */
  lemma RedeemFailureReported(s: EntitlementState, contentId: string, accessToken: Value, tokenOutcome: RedeemTokenOutcome, orderOutcome: OrderOutcome)
    requires Truthy(accessToken)
    requires !(tokenOutcome.RedeemRequestToken? && Truthy(tokenOutcome.token) && orderOutcome.OrderPlaced?)
    ensures var flow := RedeemFlow(contentId, true, accessToken, true, tokenOutcome, orderOutcome, true);
            var t := Run(s, flow.0);
            !flow.1 && t.redeemError && !t.loading && t.entitled == s.entitled && t.entitlement == s.entitlement
  {
    var flow := RedeemFlow(contentId, true, accessToken, true, tokenOutcome, orderOutcome, true);
    assert |flow.0| == 2;
    RunPair(s, flow.0);
  }

  /**
   * The answer to GetEntitlements. A successful call holds the account's
   * entitlements and token, and the Error that `createError` builds from the
   * response's error code (thrown when the list is empty; `createError` is not
   * part of this model, so its object is given). A failed call holds the
   * error thrown.
   */
  datatype EntitlementsOutcome =
    | Entitlements(entitlements: seq<Value>, checkToken: Value, notEntitledError: Object)
    | EntitlementsFailed(failure: Value)

  /** The check runs only with an asset id, a config and an access token. */
  predicate CheckStarts(contentId: Value, hasAppConfig: bool, accessToken: Value)
  {
    Truthy(contentId) && hasAppConfig && Truthy(accessToken)
  }

  /**
   * The entitlement check on entering the screen: nothing without an asset
   * id, config or token; otherwise RESET, then (while still mounted) the
   * first entitlement, or the check error: the created Error when the list
   * is empty, the thrown error when the call failed.
   */
  function EntitlementCheck(contentId: Value, hasAppConfig: bool, accessToken: Value, outcome: EntitlementsOutcome, mountedAfter: bool): (r: seq<TvodAction>)
    ensures !CheckStarts(contentId, hasAppConfig, accessToken) ==> r == []
    ensures CheckStarts(contentId, hasAppConfig, accessToken) ==> |r| > 0 && r[0] == Reset
    ensures |r| == 2 <==> CheckStarts(contentId, hasAppConfig, accessToken) && mountedAfter
    ensures |r| <= 2
    ensures |r| == 2 && outcome.Entitlements? && |outcome.entitlements| > 0 ==> r[1] == SetEntitlement(outcome.entitlements[0], outcome.checkToken)
    ensures |r| == 2 && outcome.Entitlements? && |outcome.entitlements| == 0 ==> r[1] == EntitlementCheckError(Obj(outcome.notEntitledError))
    ensures |r| == 2 && outcome.EntitlementsFailed? ==> r[1] == EntitlementCheckError(outcome.failure)
  {
    if !CheckStarts(contentId, hasAppConfig, accessToken) then []
    else if !mountedAfter then [Reset]
    else
      match outcome
      case Entitlements(es, token, notEntitled) =>
        if |es| > 0 then [Reset, SetEntitlement(es[0], token)]
        else [Reset, EntitlementCheckError(Obj(notEntitled))]
      case EntitlementsFailed(e) => [Reset, EntitlementCheckError(e)]
  }

  /** An account without entitlements leaves the screen not entitled, with a truthy check error recorded. */
  lemma NoEntitlementRecordsError(s: EntitlementState, contentId: Value, accessToken: Value, token: Value, notEntitledError: Object)
    requires Truthy(contentId) && Truthy(accessToken)
    ensures var t := Run(s, EntitlementCheck(contentId, true, accessToken, Entitlements([], token, notEntitledError), true));
            !t.loading && !t.entitled && Truthy(t.error) && t.error == Obj(notEntitledError)
  {
    var actions := EntitlementCheck(contentId, true, accessToken, Entitlements([], token, notEntitledError), true);
    RunPair(s, actions);
  }

  /** A check started and answered while mounted never leaves the screen loading, and finds the asset entitled only through an entitlement. */
  lemma EntitlementCheckSettles(s: EntitlementState, contentId: Value, accessToken: Value, outcome: EntitlementsOutcome)
    requires Truthy(contentId) && Truthy(accessToken)
    ensures var t := Run(s, EntitlementCheck(contentId, true, accessToken, outcome, true));
            !t.loading && !t.redeemError &&
            (t.entitled <==> outcome.Entitlements? && |outcome.entitlements| > 0 && Truthy(outcome.entitlements[0]))
  {
    var actions := EntitlementCheck(contentId, true, accessToken, outcome, true);
    RunPair(s, actions);
  }
}
