/**
 * The profile feature's copy of the Evergent envelope helpers
 * (features/profile/data/utils/EvergentAPIUtil.ts). It knows five more
 * endpoints than the app-wide copy, drops a falsy `contactID` from the
 * caller's payload before sending it, and throws instead of returning
 * undefined when a response is incomplete.
 */
module ProfileEvergentApi {
  import opened Js
  import opened Wrappers
  import EvergentApi
  import Query

  datatype Endpoint =
    | CreateUser | LoginUser | RefreshToken | ForgotPassword | ConfirmOTP | CreateOTP
    | ResetPassword | UpdateProfile | GetAccountProfile | SetString | AddSubscription
    | GetProducts | CreditsEndpoint | GetEntitlements | LogOutUser | AddTVODOrder
    | RecordPlayTime | RemoveDevices | GetAccountDevices | GetVODEntitlements
    | GetUsers | AddContact | DeleteContact | SearchAccount

  /** The enum's string value, which is also the endpoint path of the request. */
  function Path(e: Endpoint): string
  {
    match e
    case CreateUser => "createUser"
    case LoginUser => "getOAuthAccessTokenv2"
    case RefreshToken => "refreshToken"
    case ForgotPassword => "forgotContactPassword"
    case ConfirmOTP => "confirmOTP"
    case CreateOTP => "createOTP"
    case ResetPassword => "resetPassword"
    case UpdateProfile => "updateProfile"
    case GetAccountProfile => "getAccountProfile"
    case SetString => "setString"
    case AddSubscription => "addSubscription"
    case GetProducts => "getProducts"
    case CreditsEndpoint => "getAccountCreditPoints"
    case GetEntitlements => "getEntitlements"
    case LogOutUser => "logOutUser"
    case AddTVODOrder => "addTVODOrder"
    case RecordPlayTime => "recordPlayTime"
    case RemoveDevices => "removeDevices"
    case GetAccountDevices => "getAccountDevices"
    case GetVODEntitlements => "getVODEntitlements"
    case GetUsers => "getContact"
    case AddContact => "addContact"
    case DeleteContact => "deleteContact"
    case SearchAccount => "searchAccountV2"
  }

  /** The endpoint whose path is `p`, if any (looked up by length first). */
  function EndpointOfPath(p: string): Option<Endpoint>
  {
    if |p| == 9 then if p == "createOTP" then Some(CreateOTP) else if p == "setString" then Some(SetString) else None
    else if |p| == 10 then if p == "createUser" then Some(CreateUser) else if p == "confirmOTP" then Some(ConfirmOTP) else if p == "logOutUser" then Some(LogOutUser) else if p == "getContact" then Some(GetUsers) else if p == "addContact" then Some(AddContact) else None
    else if |p| == 11 then if p == "getProducts" then Some(GetProducts) else None
    else if |p| == 12 then if p == "refreshToken" then Some(RefreshToken) else if p == "addTVODOrder" then Some(AddTVODOrder) else None
    else if |p| == 13 then if p == "resetPassword" then Some(ResetPassword) else if p == "updateProfile" then Some(UpdateProfile) else if p == "removeDevices" then Some(RemoveDevices) else if p == "deleteContact" then Some(DeleteContact) else None
    else if |p| == 14 then if p == "recordPlayTime" then Some(RecordPlayTime) else None
    else if |p| == 15 then if p == "addSubscription" then Some(AddSubscription) else if p == "getEntitlements" then Some(GetEntitlements) else if p == "searchAccountV2" then Some(SearchAccount) else None
    else if |p| == 17 then if p == "getAccountProfile" then Some(GetAccountProfile) else if p == "getAccountDevices" then Some(GetAccountDevices) else None
    else if |p| == 18 then if p == "getVODEntitlements" then Some(GetVODEntitlements) else None
    else if |p| == 21 then if p == "getOAuthAccessTokenv2" then Some(LoginUser) else if p == "forgotContactPassword" then Some(ForgotPassword) else None
    else if |p| == 22 then if p == "getAccountCreditPoints" then Some(CreditsEndpoint) else None
    else None
  }

  /** Reading an endpoint's path back gives the endpoint. */
  lemma PathRoundTrip(e: Endpoint)
    ensures EndpointOfPath(Path(e)) == Some(e)
  {
    if e == CreateUser || e == LoginUser || e == RefreshToken || e == ForgotPassword || e == ConfirmOTP || e == CreateOTP {
      PathRoundTripPart1(e);
    } else if e == ResetPassword || e == UpdateProfile || e == GetAccountProfile || e == SetString || e == AddSubscription || e == GetProducts {
      PathRoundTripPart2(e);
    } else if e == CreditsEndpoint || e == GetEntitlements || e == LogOutUser || e == AddTVODOrder || e == RecordPlayTime || e == RemoveDevices {
      PathRoundTripPart3(e);
    } else {
      PathRoundTripPart4(e);
    }
  }

  lemma PathRoundTripPart1(e: Endpoint)
    requires e == CreateUser || e == LoginUser || e == RefreshToken || e == ForgotPassword || e == ConfirmOTP || e == CreateOTP
    ensures EndpointOfPath(Path(e)) == Some(e)
  {
  }

  lemma PathRoundTripPart2(e: Endpoint)
    requires e == ResetPassword || e == UpdateProfile || e == GetAccountProfile || e == SetString || e == AddSubscription || e == GetProducts
    ensures EndpointOfPath(Path(e)) == Some(e)
  {
  }

  lemma PathRoundTripPart3(e: Endpoint)
    requires e == CreditsEndpoint || e == GetEntitlements || e == LogOutUser || e == AddTVODOrder || e == RecordPlayTime || e == RemoveDevices
    ensures EndpointOfPath(Path(e)) == Some(e)
  {
  }

  lemma PathRoundTripPart4(e: Endpoint)
    requires e == GetAccountDevices || e == GetVODEntitlements || e == GetUsers || e == AddContact || e == DeleteContact || e == SearchAccount
    ensures EndpointOfPath(Path(e)) == Some(e)
  {
  }

  /** `requestResponseKey`. The switch's second UpdateProfile case is shadowed by the first; see SwitchCaseLabels. */
  function RequestResponseKey(e: Endpoint): (string, string)
  {
    match e
    case CreateUser => ("CreateUserRequestMessage", "CreateUserResponseMessage")
    case LoginUser => ("GetOAuthAccessTokenv2RequestMessage", "GetOAuthAccessTokenv2ResponseMessage")
    case RefreshToken => ("RefreshTokenRequestMessage", "RefreshTokenResponseMessage")
    case ForgotPassword => ("ForgotContactPasswordRequestMessage", "ForgotContactPasswordResponseMessage")
    case ConfirmOTP => ("ConfirmOTPRequestMessage", "ConfirmOTPResponseMessage")
    case CreateOTP => ("CreateOTPRequestMessage", "CreateOTPResponseMessage")
    case ResetPassword => ("ResetPasswordRequestMessage", "ResetPasswordResponseMessage")
    case UpdateProfile => ("UpdateProfileRequestMessage", "UpdateProfileResponseMessage")
    case GetAccountProfile => ("GetAccountProfileRequestMessage", "GetAccountProfileResponseMessage")
    case SetString => ("SetStringRequestMessage", "SetStringResponseMessage")
    case AddSubscription => ("AddSubscriptionRequestMessage", "AddSubscriptionResponseMessage")
    case GetProducts => ("GetProductsRequestMessage", "GetProductsResponseMessage")
    case CreditsEndpoint => ("GetAccountCreditPointsRequestMessage", "GetAccountCreditPointsResponseMessage")
    case GetEntitlements => ("GetEntitlementsRequestMessage", "GetEntitlementsResponseMessage")
    case LogOutUser => ("LogOutUserRequestMessage", "LogOutUserResponseMessage")
    case AddTVODOrder => ("AddTVODOrderRequestMessage", "AddTVODOrderResponseMessage")
    case RecordPlayTime => ("RecordPlayTimeRequestMessage", "RecordPlayTimeResponseMessage")
    case RemoveDevices => ("RemoveDevicesRequestMessage", "RemoveDevicesResponseMessage")
    case GetAccountDevices => ("GetAccountDevicesRequestMessage", "GetAccountDevicesResponseMessage")
    case GetVODEntitlements => ("GetVODEntitlementsRequestMessage", "GetVODEntitlementsResponseMessage")
    case GetUsers => ("GetContactRequestMessage", "GetContactResponseMessage")
    case AddContact => ("AddContactRequestMessage", "AddContactResponseMessage")
    case DeleteContact => ("DeleteContactRequestMessage", "DeleteContactResponseMessage")
    case SearchAccount => ("SearchAccountV2RequestMessage", "SearchAccountV2ResponseMessage")
  }

  function ResponseKey(e: Endpoint): string
  {
    RequestResponseKey(e).1
  }

  /** The case labels of the `requestResponseKey` switch, in source order; UpdateProfile occurs twice. */
  function SwitchCaseLabels(): seq<Endpoint>
  {
    [CreateUser, LoginUser, RefreshToken, ForgotPassword, ConfirmOTP, CreateOTP, ResetPassword,
     UpdateProfile, GetAccountProfile, SetString, AddSubscription, GetProducts, CreditsEndpoint,
     GetEntitlements, LogOutUser, AddTVODOrder, RecordPlayTime, RemoveDevices, GetAccountDevices,
     GetVODEntitlements, GetUsers, AddContact, UpdateProfile, DeleteContact, SearchAccount]
  }

  /** A JavaScript switch runs the first case whose label matches. */
  predicate IsFirstMatch(labels: seq<Endpoint>, e: Endpoint, i: nat)
  {
    i < |labels| && labels[i] == e && forall j :: 0 <= j < i ==> labels[j] != e
  }

  /** The second UpdateProfile case (index 22) runs for no endpoint; index 7 is the one that runs. */
  lemma DuplicateCaseUnreachable(e: Endpoint)
    ensures !IsFirstMatch(SwitchCaseLabels(), e, 22)
    ensures IsFirstMatch(SwitchCaseLabels(), UpdateProfile, 7)
  {
    var labels := SwitchCaseLabels();
    assert labels[7] == UpdateProfile && labels[22] == UpdateProfile;
  }

  /** `!payload.contactID` deletes the key; a truthy contactID stays. */
  function DropFalsyContactId(payload: Object): (r: Object)
  {
    if "contactID" in payload && Truthy(payload["contactID"]) then payload else payload - {"contactID"}
  }

  /** Only a falsy or missing contactID is removed, every other field is kept, and dropping twice is dropping once. */
  lemma DropFalsyContactIdSpec(payload: Object)
    ensures var r := DropFalsyContactId(payload);
      ("contactID" in r <==> "contactID" in payload && Truthy(payload["contactID"])) &&
      (forall k :: k in r ==> r[k] == payload[k]) &&
      (forall k :: k in payload && k != "contactID" ==> k in r) &&
      DropFalsyContactId(r) == r
  {
  }

  /** The message that `requestBody` builds from the (already cleaned) payload. */
  function RequestBodyFor(e: Endpoint, appConfig: Option<EvergentApi.ApiConfig>, decrypt: string -> string, payload: Option<Object>): Object
  {
    EvergentApi.Envelope(RequestResponseKey(e).0, e == AddTVODOrder, appConfig, decrypt, payload)
  }

  /** The message carries a contactID exactly when the payload had a truthy one. */
  lemma RequestBodyContactId(e: Endpoint, appConfig: Option<EvergentApi.ApiConfig>, decrypt: string -> string, payload: Object)
    ensures var body := RequestBodyFor(e, appConfig, decrypt, Some(DropFalsyContactId(payload)))[RequestResponseKey(e).0].fields;
      ("contactID" in body <==> "contactID" in payload && Truthy(payload["contactID"])) &&
      ("contactID" in body ==> body["contactID"] == payload["contactID"])
  {
    EnvelopeContactId(RequestResponseKey(e).0, e == AddTVODOrder, appConfig, decrypt, payload);
  }

  /** RequestBodyContactId for any request key and credential names. */
  lemma EnvelopeContactId(requestKey: string, isAddTVODOrder: bool, appConfig: Option<EvergentApi.ApiConfig>, decrypt: string -> string, payload: Object)
    ensures var body := EvergentApi.Envelope(requestKey, isAddTVODOrder, appConfig, decrypt, Some(DropFalsyContactId(payload)))[requestKey].fields;
      ("contactID" in body <==> "contactID" in payload && Truthy(payload["contactID"])) &&
      ("contactID" in body ==> body["contactID"] == payload["contactID"])
  {
    DropFalsyContactIdSpec(payload);
    EvergentApi.EnvelopeSpec(requestKey, isAddTVODOrder, appConfig, decrypt, Some(DropFalsyContactId(payload)));
    var creds := EvergentApi.Credentials(isAddTVODOrder, appConfig, decrypt);
    assert "contactID" !in creds;
  }

  /** The caller's payload object, which `requestBody` changes in place. */
  class Payload {
    var fields: Object

    constructor (fields: Object)
      ensures this.fields == fields
    {
      this.fields := fields;
    }
  }

  /** `requestBody`: deletes a falsy contactID from the caller's payload, then builds the message. */
  method RequestBody(e: Endpoint, appConfig: Option<EvergentApi.ApiConfig>, decrypt: string -> string, payload: Payload?) returns (body: Object)
    modifies payload
    ensures payload != null ==> payload.fields == DropFalsyContactId(old(payload.fields))
    ensures body == RequestBodyFor(e, appConfig, decrypt, if payload == null then None else Some(payload.fields))
  {
    var content: Option<Object> := None;
    if payload != null {
      if !("contactID" in payload.fields && Truthy(payload.fields["contactID"])) {
        payload.fields := payload.fields - {"contactID"};
      }
      content := Some(payload.fields);
    }
    body := RequestBodyFor(e, appConfig, decrypt, content);
  }

  /** What the helpers throw, or the error object that `assertErrorCode` returns. */
  datatype ApiError =
    | InternalServerError(message: string)
    | EvergentAPIError(errorMessage: Value, errorCode: Value)
    | InvalidStatus(status: int)
    | TypeError

  const NotDelivered: string := "Error reponse not delivered"

  /** `responsePayload`: the response message, or an InternalServerError when it is missing or falsy. */
  function ResponsePayload(e: Endpoint, payload: Option<Object>): (r: Result<Value, ApiError>)
    ensures r.Ok? <==> payload.Some? && Truthy(Get(payload.value, ResponseKey(e)))
    ensures r.Ok? ==> r.value == payload.value[ResponseKey(e)]
    ensures r.Err? ==> r.error == InternalServerError(NotDelivered)
  {
    if payload.Some? && Truthy(Get(payload.value, ResponseKey(e))) then Ok(payload.value[ResponseKey(e)])
    else Err(InternalServerError(NotDelivered))
  }

  predicate IsSuccess(e: Endpoint, payload: Option<Object>)
  {
    payload.Some? && Truthy(Get(payload.value, ResponseKey(e))) && Prop(Get(payload.value, ResponseKey(e)), "responseCode") == Str("1")
  }

  /** `assertErrorCode` on a response message, for a present payload. */
  function AssertFailure(message: Value): (r: Result<ApiError, ApiError>)
    ensures r.Ok? <==> EvergentApi.HasFailures(message) && !Nullish(EvergentApi.FirstFailure(message))
    ensures r.Ok? ==> var first := EvergentApi.FirstFailure(message);
      r.value == EvergentAPIError(Prop(first, "errorMessage"), Prop(first, "errorCode"))
    ensures r == Err(InternalServerError(NotDelivered)) <==> !EvergentApi.HasFailures(message)
    ensures r.Err? ==> r.error == InternalServerError(NotDelivered) || r.error == TypeError
  {
    if !EvergentApi.HasFailures(message) then Err(InternalServerError(NotDelivered))
    else
      var first := EvergentApi.FirstFailure(message);
      if Nullish(first) then Err(TypeError)
      else Ok(EvergentAPIError(Prop(first, "errorMessage"), Prop(first, "errorCode")))
  }

  /**
   * `assertErrorCode`: the error object built from the first failure's message
   * and code (Ok), a thrown InternalServerError (Err) when there is no
   * failure, and a thrown TypeError when the first failure is null or undefined.
   */
  function AssertErrorCode(e: Endpoint, payload: Option<Object>): (r: Result<ApiError, ApiError>)
    ensures r.Ok? <==> (payload.Some? && EvergentApi.HasFailures(Get(payload.value, ResponseKey(e))) &&
      !Nullish(EvergentApi.FirstFailure(Get(payload.value, ResponseKey(e)))))
    ensures r.Ok? ==> var first := EvergentApi.FirstFailure(Get(payload.value, ResponseKey(e)));
      r.value == EvergentAPIError(Prop(first, "errorMessage"), Prop(first, "errorCode"))
    ensures r == Err(InternalServerError(NotDelivered)) <==> payload.None? || !EvergentApi.HasFailures(Get(payload.value, ResponseKey(e)))
    ensures r.Err? ==> r.error == InternalServerError(NotDelivered) || r.error == TypeError
  {
    if payload.None? then Err(InternalServerError(NotDelivered))
    else AssertFailure(Get(payload.value, ResponseKey(e)))
  }

  /** On one message, the error object carries `errorCode`'s code, both throw alike, and no failure means no code. */
  lemma AssertFailureMatchesFailureCode(message: Value)
    ensures AssertFailure(message).Ok? ==> EvergentApi.FailureCode(message) == Ok(AssertFailure(message).value.errorCode)
    ensures AssertFailure(message) == Err(TypeError) <==> EvergentApi.FailureCode(message).Err?
    ensures AssertFailure(message) == Err(InternalServerError(NotDelivered)) ==> EvergentApi.FailureCode(message) == Ok(Undefined)
  {
  }

  /**
   * `assertErrorCode` and the other module's `errorCode` read the same
   * failure of a response: the error object carries that code, both throw
   * on the same responses, and no failure means no code.
   */
  lemma AssertErrorCodeMatchesErrorCode(e: Endpoint, e2: EvergentApi.Endpoint, payload: Option<Object>)
    requires ResponseKey(e) == EvergentApi.ResponseKey(e2)
    ensures AssertErrorCode(e, payload).Ok? ==> EvergentApi.ErrorCode(e2, payload) == Ok(AssertErrorCode(e, payload).value.errorCode)
    ensures AssertErrorCode(e, payload) == Err(TypeError) <==> EvergentApi.ErrorCode(e2, payload).Err?
    ensures AssertErrorCode(e, payload) == Err(InternalServerError(NotDelivered)) ==> EvergentApi.ErrorCode(e2, payload) == Ok(Undefined)
  {
    var message := if payload.Some? then Get(payload.value, ResponseKey(e)) else Undefined;
    assert EvergentApi.Message(e2, payload) == message;
    assert EvergentApi.ErrorCode(e2, payload) == EvergentApi.FailureCode(message);
    assert AssertErrorCode(e, payload) == AssertFailure(message);
    AssertFailureMatchesFailureCode(message);
  }

  /** A non-empty string as `failureMessage` gives an error object whose message and code are both undefined. */
  lemma StringFailureMessage(e: Endpoint, payload: Object, text: string)
    requires ResponseKey(e) in payload && payload[ResponseKey(e)].Obj?
    requires Get(payload[ResponseKey(e)].fields, "failureMessage") == Str(text) && text != ""
    ensures AssertErrorCode(e, Some(payload)) == Ok(EvergentAPIError(Undefined, Undefined))
  {
    assert EvergentApi.FirstFailure(payload[ResponseKey(e)]) == Str([text[0]]);
  }

  /**
   * `parseResponse`. `statusAccepted` is the verdict of `validateResponse`
   * (core/api/utils/response-validate, not part of this model), which throws
   * for a status other than 200.
   */
  function ParseResponse(e: Endpoint, status: int, statusAccepted: bool, payload: Option<Object>): Result<Value, ApiError>
  {
    if !statusAccepted then Err(InvalidStatus(status))
    else if IsSuccess(e, payload) then ResponsePayload(e, payload)
    else
      match AssertErrorCode(e, payload)
      case Ok(error) => Err(error)
      case Err(thrown) => Err(thrown)
  }

  /** The payload comes back exactly when the status is accepted and isSuccess holds; otherwise an error is thrown. */
  lemma ParseResponseSpec(e: Endpoint, status: int, statusAccepted: bool, payload: Option<Object>)
    ensures ParseResponse(e, status, statusAccepted, payload).Ok? <==> statusAccepted && IsSuccess(e, payload)
    ensures ParseResponse(e, status, statusAccepted, payload).Ok? ==>
      ParseResponse(e, status, statusAccepted, payload).value == payload.value[ResponseKey(e)]
    ensures statusAccepted && !IsSuccess(e, payload) && AssertErrorCode(e, payload).Ok? ==>
      ParseResponse(e, status, statusAccepted, payload) == Err(AssertErrorCode(e, payload).value)
  {
  }

  /** `getEvergentDeviceType`; `tablet` is `DeviceInfo.getDeviceType() === 'Tablet'`; other platforms give undefined. */
  function EvergentDeviceType(os: string, isTV: bool, tablet: bool): (r: Option<string>)
    ensures r.None? <==> os != "android" && os != "ios"
    ensures isTV && os == "android" ==> r == Some("androidtv")
    ensures isTV && os == "ios" ==> r == Some("tvos")
    ensures !isTV && tablet && os == "android" ==> r == Some("androidtablet")
    ensures !isTV && tablet && os == "ios" ==> r == Some("iostablet")
    ensures !isTV && !tablet && os == "android" ==> r == Some("androidmobile")
    ensures !isTV && !tablet && os == "ios" ==> r == Some("iosmobile")
  {
    if os == "android" then
      if isTV then Some("androidtv") else if tablet then Some("androidtablet") else Some("androidmobile")
    else if os == "ios" then
      if isTV then Some("tvos") else if tablet then Some("iostablet") else Some("iosmobile")
    else None
  }

  /** The TV flag wins over the tablet flag on both platforms. */
  lemma TvTakesPrecedence(os: string, tablet: bool)
    requires os == "android" || os == "ios"
    ensures EvergentDeviceType(os, true, tablet) == EvergentDeviceType(os, true, !tablet)
    ensures EvergentDeviceType(os, true, tablet).value != EvergentDeviceType(os, false, tablet).value
  {
  }

  /** `getAppType`. */
  function AppType(os: string, isTV: bool): (r: Option<string>)
    ensures r.None? <==> os != "android" && os != "ios"
    ensures os == "android" ==> r == Some(if isTV then "Android TV" else "Android")
    ensures os == "ios" ==> r == Some(if isTV then "Apple TV" else "iOS")
  {
    if os == "android" then Some(if isTV then "Android TV" else "Android")
    else if os == "ios" then Some(if isTV then "Apple TV" else "iOS")
    else None
  }

  /**
   * The device message's two platform descriptions agree: both are defined
   * on the same platforms and both name a TV exactly on a TV, and the app
   * type tells the platform and the TV flag apart.
   */
  lemma AppTypeMatchesDeviceType(os: string, isTV: bool, tablet: bool)
    ensures AppType(os, isTV).Some? <==> EvergentDeviceType(os, isTV, tablet).Some?
    ensures AppType(os, isTV).Some? ==>
      ((AppType(os, isTV).value == "Android TV" || AppType(os, isTV).value == "Apple TV") <==> isTV)
    ensures AppType(os, isTV).Some? ==>
      ((EvergentDeviceType(os, isTV, tablet).value == "androidtv" || EvergentDeviceType(os, isTV, tablet).value == "tvos") <==> isTV)
  {
  }

  /** Distinct platforms or TV flags give distinct app types. */
  lemma AppTypeInjective(os1: string, isTV1: bool, os2: string, isTV2: bool)
    requires AppType(os1, isTV1).Some? && AppType(os1, isTV1) == AppType(os2, isTV2)
    ensures os1 == os2 && isTV1 == isTV2
  {
    assert "Android TV" != "Android" && "Apple TV" != "iOS";
  }

  /** `getAction`: POST unless a (truthy) method is given, always on the 'ums' client. */
  function GetAction(e: Endpoint, request: Option<Value>, httpMethod: Option<string>): (r: Query.Action)
    ensures r.httpMethod == if httpMethod.Some? && httpMethod.value != "" then httpMethod.value else "POST"
    ensures r.clientIdentifier == "ums" && r.endpoint == Path(e) && r.body == request
  {
    Query.Action(if httpMethod.Some? && httpMethod.value != "" then httpMethod.value else "POST", Path(e), "ums", request, None, None)
  }

  /** An action gives back the endpoint it was built for and its request body unchanged. */
  lemma GetActionReadBack(e: Endpoint, request: Option<Value>, httpMethod: Option<string>)
    ensures EndpointOfPath(GetAction(e, request, httpMethod).endpoint) == Some(e)
    ensures GetAction(e, request, httpMethod).body == request
  {
    PathRoundTrip(e);
  }

  /** Two equal actions were built for the same endpoint and body. */
  lemma GetActionInjective(e1: Endpoint, r1: Option<Value>, m1: Option<string>, e2: Endpoint, r2: Option<Value>, m2: Option<string>)
    requires GetAction(e1, r1, m1) == GetAction(e2, r2, m2)
    ensures e1 == e2 && r1 == r2
  {
    GetActionReadBack(e1, r1, m1);
    GetActionReadBack(e2, r2, m2);
  }
}
