/**
 * Envelope helpers for the Evergent subscriber-management backend
 * (utils/EvergentAPIUtil.ts): every endpoint wraps its request in a
 * `<Name>RequestMessage` object carrying the API credentials and answers
 * with a `<Name>ResponseMessage` object whose `responseCode` is '1' on
 * success and whose `failureMessage` list carries errors otherwise.
 */
module EvergentApi {
  import opened Js
  import opened Wrappers

  datatype Endpoint =
    | CreateUser | LoginUser | RefreshToken | ForgotPassword | ConfirmOTP | ResetPassword
    | UpdateProfile | GetAccountProfile | SetString | AddSubscription | GetProducts
    | CreditsEndpoint | GetEntitlements | LogOutUser | AddTVODOrder | RecordPlayTime
    | RemoveDevices | GetAccountDevices | GetVODEntitlements

  /** `requestResponseKey`: the request and response message names of an endpoint. */
  function RequestResponseKey(e: Endpoint): (string, string)
  {
    match e
    case CreateUser => ("CreateUserRequestMessage", "CreateUserResponseMessage")
    case LoginUser => ("GetOAuthAccessTokenv2RequestMessage", "GetOAuthAccessTokenv2ResponseMessage")
    case RefreshToken => ("RefreshTokenRequestMessage", "RefreshTokenResponseMessage")
    case ForgotPassword => ("ForgotContactPasswordRequestMessage", "ForgotContactPasswordResponseMessage")
    case ConfirmOTP => ("ConfirmOTPRequestMessage", "ConfirmOTPResponseMessage")
    case ResetPassword => ("ResetPasswordRequestMessage", "ResetPasswordResponseMessage")
    case UpdateProfile => ("UpdateProfileRequestMessage", "UpdateProfileResponseMessage")
    case GetAccountProfile => ("GetAccountProfileRequestMessage", "GetAccountProfileResponseMessage")
    case SetString => ("SetStringRequestMessage", "SetStringResponseMessage")
    case AddSubscription => ("AddSubscriptionRequestMessage", "AddSubscriptionResponseMessage")
    case GetProducts => ("GetProductsRequestMessage", "GetProductsResponseMessage")
    case CreditsEndpoint => ("GetAccountCreditPointsRequestMessage", "GetAccountCreditPointsResponseMessage")
    case GetEntitlements => ("GetEntitlementsRequestMessage", "GetEntitlementsResponseMessage")
    case LogOutUser => ("LogOutUserRequestMesssage", "LogOutUserResponseMessage")
    case AddTVODOrder => ("AddTVODOrderRequestMessage", "AddTVODOrderResponseMessage")
    case RecordPlayTime => ("RecordPlayTimeRequestMessage", "RecordPlayTimeResponseMessage")
    case RemoveDevices => ("RemoveDevicesRequestMessage", "RemoveDevicesResponseMessage")
    case GetAccountDevices => ("GetAccountDevicesRequestMessage", "GetAccountDevicesResponseMessage")
    case GetVODEntitlements => ("GetVODEntitlementsRequestMessage", "GetVODEntitlementsResponseMessage")
  }

  function ResponseKey(e: Endpoint): string
  {
    RequestResponseKey(e).1
  }

  /** The endpoint that answers with a given response message name, if any (looked up by length first). */
  function EndpointOfResponseKey(k: string): Option<Endpoint>
  {
    if |k| == 24 then if k == "SetStringResponseMessage" then Some(SetString) else None
    else if |k| == 25 then if k == "CreateUserResponseMessage" then Some(CreateUser) else if k == "ConfirmOTPResponseMessage" then Some(ConfirmOTP) else if k == "LogOutUserResponseMessage" then Some(LogOutUser) else None
    else if |k| == 26 then if k == "GetProductsResponseMessage" then Some(GetProducts) else None
    else if |k| == 27 then if k == "RefreshTokenResponseMessage" then Some(RefreshToken) else if k == "AddTVODOrderResponseMessage" then Some(AddTVODOrder) else None
    else if |k| == 28 then if k == "ResetPasswordResponseMessage" then Some(ResetPassword) else if k == "UpdateProfileResponseMessage" then Some(UpdateProfile) else if k == "RemoveDevicesResponseMessage" then Some(RemoveDevices) else None
    else if |k| == 29 then if k == "RecordPlayTimeResponseMessage" then Some(RecordPlayTime) else None
    else if |k| == 30 then if k == "AddSubscriptionResponseMessage" then Some(AddSubscription) else if k == "GetEntitlementsResponseMessage" then Some(GetEntitlements) else None
    else if |k| == 32 then if k == "GetAccountProfileResponseMessage" then Some(GetAccountProfile) else if k == "GetAccountDevicesResponseMessage" then Some(GetAccountDevices) else None
    else if |k| == 33 then if k == "GetVODEntitlementsResponseMessage" then Some(GetVODEntitlements) else None
    else if |k| == 36 then if k == "GetOAuthAccessTokenv2ResponseMessage" then Some(LoginUser) else if k == "ForgotContactPasswordResponseMessage" then Some(ForgotPassword) else None
    else if |k| == 37 then if k == "GetAccountCreditPointsResponseMessage" then Some(CreditsEndpoint) else None
    else None
  }

  /** Reading a response key back gives its endpoint. */
  lemma ResponseKeyRoundTrip(e: Endpoint)
    ensures EndpointOfResponseKey(ResponseKey(e)) == Some(e)
  {
    if e == CreateUser || e == LoginUser || e == RefreshToken || e == ForgotPassword || e == ConfirmOTP {
      RoundTripPart1(e);
    } else if e == ResetPassword || e == UpdateProfile || e == GetAccountProfile || e == SetString || e == AddSubscription {
      RoundTripPart2(e);
    } else if e == GetProducts || e == CreditsEndpoint || e == GetEntitlements || e == LogOutUser || e == AddTVODOrder {
      RoundTripPart3(e);
    } else {
      RoundTripPart4(e);
    }
  }

  lemma RoundTripPart1(e: Endpoint)
    requires e == CreateUser || e == LoginUser || e == RefreshToken || e == ForgotPassword || e == ConfirmOTP
    ensures EndpointOfResponseKey(ResponseKey(e)) == Some(e)
  {
  }

  lemma RoundTripPart2(e: Endpoint)
    requires e == ResetPassword || e == UpdateProfile || e == GetAccountProfile || e == SetString || e == AddSubscription
    ensures EndpointOfResponseKey(ResponseKey(e)) == Some(e)
  {
  }

  lemma RoundTripPart3(e: Endpoint)
    requires e == GetProducts || e == CreditsEndpoint || e == GetEntitlements || e == LogOutUser || e == AddTVODOrder
    ensures EndpointOfResponseKey(ResponseKey(e)) == Some(e)
  {
  }

  lemma RoundTripPart4(e: Endpoint)
    requires e == RecordPlayTime || e == RemoveDevices || e == GetAccountDevices || e == GetVODEntitlements
    ensures EndpointOfResponseKey(ResponseKey(e)) == Some(e)
  {
  }

  /** Distinct endpoints read their answers from distinct response keys. */
  lemma ResponseKeysDistinct(a: Endpoint, b: Endpoint)
    requires a != b
    ensures ResponseKey(a) != ResponseKey(b)
  {
    ResponseKeyRoundTrip(a);
    ResponseKeyRoundTrip(b);
  }

  /** The part of the app configuration that carries the backend credentials. */
  datatype ApiConfig = ApiConfig(umsApiUser: string, umsApiToken: string, channelPartnerID: string)

  /**
   * The credential fields of a request message, before the payload is spread
   * over them. The AddTVODOrder endpoint spells the keys in lower case.
   * `decrypt` is the app's token decryption, passed in.
   */
  function Credentials(isAddTVODOrder: bool, appConfig: Option<ApiConfig>, decrypt: string -> string): (r: Object)
    ensures r.Keys == {UserKey(isAddTVODOrder), PasswordKey(isAddTVODOrder), "channelPartnerID"}
    ensures appConfig.None? ==> forall k :: k in r ==> r[k] == Str("")
    ensures appConfig.Some? ==>
      r[UserKey(isAddTVODOrder)] == Str(appConfig.value.umsApiUser) &&
      r[PasswordKey(isAddTVODOrder)] == Str(decrypt(appConfig.value.umsApiToken)) &&
      r["channelPartnerID"] == Str(appConfig.value.channelPartnerID)
  {
    var apiUser := if appConfig.Some? then appConfig.value.umsApiUser else "";
    var apiPassword := if appConfig.Some? then decrypt(appConfig.value.umsApiToken) else "";
    var channelPartnerID := if appConfig.Some? then appConfig.value.channelPartnerID else "";
    map[UserKey(isAddTVODOrder) := Str(apiUser), PasswordKey(isAddTVODOrder) := Str(apiPassword), "channelPartnerID" := Str(channelPartnerID)]
  }

  function UserKey(isAddTVODOrder: bool): string
  {
    if isAddTVODOrder then "apiuser" else "apiUser"
  }

  function PasswordKey(isAddTVODOrder: bool): string
  {
    if isAddTVODOrder then "apipassword" else "apiPassword"
  }

  /**
   * `{ [requestKey]: { credentials..., ...payload } }`: the envelope both
   * Evergent helpers build; a missing payload spreads nothing.
   */
  function Envelope(requestKey: string, isAddTVODOrder: bool, appConfig: Option<ApiConfig>, decrypt: string -> string, payload: Option<Object>): (r: Object)
    ensures r.Keys == {requestKey} && r[requestKey].Obj?
  {
    var creds := Credentials(isAddTVODOrder, appConfig, decrypt);
    map[requestKey := Obj(if payload.Some? then Spread(creds, payload.value) else creds)]
  }

  /** The message fields are the credentials and the payload fields, and a payload field wins over a credential. */
  lemma EnvelopeSpec(requestKey: string, isAddTVODOrder: bool, appConfig: Option<ApiConfig>, decrypt: string -> string, payload: Option<Object>)
    ensures var body := Envelope(requestKey, isAddTVODOrder, appConfig, decrypt, payload)[requestKey].fields;
      var creds := Credentials(isAddTVODOrder, appConfig, decrypt);
      body.Keys == creds.Keys + (if payload.Some? then payload.value.Keys else {}) &&
      (payload.Some? ==> forall k :: k in payload.value ==> body[k] == payload.value[k]) &&
      (forall k :: k in creds && (payload.None? || k !in payload.value) ==> body[k] == creds[k])
  {
  }

  /** `requestBody`: the request message of an endpoint. */
  function RequestBody(e: Endpoint, appConfig: Option<ApiConfig>, decrypt: string -> string, payload: Option<Object>): Object
  {
    Envelope(RequestResponseKey(e).0, e == AddTVODOrder, appConfig, decrypt, payload)
  }

  /**
   * Without a payload the message holds exactly the three credential fields,
   * with the lower-case key spelling exactly for AddTVODOrder, and each field
   * is '' when there is no configuration.
   */
  lemma RequestBodyCredentials(e: Endpoint, appConfig: Option<ApiConfig>, decrypt: string -> string)
    ensures var body := RequestBody(e, appConfig, decrypt, None)[RequestResponseKey(e).0].fields;
      body.Keys == (if e == AddTVODOrder then {"apiuser", "apipassword", "channelPartnerID"} else {"apiUser", "apiPassword", "channelPartnerID"}) &&
      (appConfig.None? ==> forall k :: k in body ==> body[k] == Str(""))
  {
    EnvelopeSpec(RequestResponseKey(e).0, e == AddTVODOrder, appConfig, decrypt, None);
  }

  /** Payload fields are spread last, so they win over the credential fields. */
  lemma RequestBodyPayloadWins(e: Endpoint, appConfig: Option<ApiConfig>, decrypt: string -> string, payload: Object, k: string)
    requires k in payload
    ensures RequestBody(e, appConfig, decrypt, Some(payload))[RequestResponseKey(e).0].fields[k] == payload[k]
  {
    EnvelopeSpec(RequestResponseKey(e).0, e == AddTVODOrder, appConfig, decrypt, Some(payload));
  }

  /** `responsePayload`: the response message when it is present and truthy, else undefined. */
  function ResponsePayload(e: Endpoint, payload: Option<Object>): (r: Value)
    ensures r.Undefined? || (payload.Some? && Truthy(r) && r == Get(payload.value, ResponseKey(e)))
    ensures payload.Some? && Truthy(Get(payload.value, ResponseKey(e))) ==> r == payload.value[ResponseKey(e)]
  {
    if payload.Some? && Truthy(Get(payload.value, ResponseKey(e))) then payload.value[ResponseKey(e)] else Undefined
  }

  /** `isSuccess`: the response message's `responseCode` is '1'. */
  predicate IsSuccess(e: Endpoint, payload: Option<Object>)
  {
    payload.Some? && Truthy(Get(payload.value, ResponseKey(e))) && Prop(Get(payload.value, ResponseKey(e)), "responseCode") == Str("1")
  }

  /** A response is successful exactly when its message object carries responseCode '1'. */
  lemma IsSuccessSpec(e: Endpoint, payload: Option<Object>)
    ensures IsSuccess(e, payload) <==>
      payload.Some? && ResponseKey(e) in payload.value && payload.value[ResponseKey(e)].Obj? &&
      Get(payload.value[ResponseKey(e)].fields, "responseCode") == Str("1")
    ensures IsSuccess(e, payload) ==> ResponsePayload(e, payload) == payload.value[ResponseKey(e)]
  {
  }

  /** The guard both failure readers share: a truthy message whose `failureMessage` is truthy and has a positive length. */
  predicate HasFailures(message: Value)
  {
    Truthy(message) && Truthy(Prop(message, "failureMessage")) && HasPositiveLength(Prop(message, "failureMessage"))
  }

  /** `failureMessage[0]` of a message that has failures. */
  function FirstFailure(message: Value): Value
    requires HasFailures(message)
  {
    First(Prop(message, "failureMessage"))
  }

  /** The response message of an endpoint in a payload, undefined without a payload. */
  function Message(e: Endpoint, payload: Option<Object>): Value
  {
    if payload.Some? then Get(payload.value, ResponseKey(e)) else Undefined
  }

  /** What the helpers themselves throw: reading a property of a null or undefined first failure. */
  datatype Thrown = TypeError

  /**
   * `errorCode` on a response message: the first failure's errorCode, or
   * undefined when there are no failures; a null or undefined first failure
   * makes the read throw.
   */
  function FailureCode(message: Value): (r: Result<Value, Thrown>)
    ensures !HasFailures(message) ==> r == Ok(Undefined)
    ensures r.Err? <==> HasFailures(message) && Nullish(FirstFailure(message))
    ensures r.Ok? && HasFailures(message) ==> r.value == Prop(FirstFailure(message), "errorCode")
  {
    if !HasFailures(message) then Ok(Undefined)
    else if Nullish(FirstFailure(message)) then Err(TypeError)
    else Ok(Prop(FirstFailure(message), "errorCode"))
  }

  /** `errorCode`: the code read from the endpoint's response message. */
  function ErrorCode(e: Endpoint, payload: Option<Object>): (r: Result<Value, Thrown>)
    ensures !HasFailures(Message(e, payload)) ==> r == Ok(Undefined)
    ensures r.Err? <==> HasFailures(Message(e, payload)) && Nullish(FirstFailure(Message(e, payload)))
    ensures r.Ok? && HasFailures(Message(e, payload)) ==> r.value == Prop(FirstFailure(Message(e, payload)), "errorCode")
  {
    FailureCode(Message(e, payload))
  }

  /**
   * A response's code is that of the first entry of a non-empty
   * `failureMessage` list, undefined when the entry has none, and no code
   * at all comes from a message without failures; the list `[null]` throws.
   */
  lemma ErrorCodeOfFailureList(e: Endpoint, payload: Object, failures: seq<Value>)
    requires ResponseKey(e) in payload && payload[ResponseKey(e)].Obj?
    requires Get(payload[ResponseKey(e)].fields, "failureMessage") == Arr(failures)
    ensures |failures| == 0 ==> ErrorCode(e, Some(payload)) == Ok(Undefined)
    ensures |failures| > 0 && failures[0].Obj? ==> ErrorCode(e, Some(payload)) == Ok(Get(failures[0].fields, "errorCode"))
    ensures |failures| > 0 && Nullish(failures[0]) ==> ErrorCode(e, Some(payload)).Err?
  {
    var message := payload[ResponseKey(e)];
    assert Message(e, Some(payload)) == message;
    assert ErrorCode(e, Some(payload)) == FailureCode(message);
    assert Prop(message, "failureMessage") == Arr(failures);
    if |failures| > 0 {
      assert HasFailures(message) && FirstFailure(message) == failures[0];
    } else {
      assert !HasFailures(message);
    }
  }
}
