/**
 * The in-app purchase context (utils/IAPContextProvider.tsx): the reducer
 * that tracks one store transaction at a time, and the request message that
 * forwards a store receipt to the backend.
 */
module Iap {
  import opened Wrappers
  import opened Js
  import EvergentApi

  datatype InitState = Initializing | Ready | Failed
  datatype ProductType = Subscription | TopUp

  datatype IapState = IapState(
    initState: Option<InitState>,
    loading: Option<bool>,
    error: Option<bool>,
    errorObject: Value,
    transactionSuccess: Option<bool>,
    skuId: Option<string>,
    productType: Option<ProductType>,
    queueProcessed: Option<bool>,
    queueTaskErrors: seq<Value>)

  const InitialState: IapState := IapState(Some(Initializing), None, None, Undefined, None, None, None, None, [])

  /** The action `type` strings of the `IAPState` enum; any other string falls to the default case. */
  datatype ActionType =
    | Init | PurchaseRequest | PurchaseSuccess | PurchaseError | ResetTransaction
    | QueueProcessed | QueueTaskError | OtherType(name: string)

  datatype IapAction = IapAction(
    kind: ActionType,
    initState: Option<InitState>,
    errorObject: Value,
    skuID: Option<string>,
    productType: Option<ProductType>)

  /** A spread-in field: the given value replaces the current one only when it is truthy. */
  function KeepUnlessTruthy(current: Option<string>, given: Option<string>): Option<string>
  {
    if given.Some? && given.value != "" then given else current
  }

  /** `IAPReducer`. */
  function IapReducer(s: IapState, a: IapAction): (r: IapState)
    ensures a.kind == Init ==> r == s.(initState := a.initState)
    ensures a.kind == PurchaseRequest ==>
      r.loading == Some(true) && r.transactionSuccess.None? && r.error.None? && r.queueProcessed.None? &&
      r.skuId == a.skuID && r.productType == a.productType && r.queueTaskErrors == s.queueTaskErrors &&
      r.errorObject == a.errorObject
    ensures a.kind == PurchaseError ==>
      r.error == Some(true) && r.transactionSuccess == Some(false) && r.loading == Some(false) && r.queueProcessed.None? &&
      r.queueTaskErrors == [] && r.errorObject == a.errorObject &&
      r.skuId == (if a.skuID.Some? && a.skuID.value != "" then a.skuID else s.skuId) &&
      r.productType == (if a.productType.Some? then a.productType else s.productType)
    ensures a.kind == PurchaseSuccess ==>
      r.transactionSuccess == Some(true) && r.error == Some(false) && r.loading == Some(false) && r.queueProcessed.None? &&
      r.skuId == a.skuID && r.productType == a.productType && r.errorObject == a.errorObject &&
      r.queueTaskErrors == s.queueTaskErrors
    ensures a.kind == ResetTransaction ==> r == InitialState.(initState := s.initState)
    ensures a.kind == QueueProcessed ==> r == s.(queueProcessed := Some(true))
    ensures a.kind == QueueTaskError ==> r == s.(queueTaskErrors := s.queueTaskErrors + [a.errorObject])
    ensures a.kind.OtherType? ==> r == s
    ensures a.kind != Init ==> r.initState == s.initState
  {
    match a.kind
    case Init => s.(initState := a.initState)
    case PurchaseRequest =>
      s.(loading := Some(true), transactionSuccess := None, error := None, queueProcessed := None,
         errorObject := a.errorObject, skuId := a.skuID, productType := a.productType)
    case PurchaseError =>
      s.(loading := Some(false), transactionSuccess := Some(false), queueProcessed := None, queueTaskErrors := [],
         error := Some(true), errorObject := a.errorObject,
         skuId := KeepUnlessTruthy(s.skuId, a.skuID),
         productType := if a.productType.Some? then a.productType else s.productType)
    case PurchaseSuccess =>
      s.(loading := Some(false), transactionSuccess := Some(true), queueProcessed := None, error := Some(false),
         errorObject := a.errorObject, skuId := a.skuID, productType := a.productType)
    case ResetTransaction =>
      s.(loading := None, transactionSuccess := None, queueProcessed := None, queueTaskErrors := [],
         error := None, errorObject := Undefined, skuId := None, productType := None)
    case QueueProcessed => s.(queueProcessed := Some(true))
    case QueueTaskError => s.(queueTaskErrors := s.queueTaskErrors + [a.errorObject])
    case OtherType(_) => s
  }

  /**
   * The transaction flags agree: success and error are set together and are
   * opposite, and a purchase in flight has neither.
   */
  predicate ConsistentTransaction(s: IapState)
  {
    (s.transactionSuccess.None? <==> s.error.None?) &&
    (s.transactionSuccess.Some? ==> s.error.value == !s.transactionSuccess.value) &&
    (s.loading == Some(true) ==> s.transactionSuccess.None?)
  }

  function Run(s: IapState, actions: seq<IapAction>): IapState
    decreases |actions|
  {
    if actions == [] then s else Run(IapReducer(s, actions[0]), actions[1..])
  }

  /** From the initial state no sequence of actions reports a transaction as both succeeded and failed. */
  lemma {:induction false} RunKeepsConsistentTransaction(s: IapState, actions: seq<IapAction>)
    requires ConsistentTransaction(s)
    ensures ConsistentTransaction(Run(s, actions))
    decreases |actions|
  {
    if actions != [] {
      RunKeepsConsistentTransaction(IapReducer(s, actions[0]), actions[1..]);
    }
  }

  /** QUEUE_TASK_ERROR appends exactly one error, so a run of n of them adds exactly n. */
  lemma {:induction false} QueueTaskErrorsAccumulate(s: IapState, errors: seq<Value>)
    ensures Run(s, seq(|errors|, i requires 0 <= i < |errors| => IapAction(QueueTaskError, None, errors[i], None, None)))
      == s.(queueTaskErrors := s.queueTaskErrors + errors)
    decreases |errors|
  {
    var actions := seq(|errors|, i requires 0 <= i < |errors| => IapAction(QueueTaskError, None, errors[i], None, None));
    if errors != [] {
      var s1 := IapReducer(s, actions[0]);
      QueueTaskErrorsAccumulate(s1, errors[1..]);
      assert actions[1..] == seq(|errors[1..]|, i requires 0 <= i < |errors[1..]| => IapAction(QueueTaskError, None, errors[1..][i], None, None));
      assert s.queueTaskErrors + [errors[0]] + errors[1..] == s.queueTaskErrors + errors;
    } else {
      assert s.queueTaskErrors + errors == s.queueTaskErrors;
    }
  }

  /**
   * The IAP `requestBody`: the credentials, then the App Store payment
   * information carrying the receipt as txID, then the payload spread last.
   */
  function RequestBody(e: EvergentApi.Endpoint, appConfig: Option<EvergentApi.ApiConfig>, decrypt: string -> string, receipt: string, payload: Option<Object>): (r: Object)
    ensures var requestKey := EvergentApi.RequestResponseKey(e).0;
      r.Keys == {requestKey} && r[requestKey] == Obj(RequestFields(appConfig, decrypt, receipt, payload))
  {
    map[EvergentApi.RequestResponseKey(e).0 := Obj(RequestFields(appConfig, decrypt, receipt, payload))]
  }

  /** The fields under the request key. */
  function RequestFields(appConfig: Option<EvergentApi.ApiConfig>, decrypt: string -> string, receipt: string, payload: Option<Object>): Object
  {
    var payment := Obj(map["label" := Str("App Store Billing"),
                           "transactionReferenceMsg" := Obj(map["txID" := Str(receipt), "txMsg" := Str("Success")])]);
    var fields := EvergentApi.Credentials(false, appConfig, decrypt)["paymentmethodInfo" := payment];
    if payload.Some? then Spread(fields, payload.value) else fields
  }

  /** The receipt is the txID unless the payload replaces the payment information; payload fields win. */
  lemma RequestBodySpec(e: EvergentApi.Endpoint, appConfig: Option<EvergentApi.ApiConfig>, decrypt: string -> string, receipt: string, payload: Option<Object>)
    ensures var body := RequestBody(e, appConfig, decrypt, receipt, payload)[EvergentApi.RequestResponseKey(e).0].fields;
      (payload.None? || "paymentmethodInfo" !in payload.value ==>
        Prop(Prop(body["paymentmethodInfo"], "transactionReferenceMsg"), "txID") == Str(receipt)) &&
      (payload.Some? ==> forall k :: k in payload.value ==> body[k] == payload.value[k]) &&
      {"apiUser", "apiPassword", "channelPartnerID", "paymentmethodInfo"} <= body.Keys
  {
    RequestFieldsSpec(appConfig, decrypt, receipt, payload);
  }

  /** RequestBodySpec for the fields alone. */
  lemma RequestFieldsSpec(appConfig: Option<EvergentApi.ApiConfig>, decrypt: string -> string, receipt: string, payload: Option<Object>)
    ensures var body := RequestFields(appConfig, decrypt, receipt, payload);
      (payload.None? || "paymentmethodInfo" !in payload.value ==>
        Prop(Prop(body["paymentmethodInfo"], "transactionReferenceMsg"), "txID") == Str(receipt)) &&
      (payload.Some? ==> forall k :: k in payload.value ==> body[k] == payload.value[k]) &&
      {"apiUser", "apiPassword", "channelPartnerID", "paymentmethodInfo"} <= body.Keys
  {
    var credentials := EvergentApi.Credentials(false, appConfig, decrypt);
    assert credentials.Keys == {"apiUser", "apiPassword", "channelPartnerID"};
  }
}
