/**
 * The credit wallet context (src/utils/CreditsContextProvider.tsx): the
 * user's credit balance, fetched from the backend and refreshed on an
 * interval that playback can pause.
 */
module Credits {
  import opened Wrappers
  import opened Js
  import EvergentApi

  datatype IntervalState = Active | Paused

  /** The reducer state; `credits` is a number or null. */
  datatype CreditsState = CreditsState(loading: bool, credits: Value, refreshIntervalState: IntervalState)

  const InitialState: CreditsState := CreditsState(true, Num(0), Active)

  datatype CreditsAction = UpdateCredits(newCredits: Value) | PauseRefresh | ResumeRefresh | OtherAction(name: string)

  /** The context's reducer: every known action clears `loading`; unknown ones change nothing. */
  function CreditsReducer(s: CreditsState, a: CreditsAction): (r: CreditsState)
    ensures a.UpdateCredits? ==> r == CreditsState(false, a.newCredits, s.refreshIntervalState)
    ensures a.PauseRefresh? ==> r == CreditsState(false, s.credits, Paused)
    ensures a.ResumeRefresh? ==> r == CreditsState(false, s.credits, Active)
    ensures a.OtherAction? ==> r == s
  {
    match a
    case UpdateCredits(c) => s.(loading := false, credits := c)
    case PauseRefresh => s.(loading := false, refreshIntervalState := Paused)
    case ResumeRefresh => s.(loading := false, refreshIntervalState := Active)
    case OtherAction(_) => s
  }

  /**
   * `value >= 0` in JavaScript for the values the wallet can answer with:
   * null and booleans convert to 0 or 1, undefined to NaN. Strings, arrays and
   * objects are not converted here and count as not comparable.
   */
  predicate AtLeastZero(v: Value)
  {
    match v
    case Num(n) => n >= 0
    case Null => true
    case Bool(_) => true
    case _ => false
  }

  /** What the fetch needs; any missing piece makes it return at once. */
  datatype FetchContext = FetchContext(hasQuery: bool, hasAppConfig: bool, hasAccessToken: bool)

  /**
   * `fetchCredits` for the wallet's answer `payload`: the action it
   * dispatches, if any. Only a successful answer whose `accountCreditPoints`
   * is at least zero updates the credits.
   */
  function FetchCredits(ctx: FetchContext, payload: Option<Object>): (r: Option<CreditsAction>)
    ensures !(ctx.hasQuery && ctx.hasAppConfig && ctx.hasAccessToken) ==> r.None?
    ensures !EvergentApi.IsSuccess(EvergentApi.CreditsEndpoint, payload) ==> r.None?
    ensures r.Some? ==> (r.value.UpdateCredits? && AtLeastZero(r.value.newCredits) &&
                         r.value.newCredits == Prop(EvergentApi.ResponsePayload(EvergentApi.CreditsEndpoint, payload), "accountCreditPoints"))
  {
    if !ctx.hasQuery || !ctx.hasAppConfig || !ctx.hasAccessToken then None
    else if EvergentApi.IsSuccess(EvergentApi.CreditsEndpoint, payload) then
      var points := Prop(EvergentApi.ResponsePayload(EvergentApi.CreditsEndpoint, payload), "accountCreditPoints");
      if AtLeastZero(points) then Some(UpdateCredits(points)) else None
    else None
  }

  /** A successful answer with a non-negative number is stored. */
  lemma FetchStoresNonNegative(ctx: FetchContext, payload: Option<Object>, n: int)
    requires ctx.hasQuery && ctx.hasAppConfig && ctx.hasAccessToken
    requires EvergentApi.IsSuccess(EvergentApi.CreditsEndpoint, payload)
    requires Prop(EvergentApi.ResponsePayload(EvergentApi.CreditsEndpoint, payload), "accountCreditPoints") == Num(n)
    ensures n >= 0 ==> FetchCredits(ctx, payload) == Some(UpdateCredits(Num(n)))
    ensures n < 0 ==> FetchCredits(ctx, payload).None?
  {
  }

  /** What can happen to the context: a fetch with the wallet's answer, or playback pausing or resuming the refresh. */
  datatype CreditsEvent = Fetch(ctx: FetchContext, payload: Option<Object>) | Pause | Resume

  function Step(s: CreditsState, e: CreditsEvent): CreditsState
  {
    match e
    case Fetch(ctx, payload) =>
      var a := FetchCredits(ctx, payload);
      if a.Some? then CreditsReducer(s, a.value) else s
    case Pause => CreditsReducer(s, PauseRefresh)
    case Resume => CreditsReducer(s, ResumeRefresh)
  }

  function Run(s: CreditsState, events: seq<CreditsEvent>): CreditsState
    decreases |events|
  {
    if |events| == 0 then s else Run(Step(s, events[0]), events[1..])
  }

  /** The stored balance is never a negative number (it is a non-negative number, null or a boolean). */
  predicate NonNegativeCredits(s: CreditsState)
  {
    AtLeastZero(s.credits)
  }

  /** Starting from the initial balance of 0, no sequence of fetches and pauses stores a negative balance. */
  lemma {:induction false} RunKeepsCreditsNonNegative(s: CreditsState, events: seq<CreditsEvent>)
    requires NonNegativeCredits(s)
    ensures NonNegativeCredits(Run(s, events))
    decreases |events|
  {
    if |events| > 0 {
      var e := events[0];
      if e.Fetch? {
        var a := FetchCredits(e.ctx, e.payload);
        assert a.Some? ==> AtLeastZero(a.value.newCredits);
      }
      RunKeepsCreditsNonNegative(Step(s, e), events[1..]);
    }
  }

  /** `useCreditsRefresh`: the interval keeps running unless the state says paused, in which case it is cleared. */
  predicate RefreshIntervalRunning(s: CreditsState)
  {
    s.refreshIntervalState == Active
  }

  /** Pausing stops the refresh and resuming restarts it; a fetch leaves it as it was. */
  lemma RefreshFollowsPauseAndResume(s: CreditsState, ctx: FetchContext, payload: Option<Object>)
    ensures !RefreshIntervalRunning(Step(s, Pause))
    ensures RefreshIntervalRunning(Step(s, Resume))
    ensures RefreshIntervalRunning(Step(s, Fetch(ctx, payload))) == RefreshIntervalRunning(s)
  {
  }

  const DefaultRefreshIntervalMs: int := 30 * 1000

  /** The configured credits refresh interval; a missing or zero setting means 30 seconds. */
  function CreditsRefreshInterval(configuredMs: Option<int>): (r: int)
    ensures r != 0
    ensures configuredMs.Some? && configuredMs.value != 0 ==> r == configuredMs.value
    ensures (configuredMs.None? || configuredMs.value == 0) ==> r == DefaultRefreshIntervalMs
  {
    if configuredMs.Some? && configuredMs.value != 0 then configuredMs.value else DefaultRefreshIntervalMs
  }
}
