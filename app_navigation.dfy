/**
 * The app's navigation state machine (utils/AppContextProvider.tsx): a
 * reducer over navigation actions and the startup decision
 * `manageAppContext`, which picks the action to dispatch from the network
 * status, the splash screen, offline downloads and the user's login state.
 */
module AppNavigation {
  import opened Wrappers
  import Js
  import Auth

  datatype NavigationState = INIT | AUTH | PURCHASE_SUBSCRIPTION | BROWSE_APP | OFFLINE | PREVIEW_APP | FORCE_UPDATE | REGION_LOCK

  /** The string the app uses for each navigation state. */
  function NavigationName(n: NavigationState): (r: string)
    ensures r != "APP_PREVIEW"
  {
    match n
    case INIT => "INIT"
    case AUTH => "AUTH"
    case PURCHASE_SUBSCRIPTION => "PURCHASE_SUBSCRIPTION"
    case BROWSE_APP => "BROWSE_APP"
    case OFFLINE => "OFFLINE"
    case PREVIEW_APP => "PREVIEW_APP"
    case FORCE_UPDATE => "FORCE_UPDATE"
    case REGION_LOCK => "REGION_LOCK"
  }

  lemma NavigationNameInjective(a: NavigationState, b: NavigationState)
    ensures NavigationName(a) == NavigationName(b) <==> a == b
  {
  }

  /** `accessToken` is absent from the initial state and added by LOGGED_IN and SUBSCRIBED. */
  datatype AppState = AppState(appNavigationState: NavigationState, routeToDownloads: bool, signedUpInSession: bool, accessToken: Js.Value)

  const InitialState: AppState := AppState(INIT, false, false, Js.Undefined)

  datatype AppAction =
    | InitAction
    | NotLoggedIn
    | LoggedIn(loggedInToken: Js.Value)
    | Subscribed(subscribedToken: Js.Value, toDownloads: bool)
    | GoOffline
    | PreviewApp
    | ForceUpdate
    | RegionLock
    | OtherAction(name: string)

  /**
   * The navigation reducer. `signedUpInSession` is the auth context's flag,
   * read when LOGGED_IN arrives. The reducer has no default case, so an
   * unknown action yields undefined.
   */
  function AppReducer(s: AppState, a: AppAction, signedUpInSession: bool): (r: Option<AppState>)
    ensures r.None? <==> a.OtherAction?
    ensures a.InitAction? ==> r == Some(s.(appNavigationState := INIT))
    ensures a.NotLoggedIn? ==> r == Some(s.(appNavigationState := AUTH))
    ensures a.LoggedIn? ==> r == Some(s.(appNavigationState := PURCHASE_SUBSCRIPTION, accessToken := a.loggedInToken,
                                          signedUpInSession := signedUpInSession))
    ensures a.Subscribed? ==> r == Some(s.(appNavigationState := BROWSE_APP, accessToken := a.subscribedToken,
                                            routeToDownloads := a.toDownloads))
    ensures a.GoOffline? ==> r == Some(s.(appNavigationState := OFFLINE))
    ensures a.PreviewApp? ==> r == Some(s.(appNavigationState := PREVIEW_APP))
    ensures a.ForceUpdate? ==> r == Some(s.(appNavigationState := FORCE_UPDATE))
    ensures a.RegionLock? ==> r == Some(s.(appNavigationState := REGION_LOCK))
  {
    match a
    case InitAction => Some(s.(appNavigationState := INIT))
    case NotLoggedIn => Some(s.(appNavigationState := AUTH))
    case LoggedIn(t) => Some(s.(appNavigationState := PURCHASE_SUBSCRIPTION, accessToken := t, signedUpInSession := signedUpInSession))
    case Subscribed(t, d) => Some(s.(appNavigationState := BROWSE_APP, accessToken := t, routeToDownloads := d))
    case GoOffline => Some(s.(appNavigationState := OFFLINE))
    case PreviewApp => Some(s.(appNavigationState := PREVIEW_APP))
    case ForceUpdate => Some(s.(appNavigationState := FORCE_UPDATE))
    case RegionLock => Some(s.(appNavigationState := REGION_LOCK))
    case OtherAction(_) => None
  }

  /** `dispatch({ type: userType, ... })` for a user type other than INIT. */
  function UserTypeAction(u: Auth.UserType, accessToken: Js.Value): (r: AppAction)
    requires u != Auth.INIT
  {
    match u
    case NOT_LOGGED_IN => NotLoggedIn
    case LOGGED_IN => LoggedIn(accessToken)
    case SUBSCRIBED => Subscribed(accessToken, false)
  }

  /** Each user type leads to its own screen: AUTH, PURCHASE_SUBSCRIPTION or BROWSE_APP. */
  lemma UserTypeRoutes(s: AppState, u: Auth.UserType, accessToken: Js.Value, signedUpInSession: bool)
    requires u != Auth.INIT
    ensures AppReducer(s, UserTypeAction(u, accessToken), signedUpInSession).Some?
    ensures u == Auth.NOT_LOGGED_IN ==> AppReducer(s, UserTypeAction(u, accessToken), signedUpInSession).value.appNavigationState == AUTH
    ensures u == Auth.LOGGED_IN ==> AppReducer(s, UserTypeAction(u, accessToken), signedUpInSession).value.appNavigationState == PURCHASE_SUBSCRIPTION
    ensures u == Auth.SUBSCRIBED ==> AppReducer(s, UserTypeAction(u, accessToken), signedUpInSession).value.appNavigationState == BROWSE_APP
    ensures u == Auth.SUBSCRIBED ==> !AppReducer(s, UserTypeAction(u, accessToken), signedUpInSession).value.routeToDownloads
  {
  }

  /**
   * What `manageAppContext` reads. `hasOfflineDownloads` is the outcome of
   * asking the download manager (false when that call throws); it is only
   * consulted off TV.
   */
  datatype StartupInputs = StartupInputs(
    hasAppConfig: bool,
    networkType: string,
    splashLoaded: bool,
    isInternetReachable: Js.Value,
    isTV: bool,
    hasOfflineDownloads: bool,
    userType: Auth.UserType,
    accessToken: Js.Value)

  /** `isInternetReachable === false`: null (not yet known) does not count as offline. */
  predicate KnownOffline(i: StartupInputs)
  {
    i.isInternetReachable == Js.Bool(false)
  }

  /**
   * The decision of `manageAppContext`, with the name it compares the
   * current state against to recognise the preview mode as a parameter:
   * None when nothing is dispatched.
   */
  function DecideNavigation(previewName: string, s: AppState, i: StartupInputs): (r: Option<AppAction>)
  {
    if !i.hasAppConfig then None
    else if i.networkType == "unknown" || !i.splashLoaded then None
    else if KnownOffline(i) && (NavigationName(s.appNavigationState) == "BROWSE_APP" || NavigationName(s.appNavigationState) == previewName) then None
    else if !i.isTV && KnownOffline(i) && !i.hasOfflineDownloads then Some(GoOffline)
    else if !i.isTV && KnownOffline(i) && i.hasOfflineDownloads then Some(Subscribed(i.accessToken, true))
    else if i.userType != Auth.INIT then Some(UserTypeAction(i.userType, i.accessToken))
    else None
  }

  /** `manageAppContext` as written: it recognises the preview mode by the name 'APP_PREVIEW', which no state has. */
  function ManageAppContextAsWritten(s: AppState, i: StartupInputs): (r: Option<AppAction>)
    ensures s.appNavigationState != PREVIEW_APP ==> r == ManageAppContext(s, i)
  {
    DecideNavigation("APP_PREVIEW", s, i)
  }

  /** Going offline in the preview mode: the code as written leaves it for the offline screen. */
  lemma PreviewLeftWhenOfflineAsWritten()
    ensures ManageAppContextAsWritten(InitialState.(appNavigationState := PREVIEW_APP),
              StartupInputs(true, "wifi", true, Js.Bool(false), false, false, Auth.NOT_LOGGED_IN, Js.Undefined)) == Some(GoOffline)
  {
  }

  /**
   * `manageAppContext` with the preview mode recognised as PREVIEW_APP: the
   * offline guard's second operand names a preview state, and PREVIEW_APP is
   * the only one any action sets.
   */
  function ManageAppContext(s: AppState, i: StartupInputs): (r: Option<AppAction>)
    ensures !i.hasAppConfig || i.networkType == "unknown" || !i.splashLoaded ==> r.None?
    ensures r.Some? ==> !r.value.OtherAction? && !r.value.InitAction?
  {
    DecideNavigation(NavigationName(PREVIEW_APP), s, i)
  }

  /** Losing the network while browsing or previewing keeps the current screen. */
  lemma BrowsingSurvivesGoingOffline(s: AppState, i: StartupInputs)
    requires KnownOffline(i)
    requires s.appNavigationState == BROWSE_APP || s.appNavigationState == PREVIEW_APP
    ensures ManageAppContext(s, i).None?
  {
  }

  /** Off TV, going offline elsewhere leads to the offline screen, or to the downloads when there are any. */
  lemma OfflineRouting(s: AppState, i: StartupInputs)
    requires i.hasAppConfig && i.networkType != "unknown" && i.splashLoaded
    requires !i.isTV && KnownOffline(i)
    requires s.appNavigationState != BROWSE_APP && s.appNavigationState != PREVIEW_APP
    ensures !i.hasOfflineDownloads ==> ManageAppContext(s, i) == Some(GoOffline)
    ensures i.hasOfflineDownloads ==> ManageAppContext(s, i) == Some(Subscribed(i.accessToken, true))
  {
    assert NavigationName(s.appNavigationState) != "BROWSE_APP" && NavigationName(s.appNavigationState) != "PREVIEW_APP" by {
      NavigationNameInjective(s.appNavigationState, BROWSE_APP);
      NavigationNameInjective(s.appNavigationState, PREVIEW_APP);
    }
  }

  /** Online (or on TV, or with reachability unknown), the user's login state alone decides, and INIT dispatches nothing. */
  lemma OnlineRouting(s: AppState, i: StartupInputs)
    requires i.hasAppConfig && i.networkType != "unknown" && i.splashLoaded
    requires !KnownOffline(i)
    ensures i.userType == Auth.INIT ==> ManageAppContext(s, i).None?
    ensures i.userType != Auth.INIT ==> ManageAppContext(s, i) == Some(UserTypeAction(i.userType, i.accessToken))
  {
  }
}
