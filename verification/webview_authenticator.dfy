/** The interactive forward-auth login: a state machine that opens a web view
    on the Gameyfin server, watches page loads until the browser is back on
    the server, then takes the configured session cookie from it. The web
    view itself is an abstract slot; what the browser reports arrives with
    each event. */
module WebviewAuthenticator {
  import opened Wrappers
  import opened Text
  import opened LibrarySettings
  import SettingsViewModel

  /** The open web view dialog; closeRequested records that the
      authenticator has asked the dialog to close. */
  datatype WebView = WebView(closeRequested: bool)

  /** The authenticator's observable properties plus its web view slot. */
  datatype AuthState = AuthState(
    inProgress: bool,
    /** AuthenticateSuccess: None until an attempt ends. */
    success: Option<bool>,
    errorMessage: Option<string>,
    cookieValue: Option<string>,
    view: Option<WebView>)

  /** A freshly constructed authenticator. */
  const Initial := AuthState(false, Option.None, Option.None, Option.None, Option.None)

  /** A cookie as the web view reports it; its value may be null. */
  datatype Cookie = Cookie(name: string, value: Option<string>)

  /** The answer to a query on the web view: a value, or the message of the
      exception the query threw. */
  datatype Query<+T> = Answer(value: T) | Fault(message: string)

  /** How opening the dialog went: it opened, creating the view threw (the
      slot stays empty), or a later step of wiring, navigating or showing it
      threw (the slot already holds the view). */
  datatype OpenOutcome = Opened | CreateFault(message: string) | OpenFault(message: string)

  /** The inputs of the state machine. Each event carries the settings
      object of the view model as it is when the event is handled; it is null
      after a CancelEdit that had no snapshot. */
  datatype Event =
    | StartLogin(settings: Option<Settings>, open: OpenOutcome)
    | LoadingChanged(settings: Option<Settings>, isLoading: bool, address: Query<string>, cookies: Query<seq<Cookie>>)
    | WindowClosed

  const AlreadyOpenMessage := "Another authentication dialog is already open"
  const WrongMethodMessage := "Interactive authentication is only required for ForwardAuth"
  const CookieNameRequiredMessage := "An authentication cookie name is required"
  const EmptyCookieMessage := "Authentication cookie was found but has an empty value"
  /** The message of the NullReferenceException raised by using the empty
      web view slot or a null settings object. */
  const NullReferenceMessage := "Object reference not set to an instance of an object."

  function CookieNotFoundMessage(name: Option<string>): string {
    "Did not find an authentication cookie with name '" + (if name.Some? then name.value else "") + "'"
  }

  /** Asks the view in the slot, if any, to close. */
  function RequestClose(view: Option<WebView>): (r: Option<WebView>)
    ensures r.Some? <==> view.Some?
    ensures r.Some? ==> r.value.closeRequested
  {
    if view.Some? then Some(WebView(true)) else Option.None
  }

  /** HandleAuthFailure: record the message, mark the attempt failed and no
      longer in progress, and ask the view to close. */
  function HandleAuthFailure(s: AuthState, message: string): (r: AuthState)
    ensures r.errorMessage == Some(message) && r.success == Some(false) && !r.inProgress
    ensures r.cookieValue == s.cookieValue
    ensures r.view == RequestClose(s.view)
  {
    s.(errorMessage := Some(message), success := Some(false), inProgress := false, view := RequestClose(s.view))
  }

  /** HandleAuthSuccess: keep the cookie value, mark the attempt successful
      and ask the view to close; in-progress is left as it is. Closing an
      empty slot throws, which the caller turns into a failure. */
  function HandleAuthSuccess(s: AuthState, cookie: string): (r: AuthState)
    ensures s.view.Some? ==>
              && r.cookieValue == Some(cookie) && r.success == Some(true)
              && r.inProgress == s.inProgress && r.errorMessage == s.errorMessage
              && r.view == RequestClose(s.view)
    ensures s.view.None? ==> r == HandleAuthFailure(s.(cookieValue := Some(cookie)), NullReferenceMessage)
  {
    var updated := s.(cookieValue := Some(cookie), success := Some(true));
    if s.view.Some? then updated.(view := RequestClose(s.view))
    else HandleAuthFailure(updated, NullReferenceMessage)
  }

  /** Whether a start request passes every check and gets to open a view. */
  predicate MayOpen(s: AuthState, settings: Option<Settings>) {
    && s.view.None? && settings.Some?
    && settings.value.authMethod == ForwardAuth && !IsNullOrWhiteSpace(settings.value.authCookieName)
  }

  /** StartForwardAuthLogin. The status is reset first; then an open view,
      null settings, a method other than ForwardAuth or a blank cookie name
      each end the attempt as a failure. Otherwise the view is opened. */
  function Start(s: AuthState, settings: Option<Settings>, open: OpenOutcome): (r: AuthState)
    ensures r.inProgress <==> MayOpen(s, settings) && open.Opened?
    ensures r.inProgress ==> r.success.None? && r.errorMessage.None? && r.view == Some(WebView(false))
    ensures !r.inProgress ==> r.success == Some(false)
    ensures s.view.Some? ==> r.errorMessage == Some(AlreadyOpenMessage) && r.view == Some(WebView(true))
    ensures s.view.None? && !MayOpen(s, settings) ==> r.view.None?
    ensures s.view.None? && settings.None? ==> r.errorMessage == Some(NullReferenceMessage)
    ensures (s.view.None? && settings.Some? && settings.value.authMethod != ForwardAuth)
              ==> r.errorMessage == Some(WrongMethodMessage)
    ensures (&& s.view.None? && settings.Some? && settings.value.authMethod == ForwardAuth
             && IsNullOrWhiteSpace(settings.value.authCookieName))
              ==> r.errorMessage == Some(CookieNameRequiredMessage)
    ensures MayOpen(s, settings) && open.CreateFault? ==> r.errorMessage == Some(open.message) && r.view.None?
    ensures MayOpen(s, settings) && open.OpenFault? ==> r.errorMessage == Some(open.message) && r.view == Some(WebView(true))
    ensures r.cookieValue == s.cookieValue
  {
    var reset := s.(inProgress := true, success := Option.None, errorMessage := Option.None);
    if reset.view.Some? then HandleAuthFailure(reset, AlreadyOpenMessage)
    else if settings.None? then HandleAuthFailure(reset, NullReferenceMessage)
    else if settings.value.authMethod != ForwardAuth then HandleAuthFailure(reset, WrongMethodMessage)
    else if IsNullOrWhiteSpace(settings.value.authCookieName) then HandleAuthFailure(reset, CookieNameRequiredMessage)
    else
      match open
      case Opened => reset.(view := Some(WebView(false)))
      case CreateFault(message) => HandleAuthFailure(reset, message)
      case OpenFault(message) => HandleAuthFailure(reset.(view := Some(WebView(false))), message)
  }

  /** FirstOrDefault over the cookies: the first one whose name equals the
      configured name; a null name matches nothing. */
  function FirstCookieNamed(cookies: seq<Cookie>, name: Option<string>): (r: Option<Cookie>)
    ensures r.Some? ==> r.value in cookies && name == Some(r.value.name)
    ensures r.None? <==> forall c :: c in cookies ==> name != Some(c.name)
    ensures r.Some? ==> exists i :: 0 <= i < |cookies| && cookies[i] == r.value
                                    && forall j :: 0 <= j < i ==> name != Some(cookies[j].name)
  {
    if |cookies| == 0 then Option.None
    else if name == Some(cookies[0].name) then Some(cookies[0])
    else
      var r := FirstCookieNamed(cookies[1..], name);
      assert r.Some? ==> cookies[1..][0] == cookies[1];
      r
  }

  /** A finished page load on the server, handled while the view and the
      settings are both there. */
  predicate OnServer(s: AuthState, settings: Option<Settings>, isLoading: bool, address: Query<string>) {
    && !isLoading && s.view.Some? && settings.Some?
    && address.Answer? && StartsWith(address.value, settings.value.gameyfinUrl)
  }

  /** The deferred LoadingChanged handler. A page that is still loading, or
      that is not on the server yet, changes nothing. On the server the
      configured cookie is looked up: missing or blank is a failure, anything
      else a success. A query that throws is a failure with its message; so
      is a handler that finds the settings null or runs after the view was
      disposed. */
  function Load(s: AuthState, settings: Option<Settings>, isLoading: bool, address: Query<string>,
                cookies: Query<seq<Cookie>>)
    : (r: AuthState)
    ensures isLoading ==> r == s
    ensures !isLoading && (settings.None? || s.view.None?) ==> r == HandleAuthFailure(s, NullReferenceMessage)
    ensures !isLoading && settings.Some? && s.view.Some? && address.Fault? ==> r == HandleAuthFailure(s, address.message)
    ensures (&& settings.Some? && s.view.Some? && address.Answer?
             && !StartsWith(address.value, settings.value.gameyfinUrl)) ==> r == s
    ensures OnServer(s, settings, isLoading, address) && cookies.Fault? ==> r == HandleAuthFailure(s, cookies.message)
    ensures OnServer(s, settings, isLoading, address) && cookies.Answer? ==>
              var name := settings.value.authCookieName;
              var found := FirstCookieNamed(cookies.value, name);
              && (found.None? ==> r == HandleAuthFailure(s, CookieNotFoundMessage(name)))
              && (found.Some? && IsNullOrWhiteSpace(found.value.value) ==> r == HandleAuthFailure(s, EmptyCookieMessage))
              && (found.Some? && !IsNullOrWhiteSpace(found.value.value) ==>
                    && r.success == Some(true) && r.cookieValue == found.value.value
                    && r.inProgress == s.inProgress && r.errorMessage == s.errorMessage
                    && r.view == RequestClose(s.view))
    ensures r != s ==> r.view == RequestClose(s.view)
    ensures r.success == Some(true) && r != s ==>
              && r.cookieValue.Some? && !IsNullOrWhiteSpace(r.cookieValue)
              && r.inProgress == s.inProgress
  {
    if isLoading then s
    else if settings.None? || s.view.None? then HandleAuthFailure(s, NullReferenceMessage)
    else
      match address
      case Fault(message) => HandleAuthFailure(s, message)
      case Answer(current) =>
        if !StartsWith(current, settings.value.gameyfinUrl) then s
        else
          match cookies
          case Fault(message) => HandleAuthFailure(s, message)
          case Answer(jar) =>
            match FirstCookieNamed(jar, settings.value.authCookieName)
            case None => HandleAuthFailure(s, CookieNotFoundMessage(settings.value.authCookieName))
            case Some(cookie) =>
              if IsNullOrWhiteSpace(cookie.value) then HandleAuthFailure(s, EmptyCookieMessage)
              else HandleAuthSuccess(s, cookie.value.value)
  }

  /** DisposeWebView, run when the dialog window closes: never in progress
      afterwards, and the slot is empty. */
  function Dispose(s: AuthState): (r: AuthState)
    ensures !r.inProgress && r.view.None?
    ensures r.success == s.success && r.errorMessage == s.errorMessage && r.cookieValue == s.cookieValue
  {
    s.(inProgress := false, view := Option.None)
  }

  /** Disposing twice is the same as disposing once. */
  lemma DisposeIdempotent(s: AuthState)
    ensures Dispose(Dispose(s)) == Dispose(s)
  {
  }

  function Step(s: AuthState, e: Event): AuthState {
    match e
    case StartLogin(settings, open) => Start(s, settings, open)
    case LoadingChanged(settings, isLoading, address, cookies) => Load(s, settings, isLoading, address, cookies)
    case WindowClosed => Dispose(s)
  }

  function Run(s: AuthState, events: seq<Event>): AuthState
    decreases |events|
  {
    if |events| == 0 then s else Run(Step(s, events[0]), events[1..])
  }

  /** The state invariant the authenticator keeps:
      - a view nobody asked to close belongs to an attempt in progress with
        no outcome yet;
      - a success always holds a non-blank cookie value;
      - a failure always has a message, and no outcome means no message. */
  ghost predicate Valid(s: AuthState) {
    && (s.view.Some? && !s.view.value.closeRequested ==> s.inProgress && s.success.None?)
    && (s.success == Some(true) ==> !IsNullOrWhiteSpace(s.cookieValue))
    && (s.success == Some(false) ==> s.errorMessage.Some?)
    && (s.success.None? ==> s.errorMessage.None?)
  }

  lemma StepKeepsValid(s: AuthState, e: Event)
    requires Valid(s)
    ensures Valid(Step(s, e))
  {
    match e
    case StartLogin(settings, open) =>
    case LoadingChanged(settings, isLoading, address, cookies) =>
      var r := Load(s, settings, isLoading, address, cookies);
      if r.success == Some(true) && r != s {
        assert !IsNullOrWhiteSpace(r.cookieValue);
      }
    case WindowClosed =>
  }

  /** Every state reachable from a valid one by any events is valid; the
      fresh authenticator is valid. */
  lemma {:induction false} RunKeepsValid(s: AuthState, events: seq<Event>)
    requires Valid(s)
    ensures Valid(Run(s, events))
    ensures Valid(Initial)
    decreases |events|
  {
    if |events| > 0 {
      StepKeepsValid(s, events[0]);
      RunKeepsValid(Step(s, events[0]), events[1..]);
    }
  }

  /** A load event the authenticator does not act on: the page is still
      loading, or the browser is not on the server. */
  predicate Ignored(s: AuthState, e: Event) {
    && e.LoadingChanged?
    && (|| e.isLoading
        || (&& s.view.Some? && e.settings.Some? && e.address.Answer?
            && !StartsWith(e.address.value, e.settings.value.gameyfinUrl)))
  }

  /** While the user is still in the login redirect chain nothing changes: an
      attempt in progress stays in progress for as long as no page on the
      server has loaded. */
  lemma {:induction false} RedirectChainLeavesStateAlone(s: AuthState, events: seq<Event>)
    requires forall i :: 0 <= i < |events| ==> Ignored(s, events[i])
    ensures Run(s, events) == s
    decreases |events|
  {
    if |events| > 0 {
      assert Step(s, events[0]) == s;
      var rest := events[1..];
      forall i | 0 <= i < |rest|
        ensures Ignored(s, rest[i])
      {
        assert rest[i] == events[i + 1];
      }
      RedirectChainLeavesStateAlone(s, rest);
    }
  }

  /** Settings that allow a forward-auth login with cookie "sess" on a
      server at url. */
  function SessionSettings(url: string): Option<Settings> {
    Some(Settings(url, [], ForwardAuth, Some("sess"), Option.None))
  }

  /** The three cookie outcomes on the target page, from a freshly opened
      login: a missing cookie and an empty one fail with messages saying so,
      a non-blank one succeeds with its value while the attempt stays in
      progress until the window closes. */
  lemma CookieOutcomes(url: string)
    ensures var open := Start(Initial, SessionSettings(url), Opened);
            var missing := Load(open, SessionSettings(url), false, Answer(url), Answer([]));
            && missing.success == Some(false)
            && missing.errorMessage == Some("Did not find an authentication cookie with name 'sess'")
    ensures var open := Start(Initial, SessionSettings(url), Opened);
            var empty := Load(open, SessionSettings(url), false, Answer(url), Answer([Cookie("sess", Some(""))]));
            empty.success == Some(false) && empty.errorMessage == Some(EmptyCookieMessage)
    ensures var open := Start(Initial, SessionSettings(url), Opened);
            var good := Load(open, SessionSettings(url), false, Answer(url + "/home"),
                             Answer([Cookie("other", Some("x")), Cookie("sess", Some("abc123"))]));
            && good.success == Some(true) && good.cookieValue == Some("abc123")
            && good.inProgress && good.view == Some(WebView(true))
            && !Dispose(good).inProgress && Dispose(good).success == Some(true)
  {
    var s := SessionSettings(url);
    assert StartsWith(url, url) by { assert url[..|url|] == url; }
    assert StartsWith(url + "/home", url) by { assert (url + "/home")[..|url|] == url; }
    assert !IsNullOrWhiteSpace(s.value.authCookieName) by { assert !IsWhiteSpace("sess"[0]); }
    assert IsNullOrWhiteSpace(Some(""));
    assert !IsNullOrWhiteSpace(Some("abc123")) by { assert !IsWhiteSpace("abc123"[0]); }
    assert CookieNotFoundMessage(s.value.authCookieName) == "Did not find an authentication cookie with name 'sess'";
  }

  /** Fresh settings do not use forward auth, so a login attempt fails at
      once without opening a view. */
  lemma DefaultSettingsRefuseLogin(open: OpenOutcome)
    ensures Start(Initial, Some(Default), open).success == Some(false)
    ensures Start(Initial, Some(Default), open).errorMessage == Some(WrongMethodMessage)
    ensures Start(Initial, Some(Default), open).view.None?
  {
  }

  /** Starting while a dialog is open fails and asks that dialog to close;
      once it has closed, the whole attempt is over. */
  lemma SecondStartClosesFirst(s: AuthState, settings: Option<Settings>, open: OpenOutcome)
    requires s.view.Some?
    ensures Start(s, settings, open).view == Some(WebView(true))
    ensures !Dispose(Start(s, settings, open)).inProgress
    ensures Dispose(Start(s, settings, open)).errorMessage == Some(AlreadyOpenMessage)
  {
  }

  /** Load events are not ignored after the outcome is known: a page that
      loads on the server before the dialog has closed is evaluated again,
      and can turn a success into a failure. */
  lemma LateLoadOverturnsSuccess(url: string)
    ensures var settings := SessionSettings(url);
            var open := Start(Initial, settings, Opened);
            var won := Load(open, settings, false, Answer(url), Answer([Cookie("sess", Some("abc123"))]));
            var lost := Load(won, settings, false, Answer(url), Answer([]));
            won.success == Some(true) && lost.success == Some(false) && !lost.inProgress
  {
    CookieOutcomes(url);
    assert StartsWith(url, url) by { assert url[..|url|] == url; }
  }

  /** A CancelEdit with no earlier BeginEdit leaves the view model's settings
      null; a login started afterwards fails with a NullReferenceException
      and opens no view, and a page load handled afterwards fails the same
      way, even in a dialog that opened while the settings were still
      there. */
  lemma NullSettingsBreakLogin(loaded: Option<Settings>, s: AuthState, open: OpenOutcome, url: string,
                               address: Query<string>, cookies: Query<seq<Cookie>>)
    requires s.view.None?
    ensures var settings := SettingsViewModel.CancelEdit(SettingsViewModel.Create(loaded)).settings;
            && Start(s, settings, open).errorMessage == Some(NullReferenceMessage)
            && Start(s, settings, open).view.None?
            && Load(s, settings, false, address, cookies).errorMessage == Some(NullReferenceMessage)
    ensures var settings := SettingsViewModel.CancelEdit(SettingsViewModel.Create(loaded)).settings;
            var shown := Start(Initial, SessionSettings(url), Opened);
            && shown.view == Some(WebView(false))
            && Load(shown, settings, false, address, cookies).errorMessage == Some(NullReferenceMessage)
            && Load(shown, settings, false, address, cookies).view == Some(WebView(true))
  {
    assert !IsNullOrWhiteSpace(SessionSettings(url).value.authCookieName) by { assert !IsWhiteSpace("sess"[0]); }
  }
}
