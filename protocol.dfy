/** The wire between the backend and the three front ends: how each action's
    result reaches an Angular `HttpClient` call and the hub's `fetch`, and what
    that makes the clients believe about the shared session. */
module Protocol {
  import opened Common
  import opened Models
  import opened Codec
  import opened SessionExtensions
  import opened SessionClient
  import AuthenticationController
  import SessionController
  import HubPage

  type LoginResult = AuthenticationController.LoginResult
  type LoginResponse = AuthenticationController.LoginResponse
  type CurrentUserResult = SessionController.CurrentUserResult

  const BadRequest: int := 400
  const ServerError: int := 500

  /** The bodies the framework writes that this model does not spell out: the
      validation problem document of a 400 and the error page of a 500. */
  datatype FrameworkPages = FrameworkPages(validation: string, failure: string)

  const MessagePrefix: string := "{\"message\":"
  const UserPrefix: string := "{\"user\":"
  const MessageSeparator: string := ",\"message\":"

  /** The `{ message }` body of a 401: a one-property JSON object whose
      `message` reads back as the given text. */
  function MessageBody(message: string): (t: string)
    ensures Expect(MessagePrefix, t).Some?
    ensures ReadString(Expect(MessagePrefix, t).value) == Some((message, Close))
  {
    var rest := Quote(message) + Close;
    ExpectPrefix(MessagePrefix, rest);
    ReadStringQuote(message, Close);
    MessagePrefix + rest
  }

  /** A `{ user, message }` object around an already serialized user. */
  function Envelope(user: string, message: string): (t: string)
    ensures |UserPrefix| + |user| <= |t|
    ensures t[..|UserPrefix|] == UserPrefix
    ensures t[|UserPrefix|..|UserPrefix| + |user|] == user
    ensures var after := t[|UserPrefix| + |user|..];
      Expect(MessageSeparator, after).Some? && ReadString(Expect(MessageSeparator, after).value) == Some((message, Close))
  {
    var rest := Quote(message) + Close;
    ThreeParts(UserPrefix, user, MessageSeparator + rest);
    ExpectPrefix(MessageSeparator, rest);
    ReadStringQuote(message, Close);
    UserPrefix + (user + (MessageSeparator + rest))
  }

  /** The body of a successful login: the `user` property holds the record's
      serialization, which reads back as the record, and the `message` property
      reads back as the message. */
  function LoginBody(response: LoginResponse): (t: string)
    ensures |UserPrefix| + |Encode(response.user)| <= |t|
    ensures t[..|UserPrefix|] == UserPrefix
    ensures Decode(t[|UserPrefix|..|UserPrefix| + |Encode(response.user)|]) == Decoded(Some(response.user))
    ensures var after := t[|UserPrefix| + |Encode(response.user)|..];
      Expect(MessageSeparator, after).Some? && ReadString(Expect(MessageSeparator, after).value) == Some((response.message, Close))
  {
    DecodeEncode(response.user);
    Envelope(Encode(response.user), response.message)
  }

  /** The three parts of a concatenation can be sliced back out of it. */
  lemma ThreeParts(a: string, b: string, c: string)
    ensures (a + (b + c))[..|a|] == a
    ensures (a + (b + c))[|a|..|a| + |b|] == b
    ensures (a + (b + c))[|a| + |b|..] == c
  {
  }

  /** `GET /session/me` as an Angular client receives it. */
  function MeOverHttp(r: CurrentUserResult, pages: FrameworkPages): (o: HttpOutcome<SessionUser>)
    ensures o.Ok? <==> r.CurrentUser?
    ensures o.Ok? ==> o.body == r.user
    ensures o.Err? && o.status == Unauthorized <==> r.NoActiveSession?
  {
    match r
    case CurrentUser(u) => Ok(u)
    case NoActiveSession(m) => Err(Unauthorized, MessageBody(m))
    case Unhandled(_) => Err(ServerError, pages.failure)
  }

  /** `GET /session/me` as the hub's `fetch` receives it. An error body is never
      read as JSON, so its `json` is left unparsable. */
  function MeOverFetch(r: CurrentUserResult, pages: FrameworkPages): (o: HubPage.FetchOutcome<SessionUser>)
    ensures o.Response?
    ensures HubPage.IsOk(o.status) <==> r.CurrentUser?
    ensures o.status == Unauthorized <==> r.NoActiveSession?
    ensures r.CurrentUser? ==> o.text == Encode(r.user) && o.json == HubPage.Parsed(r.user)
  {
    match r
    case CurrentUser(u) => HubPage.Response(200, Encode(u), HubPage.Parsed(u))
    case NoActiveSession(m) => HubPage.Response(Unauthorized, MessageBody(m), HubPage.Unparsable(""))
    case Unhandled(_) => HubPage.Response(ServerError, pages.failure, HubPage.Unparsable(""))
  }

  /** A login action as an Angular client receives it. */
  function LoginOverHttp(r: LoginResult, pages: FrameworkPages): (o: HttpOutcome<LoginResponse>)
    ensures o.Ok? <==> r.LoginOk?
    ensures o.Ok? ==> o.body == r.response
    ensures r.Unauthorized? ==> o == Err(Unauthorized, MessageBody(r.message))
    ensures r.ValidationProblem? ==> o == Err(BadRequest, pages.validation)
  {
    match r
    case LoginOk(response) => Ok(response)
    case Unauthorized(m) => Err(Unauthorized, MessageBody(m))
    case ValidationProblem => Err(BadRequest, pages.validation)
  }

  /** A login action as the hub's `fetch` receives it. */
  function LoginOverFetch(r: LoginResult, pages: FrameworkPages): (o: HubPage.FetchOutcome<LoginResponse>)
    ensures o.Response?
    ensures HubPage.IsOk(o.status) <==> r.LoginOk?
    ensures r.LoginOk? ==> o.json == HubPage.Parsed(r.response)
    ensures o.status == Unauthorized <==> r.Unauthorized?
    ensures r.ValidationProblem? ==> o.status == BadRequest && o.text == pages.validation
  {
    match r
    case LoginOk(response) => HubPage.Response(200, LoginBody(response), HubPage.Parsed(response))
    case Unauthorized(m) => HubPage.Response(Unauthorized, MessageBody(m), HubPage.Unparsable(""))
    case ValidationProblem => HubPage.Response(BadRequest, pages.validation, HubPage.Unparsable(""))
  }

  // ----- what the clients come to believe -----

  /** A portal's refresh caches exactly the user the backend's session holds, or
      null when it holds none; a corrupt session entry surfaces as a thrown 500
      rather than as "no session". */
  lemma {:induction false} RefreshMirrorsBackend(entries: map<string, string>, pages: FrameworkPages)
    ensures var seen := Refreshed(MeOverHttp(SessionController.CurrentUserResponse(entries), pages));
      && (StoredUser(entries).Decoded? ==> seen == Returned(StoredUser(entries).user))
      && (StoredUser(entries).Raised? ==> seen == Threw(HttpErrorResponse(ServerError, pages.failure)))
  {
    var r := SessionController.CurrentUserResponse(entries);
    match StoredUser(entries)
    case Raised(e) =>
      assert r == SessionController.Unhandled(e);
    case Decoded(None) =>
      assert r == SessionController.NoActiveSession(SessionController.NoSessionMessage);
    case Decoded(Some(u)) =>
      assert r == SessionController.CurrentUser(u);
  }

  /** The hub's session check resolves to a user exactly when the backend holds
      one, and is tagged 401 exactly when it holds none. */
  lemma {:induction false} HubCheckMirrorsBackend(entries: map<string, string>, pages: FrameworkPages)
    ensures var seen := HubPage.FetchJson(MeOverFetch(SessionController.CurrentUserResponse(entries), pages));
      && (seen.Resolved? <==> StoredUser(entries).Decoded? && StoredUser(entries).user.Some?)
      && (seen.Resolved? ==> StoredUser(entries) == Decoded(Some(seen.value)))
      && (seen.Rejected? && seen.error.code == Some(Unauthorized) <==> StoredUser(entries) == Decoded(None))
  {
    var r := SessionController.CurrentUserResponse(entries);
    match StoredUser(entries)
    case Raised(e) =>
      assert r == SessionController.Unhandled(e);
    case Decoded(None) =>
      assert r == SessionController.NoActiveSession(SessionController.NoSessionMessage);
    case Decoded(Some(u)) =>
      assert r == SessionController.CurrentUser(u);
  }

  /** A login through a portal's service returns exactly when the backend
      accepted it, and what it returns is the user the backend now reports; a
      rejected login leaves the backend's answer as it was. */
  lemma {:induction false} PortalLoginAgreesWithBackend(entries: map<string, string>, r: LoginResult, pages: FrameworkPages)
    ensures var seen := Posted(LoginOverHttp(r, pages));
      var after := AuthenticationController.AfterLogin(entries, r);
      && (seen.Returned? <==> r.LoginOk?)
      && (seen.Returned? ==> SessionController.CurrentUserResponse(after) == SessionController.CurrentUser(seen.value.user))
      && (seen.Threw? ==> SessionController.CurrentUserResponse(after) == SessionController.CurrentUserResponse(entries))
  {
    SessionController.CurrentUserAfterLogin(entries, r);
  }

  /** The hub shows the response's user after a login exactly when the backend
      stored one, and a session check made right after the login, with no
      request in between, reports that user. */
  lemma {:induction false} HubLoginAgreesWithBackend(entries: map<string, string>, body: Option<AuthenticationController.OtpLoginRequest>, pages: FrameworkPages)
    ensures var r := AuthenticationController.OtpLogin(body);
      var seen := HubPage.FetchJson(LoginOverFetch(r, pages));
      var after := AuthenticationController.AfterLogin(entries, r);
      && (seen.Resolved? <==> r.LoginOk?)
      && (seen.Resolved? ==> HubPage.FetchJson(MeOverFetch(SessionController.CurrentUserResponse(after), pages)) == HubPage.Resolved(seen.value.user))
  {
    var r := AuthenticationController.OtpLogin(body);
    var o := LoginOverFetch(r, pages);
    var seen := HubPage.FetchJson(o);
    if r.LoginOk? {
      assert HubPage.IsOk(o.status) && o.json == HubPage.Parsed(r.response);
      assert seen == HubPage.Resolved(r.response);
      SessionCheckAfterLogin(entries, r, pages);
    } else {
      assert !HubPage.IsOk(o.status);
    }
  }

  /** After a successful login the hub's session check resolves to the logged-in user. */
  lemma SessionCheckAfterLogin(entries: map<string, string>, r: LoginResult, pages: FrameworkPages)
    requires r.LoginOk?
    ensures HubPage.FetchJson(MeOverFetch(SessionController.CurrentUserResponse(AuthenticationController.AfterLogin(entries, r)), pages))
      == HubPage.Resolved(r.response.user)
  {
    SessionController.CurrentUserAfterLogin(entries, r);
    var me := SessionController.CurrentUserResponse(AuthenticationController.AfterLogin(entries, r));
    assert me == SessionController.CurrentUser(r.response.user);
  }

  /** A well-formed but wrong OTP login reaches the hub as the bare 401: the
      backend's message is not shown, "Unauthorized" is. */
  lemma WrongOtpShowsUnauthorized(body: AuthenticationController.OtpLoginRequest, pages: FrameworkPages)
    requires AuthenticationController.OtpModelValid(Some(body))
    requires body != AuthenticationController.OtpLoginRequest(AuthenticationController.DemoOtpPhone, AuthenticationController.DemoOtpCode)
    ensures HubPage.FetchJson(LoginOverFetch(AuthenticationController.OtpLogin(Some(body)), pages))
      == HubPage.Rejected(HubPage.JsError(HubPage.UnauthorizedMessage, Some(Unauthorized)))
  {
  }

  /** A login form the backend's validation refuses shows the problem document's
      text (or the status line when it is empty) on the hub. */
  lemma InvalidOtpShowsProblem(body: Option<AuthenticationController.OtpLoginRequest>, pages: FrameworkPages)
    requires !AuthenticationController.OtpModelValid(body)
    ensures HubPage.FetchJson(LoginOverFetch(AuthenticationController.OtpLogin(body), pages))
      == HubPage.Rejected(HubPage.JsError(
           if pages.validation != "" then pages.validation else HubPage.RequestFailedPrefix + NatToDecimal(BadRequest), None))
  {
  }

  /** The hub's default form holds the demo OTP pair: it signs in John Doe, whose
      record is then what the session holds and what the session check reports. */
  lemma DefaultFormSignsIn(entries: map<string, string>)
    ensures var r := AuthenticationController.OtpLogin(Some(AuthenticationController.OtpLoginRequest(HubPage.DefaultPhone, HubPage.DefaultOtp)));
      var after := AuthenticationController.AfterLogin(entries, r);
      && r.LoginOk? && r.response.user == CreateEndUser("user-001", "John Doe", HubPage.DefaultPhone)
      && StoredUser(after) == Decoded(Some(r.response.user))
      && SessionController.CurrentUserResponse(after) == SessionController.CurrentUser(r.response.user)
  {
    assert HubPage.DefaultPhone == AuthenticationController.DemoOtpPhone && HubPage.DefaultOtp == AuthenticationController.DemoOtpCode;
    var r := AuthenticationController.OtpLogin(Some(AuthenticationController.OtpLoginRequest(HubPage.DefaultPhone, HubPage.DefaultOtp)));
    SessionController.CurrentUserAfterLogin(entries, r);
  }

  /** A fresh hub page whose session check found none: its sign-in button is
      enabled, and pressing it sends the default form. */
  method StartSignIn(pages: FrameworkPages) returns (page: HubPage.Page, sent: AuthenticationController.OtpLoginRequest)
    ensures fresh(page) && page.Valid() && page.loginsPending == 1
    ensures sent == AuthenticationController.OtpLoginRequest(HubPage.DefaultPhone, HubPage.DefaultOtp)
  {
    page := new HubPage.Page();
    var none := MeOverFetch(SessionController.CurrentUserResponse(map[]), pages);
    assert none.status == Unauthorized;
    page.GetSession(none);
    sent := page.BeginLogin();
  }

  /** Against an empty backend, signing in with a new page's default form runs
      the backend's OTP login, and the page takes its answer. */
  method SignInOnNewPage(backend: Session, pages: FrameworkPages) returns (r: LoginResult)
    requires backend.entries == map[]
    modifies backend
    ensures r == AuthenticationController.OtpLogin(Some(AuthenticationController.OtpLoginRequest(HubPage.DefaultPhone, HubPage.DefaultOtp)))
    ensures backend.entries == AuthenticationController.AfterLogin(map[], r)
  {
    var page, sent := StartSignIn(pages);
    ghost var before := backend.entries;
    r := AuthenticationController.LoginWithOtp(backend, Some(sent));
    assert backend.entries == AuthenticationController.AfterLogin(before, r);
    assert page.Valid() && page.loginsPending == 1;
    page.CompleteLogin(LoginOverFetch(r, pages));
  }

  /** A new hub page's session check shows the user the backend reports. */
  method CheckOnNewPage(me: CurrentUserResult, pages: FrameworkPages) returns (shown: Option<SessionUser>)
    ensures me.CurrentUser? ==> shown == Some(me.user)
  {
    var page := new HubPage.Page();
    page.GetSession(MeOverFetch(me, pages));
    shown := page.session;
  }

  /** The demo round on live objects: on a first visit the hub finds no session,
      signs in with its default form, the backend stores the user, and a later
      page's session check shows it. */
  method HubDemoRound(pages: FrameworkPages) returns (shown: Option<SessionUser>, stored: Decoded)
    ensures shown == Some(CreateEndUser("user-001", "John Doe", HubPage.DefaultPhone))
    ensures stored == Decoded(shown)
  {
    var backend := new Session(map[]);
    var r := SignInOnNewPage(backend, pages);
    DefaultFormSignsIn(map[]);
    stored := backend.GetUser();
    shown := CheckOnNewPage(SessionController.CurrentUserResponse(backend.entries), pages);
  }

}
