/** The admin portal's root component (frontend-angular2/src/app/app.ts). As in
    the user portal, every `async` method is split at its `await` into a Begin
    and a Complete step. */
module AdminPortalApp {
  import opened Common
  import opened Models
  import opened SessionClient
  import opened AdminSessionService
  import AuthenticationController
  import UrlSearchParams

  const LoginFailed: string := "Unable to authenticate. Verify the backend is running."
  const RefreshFailed: string := "Unable to reach the session endpoint. Ensure the backend is running."
  const LogoutFailed: string := "Could not clear the admin session. Try again."

  const DefaultEmail: string := "admin@example.com"
  const DefaultPassword: string := "SuperSecure123!"

  /** The suspended `submit` or `logout`, if any; `submit` keeps the form values it
      read before its await. */
  datatype InFlight = Idle | LoggingIn(request: AuthenticationController.AdminLoginRequest) | LoggingOut

  /** The form's validators: `required` on both fields, and `email` (an abstract
      format check, which lets the empty string through) on the address. */
  predicate FormValid(email: string, password: string, isEmail: string -> bool) {
    email != "" && isEmail(email) && password != ""
  }

  class App {
    const sessionService: AdminSessionService
    const isEmail: string -> bool
    const applications: seq<UserApplication>

    var formEmail: string
    var formPassword: string
    var status: Option<Status>
    var loading: bool
    var checking: bool
    var nextIdentity: nat
    var inFlight: InFlight

    ghost var timers: set<nat>
    ghost var refreshesPending: nat

    /** `loading` is raised exactly while a submit or a logout is suspended, and a
        displayed status has its timeout pending. */
    ghost predicate Valid()
      reads this
    {
      && (loading <==> inFlight != Idle)
      && (forall id :: id in timers ==> id < nextIdentity)
      && (status.Some? ==> status.value.identity in timers)
    }

    /** The session the template shows: the service's state. */
    function Session(): Option<SessionUser>
      reads this, sessionService
    {
      sessionService.userState
    }

    constructor (service: AdminSessionService, emailValidator: string -> bool)
      ensures Valid()
      ensures sessionService == service && isEmail == emailValidator
      ensures applications == service.applications
      ensures formEmail == DefaultEmail && formPassword == DefaultPassword
      ensures status == None && !loading && checking && inFlight == Idle
      ensures timers == {} && refreshesPending == 0
    {
      sessionService := service;
      isEmail := emailValidator;
      applications := service.GetApplications();
      formEmail, formPassword := DefaultEmail, DefaultPassword;
      status, loading, checking := None, false, true;
      nextIdentity, inFlight := 0, Idle;
      timers, refreshesPending := {}, 0;
    }

    /** `setStatus`: shows the message and, for a non-null one, schedules its timeout. */
    method SetStatus(next: Option<StatusMessage>)
      requires Valid()
      modifies this
      ensures Valid()
      ensures next.None? ==> status == None && nextIdentity == old(nextIdentity) && timers == old(timers)
      ensures next.Some? ==>
        && status == Some(Status(next.value, old(nextIdentity)))
        && nextIdentity == old(nextIdentity) + 1
        && timers == old(timers) + {old(nextIdentity)}
      ensures loading == old(loading) && checking == old(checking) && inFlight == old(inFlight)
      ensures formEmail == old(formEmail) && formPassword == old(formPassword)
      ensures refreshesPending == old(refreshesPending)
    {
      match next
      case None =>
        status := None;
      case Some(m) =>
        status := Some(Status(m, nextIdentity));
        timers := timers + {nextIdentity};
        nextIdentity := nextIdentity + 1;
    }

    /** The timeout scheduled for status `id` fires: it clears the banner only if
        that very status is still shown. */
    method StatusTimeout(id: nat)
      requires Valid() && id in timers
      modifies this
      ensures Valid()
      ensures timers == old(timers) - {id}
      ensures status == if old(status).Some? && old(status).value.identity == id then None else old(status)
      ensures loading == old(loading) && checking == old(checking) && inFlight == old(inFlight)
      ensures nextIdentity == old(nextIdentity) && refreshesPending == old(refreshesPending)
      ensures formEmail == old(formEmail) && formPassword == old(formPassword)
    {
      timers := timers - {id};
      if status.Some? && status.value.identity == id {
        status := None;
      }
    }

    /** `clearStatus`. */
    method ClearStatus()
      requires Valid()
      modifies this
      ensures Valid()
      ensures status == None
      ensures loading == old(loading) && checking == old(checking) && inFlight == old(inFlight)
      ensures timers == old(timers) && refreshesPending == old(refreshesPending)
      ensures formEmail == old(formEmail) && formPassword == old(formPassword) && nextIdentity == old(nextIdentity)
    {
      status := None;
    }

    /** The user edits the form. */
    method EditForm(email: string, password: string)
      requires Valid()
      modifies this
      ensures Valid()
      ensures formEmail == email && formPassword == password
      ensures status == old(status) && loading == old(loading) && checking == old(checking) && inFlight == old(inFlight)
      ensures refreshesPending == old(refreshesPending)
      ensures timers == old(timers) && nextIdentity == old(nextIdentity)
    {
      formEmail, formPassword := email, password;
    }

    /** `resetDemoValues`. */
    method ResetDemoValues()
      requires Valid()
      modifies this
      ensures Valid()
      ensures formEmail == DefaultEmail && formPassword == DefaultPassword
      ensures status == old(status) && loading == old(loading) && checking == old(checking) && inFlight == old(inFlight)
      ensures refreshesPending == old(refreshesPending)
      ensures timers == old(timers) && nextIdentity == old(nextIdentity)
    {
      formEmail, formPassword := DefaultEmail, DefaultPassword;
    }

    /** `submit` up to its await: ignored when the form is invalid or a request is
        in flight; otherwise raises `loading`, clears the status and sends the
        form's values, which it returns. */
    method BeginSubmit() returns (sent: Option<AuthenticationController.AdminLoginRequest>)
      requires Valid()
      modifies this
      ensures Valid()
      ensures sent.None? <==> !FormValid(old(formEmail), old(formPassword), isEmail) || old(loading)
      ensures sent.None? ==> loading == old(loading) && inFlight == old(inFlight) && status == old(status) && timers == old(timers)
      ensures sent.Some? ==>
        && sent.value == AuthenticationController.AdminLoginRequest(formEmail, formPassword)
        && loading && inFlight == LoggingIn(sent.value) && status == None
      ensures formEmail == old(formEmail) && formPassword == old(formPassword)
      ensures checking == old(checking) && refreshesPending == old(refreshesPending)
      ensures timers == old(timers) && nextIdentity == old(nextIdentity)
    {
      if !FormValid(formEmail, formPassword, isEmail) || loading {
        return None;
      }
      loading := true;
      var request := AuthenticationController.AdminLoginRequest(formEmail, formPassword);
      inFlight := LoggingIn(request);
      SetStatus(None);
      sent := Some(request);
    }

    /** `submit` after its await: success shows the server's message, failure the
        fixed one (an HttpErrorResponse is not an `Error`); `loading` drops either way. */
    method CompleteSubmit(outcome: HttpOutcome<AuthenticationController.LoginResponse>)
      requires Valid() && inFlight.LoggingIn?
      modifies this, sessionService
      ensures Valid()
      ensures !loading && inFlight == Idle
      ensures match Posted(outcome)
        case Returned(response) =>
          && sessionService.userState == Some(response.user)
          && status == Some(Status(StatusMessage(Success, response.message), old(nextIdentity)))
        case Threw(_) =>
          && sessionService.userState == old(sessionService.userState)
          && status == Some(Status(StatusMessage(Error, LoginFailed), old(nextIdentity)))
      ensures checking == old(checking) && refreshesPending == old(refreshesPending)
      ensures formEmail == old(formEmail) && formPassword == old(formPassword)
      ensures timers == old(timers) + {old(nextIdentity)} && nextIdentity == old(nextIdentity) + 1
    {
      var r := sessionService.Login(outcome);
      match r {
        case Returned(response) =>
          SetStatus(Some(StatusMessage(Success, response.message)));
        case Threw(_) =>
          SetStatus(Some(StatusMessage(Error, LoginFailed)));
      }
      loading := false;
      inFlight := Idle;
    }

    /** `ngOnInit` up to its await: a refresh without spinner. */
    method NgOnInit()
      requires Valid()
      modifies this
      ensures Valid()
      ensures checking == old(checking) && refreshesPending == old(refreshesPending) + 1
      ensures status == old(status) && loading == old(loading) && inFlight == old(inFlight)
      ensures formEmail == old(formEmail) && formPassword == old(formPassword)
      ensures timers == old(timers) && nextIdentity == old(nextIdentity)
    {
      BeginRefresh(false);
    }

    /** `refreshSession` up to its await: the spinner is raised only when asked for. */
    method BeginRefresh(showSpinner: bool)
      requires Valid()
      modifies this
      ensures Valid()
      ensures checking == (showSpinner || old(checking))
      ensures refreshesPending == old(refreshesPending) + 1
      ensures status == old(status) && loading == old(loading) && inFlight == old(inFlight)
      ensures timers == old(timers) && nextIdentity == old(nextIdentity)
      ensures formEmail == old(formEmail) && formPassword == old(formPassword)
    {
      if showSpinner {
        checking := true;
      }
      refreshesPending := refreshesPending + 1;
    }

    /** `refreshSession` after its await: the service's state follows the answer, a
        thrown error shows the fixed status, and the spinner is lowered on every
        outcome. */
    method CompleteRefresh(outcome: HttpOutcome<SessionUser>)
      requires Valid() && refreshesPending > 0
      modifies this, sessionService
      ensures Valid()
      ensures !checking && refreshesPending == old(refreshesPending) - 1
      ensures match Refreshed(outcome)
        case Returned(user) => sessionService.userState == user && status == old(status)
        case Threw(_) =>
          && sessionService.userState == old(sessionService.userState)
          && status == Some(Status(StatusMessage(Error, RefreshFailed), old(nextIdentity)))
      ensures loading == old(loading) && inFlight == old(inFlight)
      ensures formEmail == old(formEmail) && formPassword == old(formPassword)
      ensures Refreshed(outcome).Returned? ==> timers == old(timers) && nextIdentity == old(nextIdentity)
      ensures Refreshed(outcome).Threw? ==> timers == old(timers) + {old(nextIdentity)} && nextIdentity == old(nextIdentity) + 1
    {
      var r := sessionService.RefreshSession(outcome);
      if r.Threw? {
        SetStatus(Some(StatusMessage(Error, RefreshFailed)));
      }
      checking := false;
      refreshesPending := refreshesPending - 1;
    }

    /** `logout` up to its await: ignored while a request is in flight; otherwise
        raises `loading` and clears the status. */
    method BeginLogout()
      requires Valid()
      modifies this
      ensures Valid()
      ensures old(loading) ==> loading && inFlight == old(inFlight) && status == old(status) && timers == old(timers)
      ensures !old(loading) ==> loading && inFlight == LoggingOut && status == None
      ensures checking == old(checking) && refreshesPending == old(refreshesPending)
      ensures formEmail == old(formEmail) && formPassword == old(formPassword)
      ensures timers == old(timers) && nextIdentity == old(nextIdentity)
    {
      if loading {
        return;
      }
      loading := true;
      inFlight := LoggingOut;
      SetStatus(None);
    }

    /** `logout` after its await: the server's message or the fixed error is shown,
        and `loading` drops either way. */
    method CompleteLogout(outcome: HttpOutcome<AuthenticationController.MessageResponse>)
      requires Valid() && inFlight == LoggingOut
      modifies this, sessionService
      ensures Valid()
      ensures !loading && inFlight == Idle
      ensures match Posted(outcome)
        case Returned(response) =>
          && sessionService.userState == None
          && status == Some(Status(StatusMessage(Success, response.message), old(nextIdentity)))
        case Threw(_) =>
          && sessionService.userState == old(sessionService.userState)
          && status == Some(Status(StatusMessage(Error, LogoutFailed), old(nextIdentity)))
      ensures checking == old(checking) && refreshesPending == old(refreshesPending)
      ensures formEmail == old(formEmail) && formPassword == old(formPassword)
      ensures timers == old(timers) + {old(nextIdentity)} && nextIdentity == old(nextIdentity) + 1
    {
      var r := sessionService.Logout(outcome);
      match r {
        case Returned(response) =>
          SetStatus(Some(StatusMessage(Success, response.message)));
        case Threw(_) =>
          SetStatus(Some(StatusMessage(Error, LogoutFailed)));
      }
      loading := false;
      inFlight := Idle;
    }

    /** `openApplication`: the query of the user-portal link it navigates to, built
        from the portal's base query. The navigation itself is not modelled. */
    method OpenApplication(app: UserApplication, baseQuery: UrlSearchParams.Pairs)
      returns (query: UrlSearchParams.Pairs)
      ensures UrlSearchParams.Get(query, "appId") == Some(app.id)
      ensures UrlSearchParams.Get(query, "admin") == Some(if Session().Some? then Session().value.name else "")
      ensures UrlSearchParams.Get(query, "from") == Some("admin")
      ensures forall name :: name !in {"appId", "admin", "from"} ==>
        UrlSearchParams.Get(query, name) == UrlSearchParams.Get(baseQuery, name)
      ensures query == UrlSearchParams.SetParam(UrlSearchParams.SetParam(UrlSearchParams.SetParam(baseQuery, "appId", app.id),
        "admin", if Session().Some? then Session().value.name else ""), "from", "admin")
    {
      var adminName := if Session().Some? then Session().value.name else "";
      var url := new UrlSearchParams.SearchParams(baseQuery);
      url.Set("appId", app.id);
      url.Set("admin", adminName);
      url.Set("from", "admin");
      query := url.pairs;
      SetThreeGet(baseQuery, app.id, adminName);
    }
  }

  /** What the three `set` calls of openApplication leave readable. */
  lemma SetThreeGet(base: UrlSearchParams.Pairs, appId: string, adminName: string)
    ensures
      var q := UrlSearchParams.SetParam(UrlSearchParams.SetParam(UrlSearchParams.SetParam(base, "appId", appId), "admin", adminName), "from", "admin");
      && UrlSearchParams.Get(q, "appId") == Some(appId)
      && UrlSearchParams.Get(q, "admin") == Some(adminName)
      && UrlSearchParams.Get(q, "from") == Some("admin")
      && forall name :: name !in {"appId", "admin", "from"} ==> UrlSearchParams.Get(q, name) == UrlSearchParams.Get(base, name)
  {
    var q1 := UrlSearchParams.SetParam(base, "appId", appId);
    var q2 := UrlSearchParams.SetParam(q1, "admin", adminName);
    var q3 := UrlSearchParams.SetParam(q2, "from", "admin");
    SetKeepsOtherReads(base, "appId", appId);
    SetKeepsOtherReads(q1, "admin", adminName);
    SetKeepsOtherReads(q2, "from", "admin");
    ReadsThroughThree(base, q1, q2, q3, appId, adminName);
  }

  /** Three queries, each reading like the one before except at its own name. */
  lemma ReadsThroughThree(base: UrlSearchParams.Pairs, q1: UrlSearchParams.Pairs, q2: UrlSearchParams.Pairs,
                          q3: UrlSearchParams.Pairs, appId: string, adminName: string)
    requires UrlSearchParams.Get(q1, "appId") == Some(appId)
    requires forall other :: other != "appId" ==> UrlSearchParams.Get(q1, other) == UrlSearchParams.Get(base, other)
    requires UrlSearchParams.Get(q2, "admin") == Some(adminName)
    requires forall other :: other != "admin" ==> UrlSearchParams.Get(q2, other) == UrlSearchParams.Get(q1, other)
    requires UrlSearchParams.Get(q3, "from") == Some("admin")
    requires forall other :: other != "from" ==> UrlSearchParams.Get(q3, other) == UrlSearchParams.Get(q2, other)
    ensures UrlSearchParams.Get(q3, "appId") == Some(appId)
    ensures UrlSearchParams.Get(q3, "admin") == Some(adminName)
    ensures forall name :: name !in {"appId", "admin", "from"} ==> UrlSearchParams.Get(q3, name) == UrlSearchParams.Get(base, name)
  {
    assert UrlSearchParams.Get(q3, "appId") == UrlSearchParams.Get(q2, "appId");
  }

  /** One `set`: the name reads the new value and every other name reads as before. */
  lemma SetKeepsOtherReads(ps: UrlSearchParams.Pairs, name: string, value: string)
    ensures UrlSearchParams.Get(UrlSearchParams.SetParam(ps, name, value), name) == Some(value)
    ensures forall other :: other != name ==>
      UrlSearchParams.Get(UrlSearchParams.SetParam(ps, name, value), other) == UrlSearchParams.Get(ps, other)
  {
    UrlSearchParams.SetParamGet(ps, name, value, name);
    forall other | other != name
      ensures UrlSearchParams.Get(UrlSearchParams.SetParam(ps, name, value), other) == UrlSearchParams.Get(ps, other)
    {
      UrlSearchParams.SetParamGet(ps, name, value, other);
    }
  }

}
