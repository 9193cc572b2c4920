/** The user portal's root component (frontend-angular1/src/app/app.ts). Every
    `async` method is split at its `await`: a Begin step runs up to the request,
    a Complete step is the continuation once the request settles. Other steps may
    run in between, in any order the requires clauses allow. */
module UserPortalApp {
  import opened Common
  import opened Models
  import opened SessionClient
  import opened SessionService
  import UrlSearchParams

  const RefreshFailed: string := "Unable to reach the session endpoint. Ensure the backend is running."
  const LogoutFailed: string := "Could not clear the session cookie. Try again."

  class App {
    const sessionService: SessionService

    var status: Option<Status>
    var loading: bool
    var checking: bool
    var session: Option<SessionUser>
    var fromAdmin: bool
    var adminName: string
    /** The identity the next status object will get. */
    var nextIdentity: nat

    /** Status timeouts scheduled and not yet fired, by the status they watch. */
    ghost var timers: set<nat>
    /** Refreshes awaiting their answer. */
    ghost var refreshesPending: nat
    /** Logouts awaiting their answer. */
    ghost var logoutsPending: nat

    /** At most one logout is in flight, exactly while `loading`; a displayed
        status has its timeout pending. */
    ghost predicate Valid()
      reads this
    {
      && logoutsPending <= 1
      && (loading <==> logoutsPending == 1)
      && (forall id :: id in timers ==> id < nextIdentity)
      && (status.Some? ==> status.value.identity in timers)
    }

    constructor (service: SessionService)
      ensures Valid()
      ensures sessionService == service
      ensures status == None && !loading && checking && session == None
      ensures !fromAdmin && adminName == ""
      ensures timers == {} && refreshesPending == 0 && logoutsPending == 0
    {
      sessionService := service;
      status, loading, checking, session := None, false, true, None;
      fromAdmin, adminName := false, "";
      nextIdentity := 0;
      timers, refreshesPending, logoutsPending := {}, 0, 0;
    }

    /** `setStatus`: shows the message and, for a non-null one, schedules its
        timeout. */
    method SetStatus(message: Option<StatusMessage>)
      requires Valid()
      modifies this
      ensures Valid()
      ensures message.None? ==> status == None && nextIdentity == old(nextIdentity) && timers == old(timers)
      ensures message.Some? ==>
        && status == Some(Status(message.value, old(nextIdentity)))
        && nextIdentity == old(nextIdentity) + 1
        && timers == old(timers) + {old(nextIdentity)}
      ensures loading == old(loading) && checking == old(checking) && session == old(session)
      ensures fromAdmin == old(fromAdmin) && adminName == old(adminName)
      ensures refreshesPending == old(refreshesPending) && logoutsPending == old(logoutsPending)
    {
      match message
      case None =>
        status := None;
      case Some(m) =>
        status := Some(Status(m, nextIdentity));
        timers := timers + {nextIdentity};
        nextIdentity := nextIdentity + 1;
    }

    /** The timeout scheduled for status `id` fires: it clears the banner only if
        that very status is still shown. */
    method StatusTimeout(id: nat)
      requires Valid() && id in timers
      modifies this
      ensures Valid()
      ensures timers == old(timers) - {id}
      ensures status == if old(status).Some? && old(status).value.identity == id then None else old(status)
      ensures loading == old(loading) && checking == old(checking) && session == old(session)
      ensures fromAdmin == old(fromAdmin) && adminName == old(adminName) && nextIdentity == old(nextIdentity)
      ensures refreshesPending == old(refreshesPending) && logoutsPending == old(logoutsPending)
    {
      timers := timers - {id};
      if status.Some? && status.value.identity == id {
        status := None;
      }
    }

    /** `clearStatus`. */
    method ClearStatus()
      requires Valid()
      modifies this
      ensures Valid()
      ensures status == None
      ensures loading == old(loading) && checking == old(checking) && session == old(session)
      ensures fromAdmin == old(fromAdmin) && adminName == old(adminName)
      ensures refreshesPending == old(refreshesPending) && logoutsPending == old(logoutsPending)
      ensures timers == old(timers) && nextIdentity == old(nextIdentity)
    {
      SetStatus(None);
    }

    /** `ngOnInit` up to its await: the query decides the admin hand-off, then a
        refresh without spinner starts. */
    method NgOnInit(query: UrlSearchParams.Pairs)
      requires Valid()
      modifies this
      ensures Valid()
      ensures var handOff := UrlSearchParams.Get(query, "from") == Some("admin");
        var adminParam := UrlSearchParams.Get(query, "admin");
        && fromAdmin == (handOff || old(fromAdmin))
        && adminName == (if handOff && adminParam.Some? && adminParam.value != "" then adminParam.value else old(adminName))
      ensures checking == old(checking) && loading == old(loading) && session == old(session) && status == old(status)
      ensures refreshesPending == old(refreshesPending) + 1 && logoutsPending == old(logoutsPending)
      ensures timers == old(timers) && nextIdentity == old(nextIdentity)
    {
      if UrlSearchParams.Get(query, "from") == Some("admin") {
        fromAdmin := true;
        var adminParam := UrlSearchParams.Get(query, "admin");
        if adminParam.Some? && adminParam.value != "" {
          adminName := adminParam.value;
        }
      }
      BeginRefresh(false);
    }

    /** `refreshSession` up to its await: the spinner is raised only when asked for. */
    method BeginRefresh(showSpinner: bool)
      requires Valid()
      modifies this
      ensures Valid()
      ensures checking == (showSpinner || old(checking))
      ensures refreshesPending == old(refreshesPending) + 1
      ensures loading == old(loading) && session == old(session) && status == old(status)
      ensures fromAdmin == old(fromAdmin) && adminName == old(adminName)
      ensures logoutsPending == old(logoutsPending) && timers == old(timers) && nextIdentity == old(nextIdentity)
    {
      if showSpinner {
        checking := true;
      }
      refreshesPending := refreshesPending + 1;
    }

    /** `refreshSession` after its await: the session follows the service's answer,
        an admin's name fills an empty `adminName`, a thrown error shows the fixed
        status, and the spinner is lowered on every outcome. */
    method CompleteRefresh(outcome: HttpOutcome<SessionUser>)
      requires Valid() && refreshesPending > 0
      modifies this, sessionService
      ensures Valid()
      ensures !checking
      ensures refreshesPending == old(refreshesPending) - 1 && logoutsPending == old(logoutsPending)
      ensures loading == old(loading) && fromAdmin == old(fromAdmin)
      ensures match Refreshed(outcome)
        case Returned(user) =>
          && session == user && status == old(status)
          && sessionService.currentUser == user
          && adminName == (if user.Some? && user.value.role == RoleAdmin && old(adminName) == "" then user.value.name else old(adminName))
        case Threw(_) =>
          && session == old(session) && adminName == old(adminName)
          && sessionService.currentUser == old(sessionService.currentUser)
          && status == Some(Status(StatusMessage(Error, RefreshFailed), old(nextIdentity)))
      ensures old(adminName) != "" ==> adminName == old(adminName)
      ensures Refreshed(outcome).Returned? ==> timers == old(timers) && nextIdentity == old(nextIdentity)
      ensures Refreshed(outcome).Threw? ==> timers == old(timers) + {old(nextIdentity)} && nextIdentity == old(nextIdentity) + 1
    {
      var r := sessionService.RefreshSession(outcome);
      match r {
        case Returned(user) =>
          session := user;
          if user.Some? && user.value.role == RoleAdmin && adminName == "" {
            adminName := user.value.name;
          }
        case Threw(_) =>
          SetStatus(Some(StatusMessage(Error, RefreshFailed)));
      }
      checking := false;
      refreshesPending := refreshesPending - 1;
    }

    /** `logout` up to its await: ignored while a logout is in flight; otherwise
        raises `loading` and clears the status. */
    method BeginLogout()
      requires Valid()
      modifies this
      ensures Valid()
      ensures old(loading) ==> loading && logoutsPending == old(logoutsPending) && status == old(status) && timers == old(timers)
      ensures !old(loading) ==> loading && logoutsPending == 1 && status == None
      ensures checking == old(checking) && session == old(session)
      ensures fromAdmin == old(fromAdmin) && adminName == old(adminName)
      ensures refreshesPending == old(refreshesPending)
      ensures nextIdentity == old(nextIdentity) && timers == old(timers)
    {
      if loading {
        return;
      }
      loading := true;
      logoutsPending := logoutsPending + 1;
      SetStatus(None);
    }

    /** `logout` after its await: success empties the session, failure keeps it and
        shows the fixed error; `loading` drops either way. */
    method CompleteLogout(outcome: HttpOutcome<AuthenticationController.MessageResponse>)
      requires Valid() && logoutsPending == 1
      modifies this, sessionService
      ensures Valid()
      ensures !loading && logoutsPending == 0
      ensures match Posted(outcome)
        case Returned(response) =>
          && session == None && sessionService.currentUser == None
          && status == Some(Status(StatusMessage(Success, response.message), old(nextIdentity)))
        case Threw(_) =>
          && session == old(session) && sessionService.currentUser == old(sessionService.currentUser)
          && status == Some(Status(StatusMessage(Error, LogoutFailed), old(nextIdentity)))
      ensures checking == old(checking) && fromAdmin == old(fromAdmin) && adminName == old(adminName)
      ensures refreshesPending == old(refreshesPending)
      ensures timers == old(timers) + {old(nextIdentity)} && nextIdentity == old(nextIdentity) + 1
    {
      var r := sessionService.Logout(outcome);
      match r {
        case Returned(response) =>
          session := None;
          SetStatus(Some(StatusMessage(Success, response.message)));
        case Threw(_) =>
          SetStatus(Some(StatusMessage(Error, LogoutFailed)));
      }
      loading := false;
      logoutsPending := 0;
    }
  }
}
