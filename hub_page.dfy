/** The Next.js hub page (frontend-nextjs/src/app/page.tsx): its fetch helper,
    its session state, the OTP sign-in and logout handlers, and the session
    details table. Handlers are split at their await into Begin and Complete
    steps; React state updates are taken to apply at once. */
module HubPage {
  import opened Common
  import opened Models
  import opened SessionClient
  import AuthenticationController

  type LoginResponse = AuthenticationController.LoginResponse
  type MessageResponse = AuthenticationController.MessageResponse
  type OtpLoginRequest = AuthenticationController.OtpLoginRequest

  // ----- fetchJson -----

  /** A response body read as JSON: the value, or the parse error's message. */
  datatype JsonBody<+T> = Parsed(value: T) | Unparsable(message: string)

  /** How a `fetch` settles: rejected before any response (network, CORS), or a
      response with its status, its body as text and its body as JSON. */
  datatype FetchOutcome<+T> =
    | NetworkFailure(message: string)
    | Response(status: nat, text: string, json: JsonBody<T>)

  /** A thrown `Error`, with the `code` property fetchJson attaches to a 401. */
  datatype JsError = JsError(message: string, code: Option<int>)

  /** How an awaited promise settles. */
  datatype Settled<+T> = Resolved(value: T) | Rejected(error: JsError)

  predicate IsOk(status: nat) {
    200 <= status <= 299
  }

  const UnauthorizedMessage: string := "Unauthorized"
  const RequestFailedPrefix: string := "Request failed with status "

  /** `fetchJson`: a 401 is an error tagged 401; another non-2xx status is an error
      carrying the body text, or the status line when the body is empty; a 2xx
      yields the parsed body. Only a 401 response is ever tagged. */
  function FetchJson<T>(outcome: FetchOutcome<T>): (r: Settled<T>)
    ensures (r.Rejected? && r.error.code == Some(Unauthorized)) <==> (outcome.Response? && outcome.status == Unauthorized)
    ensures r.Rejected? && r.error.code.Some? ==> r.error == JsError(UnauthorizedMessage, Some(Unauthorized))
    ensures r.Resolved? <==> outcome.Response? && IsOk(outcome.status) && outcome.json.Parsed?
    ensures r.Resolved? ==> r.value == outcome.json.value
    ensures outcome.Response? && outcome.status != Unauthorized && !IsOk(outcome.status) ==>
      r == Rejected(JsError(if outcome.text != "" then outcome.text else RequestFailedPrefix + NatToDecimal(outcome.status), None))
    ensures outcome.NetworkFailure? ==> r == Rejected(JsError(outcome.message, None))
  {
    match outcome
    case NetworkFailure(message) => Rejected(JsError(message, None))
    case Response(status, text, json) =>
      if status == Unauthorized then Rejected(JsError(UnauthorizedMessage, Some(Unauthorized)))
      else if !IsOk(status) then
        Rejected(JsError(if text != "" then text else RequestFailedPrefix + NatToDecimal(status), None))
      else match json
        case Parsed(value) => Resolved(value)
        case Unparsable(message) => Rejected(JsError(message, None))
  }

  /** The status of a failed request can be read back from an empty-bodied
      error's message. */
  lemma StatusRecoverable(status: nat)
    ensures var m := RequestFailedPrefix + NatToDecimal(status);
      && m[..|RequestFailedPrefix|] == RequestFailedPrefix
      && DecimalValue(m[|RequestFailedPrefix|..]) == status
  {
    var m := RequestFailedPrefix + NatToDecimal(status);
    assert m[|RequestFailedPrefix|..] == NatToDecimal(status);
    DecimalRoundTrip(status);
  }

  // ----- sessionDetails -----

  datatype DetailRow = DetailRow(heading: string, value: string)

  const Missing: string := "—"

  /** `sessionDetails`: no table without a session; otherwise five rows in the
      order User, Name, Role, Phone, Email, a dash standing for a missing contact. */
  function SessionDetails(session: Option<SessionUser>): (rows: Option<seq<DetailRow>>)
    ensures rows.None? <==> session.None?
    ensures rows.Some? ==> |rows.value| == 5
    ensures rows.Some? ==> forall i :: 0 <= i < 5 ==> rows.value[i].heading == ["User", "Name", "Role", "Phone", "Email"][i]
    ensures rows.Some? ==>
      && rows.value[0].value == session.value.id
      && rows.value[1].value == session.value.name
      && rows.value[2].value == session.value.role
      && rows.value[3].value == (if session.value.phoneNumber.Some? then session.value.phoneNumber.value else Missing)
      && rows.value[4].value == (if session.value.email.Some? then session.value.email.value else Missing)
  {
    match session
    case None => None
    case Some(s) =>
      Some([ DetailRow("User", s.id),
             DetailRow("Name", s.name),
             DetailRow("Role", s.role),
             DetailRow("Phone", if s.phoneNumber.Some? then s.phoneNumber.value else Missing),
             DetailRow("Email", if s.email.Some? then s.email.value else Missing) ])
  }

  /** For a record built by a factory, the table shows the contact the role calls
      for and a dash for the other. */
  lemma DetailsOfFactoryRecords(id: string, name: string, contact: string)
    ensures SessionDetails(Some(CreateEndUser(id, name, contact))).value[3].value == contact
    ensures SessionDetails(Some(CreateEndUser(id, name, contact))).value[4].value == Missing
    ensures SessionDetails(Some(CreateAdmin(id, name, contact))).value[3].value == Missing
    ensures SessionDetails(Some(CreateAdmin(id, name, contact))).value[4].value == contact
  {
  }

  // ----- the page -----

  const DefaultPhone: string := "5551234567"
  const DefaultOtp: string := "246810"
  const SessionCheckFailed: string :=
    "Unable to contact the backend. Ensure https://localhost:7100 is running and the dev certificate is trusted."
  const LoggedOut: string := "Session cleared."

  class Page {
    var session: Option<SessionUser>
    var status: Option<StatusMessage>
    var checkingSession: bool
    var isSubmitting: bool
    var form: OtpLoginRequest

    /** Status timeouts scheduled and not yet fired. */
    ghost var pendingTimers: nat
    /** Sign-ins awaiting their answer. */
    ghost var loginsPending: nat
    /** Logouts awaiting their answer. */
    ghost var logoutsPending: nat

    /** At most one sign-in is in flight, exactly while `isSubmitting`; a shown
        status has a timeout pending. Logouts are not limited. */
    ghost predicate Valid()
      reads this
    {
      && loginsPending <= 1
      && (isSubmitting <==> loginsPending == 1)
      && (status.Some? ==> pendingTimers > 0)
    }

    /** The sign-in button's `disabled` attribute. */
    predicate SignInDisabled()
      reads this
    {
      isSubmitting || session.Some?
    }

    /** The logout button's `disabled` attribute. */
    predicate LogoutDisabled()
      reads this
    {
      session.None?
    }

    constructor ()
      ensures Valid()
      ensures session == None && status == None && checkingSession && !isSubmitting
      ensures form == AuthenticationController.OtpLoginRequest(DefaultPhone, DefaultOtp)
      ensures pendingTimers == 0 && loginsPending == 0 && logoutsPending == 0
    {
      session, status, checkingSession, isSubmitting := None, None, true, false;
      form := AuthenticationController.OtpLoginRequest(DefaultPhone, DefaultOtp);
      pendingTimers, loginsPending, logoutsPending := 0, 0, 0;
    }

    /** `updateStatus`: shows the message and, for a non-null one, schedules a
        timeout. */
    method UpdateStatus(next: Option<StatusMessage>)
      requires Valid()
      modifies this
      ensures Valid()
      ensures status == next
      ensures pendingTimers == old(pendingTimers) + (if next.Some? then 1 else 0)
      ensures session == old(session) && checkingSession == old(checkingSession) && isSubmitting == old(isSubmitting)
      ensures form == old(form) && loginsPending == old(loginsPending) && logoutsPending == old(logoutsPending)
    {
      status := next;
      if next.Some? {
        pendingTimers := pendingTimers + 1;
      }
    }

    /** A status timeout fires: unlike the Angular portals it clears whatever is
        shown, even a status set after the one that scheduled it. */
    method StatusTimeout()
      requires Valid() && pendingTimers > 0
      modifies this
      ensures Valid()
      ensures status == None && pendingTimers == old(pendingTimers) - 1
      ensures session == old(session) && checkingSession == old(checkingSession) && isSubmitting == old(isSubmitting)
      ensures form == old(form) && loginsPending == old(loginsPending) && logoutsPending == old(logoutsPending)
    {
      pendingTimers := pendingTimers - 1;
      status := None;
    }

    /** The user edits the form. */
    method EditForm(phoneNumber: string, otp: string)
      requires Valid()
      modifies this
      ensures Valid()
      ensures form == AuthenticationController.OtpLoginRequest(phoneNumber, otp)
      ensures session == old(session) && status == old(status) && checkingSession == old(checkingSession)
      ensures isSubmitting == old(isSubmitting) && loginsPending == old(loginsPending)
      ensures pendingTimers == old(pendingTimers) && logoutsPending == old(logoutsPending)
    {
      form := AuthenticationController.OtpLoginRequest(phoneNumber, otp);
    }

    /** "Reset demo values". */
    method ResetForm()
      requires Valid()
      modifies this
      ensures Valid()
      ensures form == AuthenticationController.OtpLoginRequest(DefaultPhone, DefaultOtp)
      ensures session == old(session) && status == old(status) && checkingSession == old(checkingSession)
      ensures isSubmitting == old(isSubmitting) && loginsPending == old(loginsPending)
      ensures pendingTimers == old(pendingTimers) && logoutsPending == old(logoutsPending)
    {
      form := AuthenticationController.OtpLoginRequest(DefaultPhone, DefaultOtp);
    }

    /** `getSession` once its request settles: a user is taken, a 401 empties the
        session, any other failure keeps it and shows the fixed error; the check is
        over either way. */
    method GetSession(outcome: FetchOutcome<SessionUser>)
      requires Valid()
      modifies this
      ensures Valid()
      ensures !checkingSession
      ensures match FetchJson(outcome)
        case Resolved(user) => session == Some(user) && status == old(status)
        case Rejected(e) =>
          if e.code == Some(Unauthorized) then session == None && status == old(status)
          else session == old(session) && status == Some(StatusMessage(Error, SessionCheckFailed))
      ensures isSubmitting == old(isSubmitting) && form == old(form)
      ensures loginsPending == old(loginsPending) && logoutsPending == old(logoutsPending)
      ensures pendingTimers == old(pendingTimers) + (if FetchJson(outcome).Rejected? && FetchJson(outcome).error.code != Some(Unauthorized) then 1 else 0)
    {
      var r := FetchJson(outcome);
      match r {
        case Resolved(user) =>
          session := Some(user);
        case Rejected(e) =>
          if e.code == Some(Unauthorized) {
            session := None;
          } else {
            UpdateStatus(Some(StatusMessage(Error, SessionCheckFailed)));
          }
      }
      checkingSession := false;
    }

    /** `handleLogin` up to its await; the form can only be submitted while the
        sign-in button is enabled. Returns the body it posts. */
    method BeginLogin() returns (sent: OtpLoginRequest)
      requires Valid() && !SignInDisabled()
      modifies this
      ensures Valid()
      ensures sent == form && isSubmitting && status == None
      ensures SignInDisabled()
      ensures loginsPending == 1
      ensures session == old(session) && checkingSession == old(checkingSession) && form == old(form)
      ensures logoutsPending == old(logoutsPending)
      ensures pendingTimers == old(pendingTimers)
    {
      isSubmitting := true;
      loginsPending := loginsPending + 1;
      UpdateStatus(None);
      sent := form;
    }

    /** `handleLogin` after its await: success takes the response's user and shows
        its message, failure keeps the session and shows the error's message;
        `isSubmitting` drops either way. */
    method CompleteLogin(outcome: FetchOutcome<LoginResponse>)
      requires Valid() && loginsPending == 1
      modifies this
      ensures Valid()
      ensures !isSubmitting && loginsPending == 0
      ensures match FetchJson(outcome)
        case Resolved(result) =>
          session == Some(result.user) && status == Some(StatusMessage(Success, result.message))
        case Rejected(e) =>
          session == old(session) && status == Some(StatusMessage(Error, e.message))
      ensures checkingSession == old(checkingSession) && form == old(form)
      ensures logoutsPending == old(logoutsPending)
      ensures pendingTimers == old(pendingTimers) + 1
    {
      var r := FetchJson(outcome);
      match r {
        case Resolved(result) =>
          session := Some(result.user);
          UpdateStatus(Some(StatusMessage(Success, result.message)));
        case Rejected(e) =>
          UpdateStatus(Some(StatusMessage(Error, e.message)));
      }
      isSubmitting := false;
      loginsPending := 0;
    }

    /** `handleLogout` up to its await; reachable whenever the logout button is
        enabled, including while an earlier logout is still pending. */
    method BeginLogout()
      requires Valid() && !LogoutDisabled()
      modifies this
      ensures Valid()
      ensures status == None && logoutsPending == old(logoutsPending) + 1
      ensures session == old(session) && checkingSession == old(checkingSession) && isSubmitting == old(isSubmitting)
      ensures form == old(form) && loginsPending == old(loginsPending)
      ensures pendingTimers == old(pendingTimers)
    {
      logoutsPending := logoutsPending + 1;
      UpdateStatus(None);
    }

    /** `handleLogout` after its await: success empties the session, failure keeps
        it and shows the error's message. */
    method CompleteLogout(outcome: FetchOutcome<MessageResponse>)
      requires Valid() && logoutsPending > 0
      modifies this
      ensures Valid()
      ensures logoutsPending == old(logoutsPending) - 1
      ensures match FetchJson(outcome)
        case Resolved(_) => session == None && status == Some(StatusMessage(Success, LoggedOut))
        case Rejected(e) => session == old(session) && status == Some(StatusMessage(Error, e.message))
      ensures checkingSession == old(checkingSession) && isSubmitting == old(isSubmitting)
      ensures form == old(form) && loginsPending == old(loginsPending)
      ensures pendingTimers == old(pendingTimers) + 1
    {
      var r := FetchJson(outcome);
      match r {
        case Resolved(_) =>
          session := None;
          UpdateStatus(Some(StatusMessage(Success, LoggedOut)));
        case Rejected(e) =>
          UpdateStatus(Some(StatusMessage(Error, e.message)));
      }
      logoutsPending := logoutsPending - 1;
    }
  }

  /** The hub does not guard its logout: while the first logout awaits its
      answer the button stays enabled, and a second click sends a second
      request. */
  method TwoLogoutsInFlight(user: SessionUser) returns (secondClickEnabled: bool)
    ensures secondClickEnabled
  {
    var page := new Page();
    page.GetSession(Response(200, "", Parsed(user)));
    page.BeginLogout();
    secondClickEnabled := !page.LogoutDisabled();
    page.BeginLogout();
    assert page.logoutsPending == 2;
  }
}
