/** The admin portal's cached view of the shared session and its demo data
    (frontend-angular2/src/app/services/admin-session.service.ts). Each request
    method is the continuation after its request settles. */
module AdminSessionService {
  import opened Common
  import opened Models
  import opened SessionClient
  import AuthenticationController

  type LoginResponse = AuthenticationController.LoginResponse
  type MessageResponse = AuthenticationController.MessageResponse

  /** `UserApplication`; `lastUpdated` is kept as epoch milliseconds (the ISO
      rendering is not modelled). */
  datatype UserApplication = UserApplication(
    id: string,
    applicantName: string,
    product: string,
    stage: string,
    lastUpdatedMillis: int)

  const HourMillis: int := 1000 * 60 * 60

  /** The three fixed applications, stamped relative to the service's creation
      time `now`: newest first, ids app-001 to app-003. */
  function DemoApplications(now: int): (apps: seq<UserApplication>)
    ensures |apps| == 3
    ensures apps[0].id == "app-001" && apps[1].id == "app-002" && apps[2].id == "app-003"
    ensures forall i, j :: 0 <= i < j < |apps| ==> apps[i].id != apps[j].id
    ensures forall i, j :: 0 <= i < j < |apps| ==> apps[i].lastUpdatedMillis > apps[j].lastUpdatedMillis
    ensures apps[0].lastUpdatedMillis == now
  {
    [ UserApplication("app-001", "Laura Johnson", "Personal loan", "Documents under review", now),
      UserApplication("app-002", "Peter Martinez", "SMB credit line", "Awaiting signature", now - 5 * HourMillis),
      UserApplication("app-003", "Maria Rodriguez", "Mortgage refinance", "Risk analysis", now - 24 * HourMillis) ]
  }

  class AdminSessionService {
    var userState: Option<SessionUser>
    const applications: seq<UserApplication>

    /** The service as created at time `now` (the clock is an input). */
    constructor (now: int)
      ensures userState == None
      ensures applications == DemoApplications(now)
    {
      userState := None;
      applications := DemoApplications(now);
    }

    /** `isAuthenticated`: there is a cached user. */
    function IsAuthenticated(): (b: bool)
      reads this
      ensures b <==> userState != None
    {
      userState.Some?
    }

    /** `getApplications`: the same list on every call. */
    function GetApplications(): (apps: seq<UserApplication>)
      ensures apps == applications
    {
      applications
    }

    /** `refreshSession`: the state follows every answer that returns and is left
      alone when the error is rethrown. */
    method RefreshSession(outcome: HttpOutcome<SessionUser>) returns (r: Completion<Option<SessionUser>>)
      modifies this
      ensures r == Refreshed(outcome)
      ensures r.Returned? ==> userState == r.value
      ensures r.Threw? ==> userState == old(userState)
    {
      match outcome
      case Ok(session) =>
        userState := Some(session);
        r := Returned(Some(session));
      case Err(status, text) =>
        if status == Unauthorized {
          userState := None;
          r := Returned(None);
        } else {
          r := Threw(HttpErrorResponse(status, text));
        }
    }

    /** `login`: on success the state becomes the response's user; otherwise it is kept. */
    method Login(outcome: HttpOutcome<LoginResponse>) returns (r: Completion<LoginResponse>)
      modifies this
      ensures r == Posted(outcome)
      ensures r.Returned? ==> userState == Some(r.value.user)
      ensures r.Threw? ==> userState == old(userState)
    {
      match outcome
      case Ok(response) =>
        userState := Some(response.user);
        r := Returned(response);
      case Err(status, text) =>
        r := Threw(HttpErrorResponse(status, text));
    }

    /** `logout`: on success the state is emptied; otherwise it is kept. */
    method Logout(outcome: HttpOutcome<MessageResponse>) returns (r: Completion<MessageResponse>)
      modifies this
      ensures r == Posted(outcome)
      ensures r.Returned? ==> userState == None
      ensures r.Threw? ==> userState == old(userState)
    {
      match outcome
      case Ok(response) =>
        userState := None;
        r := Returned(response);
      case Err(status, text) =>
        r := Threw(HttpErrorResponse(status, text));
    }
  }
}
