/** The user portal's cached view of the shared session
    (frontend-angular1/src/app/services/session.service.ts). Each method is the
    continuation after its request settles; the settled response is its input. */
module SessionService {
  import opened Common
  import opened Models
  import opened SessionClient
  import AuthenticationController

  type LoginResponse = AuthenticationController.LoginResponse
  type MessageResponse = AuthenticationController.MessageResponse

  class SessionService {
    var currentUser: Option<SessionUser>

    constructor ()
      ensures currentUser == None
    {
      currentUser := None;
    }

    /** The `snapshot` getter: the cache, read without a request. */
    function Snapshot(): (u: Option<SessionUser>)
      reads this
      ensures u == currentUser
    {
      currentUser
    }

    /** `refreshSession`: the cache follows every answer that returns (a user, or
      null on a 401) and is left alone when the error is rethrown. */
    method RefreshSession(outcome: HttpOutcome<SessionUser>) returns (r: Completion<Option<SessionUser>>)
      modifies this
      ensures r == Refreshed(outcome)
      ensures r.Returned? ==> currentUser == r.value
      ensures r.Threw? ==> currentUser == old(currentUser)
    {
      match outcome
      case Ok(user) =>
        currentUser := Some(user);
        r := Returned(Some(user));
      case Err(status, text) =>
        if status == Unauthorized {
          currentUser := None;
          r := Returned(None);
        } else {
          r := Threw(HttpErrorResponse(status, text));
        }
    }

    /** `loginWithOtp`: on success the cache becomes the response's user; a failed
      request propagates with the cache unchanged. */
    method LoginWithOtp(outcome: HttpOutcome<LoginResponse>) returns (r: Completion<LoginResponse>)
      modifies this
      ensures r == Posted(outcome)
      ensures r.Returned? ==> currentUser == Some(r.value.user)
      ensures r.Threw? ==> currentUser == old(currentUser)
    {
      match outcome
      case Ok(response) =>
        currentUser := Some(response.user);
        r := Returned(response);
      case Err(status, text) =>
        r := Threw(HttpErrorResponse(status, text));
    }

    /** `logout`: on success the cache is emptied; on failure it is kept. */
    method Logout(outcome: HttpOutcome<MessageResponse>) returns (r: Completion<MessageResponse>)
      modifies this
      ensures r == Posted(outcome)
      ensures r.Returned? ==> currentUser == None
      ensures r.Threw? ==> currentUser == old(currentUser)
    {
      match outcome
      case Ok(response) =>
        currentUser := None;
        r := Returned(response);
      case Err(status, text) =>
        r := Threw(HttpErrorResponse(status, text));
    }
  }
}
