/** The "who is logged in" endpoint (backend-dotnet/Controllers/SessionController.cs). */
module SessionController {
  import opened Common
  import opened Models
  import opened Codec
  import opened SessionExtensions
  import AuthenticationController

  const NoSessionMessage: string := "No active session."

  /** The answers of `GetCurrentUser`: 200 with the record, 401 with a message, or
      the deserializer's exception escaping the action (a 500 from the framework). */
  datatype CurrentUserResult =
    | CurrentUser(user: SessionUser)
    | NoActiveSession(message: string)
    | Unhandled(error: JsonException)

  /** The answer `GetCurrentUser` gives for a session bag. */
  function CurrentUserResponse(entries: map<string, string>): (r: CurrentUserResult)
    ensures UserKey !in entries ==> r == NoActiveSession(NoSessionMessage)
    ensures r.NoActiveSession? ==> r.message == NoSessionMessage
    ensures r.CurrentUser? ==> UserKey in entries && entries[UserKey] == Encode(r.user)
    ensures forall u :: UserKey in entries && entries[UserKey] == Encode(u) ==> r == CurrentUser(u)
    ensures r.Unhandled? <==> StoredUser(entries).Raised?
    ensures r.NoActiveSession? <==> StoredUser(entries) == Decoded(None)
  {
    assert forall u :: UserKey in entries && entries[UserKey] == Encode(u) ==> StoredUser(entries) == Decoded(Some(u)) by {
      forall u | UserKey in entries && entries[UserKey] == Encode(u) ensures StoredUser(entries) == Decoded(Some(u)) {
        StoredUserIffEncoded(entries, u);
      }
    }
    match StoredUser(entries)
    case Raised(e) => Unhandled(e)
    case Decoded(None) => NoActiveSession(NoSessionMessage)
    case Decoded(Some(u)) => CurrentUser(u)
  }

  /** `GetCurrentUser` on the request's session: a read that leaves the bag as it was. */
  method GetCurrentUser(session: Session) returns (r: CurrentUserResult)
    ensures r == CurrentUserResponse(session.entries)
  {
    var sessionUser := session.GetUser();
    match sessionUser
    case Raised(e) => r := Unhandled(e);
    case Decoded(None) => r := NoActiveSession(NoSessionMessage);
    case Decoded(Some(u)) => r := CurrentUser(u);
  }

  /** After a login action, the endpoint reports the login's user if it succeeded,
      and what it reported before if it did not. */
  lemma {:induction false} CurrentUserAfterLogin(entries: map<string, string>, r: AuthenticationController.LoginResult)
    ensures r.LoginOk? ==> CurrentUserResponse(AuthenticationController.AfterLogin(entries, r)) == CurrentUser(r.response.user)
    ensures !r.LoginOk? ==> CurrentUserResponse(AuthenticationController.AfterLogin(entries, r)) == CurrentUserResponse(entries)
  {
    if r.LoginOk? {
      GetAfterSet(entries, r.response.user);
    }
  }

  /** After Logout, whatever came before, the endpoint reports no active session. */
  lemma CurrentUserAfterLogout(entries: map<string, string>)
    ensures CurrentUserResponse(entries - {UserKey}) == NoActiveSession(NoSessionMessage)
  {
  }

  /** The full demo round: OTP login, read, logout, read. */
  lemma {:induction false} OtpLoginReadLogoutRead(entries: map<string, string>)
    ensures
      var login := AuthenticationController.OtpLogin(Some(AuthenticationController.OtpLoginRequest("5551234567", "246810")));
      var afterLogin := AuthenticationController.AfterLogin(entries, login);
      && login.LoginOk?
      && CurrentUserResponse(afterLogin) == CurrentUser(CreateEndUser("user-001", "John Doe", "5551234567"))
      && CurrentUserResponse(afterLogin - {UserKey}) == NoActiveSession(NoSessionMessage)
  {
    AuthenticationController.OtpScenarios();
    var login := AuthenticationController.OtpLogin(Some(AuthenticationController.OtpLoginRequest("5551234567", "246810")));
    CurrentUserAfterLogin(entries, login);
  }
}
