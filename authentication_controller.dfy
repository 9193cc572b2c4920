/** The two login endpoints and the logout endpoint
    (backend-dotnet/Controllers/AuthenticationController.cs). */
module AuthenticationController {
  import opened Common
  import opened Models
  import opened Codec
  import opened SessionExtensions

  // ----- the demo credential set -----

  const DemoOtpPhone: string := "5551234567"
  const DemoOtpCode: string := "246810"
  const DemoAdminEmail: string := "admin@example.com"
  const DemoAdminPassword: string := "SuperSecure123!"

  const OtpRejected: string := "Invalid phone number or OTP."
  const AdminRejected: string := "Invalid admin credentials."
  const OtpAccepted: string := "OTP login successful."
  const AdminAccepted: string := "Admin login successful."
  const LoggedOut: string := "Session cleared."

  // ----- request and response shapes -----

  /** `OtpLoginRequest`; a property missing from the JSON body binds as "". */
  datatype OtpLoginRequest = OtpLoginRequest(phoneNumber: string, otp: string)

  /** `AdminLoginRequest`; a property missing from the JSON body binds as "". */
  datatype AdminLoginRequest = AdminLoginRequest(email: string, password: string)

  datatype LoginResponse = LoginResponse(user: SessionUser, message: string)

  datatype MessageResponse = MessageResponse(message: string)

  /** The three results of a login action: a 400 validation problem, a 401 with a
      message, or a 200 with the new user. */
  datatype LoginResult =
    | ValidationProblem
    | Unauthorized(message: string)
    | LoginOk(response: LoginResponse)

  // ----- model validation -----

  /** `char.IsWhiteSpace`: the separator categories and the control characters
      U+0009 to U+000D and U+0085. */
  predicate IsWhiteSpace(c: char) {
    || ('\t' <= c <= '\r') || c == ' ' || c == '\U{85}' || c == '\U{A0}' || c == '\U{1680}'
    || ('\U{2000}' <= c <= '\U{200A}') || c == '\U{2028}' || c == '\U{2029}'
    || c == '\U{202F}' || c == '\U{205F}' || c == '\U{3000}'
  }

  /** `[Required]` on a string: rejects the empty string and a string of white
      space only. */
  predicate Required(s: string) {
    exists i :: 0 <= i < |s| && !IsWhiteSpace(s[i])
  }

  /** `ModelState.IsValid` for the OTP body. `body` is None when the request body
      did not bind at all. */
  predicate OtpModelValid(body: Option<OtpLoginRequest>) {
    body.Some? && Required(body.value.phoneNumber) && Required(body.value.otp)
  }

  /** `ModelState.IsValid` for the admin body; `isEmail` stands for the
      `[EmailAddress]` format check. */
  predicate AdminModelValid(body: Option<AdminLoginRequest>, isEmail: string -> bool) {
    && body.Some?
    && Required(body.value.email) && isEmail(body.value.email)
    && Required(body.value.password)
  }

  // ----- credential checks -----

  /** ASCII case folding, the part of ordinal case-insensitive comparison that this
      model covers. */
  function FoldCase(c: char): (r: char)
    ensures 'a' <= c <= 'z' ==> r as int == c as int - 32
    ensures !('a' <= c <= 'z') ==> r == c
  {
    if 'a' <= c <= 'z' then (c as int - 32) as char else c
  }

  /** `string.Equals(a, b, StringComparison.OrdinalIgnoreCase)` over ASCII folding:
      the same length and the same characters once folded. */
  function EqualsIgnoreCase(a: string, b: string): (r: bool)
    ensures r <==> |a| == |b| && forall i :: 0 <= i < |a| ==> FoldCase(a[i]) == FoldCase(b[i])
  {
    if a == [] || b == [] then a == b
    else
      var rest := EqualsIgnoreCase(a[1..], b[1..]);
      assert rest <==> |a| == |b| && forall i :: 1 <= i < |a| ==> FoldCase(a[i]) == FoldCase(b[i]) by {
        if |a| == |b| {
          forall i | 1 <= i < |a| ensures a[i] == a[1..][i - 1] && b[i] == b[1..][i - 1] { }
        }
      }
      FoldCase(a[0]) == FoldCase(b[0]) && rest
  }

  /** `IsValidOtp`: exact (ordinal) match of both fields. Credentials it accepts
      always pass model validation. */
  function IsValidOtp(request: OtpLoginRequest): (b: bool)
    ensures b <==> request.phoneNumber == DemoOtpPhone && request.otp == DemoOtpCode
    ensures b ==> OtpModelValid(Some(request))
  {
    var b := request.phoneNumber == DemoOtpPhone && request.otp == DemoOtpCode;
    if b then
      assert !IsWhiteSpace(request.phoneNumber[0]) && !IsWhiteSpace(request.otp[0]);
      b
    else b
  }

  /** `IsValidAdmin`: the email matches ignoring case, the password matches exactly.
      Credentials it accepts always pass the required-field checks. */
  function IsValidAdmin(request: AdminLoginRequest): (b: bool)
    ensures b <==> (&& |request.email| == |DemoAdminEmail|
                    && (forall i :: 0 <= i < |request.email| ==> FoldCase(request.email[i]) == FoldCase(DemoAdminEmail[i]))
                    && request.password == DemoAdminPassword)
    ensures b ==> Required(request.email) && Required(request.password)
  {
    var b := EqualsIgnoreCase(request.email, DemoAdminEmail) && request.password == DemoAdminPassword;
    if b then
      assert FoldCase(request.email[0]) == 'A';
      assert !IsWhiteSpace(request.email[0]) && !IsWhiteSpace(request.password[0]);
      b
    else b
  }

  // ----- the actions, as values -----

  /** What `LoginWithOtp` answers: validation first, then the credential check,
      then the fixed demo user with the submitted phone number. */
  function OtpLogin(body: Option<OtpLoginRequest>): (r: LoginResult)
    ensures r.ValidationProblem? <==> !OtpModelValid(body)
    ensures r.LoginOk? <==> body == Some(OtpLoginRequest(DemoOtpPhone, DemoOtpCode))
    ensures r.Unauthorized? ==> r.message == OtpRejected
    ensures r.LoginOk? ==>
      r.response.message == OtpAccepted &&
      r.response.user == CreateEndUser("user-001", "John Doe", body.value.phoneNumber)
  {
    if !OtpModelValid(body) then
      assert IsValidOtp(OtpLoginRequest(DemoOtpPhone, DemoOtpCode));
      ValidationProblem
    else if !IsValidOtp(body.value) then Unauthorized(OtpRejected)
    else LoginOk(LoginResponse(CreateEndUser("user-001", "John Doe", body.value.phoneNumber), OtpAccepted))
  }

  /** What `LoginAdmin` answers: validation first, then the credential check, then
      the fixed demo admin with the email exactly as submitted. */
  function AdminLogin(body: Option<AdminLoginRequest>, isEmail: string -> bool): (r: LoginResult)
    ensures r.ValidationProblem? <==> !AdminModelValid(body, isEmail)
    ensures r.LoginOk? <==> body.Some? && IsValidAdmin(body.value) && isEmail(body.value.email)
    ensures r.Unauthorized? ==> r.message == AdminRejected
    ensures r.LoginOk? ==>
      r.response.message == AdminAccepted &&
      r.response.user == CreateAdmin("admin-001", "Admin", body.value.email)
  {
    if !AdminModelValid(body, isEmail) then ValidationProblem
    else if !IsValidAdmin(body.value) then Unauthorized(AdminRejected)
    else LoginOk(LoginResponse(CreateAdmin("admin-001", "Admin", body.value.email), AdminAccepted))
  }

  /** The session bag after a login action: written only on success. */
  function AfterLogin(entries: map<string, string>, r: LoginResult): (after: map<string, string>)
    ensures r.LoginOk? ==> StoredUser(after) == Decoded(Some(r.response.user))
    ensures !r.LoginOk? ==> after == entries
    ensures forall k :: k != UserKey ==> (k in after <==> k in entries) && (k in entries ==> after[k] == entries[k])
  {
    if r.LoginOk? then
      GetAfterSet(entries, r.response.user);
      entries[UserKey := Encode(r.response.user)]
    else entries
  }

  // ----- the actions, on the request's session -----

  method LoginWithOtp(session: Session, body: Option<OtpLoginRequest>) returns (r: LoginResult)
    modifies session
    ensures r == OtpLogin(body)
    ensures session.entries == AfterLogin(old(session.entries), r)
  {
    if !OtpModelValid(body) {
      return ValidationProblem;
    }
    if !IsValidOtp(body.value) {
      return Unauthorized(OtpRejected);
    }
    var sessionUser := CreateEndUser("user-001", "John Doe", body.value.phoneNumber);
    session.SetUser(sessionUser);
    r := LoginOk(LoginResponse(sessionUser, OtpAccepted));
  }

  method LoginAdmin(session: Session, body: Option<AdminLoginRequest>, isEmail: string -> bool)
    returns (r: LoginResult)
    modifies session
    ensures r == AdminLogin(body, isEmail)
    ensures session.entries == AfterLogin(old(session.entries), r)
  {
    if !AdminModelValid(body, isEmail) {
      return ValidationProblem;
    }
    if !IsValidAdmin(body.value) {
      return Unauthorized(AdminRejected);
    }
    var sessionUser := CreateAdmin("admin-001", "Admin", body.value.email);
    session.SetUser(sessionUser);
    r := LoginOk(LoginResponse(sessionUser, AdminAccepted));
  }

  /** `Logout`: always succeeds, whatever the bag held, and leaves no user. */
  method Logout(session: Session) returns (r: MessageResponse)
    modifies session
    ensures r == MessageResponse(LoggedOut)
    ensures session.entries == old(session.entries) - {UserKey}
    ensures StoredUser(session.entries) == Decoded(None)
  {
    session.ClearUser();
    r := MessageResponse(LoggedOut);
  }

  // ----- properties -----

  /** A successful login of either kind stores a well-formed record whose role
      matches the endpoint. */
  lemma LoginStoresWellFormedUser(otp: Option<OtpLoginRequest>, admin: Option<AdminLoginRequest>, isEmail: string -> bool)
    ensures OtpLogin(otp).LoginOk? ==> WellFormed(OtpLogin(otp).response.user) && OtpLogin(otp).response.user.role == RoleUser
    ensures AdminLogin(admin, isEmail).LoginOk? ==>
      WellFormed(AdminLogin(admin, isEmail).response.user) && AdminLogin(admin, isEmail).response.user.role == RoleAdmin
  {
  }

  /** A rejected login does not touch the session. */
  lemma RejectedLoginKeepsSession(entries: map<string, string>, r: LoginResult)
    requires !r.LoginOk?
    ensures AfterLogin(entries, r) == entries
  {
  }

  /** The demo OTP pair signs in John Doe; a wrong code or a padded phone is
      rejected with the generic message; a blank field or a missing body fails
      validation. */
  lemma OtpScenarios()
    ensures OtpLogin(Some(OtpLoginRequest("5551234567", "246810"))) ==
      LoginOk(LoginResponse(SessionUser("user-001", "John Doe", "user", Some("5551234567"), None), "OTP login successful."))
    ensures OtpLogin(Some(OtpLoginRequest("5551234567", "000000"))) == Unauthorized("Invalid phone number or OTP.")
    ensures OtpLogin(Some(OtpLoginRequest("", "246810"))) == ValidationProblem
    ensures OtpLogin(Some(OtpLoginRequest("5551234567", "   "))) == ValidationProblem
    ensures OtpLogin(Some(OtpLoginRequest(" 5551234567", "246810"))) == Unauthorized("Invalid phone number or OTP.")
    ensures OtpLogin(None) == ValidationProblem
  {
    assert !IsWhiteSpace("000000"[0]) && !IsWhiteSpace(" 5551234567"[1]);
    assert !Required("") && !Required("   ");
  }

  /** Texts that agree ignoring case still do after the same suffix. */
  lemma FoldEqualWithSuffix(p: string, q: string, suffix: string)
    requires |p| == |q| && forall i :: 0 <= i < |p| ==> FoldCase(p[i]) == FoldCase(q[i])
    ensures forall i :: 0 <= i < |p + suffix| ==> FoldCase((p + suffix)[i]) == FoldCase((q + suffix)[i])
  {
    forall i | 0 <= i < |p + suffix|
      ensures FoldCase((p + suffix)[i]) == FoldCase((q + suffix)[i])
    {
      if i >= |p| {
        assert (p + suffix)[i] == suffix[i - |p|] == (q + suffix)[i];
      }
    }
  }

  /** The demo address in capitals passes the ignore-case comparison. */
  lemma UpperCaseDemoEmailAccepted()
    ensures IsValidAdmin(AdminLoginRequest("ADMIN@example.com", "SuperSecure123!"))
  {
    var domain := DemoAdminEmail[5..];
    assert "ADMIN@example.com" == "ADMIN" + domain && DemoAdminEmail == "admin" + domain;
    assert FoldCase('a') == 'A' && FoldCase('d') == 'D' && FoldCase('m') == 'M' && FoldCase('i') == 'I' && FoldCase('n') == 'N';
    FoldEqualWithSuffix("ADMIN", "admin", domain);
  }

  /** The email is compared ignoring case but stored as submitted; the password
      is compared exactly. */
  lemma AdminScenarios(isEmail: string -> bool)
    requires isEmail("ADMIN@example.com") && isEmail("admin@example.com")
    ensures AdminLogin(Some(AdminLoginRequest("ADMIN@example.com", "SuperSecure123!")), isEmail) ==
      LoginOk(LoginResponse(SessionUser("admin-001", "Admin", "admin", None, Some("ADMIN@example.com")), "Admin login successful."))
    ensures AdminLogin(Some(AdminLoginRequest("admin@example.com", "wrong")), isEmail) == Unauthorized("Invalid admin credentials.")
  {
    var upper := AdminLoginRequest("ADMIN@example.com", "SuperSecure123!");
    UpperCaseDemoEmailAccepted();
    assert Required(upper.email) && Required(upper.password);
    assert AdminModelValid(Some(upper), isEmail);
    var wrong := AdminLoginRequest("admin@example.com", "wrong");
    assert Required(wrong.email) by {
      assert !IsWhiteSpace(wrong.email[0]);
    }
    assert Required(wrong.password) by {
      assert !IsWhiteSpace(wrong.password[0]);
    }
    assert wrong.password != DemoAdminPassword;
    assert !IsValidAdmin(wrong);
  }

  /** Unlike the email, the password is not compared ignoring case. */
  lemma AdminPasswordIsExact(isEmail: string -> bool)
    requires isEmail("admin@example.com")
    ensures AdminLogin(Some(AdminLoginRequest("admin@example.com", "SUPERSECURE123!")), isEmail) == Unauthorized("Invalid admin credentials.")
  {
    assert !IsWhiteSpace("SUPERSECURE123!"[0]) && !IsWhiteSpace("admin@example.com"[0]);
    assert "SUPERSECURE123!"[1] != DemoAdminPassword[1];
  }
}
