# Shared session across a .NET backend, two Angular portals and a Next.js hub

This project models the shared-session core of the *multi-workspace* demo. It has three parts.

The ASP.NET Core backend keeps one `SessionUser` record in the cookie-bound session:
- an OTP login (`POST /api/authentication/login/otp`) stores an end user;
- an admin login (`POST /api/authentication/login/admin`) stores an administrator;
- `POST /api/authentication/logout` removes the record;
- `GET /api/session/me` reports the record, or answers 401.

Three front ends read the same session:
- the Angular user portal, with `SessionService` and its root `App`;
- the Angular admin portal, with `AdminSessionService` and its root `App`, which also shows three demo applications;
- the Next.js hub page, which signs in with the OTP demo credentials.

Modules follow the source files:

| module | models |
|---|---|
| `Models` | `SessionUser` and its factories |
| `Codec` | the JSON text the session store holds |
| `SessionExtensions` | the session bag as a class and `SetUser`/`GetUser`/`ClearUser` |
| `AuthenticationController`, `SessionController` | the actions: a pure answer function each, plus a method on the session object |
| `SessionClient` | how an awaited `HttpClient` call settles; the status banner |
| `SessionService`, `AdminSessionService` | the two Angular services, as classes |
| `UserPortalApp`, `AdminPortalApp` | the two Angular root components, as classes |
| `UrlSearchParams` | query-string reads and `URLSearchParams.set` |
| `HubPage` | `fetchJson`, the hub's state and handlers, the details table |
| `Protocol` | how each backend answer reaches each client, and what the clients then believe |

Every `async` handler is split at its `await` into a Begin method and a Complete method. Other events may run between the two. `Valid()` ties the `loading`/`isSubmitting` flags to a record of the pending awaits, which shows that the re-entrancy guards hold. In the user portal and the hub that record is a ghost counter. The admin portal instead keeps a non-ghost `inFlight` field that names the pending request: a submit with the form values it sent, or a logout. A status object carries an `identity`, which stands for JavaScript object identity under `===`. Each pending status timeout is a ghost entry that a `StatusTimeout` event consumes.

The network is an input. Each Complete method takes the settled outcome of its request. `Protocol` says which outcome each backend answer produces.

## Model

| member | source | states |
|---|---|---|
| Models.CreateEndUser | apps/backend-dotnet/Models/SessionUser.cs:17-18 | the record has role "user", the given id, name and phone, and no email; it is well-formed |
| Models.CreateAdmin | apps/backend-dotnet/Models/SessionUser.cs:20-21 | the record has role "admin", the given id, name and email, and no phone; it is well-formed |
| Models.WellFormedIsFactoryOutput | apps/backend-dotnet/Models/SessionUser.cs:3-21 | a record is well-formed iff it is the output of the factory its role names |
| Models.WellFormedExactlyOneContact | apps/backend-dotnet/Models/SessionUser.cs:9-21 | a well-formed record has exactly one contact field, and the role decides which |
| Models.FactoriesDisjoint | apps/backend-dotnet/Models/SessionUser.cs:17-21 | no end user equals an administrator, whatever the fields |
| Codec.Encode | apps/backend-dotnet/Extensions/SessionExtensions.cs:15 | the serialization is a JSON object text, never the literal `null` (what it reads back as is `DecodeEncode`) |
| Codec.Decode | apps/backend-dotnet/Extensions/SessionExtensions.cs:22 | deserializing yields "no user" exactly for the literal `null`; every other text is a record or an exception |
| Codec.DecodeEncode | apps/backend-dotnet/Extensions/SessionExtensions.cs:13-23 | deserializing what `SetUser` serialized gives back the same record |
| Codec.EncodeDecode | apps/backend-dotnet/Extensions/SessionExtensions.cs:13-23 | any text that deserializes to a record is exactly that record's serialization |
| Codec.EncodeInjective | apps/backend-dotnet/Extensions/SessionExtensions.cs:13-17 | different records are stored as different texts |
| SessionExtensions.StoredUser | apps/backend-dotnet/Extensions/SessionExtensions.cs:19-23 | a bag without the key holds no user; "no user" means no key or a stored `null`; a held user is the decoding of the stored text |
| SessionExtensions.Session.SetUser | apps/backend-dotnet/Extensions/SessionExtensions.cs:13-17 | the key "session-user" maps to the record's serialization, and no other key changes |
| SessionExtensions.Session.GetUser | apps/backend-dotnet/Extensions/SessionExtensions.cs:19-23 | the result is the stored user read from the bag, including a deserialization exception; the bag is unchanged |
| SessionExtensions.Session.ClearUser | apps/backend-dotnet/Extensions/SessionExtensions.cs:25-28 | the key is removed, and no other key changes |
| SessionExtensions.GetAfterSet | apps/backend-dotnet/Extensions/SessionExtensions.cs:13-23 | after SetUser(u), GetUser yields u whatever the bag held before |
| SessionExtensions.GetAfterOverwrite | apps/backend-dotnet/Extensions/SessionExtensions.cs:13-23 | a second SetUser replaces the first record |
| SessionExtensions.GetAfterClear | apps/backend-dotnet/Extensions/SessionExtensions.cs:19-28 | after ClearUser, GetUser yields no user |
| SessionExtensions.StoredUserIffEncoded | apps/backend-dotnet/Extensions/SessionExtensions.cs:13-23 | the bag holds u iff the key maps to u's serialization |
| AuthenticationController.EqualsIgnoreCase | apps/backend-dotnet/Controllers/AuthenticationController.cs:75-77 | two strings are equal ignoring case iff they have the same length and equal folded characters at every index |
| AuthenticationController.IsValidOtp | apps/backend-dotnet/Controllers/AuthenticationController.cs:71-73 | true iff both phone and code equal the demo values exactly |
| AuthenticationController.IsValidAdmin | apps/backend-dotnet/Controllers/AuthenticationController.cs:75-77 | true iff the email equals the demo email ignoring case and the password equals the demo password exactly |
| AuthenticationController.OtpLogin | apps/backend-dotnet/Controllers/AuthenticationController.cs:18-39 | a 400 iff the body fails `[Required]`; success iff the body is the demo phone and code; a 401 carries "Invalid phone number or OTP."; success carries user-001 "John Doe" with the submitted phone and "OTP login successful." |
| AuthenticationController.AdminLogin | apps/backend-dotnet/Controllers/AuthenticationController.cs:41-62 | a 400 iff the body fails `[Required, EmailAddress]`/`[Required]`; success iff the credentials match; a 401 carries "Invalid admin credentials."; success carries admin-001 "Admin" with the email as submitted and "Admin login successful." |
| AuthenticationController.Required | apps/backend-dotnet/Controllers/AuthenticationController.cs:79-95 | `[Required]` on a string: some character is not white space |
| AuthenticationController.OtpModelValid | apps/backend-dotnet/Controllers/AuthenticationController.cs:79-86 | the OTP body bound and both fields pass `[Required]` |
| AuthenticationController.AdminModelValid | apps/backend-dotnet/Controllers/AuthenticationController.cs:88-95 | the admin body bound, both fields pass `[Required]`, and the email passes the format check |
| AuthenticationController.AfterLogin | apps/backend-dotnet/Controllers/AuthenticationController.cs:31-61 | after a successful login the bag holds the login's user; after a refused one it is unchanged; other keys never change |
| AuthenticationController.LoginWithOtp | apps/backend-dotnet/Controllers/AuthenticationController.cs:18-39 | answers `OtpLogin`, and writes the session only on success |
| AuthenticationController.LoginAdmin | apps/backend-dotnet/Controllers/AuthenticationController.cs:41-62 | answers `AdminLogin`, and writes the session only on success |
| AuthenticationController.Logout | apps/backend-dotnet/Controllers/AuthenticationController.cs:64-69 | always answers "Session cleared."; only the user key is removed; afterwards no user is stored |
| AuthenticationController.LoginStoresWellFormedUser | apps/backend-dotnet/Controllers/AuthenticationController.cs:31-61 | a successful login stores a well-formed record: role "user" from the OTP endpoint, role "admin" from the admin endpoint |
| AuthenticationController.RejectedLoginKeepsSession | apps/backend-dotnet/Controllers/AuthenticationController.cs:21-29 | a rejected login leaves the bag exactly as it was |
| AuthenticationController.OtpScenarios | apps/backend-dotnet/Controllers/AuthenticationController.cs:12-39 | the demo pair succeeds; a wrong code or a padded phone gets a 401; an empty or blank field, or a missing body, gets a 400 |
| AuthenticationController.UpperCaseDemoEmailAccepted | apps/backend-dotnet/Controllers/AuthenticationController.cs:75-77 | "ADMIN@example.com" passes the credential check |
| AuthenticationController.AdminScenarios | apps/backend-dotnet/Controllers/AuthenticationController.cs:41-77 | an upper-case email is accepted and stored as typed; a wrong password is refused with a 401 |
| AuthenticationController.AdminPasswordIsExact | apps/backend-dotnet/Controllers/AuthenticationController.cs:75-77 | the demo password in capitals is refused with a 401: the password comparison is case-sensitive |
| SessionController.CurrentUserResponse | apps/backend-dotnet/Controllers/SessionController.cs:11-21 | no key means 401 "No active session."; a 200 carries the record whose serialization is stored, and every stored record is reported; a 401 exactly when no user is stored, an escaped exception exactly when the entry cannot be read |
| SessionController.GetCurrentUser | apps/backend-dotnet/Controllers/SessionController.cs:11-21 | answers `CurrentUserResponse` of the bag, without writing it |
| SessionController.CurrentUserAfterLogin | apps/backend-dotnet/Controllers/SessionController.cs:11-21 | after a successful login the endpoint reports that login's user; after a rejected one it answers as before |
| SessionController.CurrentUserAfterLogout | apps/backend-dotnet/Controllers/SessionController.cs:11-21 | after logout the endpoint reports no active session, whatever the bag held |
| SessionController.OtpLoginReadLogoutRead | apps/backend-dotnet/Controllers/SessionController.cs:11-21 | the demo round of OTP login, read, logout, read gives user-001 and then 401 |
| SessionClient.Posted | apps/frontend-angular1/src/app/services/session.service.ts:44-72 | an awaited post returns iff the request succeeded, with its body; otherwise it throws the response's status and text |
| SessionClient.Refreshed | apps/frontend-angular1/src/app/services/session.service.ts:24-42 | a 401 returns null and never throws; a user is returned only from a 200; any other failure throws the same status |
| SessionClient.UnauthorizedIsNoSession | apps/frontend-angular2/src/app/services/admin-session.service.ts:58-74 | a 401 means "no session", whatever its body |
| SessionService.SessionService.constructor | apps/frontend-angular1/src/app/services/session.service.ts:16 | the service starts with no cached user |
| SessionService.SessionService.Snapshot | apps/frontend-angular1/src/app/services/session.service.ts:20-22 | the snapshot is the cached user |
| SessionService.SessionService.RefreshSession | apps/frontend-angular1/src/app/services/session.service.ts:24-42 | the result is `Refreshed`; the cache follows a returned value and is kept when the error is rethrown |
| SessionService.SessionService.LoginWithOtp | apps/frontend-angular1/src/app/services/session.service.ts:44-57 | the result is `Posted`; on success the cache is the response's user, on failure it is unchanged |
| SessionService.SessionService.Logout | apps/frontend-angular1/src/app/services/session.service.ts:59-72 | the result is `Posted`; on success the cache is empty, on failure it is unchanged |
| AdminSessionService.DemoApplications | apps/frontend-angular2/src/app/services/admin-session.service.ts:30-52 | three applications app-001 to app-003 with distinct ids, newest first, the first stamped at creation time |
| AdminSessionService.AdminSessionService.constructor | apps/frontend-angular2/src/app/services/admin-session.service.ts:23-52 | the service starts with no cached user and holds the three demo applications for the clock it is given |
| AdminSessionService.AdminSessionService.IsAuthenticated | apps/frontend-angular2/src/app/services/admin-session.service.ts:26 | authenticated iff a user is cached |
| AdminSessionService.AdminSessionService.GetApplications | apps/frontend-angular2/src/app/services/admin-session.service.ts:54-56 | every call returns the same list |
| AdminSessionService.AdminSessionService.RefreshSession | apps/frontend-angular2/src/app/services/admin-session.service.ts:58-74 | the result is `Refreshed`; the state follows a returned value and is kept on a rethrow |
| AdminSessionService.AdminSessionService.Login | apps/frontend-angular2/src/app/services/admin-session.service.ts:76-87 | the result is `Posted`; on success the state is the response's user, on failure it is unchanged |
| AdminSessionService.AdminSessionService.Logout | apps/frontend-angular2/src/app/services/admin-session.service.ts:89-100 | the result is `Posted`; on success the state is empty, on failure it is unchanged |
| UrlSearchParams.Get | apps/frontend-angular1/src/app/app.ts:49-53 | a found value is that of the first pair with the name; "not found" means no pair has the name |
| UrlSearchParams.RemoveAll | apps/frontend-angular2/src/app/app.ts:122-124 | the result has no pair with the name, holds exactly the other pairs, and is shorter by the number of pairs with the name |
| UrlSearchParams.RemoveAllConcat | apps/frontend-angular2/src/app/app.ts:122-124 | removing distributes over concatenation, so the kept pairs keep their order and multiplicity |
| UrlSearchParams.RemoveAllWithoutName | apps/frontend-angular2/src/app/app.ts:122-124 | a list without the name is left exactly as it was |
| UrlSearchParams.SetParam | apps/frontend-angular2/src/app/app.ts:122-124 | `set` keeps the pairs ahead of the first one with the name, puts the new pair in its place (at the end when there is none) and drops the later pairs with the name; the list is shorter by the occurrences of the name less one |
| UrlSearchParams.SetParamKeepsOthers | apps/frontend-angular2/src/app/app.ts:122-124 | `set` leaves the pairs with other names exactly as they were, in order and multiplicity |
| UrlSearchParams.SetParamGet | apps/frontend-angular2/src/app/app.ts:122-124 | after `set`, the name reads back the new value and occurs once; every other name reads as before |
| UrlSearchParams.GetRemoveAll | apps/frontend-angular2/src/app/app.ts:122-124 | removing one name does not change what another name reads |
| UrlSearchParams.NoOccurrences | apps/frontend-angular2/src/app/app.ts:122-124 | a list without the name has no occurrence of it |
| UrlSearchParams.SearchParams.Set | apps/frontend-angular2/src/app/app.ts:122-124 | the pairs become `SetParam` of the old pairs |
| UserPortalApp.App.constructor | apps/frontend-angular1/src/app/app.ts:31-36 | no status, not loading, checking, no session, not handed off from the admin portal, an empty admin name, no pending timeout or await |
| UserPortalApp.App.SetStatus | apps/frontend-angular1/src/app/app.ts:114-123 | a message becomes a new status object with a pending timeout; null clears the status |
| UserPortalApp.App.StatusTimeout | apps/frontend-angular1/src/app/app.ts:117-121 | a timeout clears the status only if its own status object is still shown |
| UserPortalApp.App.ClearStatus | apps/frontend-angular1/src/app/app.ts:110-112 | the status is cleared and nothing else changes |
| UserPortalApp.App.NgOnInit | apps/frontend-angular1/src/app/app.ts:48-58 | `from=admin` sets the hand-off flag; a non-empty `admin` value sets the admin name; a refresh without spinner starts |
| UserPortalApp.App.BeginRefresh | apps/frontend-angular1/src/app/app.ts:60-66 | the spinner is raised only when asked for |
| UserPortalApp.App.CompleteRefresh | apps/frontend-angular1/src/app/app.ts:65-81 | the session follows a returned value; an admin's name fills only an empty admin name; a thrown error shows the fixed message; the spinner always drops |
| UserPortalApp.App.BeginLogout | apps/frontend-angular1/src/app/app.ts:83-89 | ignored while a logout is in flight; otherwise raises `loading`, so at most one logout is ever pending |
| UserPortalApp.App.CompleteLogout | apps/frontend-angular1/src/app/app.ts:91-103 | success empties the session and shows the server's message; failure keeps it and shows the fixed message; `loading` drops |
| AdminPortalApp.FormValid | apps/frontend-angular2/src/app/app.ts:30-33 | the form is valid when both fields are non-empty and the email passes the format check |
| AdminPortalApp.App.constructor | apps/frontend-angular2/src/app/app.ts:30-42 | the form holds the demo email and password, no status, not loading, checking, nothing in flight, and the applications are the service's list |
| AdminPortalApp.App.Session | apps/frontend-angular2/src/app/app.ts:38 | the session the template shows is the service's cached user |
| AdminPortalApp.App.SetStatus | apps/frontend-angular2/src/app/app.ts:142-151 | a message becomes a new status object with a pending timeout; null clears the status |
| AdminPortalApp.App.StatusTimeout | apps/frontend-angular2/src/app/app.ts:145-149 | a timeout clears the status only if its own status object is still shown |
| AdminPortalApp.App.ClearStatus | apps/frontend-angular2/src/app/app.ts:138-140 | the status is cleared and nothing else changes |
| AdminPortalApp.App.EditForm | apps/frontend-angular2/src/app/app.ts:30-33 | the form holds the typed email and password |
| AdminPortalApp.App.ResetDemoValues | apps/frontend-angular2/src/app/app.ts:128-136 | the form holds the demo email and password again |
| AdminPortalApp.App.BeginSubmit | apps/frontend-angular2/src/app/app.ts:51-59 | nothing is sent iff the form is invalid or a request is in flight; otherwise the form's values are sent, `loading` is raised and the status cleared |
| AdminPortalApp.App.CompleteSubmit | apps/frontend-angular2/src/app/app.ts:60-76 | success caches the user and shows the server's message; failure keeps the state and shows the fixed fallback; `loading` drops |
| AdminPortalApp.App.NgOnInit | apps/frontend-angular2/src/app/app.ts:47-49 | a refresh without spinner starts |
| AdminPortalApp.App.BeginRefresh | apps/frontend-angular2/src/app/app.ts:78-82 | the spinner is raised only when asked for |
| AdminPortalApp.App.CompleteRefresh | apps/frontend-angular2/src/app/app.ts:83-95 | the state follows a returned value; a thrown error shows the fixed message; the spinner always drops |
| AdminPortalApp.App.BeginLogout | apps/frontend-angular2/src/app/app.ts:97-103 | ignored while a request is in flight; otherwise raises `loading` and clears the status |
| AdminPortalApp.App.CompleteLogout | apps/frontend-angular2/src/app/app.ts:104-117 | success empties the state and shows the server's message; failure shows "Could not clear the admin session. Try again."; `loading` drops |
| AdminPortalApp.App.OpenApplication | apps/frontend-angular2/src/app/app.ts:119-126 | the link's query reads appId = the application's id, admin = the session's name or "", from = admin; every other name reads as before; the query is exactly the three `set` calls applied in order to the base query, so the pairs with other names are kept in order and multiplicity |
| AdminPortalApp.SetThreeGet | apps/frontend-angular2/src/app/app.ts:122-124 | the three `set` calls leave the three values readable and every other name unchanged |
| AdminPortalApp.SetKeepsOtherReads | apps/frontend-angular2/src/app/app.ts:122-124 | one `set` call: its name reads the new value and every other name reads as before |
| Common.NatToDecimal | apps/frontend-nextjs/src/app/page.tsx:54 | the rendering of a status code is non-empty, all digits, with no leading zero |
| Common.DecimalRoundTrip | apps/frontend-nextjs/src/app/page.tsx:54 | the rendered status code reads back as the same number |
| HubPage.FetchJson | apps/frontend-nextjs/src/app/page.tsx:38-58 | tagged 401 iff the response is a 401; another non-2xx status rejects with the body text, or "Request failed with status N" when the body is empty; a 2xx resolves to the parsed body; a network failure rejects untagged |
| HubPage.StatusRecoverable | apps/frontend-nextjs/src/app/page.tsx:52-55 | the status of an empty-bodied failure can be read back from the error message |
| HubPage.SessionDetails | apps/frontend-nextjs/src/app/page.tsx:156-168 | no table iff no session; otherwise five rows User, Name, Role, Phone, Email, with "—" for a missing contact |
| HubPage.DetailsOfFactoryRecords | apps/frontend-nextjs/src/app/page.tsx:156-168 | an end user's table shows the phone and a dash for email; an admin's shows the reverse |
| HubPage.Page.SignInDisabled | apps/frontend-nextjs/src/app/page.tsx:250 | sign-in is disabled while submitting or while a session is shown |
| HubPage.Page.LogoutDisabled | apps/frontend-nextjs/src/app/page.tsx:299 | logout is disabled exactly when no session is shown |
| HubPage.Page.constructor | apps/frontend-nextjs/src/app/page.tsx:61-65 | no session, no status, checking, not submitting, the OTP demo values in the form |
| HubPage.Page.UpdateStatus | apps/frontend-nextjs/src/app/page.tsx:67-72 | the status is set, and a timeout is scheduled for a non-null one |
| HubPage.Page.StatusTimeout | apps/frontend-nextjs/src/app/page.tsx:70 | a timeout clears whatever status is shown, even a later one |
| HubPage.Page.EditForm | apps/frontend-nextjs/src/app/page.tsx:215-240 | the form holds the typed phone and code |
| HubPage.Page.ResetForm | apps/frontend-nextjs/src/app/page.tsx:263 | the form holds the OTP demo values again |
| HubPage.Page.GetSession | apps/frontend-nextjs/src/app/page.tsx:74-97 | a user is taken; a 401 empties the session; any other failure keeps it and shows the fixed backend-unreachable message; the check ends |
| HubPage.Page.BeginLogin | apps/frontend-nextjs/src/app/page.tsx:103-116 | callable only while the button is enabled (line 250); sends the form, raises `isSubmitting` and clears the status, so one sign-in at a time |
| HubPage.Page.CompleteLogin | apps/frontend-nextjs/src/app/page.tsx:117-131 | success takes the response's user and message; failure keeps the session and shows the error's message; `isSubmitting` drops |
| HubPage.Page.BeginLogout | apps/frontend-nextjs/src/app/page.tsx:136-137 | callable whenever a session is shown (line 299), even with a logout pending; clears the status |
| HubPage.Page.CompleteLogout | apps/frontend-nextjs/src/app/page.tsx:138-153 | success empties the session and shows "Session cleared."; failure keeps it and shows the error's message |
| HubPage.TwoLogoutsInFlight | apps/frontend-nextjs/src/app/page.tsx:136-154 | while a first logout awaits its answer the logout button is still enabled, so a second request can be sent |
| Protocol.MeOverHttp | apps/backend-dotnet/Controllers/SessionController.cs:11-21 | a client sees a 200 iff the endpoint reports a user, with that user, and a 401 iff it reports no session |
| Protocol.MeOverFetch | apps/backend-dotnet/Controllers/SessionController.cs:11-21 | the hub sees a 2xx iff a user is reported, with its serialization as body, and a 401 iff no session |
| Protocol.LoginOverHttp | apps/backend-dotnet/Controllers/AuthenticationController.cs:18-62 | a client sees a 200 iff the login succeeded, with the response; a 401 with the message body; a 400 with the problem document |
| Protocol.LoginOverFetch | apps/backend-dotnet/Controllers/AuthenticationController.cs:18-62 | the hub sees a 2xx iff the login succeeded, and a 401 iff it was refused |
| Protocol.MessageBody | apps/backend-dotnet/Controllers/SessionController.cs:17 | the 401 body is `{"message":` followed by a string literal that reads back as the message, then `}` |
| Protocol.LoginBody | apps/backend-dotnet/Controllers/AuthenticationController.cs:38 | the 200 body opens with `{"user":`, its user part reads back as the record and its `message` property as the message |
| Protocol.RefreshMirrorsBackend | apps/frontend-angular1/src/app/services/session.service.ts:24-42 | a portal refresh caches exactly the backend's stored user, or null; a corrupt stored entry throws a 500 instead |
| Protocol.HubCheckMirrorsBackend | apps/frontend-nextjs/src/app/page.tsx:74-97 | the hub's check resolves iff the backend holds a user, and to that user; it is tagged 401 iff the backend holds none |
| Protocol.PortalLoginAgreesWithBackend | apps/frontend-angular1/src/app/services/session.service.ts:44-57 | a portal login returns iff the backend accepted it, and returns the user the backend then reports; a refused login leaves the backend's answer unchanged |
| Protocol.HubLoginAgreesWithBackend | apps/frontend-nextjs/src/app/page.tsx:103-134 | the hub takes a user iff the backend stored one, and a session check made right after the login, with no request in between, reports that user |
| Protocol.SessionCheckAfterLogin | apps/frontend-nextjs/src/app/page.tsx:74-97 | after a successful login the hub's session check resolves to the user the login returned |
| Protocol.DefaultFormSignsIn | apps/frontend-nextjs/src/app/page.tsx:33-36 | the hub's default form is the backend's demo OTP: it signs in user-001 "John Doe", and the session check afterwards reports that user |
| Protocol.WrongOtpShowsUnauthorized | apps/frontend-nextjs/src/app/page.tsx:48-50 | a well-formed wrong OTP shows "Unauthorized" on the hub, not the backend's message |
| Protocol.InvalidOtpShowsProblem | apps/frontend-nextjs/src/app/page.tsx:52-55 | a body that fails validation shows the problem document's text, or the status line when it is empty |
| Protocol.HubDemoRound | apps/frontend-nextjs/src/app/page.tsx:33-134 | from an empty backend, signing in with the default form stores user-001, and a later page's session check shows it |

## Left out

- `Program.cs` is not part of this model: the cookie options, CORS, HTTPS redirection, the 12-hour idle timeout and the session middleware. Each request is taken to reach one shared session bag.
- The JSON library is reduced to its contract on this record. The codec escapes only `"` and `\`. The real encoder escapes more characters and writes `"` itself as `\u0022`; the codec reads no `\uXXXX` escape, so it cannot read back the real stored text of a record containing such a character. The round trip is proved for the codec's own text. Texts of other shapes (reordered or extra properties, other spacing) are treated as a deserialization failure; System.Text.Json accepts some of them.
- AuthenticationController.EqualsIgnoreCase: folds ASCII letters only, not .NET's full ordinal case-insensitive mapping of non-ASCII letters.
- AuthenticationController.AdminModelValid: the `[EmailAddress]` check, and the admin form's `Validators.email`, are a predicate parameter `isEmail`. Their exact grammars are not modelled.
- The 400 problem document and the 500 error page are parameters (`Protocol.FrameworkPages`). Their content is not modelled.
- The request bodies of the service methods are not inputs; only the settled outcome is. What the portal's admin form sends is recorded in `AdminPortalApp.App.BeginSubmit`.
- Navigation is not modelled: `goToAdminDashboard`, setting `window.location.href`, and the environment URLs. `OpenApplication` returns the query of the link instead.
- The templates and JSX, apart from the two `disabled` conditions of the hub (sign-in and logout).
- Console logging.
- The 5-second delay of each timeout: the delay is not modelled, only that the timeout fires at some later point.
- AdminSessionService.DemoApplications: the ISO-8601 rendering of `lastUpdated`; times are epoch milliseconds, and the clock is a constructor parameter.
- A Complete method runs the service's continuation and the component's continuation as one step. JavaScript runs them as two microtasks with nothing in between that this model can observe.
- React state updates are applied at once rather than batched into a later render.
- A corrupt session entry makes `GET /api/session/me` fail with a 500; it is not read as no session.
- The hub's logout has no in-flight guard.
- A validation failure is answered 400 (`ValidationProblem`).
- UserPortalApp.App.NgOnInit: the query is taken as given. Whether the root component's route snapshot already holds the page URL's query when `ngOnInit` runs depends on the router's initial navigation, which is not modelled.
