/** What the two Angular services share: how an awaited HttpClient call settles,
    how "get current session" reads a 401, and the status banner the components
    show. */
module SessionClient {
  import opened Common
  import opened Models

  /** The rejection value of an HttpClient call. It is not an `Error` instance, so
      a `catch` that tests `error instanceof Error` takes its fallback branch. */
  datatype HttpErrorResponse = HttpErrorResponse(status: int, text: string)

  /** How an awaited service call ends: it returns a value or throws. */
  datatype Completion<+T> = Returned(value: T) | Threw(error: HttpErrorResponse)

  /** An awaited `firstValueFrom(http.post(...))`: the body, or the error thrown. */
  function Posted<T>(outcome: HttpOutcome<T>): (r: Completion<T>)
    ensures r.Returned? <==> outcome.Ok?
    ensures r.Returned? ==> r.value == outcome.body
    ensures r.Threw? ==> r.error == HttpErrorResponse(outcome.status, outcome.text)
  {
    match outcome
    case Ok(body) => Returned(body)
    case Err(status, text) => Threw(HttpErrorResponse(status, text))
  }

  /** `refreshSession` in both services: a user on success, null on a 401, a
      rethrown error on anything else. */
  function Refreshed(outcome: HttpOutcome<SessionUser>): (r: Completion<Option<SessionUser>>)
    ensures r.Threw? <==> outcome.Err? && outcome.status != Unauthorized
    ensures outcome.Err? && outcome.status == Unauthorized ==> r == Returned(None)
    ensures r == Returned(None) ==> outcome.Err? && outcome.status == Unauthorized
    ensures r.Returned? && r.value.Some? ==> outcome == Ok(r.value.value)
    ensures r.Threw? ==> r.error == HttpErrorResponse(outcome.status, outcome.text)
  {
    match outcome
    case Ok(user) => Returned(Some(user))
    case Err(status, text) =>
      if status == Unauthorized then Returned(None) else Threw(HttpErrorResponse(status, text))
  }

  /** A 401 from "get current session" never throws, whatever its body says. */
  lemma UnauthorizedIsNoSession(text: string)
    ensures Refreshed(Err(Unauthorized, text)) == Returned(None)
  {
  }

  // ----- the status banner -----

  datatype StatusKind = Success | Error

  /** `StatusMessage` without its `null` case. */
  datatype StatusMessage = StatusMessage(kind: StatusKind, message: string)

  /** A displayed status object. `identity` stands for the object's reference:
      the timeout compares by `===`, so two equal-looking messages set at
      different times are different statuses. */
  datatype Status = Status(content: StatusMessage, identity: nat)
}
