/** The HTTP error interceptor: every failed request raises one error alert whose text is
    chosen from the kind of failure and its status, and the error is passed on unchanged. */
module ErrorInterceptor {
  import opened Text
  import Alerts

  /** A failed request: a client-side `ErrorEvent`, or a server reply with its status, the
      `message` field of its body (empty when absent) and its status text. */
  datatype HttpFailure =
    | ClientFailure(eventMessage: string)
    | ServerFailure(status: int, bodyMessage: string, statusText: string)

  /** `error.error?.message || fallback`. */
  function OrElse(bodyMessage: string, fallback: string): string
  {
    if bodyMessage != [] then bodyMessage else fallback
  }

  /** The alert text for a failure. */
  function ErrorMessage(e: HttpFailure): (m: string)
    ensures m != []
    ensures e.ClientFailure? ==> m == "Error: " + e.eventMessage
    ensures e.ServerFailure? && e.status !in {401, 403, 500} && e.bodyMessage != [] ==> m == e.bodyMessage
  {
    match e
    case ClientFailure(msg) => "Error: " + msg
    case ServerFailure(status, body, text) =>
      if status == 400 then OrElse(body, "Bad request")
      else if status == 401 then "Unauthorized. Please login again."
      else if status == 403 then "Access forbidden"
      else if status == 404 then OrElse(body, "Resource not found")
      else if status == 500 then "Server error. Please try again later."
      else OrElse(body, "Error: " + IntToString(status) + " " + text)
  }

  /** A client-side failure shows its own message after "Error: ". */
  lemma ClientMessageQuoted(msg: string)
    ensures ErrorMessage(ClientFailure(msg)) == "Error: " + msg
    ensures ErrorMessage(ClientFailure(msg))[7..] == msg
  {
  }

  /** 401, 403 and 500 give fixed texts whatever the server sent. */
  lemma FixedMessagesIgnoreBody(status: int, body1: string, text1: string, body2: string, text2: string)
    requires status in {401, 403, 500}
    ensures ErrorMessage(ServerFailure(status, body1, text1)) == ErrorMessage(ServerFailure(status, body2, text2))
    ensures status == 401 ==> ErrorMessage(ServerFailure(status, body1, text1)) == "Unauthorized. Please login again."
    ensures status == 403 ==> ErrorMessage(ServerFailure(status, body1, text1)) == "Access forbidden"
    ensures status == 500 ==> ErrorMessage(ServerFailure(status, body1, text1)) == "Server error. Please try again later."
  {
  }

  /** For every other status the server's own message wins when it has one. */
  lemma ServerMessageWins(status: int, body: string, text: string)
    requires status !in {401, 403, 500} && body != []
    ensures ErrorMessage(ServerFailure(status, body, text)) == body
  {
  }

  /** Without a server message: the fixed fallback for 400 and 404, and otherwise the
      status and its text. */
  lemma FallbackMessages(status: int, text: string)
    ensures status == 400 ==> ErrorMessage(ServerFailure(status, "", text)) == "Bad request"
    ensures status == 404 ==> ErrorMessage(ServerFailure(status, "", text)) == "Resource not found"
    ensures status !in {400, 401, 403, 404, 500} ==>
              ErrorMessage(ServerFailure(status, "", text)) == "Error: " + IntToString(status) + " " + text
  {
  }

  /** What the interceptor does with a failure: the alert it raises and the error it
      rethrows. */
  datatype Outcome = Outcome(alert: Alerts.Alert, rethrown: HttpFailure)

  /** The interceptor at clock reading `now`: one error alert that stays until dismissed,
      and the same failure rethrown. */
  function Intercept(e: HttpFailure, now: nat): (o: Outcome)
    ensures o.rethrown == e
    ensures o.alert.kind == Alerts.Error && !o.alert.autoClose && o.alert.message != []
  {
    Outcome(Alerts.NewAlert(Alerts.Error, ErrorMessage(e), false, now), e)
  }

  /** Running the interceptor against the alert service appends exactly its one alert. */
  method HandleFailure(service: Alerts.AlertService, e: HttpFailure, now: nat) returns (rethrown: HttpFailure)
    modifies service
    ensures service.alerts == old(service.alerts) + [Intercept(e, now).alert]
    ensures rethrown == e
  {
    var _ := service.Error(ErrorMessage(e), now);
    rethrown := e;
  }
}
