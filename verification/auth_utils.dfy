/**
 * getAuthContext: the guard clauses that turn the identity provider's
 * session and token for an event into the credentials a backend call needs,
 * or into a 401 error (RFC 9110 section 15.5.2).
 */
module AuthUtils {
  import opened Common
  import opened Errors
  import opened Requests

  const RefreshAccessTokenError := "RefreshAccessTokenError"
  const Unauthorized := "Unauthorized"
  const TokenRefreshFailed := "Token Refresh Failed"
  const LoginRequiredMessage := "You must be logged in to access this resource."
  const TokensExpiredMessage :=
    "Authentication tokens have expired and could not be refreshed. Please sign in again."

  /** The authentication scheme of an Authorization header that carries an access token (RFC 6750 section 2.1). */
  const BearerPrefix := "Bearer "

  /** The resolved credentials: the session, the token and the session's API access token. */
  datatype AuthContext = AuthContext(session: Session, token: Token, apiAccessToken: string)

  /** `session?.error === "RefreshAccessTokenError"` */
  predicate RefreshFailed(session: Option<Session>) {
    session.Some? && session.value.error == Some(RefreshAccessTokenError)
  }

  /**
   * The guards run in order: a refresh-failure marker first, then a missing
   * session or token, then a session without an `apiAccessToken` field; the
   * field's presence is checked, not its value.
   */
  function GetAuthContext(event: Event): (r: Result<AuthContext, Thrown>)
    ensures r.Ok? <==>
              !RefreshFailed(event.session) && event.session.Some? && event.token.Some?
              && event.session.value.apiAccessToken.Some?
    ensures r.Ok? ==>
              r.value == AuthContext(event.session.value, event.token.value,
                                     event.session.value.apiAccessToken.value)
    ensures RefreshFailed(event.session) ==>
              r == Err(CreateError(401, TokenRefreshFailed, TokensExpiredMessage))
    ensures r.Err? && !RefreshFailed(event.session) ==>
              r == Err(CreateError(401, Unauthorized, LoginRequiredMessage))
    ensures r.Err? ==> r.error.CarriesStatusCode() && r.error.statusCode.value == 401
  {
    var session, token := event.session, event.token;
    if RefreshFailed(session) then
      Err(CreateError(401, TokenRefreshFailed, TokensExpiredMessage))
    else if session.None? || token.None? then
      Err(CreateError(401, Unauthorized, LoginRequiredMessage))
    else if session.value.apiAccessToken.None? then
      Err(CreateError(401, Unauthorized, LoginRequiredMessage))
    else
      Ok(AuthContext(session.value, token.value, session.value.apiAccessToken.value))
  }

  /** The refresh marker wins over every other guard, even when the token is missing too. */
  lemma RefreshFailureTakesPrecedence(session: Session, body: Body)
    requires session.error == Some(RefreshAccessTokenError)
    ensures GetAuthContext(Event(body, Some(session), None)).Err?
    ensures GetAuthContext(Event(body, Some(session), None)).error.statusMessage
            == Some(TokenRefreshFailed)
  {
  }

  /**
   * Once normalised by a handler's catch block, every auth failure reaches
   * the caller as 401 with its own status message and message.
   */
  lemma AuthFailuresSurfaceAs401(event: Event)
    requires GetAuthContext(event).Err?
    ensures HandleErrorAsWritten(GetAuthContext(event).error).statusCode == 401
    ensures HandleErrorAsWritten(GetAuthContext(event).error).statusMessage
            == (if RefreshFailed(event.session) then TokenRefreshFailed else Unauthorized)
    ensures HandleErrorAsWritten(GetAuthContext(event).error).message
            == (if RefreshFailed(event.session) then TokensExpiredMessage else LoginRequiredMessage)
  {
  }
}
