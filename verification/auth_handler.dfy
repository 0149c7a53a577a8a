/**
 * authHandler: the default handler builder with one registered extender,
 * which resolves the auth context for the request's event and sets the
 * Bearer Authorization header of RFC 6750 section 2.1.
 */
module AuthHandler {
  import opened Common
  import opened Errors
  import opened Requests
  import opened BodyProviders
  import opened AuthUtils
  import opened HandlerBuilder

  /**
   * The extender: a failed resolution propagates as it was thrown; otherwise
   * Authorization is set to the Bearer credential, overwriting any earlier
   * value, and every other header and field is passed through unchanged.
   */
  function AuthExtender(options: FetchOptions): (r: Result<FetchOptions, Thrown>)
    ensures r.Ok? <==> GetAuthContext(options.event).Ok?
    ensures r.Err? ==> r.error == GetAuthContext(options.event).error
    ensures r.Ok? ==> r.value == options.(headers := r.value.headers)
    ensures r.Ok? ==> r.value.headers.Keys == options.headers.Keys + {"Authorization"}
    ensures r.Ok? ==>
              r.value.headers["Authorization"] == BearerPrefix + GetAuthContext(options.event).value.apiAccessToken
    ensures r.Ok? ==>
              forall name | name in options.headers && name != "Authorization" ::
                r.value.headers[name] == options.headers[name]
  {
    match GetAuthContext(options.event)
    case Err(thrown) => Err(thrown)
    case Ok(auth) =>
      Ok(options.(headers := options.headers["Authorization" := BearerPrefix + auth.apiAccessToken]))
  }

  /** authHandler: every stage but the extender keeps the builder defaults. */
  function AuthHandler(defaults: Defaults): (b: Builder)
    ensures b.ops == FullInterface && b.defaults == defaults
    ensures b.ctx.httpMethod == POST
    ensures b.ctx.fetcher == defaults.fetcher && b.ctx.bodyProvider == defaults.bodyProvider
    ensures forall response :: b.ctx.postFetchTransformer(response) == Ok(response)
    ensures forall options :: b.ctx.extendFetchOptions(options) == AuthExtender(options)
  {
    BuildBackendHandler(None, defaults).ExtendFetchOptions(AuthExtender)
  }

  /**
   * A handler built from authHandler whose request cannot be authenticated
   * fails with 401 once its body is read, and its fetcher is never called.
   */
  lemma UnauthenticatedRequestNeverFetches(
    defaults: Defaults, httpMethod: Method, url: string, apiUrl: Option<string>, event: Event)
    requires Configured(apiUrl) && defaults.bodyProvider(event).Ok?
    requires GetAuthContext(event).Err?
    ensures var o := AuthHandler(defaults).WithMethod(httpMethod).Build(url).Invoke(apiUrl, event);
            && o.calls == [BodyProviderStage, ExtenderStage]
            && o.request.None?
            && o.result.Err? && o.result.error.statusCode == 401
  {
    var h := AuthHandler(defaults).WithMethod(httpMethod).Build(url);
    var initial := InitialOptions(apiUrl.value + url, httpMethod, defaults.bodyProvider(event).value, event);
    assert h.ctx.extendFetchOptions(initial) == AuthExtender(initial);
    AuthFailuresSurfaceAs401(event);
  }

  /** Whenever a handler built from authHandler fetches, the request carries the session's Bearer credential. */
  lemma FetchedRequestsCarryBearer(defaults: Defaults, url: string, apiUrl: Option<string>, event: Event)
    ensures var o := AuthHandler(defaults).Build(url).Invoke(apiUrl, event);
            o.request.Some? ==>
              && GetAuthContext(event).Ok?
              && o.request.value.headers == map["Content-Type" := "application/json",
                                                "Authorization" := BearerPrefix + GetAuthContext(event).value.apiAccessToken]
              && o.request.value.url == apiUrl.value + url
              && o.request.value.event == event
  {
    var h := AuthHandler(defaults).Build(url);
    var o := h.Invoke(apiUrl, event);
    if o.request.Some? {
      var initial := InitialOptions(apiUrl.value + url, POST, defaults.bodyProvider(event).value, event);
      assert h.ctx.extendFetchOptions(initial) == AuthExtender(initial);
    }
  }

  /**
   * An authenticated request through authHandler: the fetcher receives the
   * initial options with the Bearer credential added, and the caller gets
   * the backend's answer unchanged, or its throw normalised.
   */
  lemma AuthenticatedRequestIsForwarded(
    defaults: Defaults, httpMethod: Method, url: string, apiUrl: Option<string>, event: Event,
    body: Body, token: string)
    requires Configured(apiUrl) && defaults.bodyProvider(event) == Ok(body)
    requires GetAuthContext(event).Ok? && GetAuthContext(event).value.apiAccessToken == token
    ensures var o := AuthHandler(defaults).WithMethod(httpMethod).Build(url).Invoke(apiUrl, event);
            var sent := FetchOptions(apiUrl.value + url, httpMethod, body,
                                     map["Content-Type" := "application/json",
                                         "Authorization" := BearerPrefix + token], event);
            && o.request == Some(sent)
            && o.result == match defaults.fetcher(sent)
                           case Ok(response) => Ok(response)
                           case Err(thrown) => Err(HandleErrorAsWritten(thrown))
  {
    var h := AuthHandler(defaults).WithMethod(httpMethod).Build(url);
    var initial := InitialOptions(apiUrl.value + url, httpMethod, body, event);
    assert h.ctx.extendFetchOptions(initial) == AuthExtender(initial);
  }

  /** The credential for the access token "abc". */
  lemma BearerAbc()
    ensures BearerPrefix + "abc" == "Bearer abc"
  {
  }

  /** A backend that answers with one user. */
  function UsersBackend(options: FetchOptions): Result<Response, Thrown> {
    Ok("[{\"id\":1}]")
  }

  /** A backend that answers 404 "not found". */
  function MissingBackend(options: FetchOptions): Result<Response, Thrown> {
    Err(CreateError(404, "not found", "not found"))
  }

  /**
   * An authenticated GET to "/users" through authHandler with the default
   * body provider: the backend's answer is returned as it came, the call
   * carried "Bearer abc" and no body, whatever body the client sent.
   */
  lemma UsersRouteForwardsWithBearer(event: Event)
    requires event.session == Some(Session("user", None, Some("abc"))) && event.token.Some?
    ensures var o := AuthHandler(Defaults(UsersBackend, GetDefaultBodyProvider(None)))
                       .WithMethod(GET).Build("/users").Invoke(Some("https://api"), event);
            && o.result == Ok("[{\"id\":1}]")
            && o.request.Some?
            && o.request.value.headers["Authorization"] == "Bearer abc"
            && o.request.value.body == Undefined
            && o.request.value.httpMethod == GET
  {
    var defaults := Defaults(UsersBackend, GetDefaultBodyProvider(None));
    assert defaults.bodyProvider(event) == Ok(Undefined);
    assert GetAuthContext(event).value.apiAccessToken == "abc";
    AuthenticatedRequestIsForwarded(defaults, GET, "/users", Some("https://api"), event, Undefined, "abc");
    BearerAbc();
  }

  /** The same route when the backend answers 404 "not found": the caller gets 404 "not found" / "not found". */
  lemma MissingBackendSurfacesItsStatus(event: Event)
    requires event.session == Some(Session("user", None, Some("abc"))) && event.token.Some?
    ensures var o := AuthHandler(Defaults(MissingBackend, GetDefaultBodyProvider(None)))
                       .WithMethod(GET).Build("/users").Invoke(Some("https://api"), event);
            && o.result.Err?
            && o.result.error.statusCode == 404
            && o.result.error.statusMessage == "not found"
            && o.result.error.message == "not found"
  {
    var defaults := Defaults(MissingBackend, GetDefaultBodyProvider(None));
    assert defaults.bodyProvider(event) == Ok(Undefined);
    assert GetAuthContext(event).value.apiAccessToken == "abc";
    AuthenticatedRequestIsForwarded(defaults, GET, "/users", Some("https://api"), event, Undefined, "abc");
  }
}
