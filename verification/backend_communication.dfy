/**
 * defineBackendHandler: the one-shot authenticated proxy handler. Its options
 * are merged over defaults, the body is read, the auth context resolved, the
 * backend called with a JSON content type and a Bearer Authorization header,
 * and the response handed to the response handler; any throw is normalised
 * by the same policy as the handler builder's.
 */
module BackendCommunication {
  import opened Common
  import opened Errors
  import opened Requests
  import opened BodyProviders
  import opened AuthUtils

  type Fetcher = FetchOptions -> Result<Response, Thrown>
  type BackendHandler = Response -> Result<Response, Thrown>

  /** The caller's options; `None` is an omitted property. */
  datatype HandlerOptions = HandlerOptions(
    url: string,
    httpMethod: Option<Method>,
    bodyProvider: Option<BodyProvider>,
    handler: Option<BackendHandler>,
    fetcher: Option<Fetcher>)

  /** defaultHandler and defaultFetcher of the models module, which is not part of this model. */
  datatype ModelDefaults = ModelDefaults(handler: BackendHandler, fetcher: Fetcher)

  /** The merged options every stage of an invocation reads. */
  datatype EffectiveOptions = EffectiveOptions(
    url: string,
    httpMethod: Method,
    bodyProvider: BodyProvider,
    handler: BackendHandler,
    fetcher: Fetcher)

  /** The stages of an invocation in the order they run. */
  const Pipeline: seq<Stage> := [BodyProviderStage, AuthStage, FetcherStage, TransformerStage]

  /**
   * `{...defaultOptions, ...{bodyProvider: getDefaultBodyProvider(options.method)}, ...options}`:
   * the caller's options win, then the body provider derived from the
   * caller's method, then the defaults (method GET).
   */
  function MergeOptions(options: HandlerOptions, defaults: ModelDefaults): (m: EffectiveOptions)
    ensures m.url == options.url
    ensures m.httpMethod == (if options.httpMethod.Some? then options.httpMethod.value else GET)
    ensures options.bodyProvider.Some? ==> m.bodyProvider == options.bodyProvider.value
    ensures options.bodyProvider.None? ==> m.bodyProvider == GetDefaultBodyProvider(options.httpMethod)
    ensures m.handler == (if options.handler.Some? then options.handler.value else defaults.handler)
    ensures m.fetcher == (if options.fetcher.Some? then options.fetcher.value else defaults.fetcher)
  {
    var derived := GetDefaultBodyProvider(options.httpMethod);
    EffectiveOptions(
      options.url,
      options.httpMethod.GetOr(GET),
      options.bodyProvider.GetOr(derived),
      options.handler.GetOr(defaults.handler),
      options.fetcher.GetOr(defaults.fetcher))
  }

  /**
   * Without a method the handler sends GET and no body; the body provider it
   * derives always agrees with the method it sends.
   */
  lemma OmittedMethodMeansGetWithoutBody(options: HandlerOptions, defaults: ModelDefaults, event: Event)
    requires options.bodyProvider.None?
    ensures options.httpMethod.None? ==>
              MergeOptions(options, defaults).httpMethod == GET
              && MergeOptions(options, defaults).bodyProvider(event) == Ok(Undefined)
    ensures MergeOptions(options, defaults).bodyProvider(event)
            == GetDefaultBodyProvider(Some(MergeOptions(options, defaults).httpMethod))(event)
  {
  }

  /** `config.apiUrl` in a template literal: an absent value prints as "undefined". */
  function ApiUrlText(apiUrl: Option<string>): string {
    if apiUrl.Some? then apiUrl.value else "undefined"
  }

  /** The Authorization header: the Bearer credential for a truthy (non-empty) token, otherwise empty. */
  function AuthorizationValue(apiAccessToken: string): (value: string)
    ensures apiAccessToken != "" ==> value == BearerPrefix + apiAccessToken
    ensures value == "" <==> apiAccessToken == ""
  {
    if apiAccessToken != "" then BearerPrefix + apiAccessToken else ""
  }

  /** The options the fetcher is called with: exactly two headers, JSON content type and Authorization. */
  function BackendRequest(m: EffectiveOptions, apiUrl: Option<string>, body: Body, apiAccessToken: string, event: Event)
    : FetchOptions
  {
    FetchOptions(ApiUrlText(apiUrl) + m.url, m.httpMethod, body,
                 map["Content-Type" := "application/json",
                     "Authorization" := AuthorizationValue(apiAccessToken)],
                 event)
  }

  /**
   * One invocation of the handler defineBackendHandler(options) returns,
   * with the runtime configuration's `apiUrl`: the body is read before the
   * auth context is resolved, and a failed resolution stops the invocation
   * before the fetcher and the response handler.
   */
  function Invoke(options: HandlerOptions, defaults: ModelDefaults, apiUrl: Option<string>, event: Event)
    : (o: Outcome)
    ensures o.calls <= Pipeline && |o.calls| >= 1
    ensures o.result.Err? ==> o.result.error == HandleErrorAsWritten(o.result.error.originalError)
    ensures o.request.Some? <==> FetcherStage in o.calls
    ensures var m := MergeOptions(options, defaults);
            o.calls == [BodyProviderStage] ==>
              o.result.Err? && m.bodyProvider(event) == Err(o.result.error.originalError)
    ensures var m := MergeOptions(options, defaults);
            |o.calls| >= 2 ==> m.bodyProvider(event).Ok?
    ensures |o.calls| == 2 ==>
              o.result.Err? && GetAuthContext(event) == Err(o.result.error.originalError)
    ensures var m := MergeOptions(options, defaults);
            o.request.Some? ==>
              && GetAuthContext(event).Ok?
              && o.request.value == BackendRequest(m, apiUrl, m.bodyProvider(event).value,
                                                   GetAuthContext(event).value.apiAccessToken, event)
    ensures var m := MergeOptions(options, defaults);
            |o.calls| == 3 ==>
              o.result.Err? && o.request.Some? && m.fetcher(o.request.value) == Err(o.result.error.originalError)
    ensures var m := MergeOptions(options, defaults);
            |o.calls| == 4 ==>
              && o.request.Some? && m.fetcher(o.request.value).Ok?
              && m.handler(m.fetcher(o.request.value).value)
                 == (if o.result.Ok? then Ok(o.result.value) else Err(o.result.error.originalError))
    ensures o.result.Ok? ==> o.calls == Pipeline
  {
    var m := MergeOptions(options, defaults);
    match m.bodyProvider(event)
    case Err(thrown) => Failed(thrown, [BodyProviderStage], None)
    case Ok(body) =>
      match GetAuthContext(event)
      case Err(thrown) => Failed(thrown, [BodyProviderStage, AuthStage], None)
      case Ok(auth) =>
        var request := BackendRequest(m, apiUrl, body, auth.apiAccessToken, event);
        match m.fetcher(request)
        case Err(thrown) => Failed(thrown, [BodyProviderStage, AuthStage, FetcherStage], Some(request))
        case Ok(backendResponse) =>
          match m.handler(backendResponse)
          case Err(thrown) => Failed(thrown, Pipeline, Some(request))
          case Ok(response) => Outcome(Ok(response), Pipeline, Some(request))
  }

  /**
   * The catch block as written: a string thrown by the body provider reaches
   * the caller as 500 "Backend Communication Error" with the generic
   * message, not with its own text.
   */
  lemma ThrownStringLosesItsText(
    options: HandlerOptions, defaults: ModelDefaults, apiUrl: Option<string>, event: Event, text: string)
    requires MergeOptions(options, defaults).bodyProvider(event) == Err(StringThrown(text))
    ensures Invoke(options, defaults, apiUrl, event).result
            == Err(NormalizedError(500, BackendCommunicationError, UnexpectedMessage, StringThrown(text)))
  {
  }

  /**
   * The corrected catch block would report the same error for every
   * invocation, except that a thrown string would keep its text.
   */
  lemma CorrectionRestoresOnlyStringText(
    options: HandlerOptions, defaults: ModelDefaults, apiUrl: Option<string>, event: Event)
    ensures var o := Invoke(options, defaults, apiUrl, event);
            o.result.Err? ==>
              var thrown := o.result.error.originalError;
              HandleError(thrown) == if thrown.StringThrown? then o.result.error.(message := thrown.text)
                                     else o.result.error
  {
    var o := Invoke(options, defaults, apiUrl, event);
    if o.result.Err? {
      CorrectionOnlyTouchesStrings(o.result.error.originalError);
    }
  }

  /** A request without a usable session fails with 401 after its body is read; nothing is fetched. */
  lemma UnauthenticatedRequestNeverFetches(
    options: HandlerOptions, defaults: ModelDefaults, apiUrl: Option<string>, event: Event)
    requires MergeOptions(options, defaults).bodyProvider(event).Ok?
    requires GetAuthContext(event).Err?
    ensures var o := Invoke(options, defaults, apiUrl, event);
            && o.calls == [BodyProviderStage, AuthStage]
            && o.request.None?
            && o.result.Err? && o.result.error.statusCode == 401
  {
    AuthFailuresSurfaceAs401(event);
  }

  /**
   * The fetched request goes to `apiUrl ++ url` with exactly the two headers,
   * and a successful invocation returns the response handler's value for
   * the backend's answer.
   */
  lemma FetchedRequestShape(options: HandlerOptions, defaults: ModelDefaults, apiUrl: Option<string>, event: Event)
    ensures var o := Invoke(options, defaults, apiUrl, event);
            o.request.Some? ==>
              && o.request.value.url == ApiUrlText(apiUrl) + options.url
              && o.request.value.headers.Keys == {"Content-Type", "Authorization"}
              && o.request.value.headers["Content-Type"] == "application/json"
              && var token := event.session.value.apiAccessToken.value;
                 o.request.value.headers["Authorization"] == if token != "" then BearerPrefix + token else ""
    ensures var o := Invoke(options, defaults, apiUrl, event);
            var m := MergeOptions(options, defaults);
            o.result.Ok? ==>
              Then(m.fetcher(o.request.value), m.handler) == Ok(o.result.value)
  {
  }
}
