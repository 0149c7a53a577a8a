/**
 * buildBackendHandler: an immutable, chainable builder of backend proxy
 * handlers. A build context holds five stages; each derivation returns a new
 * builder over a changed copy of the context, and `build` fixes a route path
 * and yields a handler that runs body provider, extender, fetcher and
 * transformer in that order, normalising any throw once.
 */
module HandlerBuilder {
  import opened Common
  import opened Errors
  import opened Requests
  import opened BodyProviders

  /** Performs the outbound call described by its options. */
  type Fetcher = FetchOptions -> Result<Response, Thrown>
  /** Rewrites the outbound options before the fetch. */
  type FetchOptionsExtender = FetchOptions -> Result<FetchOptions, Thrown>
  /** Reshapes the backend's response before it is returned. */
  type BackendTransformer = Response -> Result<Response, Thrown>

  /** BuildContext: the five stages of a handler. */
  datatype BuildContext = BuildContext(
    fetcher: Fetcher,
    bodyProvider: BodyProvider,
    httpMethod: Method,
    postFetchTransformer: BackendTransformer,
    extendFetchOptions: FetchOptionsExtender)

  /**
   * The defaults the builder falls back on that come from its types module:
   * the default fetcher and the body provider for no method.
   */
  datatype Defaults = Defaults(fetcher: Fetcher, bodyProvider: BodyProvider)

  /** The methods of a builder object before any of them are hidden. */
  const FullInterface: set<string> :=
    {"withFetcher", "withBodyProvider", "withMethod", "extendFetchOptions", "postMap", "build"}

  /** The methods every builder offers, whatever it was derived from. */
  const CoreInterface: set<string> := {"withMethod", "extendFetchOptions", "postMap", "build"}

  const ConfigurationMessage :=
    "API URL is not configured in runtime config. Set the env variable API_URL."

  /** The stages of a handler in the order they run. */
  const Pipeline: seq<Stage> := [BodyProviderStage, ExtenderStage, FetcherStage, TransformerStage]

  /** defaultExtendFetchOptions: the options unchanged. */
  function DefaultExtendFetchOptions(options: FetchOptions): (r: Result<FetchOptions, Thrown>)
    ensures r == Ok(options)
  {
    Ok(options)
  }

  /** defaultTransformer: the response unchanged. */
  function DefaultTransformer(response: Response): (r: Result<Response, Thrown>)
    ensures r == Ok(response)
  {
    Ok(response)
  }

  /** `config.apiUrl` is truthy: present and not empty. */
  predicate Configured(apiUrl: Option<string>) {
    apiUrl.Some? && apiUrl.value != ""
  }

  /** The options a handler hands to the extender. */
  function InitialOptions(url: string, httpMethod: Method, body: Body, event: Event): FetchOptions {
    FetchOptions(url, httpMethod, body, map["Content-Type" := "application/json"], event)
  }

  /**
   * buildBackendHandler(context): a supplied context is taken whole; without
   * one the builder posts, extends and transforms nothing, and uses the
   * default fetcher and body provider. Every method is offered.
   */
  function BuildBackendHandler(context: Option<BuildContext>, defaults: Defaults): (b: Builder)
    ensures b.ops == FullInterface && b.defaults == defaults
    ensures context.Some? ==> b.ctx == context.value
    ensures context.None? ==>
              && b.ctx.httpMethod == POST
              && b.ctx.fetcher == defaults.fetcher
              && b.ctx.bodyProvider == defaults.bodyProvider
              && (forall options :: b.ctx.extendFetchOptions(options) == Ok(options))
              && (forall response :: b.ctx.postFetchTransformer(response) == Ok(response))
  {
    var ctx :=
      if context.Some? then context.value
      else BuildContext(defaults.fetcher, defaults.bodyProvider, POST,
                        DefaultTransformer, DefaultExtendFetchOptions);
    Builder(ctx, FullInterface, defaults)
  }

  /**
   * A builder object: its context, the methods it offers (`ops`, the object's
   * own keys) and the module defaults its derivations fall back on.
   */
  datatype Builder = Builder(ctx: BuildContext, ops: set<string>, defaults: Defaults) {

    /** The same builder with the methods `hidden` destructured away. */
    function Without(hidden: set<string>): Builder {
      this.(ops := ops - hidden)
    }

    /** withFetcher: only the fetcher changes; the result offers neither withFetcher nor withBodyProvider. */
    function WithFetcher(fetcher: Fetcher): (b: Builder)
      requires "withFetcher" in ops
      ensures b.ctx == ctx.(fetcher := fetcher) && b.defaults == defaults
      ensures b.ops == FullInterface - {"withBodyProvider", "withFetcher"}
    {
      BuildBackendHandler(Some(ctx.(fetcher := fetcher)), defaults)
        .Without({"withBodyProvider", "withFetcher"})
    }

    /**
     * withBodyProvider: the body provider is replaced and the fetcher reset
     * to the default; method, extender and transformer are kept. The result
     * offers no withBodyProvider.
     */
    function WithBodyProvider(bodyProvider: BodyProvider): (b: Builder)
      requires "withBodyProvider" in ops
      ensures b.ctx == ctx.(bodyProvider := bodyProvider, fetcher := defaults.fetcher)
      ensures b.defaults == defaults
      ensures b.ops == FullInterface - {"withBodyProvider"}
    {
      BuildBackendHandler(Some(ctx.(bodyProvider := bodyProvider, fetcher := defaults.fetcher)), defaults)
        .Without({"withBodyProvider"})
    }

    /** withMethod: only the method changes, and every method is offered again. */
    function WithMethod(httpMethod: Method): (b: Builder)
      requires "withMethod" in ops
      ensures b.ctx == ctx.(httpMethod := httpMethod) && b.defaults == defaults
      ensures b.ops == FullInterface
    {
      BuildBackendHandler(Some(ctx.(httpMethod := httpMethod)), defaults)
    }

    /**
     * extendFetchOptions: only the extender changes, to the old extender
     * followed by the new one; every method is offered again.
     */
    function ExtendFetchOptions(extender: FetchOptionsExtender): (b: Builder)
      requires "extendFetchOptions" in ops
      ensures b.ctx == ctx.(extendFetchOptions := b.ctx.extendFetchOptions) && b.defaults == defaults
      ensures forall options :: b.ctx.extendFetchOptions(options) == Then(ctx.extendFetchOptions(options), extender)
      ensures b.ops == FullInterface
    {
      var previous := ctx.extendFetchOptions;
      var composed := (options: FetchOptions) => Then(previous(options), extender);
      BuildBackendHandler(Some(ctx.(extendFetchOptions := composed)), defaults)
    }

    /**
     * postMap: only the transformer changes, to the old transformer followed
     * by the new one; the result offers neither withFetcher nor withBodyProvider.
     */
    function PostMap(transformer: BackendTransformer): (b: Builder)
      requires "postMap" in ops
      ensures b.ctx == ctx.(postFetchTransformer := b.ctx.postFetchTransformer) && b.defaults == defaults
      ensures forall response ::
                b.ctx.postFetchTransformer(response) == Then(ctx.postFetchTransformer(response), transformer)
      ensures b.ops == FullInterface - {"withBodyProvider", "withFetcher"}
    {
      var previous := ctx.postFetchTransformer;
      var composed := (response: Response) => Then(previous(response), transformer);
      BuildBackendHandler(Some(ctx.(postFetchTransformer := composed)), defaults)
        .Without({"withBodyProvider", "withFetcher"})
    }

    /** build(url): a handler over this context and route path; the builder itself stays usable. */
    function Build(url: string): (h: Handler)
      requires "build" in ops
      ensures h.ctx == ctx && h.url == url
    {
      Handler(ctx, url)
    }
  }

  /** The event handler `build` returns. */
  datatype Handler = Handler(ctx: BuildContext, url: string) {

    /**
     * One invocation with the runtime configuration's `apiUrl`: fail with the
     * configuration error when it is missing, otherwise read the body, extend
     * the initial options, fetch and transform; a throw at any step is
     * normalised once and ends the invocation.
     */
    function Invoke(apiUrl: Option<string>, event: Event): (o: Outcome)
      ensures o.calls <= Pipeline
      ensures !Configured(apiUrl) ==>
                && o.calls == [] && o.result.Err?
                && o.result.error.statusCode == 500
                && o.result.error.statusMessage == BackendCommunicationError
                && o.result.error.message == ConfigurationMessage
      ensures Configured(apiUrl) ==> |o.calls| >= 1
      ensures o.result.Err? ==> o.result.error == HandleErrorAsWritten(o.result.error.originalError)
      ensures o.request.Some? <==> FetcherStage in o.calls
      ensures o.calls == [BodyProviderStage] ==>
                o.result.Err? && ctx.bodyProvider(event) == Err(o.result.error.originalError)
      ensures |o.calls| == 2 ==>
                && o.result.Err? && Configured(apiUrl) && ctx.bodyProvider(event).Ok?
                && ctx.extendFetchOptions(
                     InitialOptions(apiUrl.value + url, ctx.httpMethod, ctx.bodyProvider(event).value, event))
                   == Err(o.result.error.originalError)
      ensures o.request.Some? ==>
                && Configured(apiUrl) && ctx.bodyProvider(event).Ok?
                && ctx.extendFetchOptions(
                     InitialOptions(apiUrl.value + url, ctx.httpMethod, ctx.bodyProvider(event).value, event))
                   == Ok(o.request.value)
      ensures |o.calls| == 3 ==>
                o.result.Err? && o.request.Some? && ctx.fetcher(o.request.value) == Err(o.result.error.originalError)
      ensures |o.calls| == 4 ==>
                && o.request.Some? && ctx.fetcher(o.request.value).Ok?
                && ctx.postFetchTransformer(ctx.fetcher(o.request.value).value)
                   == (if o.result.Ok? then Ok(o.result.value) else Err(o.result.error.originalError))
      ensures o.result.Ok? ==> o.calls == Pipeline
    {
      if !Configured(apiUrl) then
        Failed(ErrorThrown(ConfigurationMessage, None, None), [], None)
      else
        match ctx.bodyProvider(event)
        case Err(thrown) => Failed(thrown, [BodyProviderStage], None)
        case Ok(body) =>
          var initial := InitialOptions(apiUrl.value + url, ctx.httpMethod, body, event);
          match ctx.extendFetchOptions(initial)
          case Err(thrown) => Failed(thrown, [BodyProviderStage, ExtenderStage], None)
          case Ok(options) =>
            match ctx.fetcher(options)
            case Err(thrown) => Failed(thrown, [BodyProviderStage, ExtenderStage, FetcherStage], Some(options))
            case Ok(backendResponse) =>
              match ctx.postFetchTransformer(backendResponse)
              case Err(thrown) => Failed(thrown, Pipeline, Some(options))
              case Ok(response) => Outcome(Ok(response), Pipeline, Some(options))
    }
  }

  /** The whole handler as one composition of its stages: what runs before the catch block. */
  function Composed(h: Handler, apiUrl: Option<string>, event: Event): Result<Response, Thrown> {
    if !Configured(apiUrl) then Err(ErrorThrown(ConfigurationMessage, None, None))
    else
      var extend := (body: Body) =>
        h.ctx.extendFetchOptions(InitialOptions(apiUrl.value + h.url, h.ctx.httpMethod, body, event));
      Then(Then(Then(h.ctx.bodyProvider(event), extend), h.ctx.fetcher), h.ctx.postFetchTransformer)
  }

  /**
   * A handler returns exactly what the composition of its stages yields, and
   * when a stage throws, the caller gets that throw normalised once.
   */
  lemma InvokeIsComposedStagesNormalisedOnce(h: Handler, apiUrl: Option<string>, event: Event)
    ensures h.Invoke(apiUrl, event).result ==
            match Composed(h, apiUrl, event)
            case Ok(response) => Ok(response)
            case Err(thrown) => Err(HandleErrorAsWritten(thrown))
  {
  }

  /**
   * The catch block as written: a string thrown by the body provider reaches
   * the caller as 500 "Backend Communication Error" with the generic
   * message, not with its own text.
   */
  lemma ThrownStringLosesItsText(h: Handler, apiUrl: Option<string>, event: Event, text: string)
    requires Configured(apiUrl) && h.ctx.bodyProvider(event) == Err(StringThrown(text))
    ensures h.Invoke(apiUrl, event).result
            == Err(NormalizedError(500, BackendCommunicationError, UnexpectedMessage, StringThrown(text)))
  {
  }

  /**
   * The corrected catch block would report the same error for every
   * invocation, except that a thrown string would keep its text.
   */
  lemma CorrectionRestoresOnlyStringText(h: Handler, apiUrl: Option<string>, event: Event)
    ensures var o := h.Invoke(apiUrl, event);
            o.result.Err? ==>
              var thrown := o.result.error.originalError;
              HandleError(thrown) == if thrown.StringThrown? then o.result.error.(message := thrown.text)
                                     else o.result.error
  {
    var o := h.Invoke(apiUrl, event);
    if o.result.Err? {
      CorrectionOnlyTouchesStrings(o.result.error.originalError);
    }
  }

  /** Feeds `r` through `extenders` in order, each receiving the previous one's output. */
  function RunExtenders(extenders: seq<FetchOptionsExtender>, r: Result<FetchOptions, Thrown>)
    : Result<FetchOptions, Thrown>
    decreases |extenders|
  {
    if extenders == [] then r else RunExtenders(extenders[1..], Then(r, extenders[0]))
  }

  /** Calls extendFetchOptions with each of `extenders`, first to last. */
  function RegisterExtenders(b: Builder, extenders: seq<FetchOptionsExtender>): (r: Builder)
    requires "extendFetchOptions" in b.ops
    ensures r.ctx == b.ctx.(extendFetchOptions := r.ctx.extendFetchOptions) && r.defaults == b.defaults
    ensures extenders != [] ==> r.ops == FullInterface
    decreases |extenders|
  {
    if extenders == [] then b
    else RegisterExtenders(b.ExtendFetchOptions(extenders[0]), extenders[1..])
  }

  /** First registered runs first: the extenders see one another's output in registration order. */
  lemma {:induction false} ExtendersRunInRegistrationOrder(
    b: Builder, extenders: seq<FetchOptionsExtender>, options: FetchOptions)
    requires "extendFetchOptions" in b.ops
    ensures RegisterExtenders(b, extenders).ctx.extendFetchOptions(options)
            == RunExtenders(extenders, b.ctx.extendFetchOptions(options))
    decreases |extenders|
  {
    if extenders != [] {
      ExtendersRunInRegistrationOrder(b.ExtendFetchOptions(extenders[0]), extenders[1..], options);
    }
  }

  /** Feeds `r` through `transformers` in order, each receiving the previous one's output. */
  function RunTransformers(transformers: seq<BackendTransformer>, r: Result<Response, Thrown>)
    : Result<Response, Thrown>
    decreases |transformers|
  {
    if transformers == [] then r else RunTransformers(transformers[1..], Then(r, transformers[0]))
  }

  /** Calls postMap with each of `transformers`, first to last. */
  function RegisterTransformers(b: Builder, transformers: seq<BackendTransformer>): (r: Builder)
    requires "postMap" in b.ops
    ensures r.ctx == b.ctx.(postFetchTransformer := r.ctx.postFetchTransformer) && r.defaults == b.defaults
    ensures "postMap" in r.ops
    decreases |transformers|
  {
    if transformers == [] then b
    else RegisterTransformers(b.PostMap(transformers[0]), transformers[1..])
  }

  /** First registered runs first: the transformers see one another's output in registration order. */
  lemma {:induction false} TransformersRunInRegistrationOrder(
    b: Builder, transformers: seq<BackendTransformer>, response: Response)
    requires "postMap" in b.ops
    ensures RegisterTransformers(b, transformers).ctx.postFetchTransformer(response)
            == RunTransformers(transformers, b.ctx.postFetchTransformer(response))
    decreases |transformers|
  {
    if transformers != [] {
      TransformersRunInRegistrationOrder(b.PostMap(transformers[0]), transformers[1..], response);
    }
  }

  /** Two extenders: the second receives what the first returned, and a throw skips the second. */
  lemma SecondExtenderSeesFirstOutput(
    b: Builder, e1: FetchOptionsExtender, e2: FetchOptionsExtender, options: FetchOptions)
    requires "extendFetchOptions" in b.ops
    requires b.ctx.extendFetchOptions(options) == Ok(options)
    ensures b.ExtendFetchOptions(e1).ExtendFetchOptions(e2).ctx.extendFetchOptions(options)
            == (match e1(options) case Ok(o1) => e2(o1) case Err(thrown) => Err(thrown))
  {
  }

  /** One call of a builder method, as a client chains it. */
  datatype Derivation =
    | CallWithFetcher(fetcher: Fetcher)
    | CallWithBodyProvider(bodyProvider: BodyProvider)
    | CallWithMethod(httpMethod: Method)
    | CallExtendFetchOptions(extender: FetchOptionsExtender)
    | CallPostMap(transformer: BackendTransformer)

  /** The builder method a derivation calls. */
  function MethodName(d: Derivation): string {
    match d
    case CallWithFetcher(_) => "withFetcher"
    case CallWithBodyProvider(_) => "withBodyProvider"
    case CallWithMethod(_) => "withMethod"
    case CallExtendFetchOptions(_) => "extendFetchOptions"
    case CallPostMap(_) => "postMap"
  }

  /** Calls the derivation on `b`; `None` when `b` does not offer that method. */
  function Derive(b: Builder, d: Derivation): (r: Option<Builder>)
    ensures r.Some? <==> MethodName(d) in b.ops
    ensures r.Some? ==> CoreInterface <= r.value.ops && r.value.defaults == b.defaults
  {
    if MethodName(d) !in b.ops then None
    else
      match d
      case CallWithFetcher(f) => Some(b.WithFetcher(f))
      case CallWithBodyProvider(p) => Some(b.WithBodyProvider(p))
      case CallWithMethod(m) => Some(b.WithMethod(m))
      case CallExtendFetchOptions(e) => Some(b.ExtendFetchOptions(e))
      case CallPostMap(t) => Some(b.PostMap(t))
  }

  /** Calls the derivations one after the other; `None` as soon as one is not offered. */
  function DeriveAll(b: Builder, ds: seq<Derivation>): Option<Builder>
    decreases |ds|
  {
    if ds == [] then Some(b)
    else
      match Derive(b, ds[0])
      case None => None
      case Some(next) => DeriveAll(next, ds[1..])
  }

  /**
   * Hiding methods never removes the core of the interface, and a stage
   * changes only through its own method: the fetcher through withFetcher or
   * withBodyProvider, the body provider through withBodyProvider, the method
   * through withMethod.
   */
  lemma {:induction false} DerivationsChangeOnlyTheirStage(b: Builder, ds: seq<Derivation>)
    requires CoreInterface <= b.ops
    ensures DeriveAll(b, ds).Some? ==> CoreInterface <= DeriveAll(b, ds).value.ops
    ensures DeriveAll(b, ds).Some? ==> DeriveAll(b, ds).value.defaults == b.defaults
    ensures DeriveAll(b, ds).Some? && (forall i | 0 <= i < |ds| :: !ds[i].CallWithMethod?) ==>
              DeriveAll(b, ds).value.ctx.httpMethod == b.ctx.httpMethod
    ensures DeriveAll(b, ds).Some? && (forall i | 0 <= i < |ds| :: !ds[i].CallWithBodyProvider?) ==>
              DeriveAll(b, ds).value.ctx.bodyProvider == b.ctx.bodyProvider
    ensures DeriveAll(b, ds).Some? &&
            (forall i | 0 <= i < |ds| :: !ds[i].CallWithBodyProvider? && !ds[i].CallWithFetcher?) ==>
              DeriveAll(b, ds).value.ctx.fetcher == b.ctx.fetcher
    decreases |ds|
  {
    if ds != [] && Derive(b, ds[0]).Some? {
      var next := Derive(b, ds[0]).value;
      assert DeriveAll(b, ds) == DeriveAll(next, ds[1..]);
      DerivationsChangeOnlyTheirStage(next, ds[1..]);
      forall i | 0 <= i < |ds[1..]| ensures ds[1..][i] == ds[i + 1] { }
    }
  }

  /**
   * Hiding applies only to the immediate result: after withFetcher neither
   * withFetcher nor withBodyProvider is offered, but a withMethod offers both
   * again, and a withBodyProvider then drops the fetcher for the default.
   */
  lemma HidingIsOnlyImmediate(b: Builder, fetcher: Fetcher, httpMethod: Method, bodyProvider: BodyProvider)
    requires "withFetcher" in b.ops
    ensures "withFetcher" !in b.WithFetcher(fetcher).ops
    ensures "withBodyProvider" !in b.WithFetcher(fetcher).ops
    ensures "withBodyProvider" in b.WithFetcher(fetcher).WithMethod(httpMethod).ops
    ensures b.WithFetcher(fetcher).WithMethod(httpMethod).WithBodyProvider(bodyProvider).ctx.fetcher
            == b.defaults.fetcher
  {
  }
}
