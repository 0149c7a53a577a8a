# Backend proxy handlers, modelled in Dafny

This project models the server-side core of a set of Nuxt layers that forward client requests to a remote API:

- **The immutable handler builder** (`buildBackendHandler`). A build context holds five stages: fetcher, body provider, HTTP method, fetch-options extender and post-fetch transformer. Each derivation (`withFetcher`, `withBodyProvider`, `withMethod`, `extendFetchOptions`, `postMap`) returns a new builder over a changed copy of the context. Some derivations hide methods of the returned object. `build(url)` yields an event handler. The handler checks the configured `apiUrl`, reads the body, extends the initial fetch options, fetches and transforms, and normalises any throw once through `handleError`.
- **The one-shot authenticated handler** (`defineBackendHandler`). It merges its options over defaults, reads the body, resolves the auth context, calls the backend with a JSON content type and a Bearer `Authorization` header, and hands the response to the response handler.
- **`getAuthContext`**. Its guard clauses turn the session and token of an event into credentials, or into a 401 error (RFC 9110 section 15.5.2).
- **`authHandler`**. This is the default builder with one extender, which sets `Authorization: Bearer <token>` (RFC 6750 section 2.1).
- **`getDefaultBodyProvider`**, `noBody` and `extractEventBody`.
- **The message lookup `t`**, `useI18n` and the locale constants.

Modelling choices:
- Stages are Dafny function values returning `Result<_, Thrown>`. A resolved promise is `Ok` and a throw is `Err`. `await` is the plain sequential `Then`.
- A thrown value (`Thrown`) has the four shapes the normaliser tells apart: a string, an `Error` (possibly carrying `statusCode`/`statusMessage`, as h3's `createError` values do), another object, and anything else.
- A builder object is `Builder(ctx, ops, defaults)`. `ops` is the set of method names the object offers. A derivation requires its method to be offered, as the TypeScript types demand of callers.
- An invocation of a handler returns an `Outcome`. It holds what the caller receives (the value, or the `NormalizedError` that was thrown), the list of stages that ran, and the options the fetcher was called with. This is how "runs before", "never called" and "the fetcher received" are stated.
- Framework inputs are parameters:
  - `useRuntimeConfig().apiUrl` is an `Option<string>`;
  - `getServerSession` and `getToken` are the `session` and `token` fields of the `Event`;
  - `readBody(event)` is the event's `inboundBody`;
  - the default fetcher and the builder's no-method default body provider come from the types module and are a `Defaults` value;
  - `defaultHandler` and `defaultFetcher` of the models module are a `ModelDefaults` value.

Where the code's doc comments and its behaviour differ, the model follows the behaviour:
- `defineBackendHandler` defaults to GET without a body, although its doc comment (azure-auth/server/utils/backend_communication.ts:46) says POST.

Further points where the model follows the code's exact behaviour:
- `defineBackendHandler` does not check `apiUrl`: an absent one is printed as `undefined` in the URL.
- `build`'s check `!config.apiUrl` also rejects an empty `apiUrl`.
- Both handlers' catch blocks are modelled as written, by `Errors.HandleErrorAsWritten`, so a thrown string reaches the caller without its text. The corrected normaliser `Errors.HandleError` sits beside it (see Findings). Each handler has a lemma saying that the correction would change only that message.

## Model

| member | source | states |
|---|---|---|
| `Errors.HandleErrorAsWritten` | backend_communication/server/utils/backendHandlerBuilder.ts:110-150 | The normaliser both handlers apply, as written: a status code is kept with its status message, defaulting to "Backend Communication Error". Anything else is 500 "Backend Communication Error". The message is the Error's message, and otherwise the generic text, even for a thrown string. |
| `Errors.StringTextDroppedAsWritten` | backend_communication/server/utils/backendHandlerBuilder.ts:140-149 | Counterexample: the code as written normalises `throw "boom"` to a message other than "boom". |
| `Errors.HandleError` | backend_communication/server/utils/backendHandlerBuilder.ts:110-150 | The corrected normaliser. A statusCode-bearing object keeps its code, and its status message when it has one. Anything else is 500 "Backend Communication Error". The message is the string itself, the Error's message, or "An unexpected error occurred". The original value is kept as `originalError`. |
| `Errors.CorrectionOnlyTouchesStrings` | backend_communication/server/utils/backendHandlerBuilder.ts:115-149 | The corrected normaliser agrees with the code as written on every value except a thrown string, and on a string only the message differs. |
| `Errors.NormalizationIsFixpoint` | azure-auth/server/utils/backend_communication.ts:124-146 | Re-normalising a thrown createError value keeps its status code, status message and message, both as written and corrected. |
| `Errors.NormalizationIsIdempotent` | azure-auth/server/utils/backend_communication.ts:119-158 | Normalising, rethrowing and normalising again yields the same triple as normalising once, both as written and corrected. |
| `BodyProviders.ExtractEventBody` | azure-auth/server/models/body_provider.ts:20-25 | Forwards the body read from the event unchanged. |
| `BodyProviders.NoBody` | azure-auth/server/models/body_provider.ts:27-31 | Forwards no body (`undefined`) whatever the event holds. |
| `BodyProviders.GetDefaultBodyProvider` | azure-auth/server/models/body_provider.ts:33-46 | An omitted method, GET and DELETE give a provider that yields `undefined` for every event. POST and PUT give one that yields the event's body unchanged. |
| `BodyProviders.DefaultProviderDropsBodyIff` | azure-auth/server/models/body_provider.ts:20-46 | The default provider ignores the inbound body exactly when the method is omitted, GET or DELETE. |
| `AuthUtils.GetAuthContext` | azure-auth/server/utils/authUtils.ts:5-51 | Success exactly when there is no refresh-failure marker, session and token are present, and the session has an `apiAccessToken` field. Success returns that session, token and field value. The marker gives 401 "Token Refresh Failed". Every other failure is 401 "Unauthorized" with the login message. Every failure carries 401. |
| `AuthUtils.RefreshFailureTakesPrecedence` | azure-auth/server/utils/authUtils.ts:14-33 | The refresh-failure check comes before the missing-token check: a marked session without a token still fails as "Token Refresh Failed". |
| `AuthUtils.AuthFailuresSurfaceAs401` | azure-auth/server/utils/authUtils.ts:18-40 | After a handler's catch block every auth failure has status 401 and keeps its own status message and message: "Token Refresh Failed" with the expired-tokens text, or "Unauthorized" with the login text. |
| `HandlerBuilder.DefaultExtendFetchOptions` | backend_communication/server/utils/backendHandlerBuilder.ts:15-17 | The default extender returns the options it receives unchanged. |
| `HandlerBuilder.DefaultTransformer` | backend_communication/server/types/transformer.ts:15-19 | The default transformer returns the backend's response unchanged. |
| `HandlerBuilder.BuildBackendHandler` | backend_communication/server/utils/backendHandlerBuilder.ts:15-29 | A supplied context is used whole. Without one the method is POST, the extender and transformer are identities, and the fetcher and body provider are the defaults. Every method is offered. |
| `HandlerBuilder.Builder.WithFetcher` | backend_communication/server/utils/backendHandlerBuilder.ts:31-34 | Only the fetcher changes. The result offers neither withFetcher nor withBodyProvider. |
| `HandlerBuilder.Builder.WithBodyProvider` | backend_communication/server/utils/backendHandlerBuilder.ts:36-45 | The body provider is replaced and the fetcher is reset to the default. Method, extender and transformer are kept. The result offers no withBodyProvider. |
| `HandlerBuilder.Builder.WithMethod` | backend_communication/server/utils/backendHandlerBuilder.ts:47-49 | Only the method changes, and every method is offered again. |
| `HandlerBuilder.Builder.ExtendFetchOptions` | backend_communication/server/utils/backendHandlerBuilder.ts:51-53 | Only the extender changes. The new extender runs the old one and feeds its result to the new one, and a throw skips the new one. Every method is offered again. |
| `HandlerBuilder.Builder.PostMap` | backend_communication/server/utils/backendHandlerBuilder.ts:55-61 | Only the transformer changes, to the old one followed by the new one. The result offers neither withFetcher nor withBodyProvider. |
| `HandlerBuilder.Builder.Build` | backend_communication/server/utils/backendHandlerBuilder.ts:63-64 | The handler captures the builder's current context and the route path. The builder is left as it was and can be built again. |
| `HandlerBuilder.Handler.Invoke` | backend_communication/server/utils/backendHandlerBuilder.ts:63-97 | The stages run as a prefix of body provider, extender, fetcher, transformer. A missing or empty `apiUrl` runs no stage and yields 500 "Backend Communication Error" with the configuration message. The extender receives `{apiUrl ++ url, method, body, Content-Type: application/json, event}`. The fetcher receives the extender's output. A success returns the transformer's value for the fetched response. A failing stage ends the run, and its throw is normalised by the catch block as written. |
| `HandlerBuilder.InvokeIsComposedStagesNormalisedOnce` | backend_communication/server/utils/backendHandlerBuilder.ts:66-95 | A handler's result equals the composition of its stages. The first throw is normalised once at the boundary by `handleError` as written. |
| `HandlerBuilder.ThrownStringLosesItsText` | backend_communication/server/utils/backendHandlerBuilder.ts:93-94 | A string thrown by the body provider reaches the caller as 500 "Backend Communication Error" with the generic message, as the catch block is written. |
| `HandlerBuilder.CorrectionRestoresOnlyStringText` | backend_communication/server/utils/backendHandlerBuilder.ts:93-94 | For every failed invocation, the corrected normaliser gives the same error, except that a thrown string keeps its text as the message. |
| `HandlerBuilder.RegisterExtenders` | backend_communication/server/utils/backendHandlerBuilder.ts:51-53 | Registering extenders one after another changes nothing in the context but the extender. |
| `HandlerBuilder.ExtendersRunInRegistrationOrder` | backend_communication/server/utils/backendHandlerBuilder.ts:51-53 | Extenders run first-registered first, and each receives the previous one's output. |
| `HandlerBuilder.RegisterTransformers` | backend_communication/server/utils/backendHandlerBuilder.ts:55-61 | Registering transformers one after another changes nothing in the context but the transformer, and postMap stays offered. |
| `HandlerBuilder.TransformersRunInRegistrationOrder` | backend_communication/server/utils/backendHandlerBuilder.ts:55-61 | Transformers run first-registered first, and each receives the previous one's output. |
| `HandlerBuilder.SecondExtenderSeesFirstOutput` | backend_communication/server/utils/backendHandlerBuilder.ts:52 | After registering E1 then E2 on an identity extender, E2 sees E1's output, and a throw from E1 propagates unchanged. |
| `HandlerBuilder.Derive` | backend_communication/server/utils/backendHandlerBuilder.ts:99-106 | A derivation can be called exactly when the builder offers its method. Its result always offers withMethod, extendFetchOptions, postMap and build, and keeps the defaults. |
| `HandlerBuilder.DerivationsChangeOnlyTheirStage` | backend_communication/server/utils/backendHandlerBuilder.ts:31-61 | Over any chain of derivations the core methods stay offered. The method changes only through withMethod. The body provider changes only through withBodyProvider. The fetcher changes only through withFetcher or withBodyProvider. |
| `HandlerBuilder.HidingIsOnlyImmediate` | backend_communication/server/utils/backendHandlerBuilder.ts:31-49 | withFetcher hides withFetcher and withBodyProvider, but a following withMethod offers them again. A withBodyProvider after that replaces the custom fetcher with the default. |
| `AuthHandler.AuthExtender` | azure-auth/server/utils/authHandler.ts:2-11 | It fails exactly when auth resolution for the options' event fails, and then with that error. On success it sets Authorization to "Bearer " ++ token, overwriting any earlier value. It keeps every other header, adds no other key, and passes url, method, body and event through. |
| `AuthHandler.AuthHandler` | azure-auth/server/utils/authHandler.ts:1-12 | The default builder with one extender: POST, default fetcher and body provider, identity transformer, an extender that behaves as the auth extender, and every method offered. |
| `AuthHandler.UnauthenticatedRequestNeverFetches` | azure-auth/server/utils/authHandler.ts:3 | When auth resolution fails, the handler runs only the body provider and the extender, fails with 401 and never calls the fetcher. |
| `AuthHandler.FetchedRequestsCarryBearer` | azure-auth/server/utils/authHandler.ts:5-11 | Whenever the auth handler fetches, auth succeeded. The request's headers are exactly the JSON content type and the session's Bearer credential, and it goes to `apiUrl ++ url` with the inbound event. |
| `AuthHandler.AuthenticatedRequestIsForwarded` | azure-auth/server/utils/authHandler.ts:1-12 | For any authenticated request with a configured `apiUrl` and a readable body, the fetcher receives `{apiUrl ++ url, method, body, event}` with exactly two headers: Content-Type `application/json` and Authorization "Bearer " ++ token. The caller gets the fetcher's answer unchanged, or its throw normalised by `handleError` as written. |
| `AuthHandler.UsersRouteForwardsWithBearer` | azure-auth/server/utils/authHandler.ts:1-12 | Scenario: an authenticated GET on "/users" with token "abc" returns the backend's answer unchanged. The call carried "Bearer abc", method GET and no body. |
| `AuthHandler.MissingBackendSurfacesItsStatus` | backend_communication/server/utils/backendHandlerBuilder.ts:121-137 | Scenario: a backend 404 "not found" reaches the caller as 404 / "not found" / "not found". |
| `BackendCommunication.MergeOptions` | azure-auth/server/utils/backend_communication.ts:85-93 | Precedence is the caller's options, then the body provider derived from the caller's method, then the defaults, with method GET. |
| `BackendCommunication.OmittedMethodMeansGetWithoutBody` | azure-auth/server/utils/backend_communication.ts:22-26 | Without a method the handler sends GET and no body. The derived body provider always agrees with the effective method. |
| `BackendCommunication.AuthorizationValue` | azure-auth/server/utils/backend_communication.ts:110-112 | A non-empty (truthy) access token gives "Bearer " ++ token. The header value is empty exactly when the token is. |
| `BackendCommunication.Invoke` | azure-auth/server/utils/backend_communication.ts:82-160 | The stages run as a prefix of body provider, auth, fetcher, response handler. The body is read before auth is resolved. An auth failure ends the run before the fetcher. The fetcher receives `{apiUrl ++ url, method, body, exactly two headers, event}`. A success returns the handler's value for the response. Every throw is normalised by the catch block as written. |
| `BackendCommunication.ThrownStringLosesItsText` | azure-auth/server/utils/backend_communication.ts:119-158 | A string thrown by the body provider reaches the caller as 500 "Backend Communication Error" with the generic message, as the catch block is written. |
| `BackendCommunication.CorrectionRestoresOnlyStringText` | azure-auth/server/utils/backend_communication.ts:119-158 | For every failed invocation, the corrected normaliser gives the same error, except that a thrown string keeps its text as the message. |
| `BackendCommunication.UnauthenticatedRequestNeverFetches` | azure-auth/server/utils/backend_communication.ts:99-104 | A request that cannot be authenticated fails with 401 after its body is read, and neither the fetcher nor the response handler runs. |
| `BackendCommunication.FetchedRequestShape` | azure-auth/server/utils/backend_communication.ts:104-118 | The fetched URL is `apiUrl ++ url`. The headers are exactly Content-Type `application/json` and Authorization, which is "Bearer " ++ token for a non-empty token and empty otherwise. A success returns handler(fetcher(request)). |
| `Localization.Split` | localization.ts:56 | `key.split(".")` has at least one piece, and no piece contains the separator. |
| `Localization.JoinSplit` | localization.ts:56 | Joining the pieces of a split with the separator gives back the key. |
| `Localization.SplitJoin` | localization.ts:56 | Splitting the join of separator-free pieces gives back the pieces. |
| `Localization.Lookup` | localization.ts:44-76 | The result is the string the key's path reaches in the locale's table. It is the key itself when the locale is unknown, a segment is missing, a string is reached early, or the path ends at a table. |
| `Localization.Translate` | localization.ts:44-76 | The loop over the key's segments returns exactly the lookup's result, for the default locale "de" when none is given. |
| `Localization.I18n.T` | localization.ts:37-39 | useI18n's `t` returns `t(key, locale)` for its bound locale. |
| `Localization.UseI18n` | localization.ts:36-42 | The translator is bound to the given locale, and to "de" when none is given. |
| `Localization.SameShapeResolvesAlike` | localization.ts:5-30 | Two tables of the same shape resolve the same paths, and reach strings at the same places. |
| `Localization.LocalesAgree` | localization.ts:3-34 | The available locales are exactly the locales with a table, and the default is among them. A key has an English string exactly when it has a German one. |
| `Localization.WelcomeBackSplits` | localization.ts:56 | "auth.welcomeBack" splits into auth, welcomeBack. |
| `Localization.WelcomeBackResolves` | localization.ts:5-30 | The path auth, welcomeBack leads to "Welcome Back" in English and "Willkommen zurück" in German. |
| `Localization.LookupFollowsPath` | localization.ts:44-76 | A key whose segments lead to a string in an existing locale's table is translated to that string. |
| `Localization.WelcomeBack` | localization.ts:44-76 | `t("auth.welcomeBack", "en")` is "Welcome Back", and with "de" it is "Willkommen zurück". |

## Left out

- Cancellation on client disconnect (`getAbortSignal`, azure-auth/server/utils/abort_handler.ts): it is event-driven. The fetcher is an abstract function, so no abort signal is modelled.
- The default fetchers (`$fetch`, `JSON.stringify` of the body) are parameters. Their transport errors appear only as values a fetcher may throw.
- `readBody` is the event's `inboundBody`. A malformed body that makes `readBody` throw is not modelled, though any custom body provider may throw.
- The generic body and response types (`TBody`, `TResponse`, `TMap`) are not modelled. Every body is a `Body` and every response a JSON text. A transformer that changes the response type is therefore a transformer over the same type.
- `console.warn` for an unknown locale is I/O and is left out.
- JavaScript's `in` walking the prototype chain is left out. A segment such as "toString" is looked up only among a table's own keys.
- A session property `apiAccessToken` that is present but `undefined` is not modelled: a present field always carries a string.
- Non-numeric `statusCode` values and non-string `statusMessage` values are not modelled. The `data.originalError` of a rethrown createError value is not carried into the next `Thrown`.
- The builder's no-method default body provider and default fetcher come from a types module that is not part of this model. They are the `Defaults` parameter.
- The models module's `defaultHandler` and `defaultFetcher` are not part of this model. They are the `ModelDefaults` parameter.
- That a derivation leaves its receiver unchanged is not stated as a lemma: builders are Dafny values, so no derivation can change one.

## Findings

| source | as written | input that shows it | evidently intended | confidence | as-written member | corrected member |
|---|---|---|---|---|---|---|
| backend_communication/server/utils/backendHandlerBuilder.ts:140-149 | For a value without `statusCode`, the message is recomputed as `err instanceof Error ? err.message : "An unexpected error occurred"`. The text that lines 115-116 stored in `errorMessage` for a thrown string is dropped. | `throw "boom"` inside a stage gives message "An unexpected error occurred" | message "boom" | medium, not executed | `Errors.HandleErrorAsWritten` (`Errors.StringTextDroppedAsWritten`, `HandlerBuilder.ThrownStringLosesItsText`) | `Errors.HandleError` (`HandlerBuilder.CorrectionRestoresOnlyStringText`) |
| azure-auth/server/utils/backend_communication.ts:149-158 | The same catch block, with the same loss of a thrown string's text (stored at lines 124-125). | `throw "boom"` from the body provider gives message "An unexpected error occurred" | message "boom" | medium, not executed | `Errors.HandleErrorAsWritten` (`Errors.StringTextDroppedAsWritten`, `BackendCommunication.ThrownStringLosesItsText`) | `Errors.HandleError` (`BackendCommunication.CorrectionRestoresOnlyStringText`) |
