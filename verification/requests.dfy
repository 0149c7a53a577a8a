/**
 * The shapes that flow through a backend proxy handler: the inbound event,
 * the outbound fetch options, and what an invocation of a handler produces.
 */
module Requests {
  import opened Common
  import opened Errors

  /** The HTTP verbs a fetch may use (FetchMethodType). */
  datatype Method = GET | POST | PUT | DELETE

  /** A request body: parsed JSON (kept as its text) or `undefined`. */
  datatype Body = Undefined | Json(text: string)

  /** A backend response as the transformers see it (kept as its JSON text). */
  type Response = string

  /** The server session of the identity provider; `error` is the refresh-failure marker. */
  datatype Session = Session(user: string, error: Option<string>, apiAccessToken: Option<string>)

  /** The decoded JWT of the identity provider. */
  datatype Token = Token(subject: string)

  /**
   * The inbound H3 event, reduced to what the core reads from it: the body
   * that readBody would parse, and the session and token the identity
   * provider resolves for it.
   */
  datatype Event = Event(inboundBody: Body, session: Option<Session>, token: Option<Token>)

  /** FetcherOptions: the complete description of one outbound call. */
  datatype FetchOptions = FetchOptions(
    url: string,
    httpMethod: Method,
    body: Body,
    headers: map<string, string>,
    event: Event)

  /** The stages of a handler, named so that an invocation can report which of them ran. */
  datatype Stage = BodyProviderStage | AuthStage | ExtenderStage | FetcherStage | TransformerStage

  /**
   * One invocation of a handler: what the caller receives (a value or the
   * normalised error), the stages that ran in the order they ran, and the
   * options the fetcher was called with, if it was called.
   */
  datatype Outcome = Outcome(
    result: Result<Response, NormalizedError>,
    calls: seq<Stage>,
    request: Option<FetchOptions>)

  /** An invocation whose catch block normalised `thrown`. */
  function Failed(thrown: Thrown, calls: seq<Stage>, request: Option<FetchOptions>): Outcome {
    Outcome(Err(HandleErrorAsWritten(thrown)), calls, request)
  }
}
