/**
 * The error normaliser that every handler's catch block applies: whatever a
 * stage throws becomes one createError value with a status code, a status
 * message and a human-readable message.
 */
module Errors {
  import opened Common

  const UnexpectedMessage := "An unexpected error occurred"
  const BackendCommunicationError := "Backend Communication Error"

  /** A value caught by `catch (err: unknown)`, by the cases the normaliser tells apart. */
  datatype Thrown =
    | StringThrown(text: string)
      /** `err instanceof Error`; createError's H3Error is one, carrying a status code and message. */
    | ErrorThrown(message: string, statusCode: Option<int>, statusMessage: Option<string>)
      /** Any other non-null object. */
    | ObjectThrown(statusCode: Option<int>, statusMessage: Option<string>)
      /** `null`, `undefined`, numbers, booleans. */
    | OtherThrown
  {
    /** `typeof err === "object" && err && "statusCode" in err` */
    predicate CarriesStatusCode() {
      (ErrorThrown? || ObjectThrown?) && statusCode.Some?
    }
  }

  /** What the normaliser throws; `originalError` is the diagnostic payload (`data.originalError`). */
  datatype NormalizedError = NormalizedError(
    statusCode: int,
    statusMessage: string,
    message: string,
    originalError: Thrown)

  /** h3's createError: an Error instance that carries a status code and status message. */
  function CreateError(statusCode: int, statusMessage: string, message: string): Thrown {
    ErrorThrown(message, Some(statusCode), Some(statusMessage))
  }

  /** The value a handler throws for a normalised error, as an outer catch block would see it. */
  function Rethrow(n: NormalizedError): Thrown {
    CreateError(n.statusCode, n.statusMessage, n.message)
  }

  /**
   * handleError as it is written: the local `errorMessage` takes a thrown
   * string's text, but the branch for errors without a status code builds its
   * message afresh and so drops that text.
   */
  function HandleErrorAsWritten(err: Thrown): (n: NormalizedError)
    ensures n.originalError == err
    ensures n.statusCode == (if err.CarriesStatusCode() then err.statusCode.value else 500)
    ensures n.statusMessage ==
      (if err.CarriesStatusCode() then err.statusMessage.GetOr(BackendCommunicationError)
       else BackendCommunicationError)
    ensures n.message == (if err.ErrorThrown? then err.message else UnexpectedMessage)
  {
    var errorMessage :=
      match err
      case StringThrown(s) => s
      case ErrorThrown(m, _, _) => m
      case _ => UnexpectedMessage;
    if err.CarriesStatusCode() then
      NormalizedError(err.statusCode.value, err.statusMessage.GetOr(BackendCommunicationError),
                      errorMessage, err)
    else
      NormalizedError(500, BackendCommunicationError,
                      if err.ErrorThrown? then err.message else UnexpectedMessage, err)
  }

  /** A thrown string reaches the caller without its text. */
  lemma StringTextDroppedAsWritten()
    ensures HandleErrorAsWritten(StringThrown("boom")).message != "boom"
  {
  }

  /**
   * handleError with the message the function computes in `errorMessage`
   * used on both branches: a status code is kept with its status message,
   * anything else becomes 500 "Backend Communication Error", and the message
   * is the thrown string, the Error's message, or the generic fallback.
   */
  function HandleError(err: Thrown): (n: NormalizedError)
    ensures n.originalError == err
    ensures err.CarriesStatusCode() ==> n.statusCode == err.statusCode.value
    ensures err.CarriesStatusCode() && err.statusMessage.Some? ==> n.statusMessage == err.statusMessage.value
    ensures !err.CarriesStatusCode() || err.statusMessage.None? ==> n.statusMessage == BackendCommunicationError
    ensures !err.CarriesStatusCode() ==> n.statusCode == 500
    ensures err.StringThrown? ==> n.message == err.text
    ensures err.ErrorThrown? ==> n.message == err.message
    ensures err.ObjectThrown? || err.OtherThrown? ==> n.message == UnexpectedMessage
  {
    var errorMessage :=
      match err
      case StringThrown(s) => s
      case ErrorThrown(m, _, _) => m
      case _ => UnexpectedMessage;
    if err.CarriesStatusCode() then
      NormalizedError(err.statusCode.value, err.statusMessage.GetOr(BackendCommunicationError),
                      errorMessage, err)
    else
      NormalizedError(500, BackendCommunicationError, errorMessage, err)
  }

  /** The correction changes the message of a thrown string and nothing else. */
  lemma CorrectionOnlyTouchesStrings(err: Thrown)
    ensures !err.StringThrown? ==> HandleError(err) == HandleErrorAsWritten(err)
    ensures err.StringThrown? ==> HandleError(err) == HandleErrorAsWritten(err).(message := err.text)
  {
  }

  /**
   * Normalising an error that already carries a status code, status message
   * and message keeps all three, both as written and corrected.
   */
  lemma NormalizationIsFixpoint(n: NormalizedError)
    ensures HandleErrorAsWritten(Rethrow(n)).statusCode == n.statusCode
    ensures HandleErrorAsWritten(Rethrow(n)).statusMessage == n.statusMessage
    ensures HandleErrorAsWritten(Rethrow(n)).message == n.message
    ensures HandleError(Rethrow(n)).statusCode == n.statusCode
    ensures HandleError(Rethrow(n)).statusMessage == n.statusMessage
    ensures HandleError(Rethrow(n)).message == n.message
  {
  }

  /**
   * So normalising twice gives the triple that normalising once gave: an
   * outer catch block that sees a handler's error passes it on unchanged.
   */
  lemma NormalizationIsIdempotent(err: Thrown)
    ensures var once := HandleErrorAsWritten(err);
            var twice := HandleErrorAsWritten(Rethrow(once));
            twice.statusCode == once.statusCode && twice.statusMessage == once.statusMessage
            && twice.message == once.message
    ensures var once := HandleError(err);
            var twice := HandleError(Rethrow(once));
            twice.statusCode == once.statusCode && twice.statusMessage == once.statusMessage
            && twice.message == once.message
  {
    NormalizationIsFixpoint(HandleErrorAsWritten(err));
    NormalizationIsFixpoint(HandleError(err));
  }
}
