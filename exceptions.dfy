/**
 * The bot's error taxonomy (core/exceptions.py), plus the two kinds of
 * foreign exception the services catch: an httpx transport or status error,
 * and any other exception.
 */
module Exceptions {

  datatype Error =
    | DomainResolutionError(message: string)
    | CategoryNotFoundError(message: string)
    | DNSResolutionError(message: string)
    | GeminiAPIError(message: string)
    | GitHubAPIError(message: string)
    | CollectorAPIError(message: string)
    /** `httpx.HTTPError`: a transport failure or a non-2xx status from `raise_for_status`. */
    | HttpError(message: string)
    /** Any other exception (a `KeyError` on an unexpected body, a JSON decode error, ...). */
    | OtherError(message: string)
  {
    /** The error derives from `BotError`. */
    predicate IsBotError() {
      !HttpError? && !OtherError?
    }

    /** The error derives from `APIError`. */
    predicate IsAPIError() {
      GeminiAPIError? || GitHubAPIError? || CollectorAPIError?
    }

    /**
     * The classes the exception is an instance of, most derived first; an
     * `except C` clause catches it exactly when `C` is among them. Of an
     * `OtherError` the model only knows that it is an `Exception`.
     */
    function Lineage(): (classes: seq<string>)
      ensures |classes| >= 1 && classes[|classes| - 1] == "Exception"
    {
      match this
      case DomainResolutionError(_) => ["DomainResolutionError", "BotError", "Exception"]
      case CategoryNotFoundError(_) => ["CategoryNotFoundError", "BotError", "Exception"]
      case DNSResolutionError(_) => ["DNSResolutionError", "BotError", "Exception"]
      case GeminiAPIError(_) => ["GeminiAPIError", "APIError", "BotError", "Exception"]
      case GitHubAPIError(_) => ["GitHubAPIError", "APIError", "BotError", "Exception"]
      case CollectorAPIError(_) => ["CollectorAPIError", "APIError", "BotError", "Exception"]
      case HttpError(_) => ["HTTPError", "Exception"]
      case OtherError(_) => ["Exception"]
    }

    /** `str(e)`. */
    function Text(): string {
      message
    }
  }

  /**
   * The class tree of core/exceptions.py: `except BotError` catches exactly
   * the bot's own errors, `except APIError` exactly the three API errors,
   * and every bot error is an `Exception`.
   */
  lemma Hierarchy(e: Error)
    ensures "BotError" in e.Lineage() <==> e.IsBotError()
    ensures "APIError" in e.Lineage() <==> e.IsAPIError()
    ensures e.IsAPIError() ==> e.IsBotError()
  {
  }
}
