/** The exceptions the chatbot raises: one constructor per distinct error
    the modelled paths can raise. Sites that raise the same error share one,
    and the error dict re-raised by `analyze_with_context_handler` is carried
    directly inside the `InternalError` that wraps it.
    Python distinguishes `ValueError` from `RuntimeError`; `send_message`
    wraps the two differently, so the predicate `IsRuntimeError` keeps the
    distinction. */
module Errors {

  datatype Error =
    // ValueError raised by ChatbotSession.add_message
    | InvalidRole
    | EmptyContent
    // ValueError raised by create_chat_session
    | EmptySessionId
    | SessionExists
    // ValueError raised by the validation of chat_with_openrouter
    | EmptyMessage
    | MessageTooLong
    | InvalidSessionIdFormat
    // ValueError raised while reading the provider's answer; always caught
    // and re-raised as InvalidResponseFormat
    | NoChoices
    | EmptyResponse
    // RuntimeError raised by chat_with_openrouter
    | ApiKeyNotConfigured
    | RequestTimedOut
    | Unreachable
    | AuthFailed
    | ProviderRateLimited
    | ProviderError(status: int)
    | InvalidResponseFormat(cause: Error)
    // ValueError raised by the validation of analyze_sentiment_with_context
    | CommentsNotNonEmptyList
    | TooManyComments
    | NoValidComments
    | QueryTooLong
    // raised by the handlers of chatbot.py
    | ClientRateLimited
    | BlankMessage
    | RawMessageTooLong
    | SessionIdTooLong
    | SessionIdRequired
    | SessionNotFound
    | CommentsRequired
    | ChatbotError(inner: Error)
    | InternalError(inner: Error)
  {
    /** True for the errors Python raises as `RuntimeError`. */
    predicate IsRuntimeError() {
      || ApiKeyNotConfigured? || RequestTimedOut? || Unreachable? || AuthFailed?
      || ProviderRateLimited? || ProviderError? || InvalidResponseFormat?
      || ClientRateLimited? || ChatbotError? || InternalError?
    }
  }
}
