/** The request handlers of adimpactbot/chatbot.py: `send_message`,
    `get_history`, `delete_session_handler` and
    `analyze_with_context_handler`. They keep no state of their own: each
    validates its request and delegates to the rate limiter and the session
    store. As in the store, each handler's meaning is a function on values,
    and the method is proved to act as that function says. */
module Handlers {
  import opened Wrappers
  import opened Text
  import opened Errors
  import opened Sessions
  import opened Gateway
  import opened Analysis
  import opened Store
  import opened RateLimit

  // ---------------------------------------------------------------------
  // send_message
  // ---------------------------------------------------------------------

  /** The handler's own checks, made on the raw message: blank (empty or
      whitespace only), then longer than 5000 characters before stripping,
      then a non-empty session id over 500 characters. */
  function ValidateSend(message: string, sessionId: Option<string>): Outcome<Error> {
    if message == "" || Strip(message) == "" then Fail(BlankMessage)
    else if |message| > MaxMessageLength then Fail(RawMessageTooLong)
    else if SessionIdOf(sessionId) != "" && |SessionIdOf(sessionId)| > MaxSessionIdLength then Fail(SessionIdTooLong)
    else Pass
  }

  /** `except RuntimeError` re-raises as a chatbot error, any other exception
      as an internal server error. */
  function WrapChatError(e: Error): (w: Error)
    ensures w.IsRuntimeError()
    ensures w.ChatbotError? <==> e.IsRuntimeError()
    ensures w == ChatbotError(e) || w == InternalError(e)
  {
    if e.IsRuntimeError() then ChatbotError(e) else InternalError(e)
  }

  /** `send_message` on the store's value, given the rate limiter's answer
      for the client: a limited call raises before anything else; then the
      handler's checks; then one chat turn on the stripped message, whose
      errors are wrapped. */
  function Send(m: map<string, SessionState>, limited: bool, message: string, sessionId: Option<string>,
                cfg: Config, env: Env): Turn
  {
    if limited then Turn(m, Failure(ClientRateLimited))
    else
      match ValidateSend(message, sessionId)
      case Fail(e) => Turn(m, Failure(e))
      case Pass =>
        var t := ChatTurn(m, Strip(message), sessionId, cfg, env);
        match t.result
        case Success(reply) => Turn(t.sessions, Success(reply))
        case Failure(e) => Turn(t.sessions, Failure(WrapChatError(e)))
  }

  /** A limited call, and a call the handler's own checks refuse, raise
      before the chat turn and leave the store as it was. */
  lemma SendRejectsBeforeChat(m: map<string, SessionState>, limited: bool, message: string, sessionId: Option<string>,
                              cfg: Config, env: Env)
    ensures limited ==> Send(m, limited, message, sessionId, cfg, env) == Turn(m, Failure(ClientRateLimited))
    ensures !limited && ValidateSend(message, sessionId).Fail? ==>
      Send(m, limited, message, sessionId, cfg, env) == Turn(m, Failure(ValidateSend(message, sessionId).error))
  {
  }

  /** A message the handler accepts is accepted by the chat turn's own
      validation too, once stripped, and is not blank: the chat turn never
      sees an empty, an over-long or a blank message from this handler. */
  lemma SendValidationCoversChat(message: string, sessionId: Option<string>)
    requires ValidateSend(message, sessionId).Pass?
    ensures ValidateChat(Strip(message), sessionId).Pass?
    ensures Strip(Strip(message)) != ""
  {
    StripIdempotent(message);
  }

  /** The only errors a chat turn can raise on a message the handler
      accepted: a `RuntimeError` (missing key, provider failures), or a
      refusal of get-or-create when the generated id is empty or taken. */
  lemma ChatTurnErrorsAfterSendValidation(m: map<string, SessionState>, message: string, sessionId: Option<string>,
                                          cfg: Config, env: Env)
    requires ValidateSend(message, sessionId).Pass?
    ensures var t := ChatTurn(m, Strip(message), sessionId, cfg, env);
      t.result.Failure? ==>
        t.result.error.IsRuntimeError() || t.result.error == EmptySessionId || t.result.error == SessionExists
  {
    SendValidationCoversChat(message, sessionId);
    var swept := Sweep(m, env.now, cfg.sessionTimeoutMinutes);
    if ApiKeyConfigured(cfg) {
      var result := Resolved(swept, sessionId, env);
      if result.Success? {
        var id := TurnId(sessionId, env);
        var user := Appended(result.value[id], "user", Strip(Strip(message)), env.now);
        assert user.Success?;
      }
    }
  }

  /** Every error `send_message` raises is one of its own checks or a
      `RuntimeError`: the rate limit, a wrapped chatbot error, or a wrapped
      internal error. An internal error can only come from get-or-create. */
  lemma SendErrors(m: map<string, SessionState>, limited: bool, message: string, sessionId: Option<string>,
                   cfg: Config, env: Env)
    ensures var t := Send(m, limited, message, sessionId, cfg, env);
      t.result.Failure? ==>
        || t.result.error in {ClientRateLimited, BlankMessage, RawMessageTooLong, SessionIdTooLong}
        || t.result.error.ChatbotError?
        || t.result.error == InternalError(EmptySessionId)
        || t.result.error == InternalError(SessionExists)
  {
    if !limited && ValidateSend(message, sessionId).Pass? {
      ChatTurnErrorsAfterSendValidation(m, message, sessionId, cfg, env);
    }
  }

  /** `send_message`: the ip's bucket is updated on every call, limited or
      not; the store changes exactly as `Send` says. */
  method SendMessage(limiter: RateLimiter, store: SessionStore, message: string, sessionId: Option<string>,
                     clientIp: string, cfg: Config, env: Env)
    returns (r: Result<ChatResponse, Error>)
    requires store.Valid()
    modifies limiter, store, store.sessions.Values
    ensures store.Valid()
    ensures limiter.store == AfterCall(old(limiter.store), clientIp, limiter.capacity, env.now)
    ensures Turn(store.View(), r) ==
      Send(old(store.View()),
           Check(if clientIp in old(limiter.store) then Some(old(limiter.store)[clientIp]) else None,
                 limiter.capacity, env.now).limited,
           message, sessionId, cfg, env)
  {
    var limited := limiter.IsChatRateLimited(clientIp, env.now);
    if limited {
      return Failure(ClientRateLimited);
    }
    var check := ValidateSend(message, sessionId);
    if check.Fail? {
      return Failure(check.error);
    }
    var result := store.ChatWithOpenRouter(Strip(message), sessionId, cfg, env);
    match result {
      case Success(reply) =>
        return Success(reply);
      case Failure(e) =>
        return Failure(WrapChatError(e));
    }
  }

  // ---------------------------------------------------------------------
  // get_history
  // ---------------------------------------------------------------------

  /** The dict `{"session_id", "messages", "message_count"}`. */
  datatype History = History(sessionId: string, messages: seq<Message>, messageCount: nat)

  /** `get_history`: an empty id and an unknown id are refused; otherwise the
      session's whole history and its length. */
  function GetHistory(store: SessionStore, sessionId: string): (r: Result<History, Error>)
    requires store.Valid()
    reads store, store.sessions.Values
    ensures sessionId == "" ==> r == Failure(SessionIdRequired)
    ensures sessionId != "" && sessionId !in store.View() ==> r == Failure(SessionNotFound)
    ensures r.Success? <==> sessionId != "" && sessionId in store.View()
    ensures r.Success? ==>
      && r.value.sessionId == sessionId
      && r.value.messages == store.View()[sessionId].messages
      && r.value.messageCount == |store.View()[sessionId].messages|
  {
    if sessionId == "" then Failure(SessionIdRequired)
    else
      match store.GetSessionHistory(sessionId)
      case None => Failure(SessionNotFound)
      case Some(history) => Success(History(sessionId, history, |history|))
  }

  // ---------------------------------------------------------------------
  // delete_session_handler
  // ---------------------------------------------------------------------

  /** The dict `{"status", "message"}`. */
  datatype StatusMessage = StatusMessage(status: string, message: string)

  /** The store after a delete request, with what the handler returned or
      raised. */
  datatype Deletion = Deletion(sessions: map<string, SessionState>, result: Result<StatusMessage, Error>)

  /** `delete_session_handler` on the store's value: an empty id is refused
      and nothing changes; otherwise `clear_session` runs, and the status is
      "success" exactly when it removed a session, "not_found" otherwise,
      with a message naming the id. */
  function Delete(m: map<string, SessionState>, sessionId: string): (d: Deletion)
    ensures sessionId == "" ==> d == Deletion(m, Failure(SessionIdRequired))
    ensures sessionId != "" ==>
      && d.sessions == Clear(m, sessionId).sessions
      && d.result.Success?
      && (d.result.value.status == "success" <==> sessionId in m)
      && (d.result.value.status == "not_found" <==> sessionId !in m)
      && d.result.value.message == "Session " + sessionId + (if sessionId in m then " cleared" else " not found")
  {
    if sessionId == "" then Deletion(m, Failure(SessionIdRequired))
    else
      var c := Clear(m, sessionId);
      if c.deleted then Deletion(c.sessions, Success(StatusMessage("success", "Session " + sessionId + " cleared")))
      else Deletion(c.sessions, Success(StatusMessage("not_found", "Session " + sessionId + " not found")))
  }

  /** Deleting the same session twice: the second request reports
      "not_found" and changes nothing. */
  lemma DeleteTwice(m: map<string, SessionState>, sessionId: string)
    requires sessionId != ""
    ensures var once := Delete(m, sessionId);
      var twice := Delete(once.sessions, sessionId);
      && twice.result.Success? && twice.result.value.status == "not_found"
      && twice.sessions == once.sessions
  {
    ClearTwice(m, sessionId);
  }

  /** `delete_session_handler`. */
  method DeleteSessionHandler(store: SessionStore, sessionId: string) returns (r: Result<StatusMessage, Error>)
    requires store.Valid()
    modifies store
    ensures store.Valid()
    ensures Deletion(store.View(), r) == Delete(old(store.View()), sessionId)
  {
    if sessionId == "" {
      return Failure(SessionIdRequired);
    }
    var deleted := store.ClearSession(sessionId);
    if deleted {
      return Success(StatusMessage("success", "Session " + sessionId + " cleared"));
    }
    return Success(StatusMessage("not_found", "Session " + sessionId + " not found"));
  }

  // ---------------------------------------------------------------------
  // analyze_with_context_handler
  // ---------------------------------------------------------------------

  /** `analyze_with_context_handler` on the store's value: an empty list is
      refused before the analysis runs; then an error raised by the analysis,
      or an error dict it returns, becomes an internal server error; a
      successful result is passed through. */
  function HandleAnalysis(m: map<string, SessionState>, comments: seq<string>, query: Option<string>,
                          sessionId: Option<string>, cfg: Config, env: Env): AnalysisTurn
  {
    if |comments| == 0 then AnalysisTurn(m, Failure(CommentsRequired))
    else
      var t := Analyze(m, comments, query, sessionId, cfg, env);
      match t.result
      case Failure(e) => AnalysisTurn(t.sessions, Failure(InternalError(e)))
      case Success(a) =>
        // `result.get("status") == "error"`; see `AnalysisStatusIsError`
        if a.AnalysisError? then AnalysisTurn(t.sessions, Failure(InternalError(a.error)))
        else t
  }

  /** A successful chat turn always answers with the status "success". */
  lemma ChatTurnSuccessStatus(m: map<string, SessionState>, userMessage: string, sessionId: Option<string>,
                              cfg: Config, env: Env)
    ensures var t := ChatTurn(m, userMessage, sessionId, cfg, env);
      t.result.Success? ==> t.result.value.status == "success"
  {
    var swept := Sweep(m, env.now, cfg.sessionTimeoutMinutes);
    if Admitted(userMessage, sessionId, cfg) && Resolved(swept, sessionId, env).Success? {
      var resolved := Resolved(swept, sessionId, env).value;
      var e := Exchange(resolved, TurnId(sessionId, env), Strip(userMessage), cfg, env);
      assert e.result.Success? ==> e.result.value.status == "success";
    }
  }

  /** The analysis's result has the status "error" exactly when it is an
      error dict: a successful chat turn never reports "error". */
  lemma AnalysisStatusIsError(m: map<string, SessionState>, comments: seq<string>, query: Option<string>,
                              sessionId: Option<string>, cfg: Config, env: Env)
    ensures var t := Analyze(m, comments, query, sessionId, cfg, env);
      t.result.Success? ==> (t.result.value.Status() == "error" <==> t.result.value.AnalysisError?)
  {
    if 0 < |comments| <= MaxComments && ValidComments(comments) != [] && |QueryText(query)| <= MaxQueryLength {
      ChatTurnSuccessStatus(m, AnalysisPrompt(ValidComments(comments), query), sessionId, cfg, env);
    }
  }

  /** For a non-empty list the handler fails exactly when the analysis
      raised or returned an error dict, always with an internal server error
      around the analysis's own error; otherwise it returns the analysis's
      result unchanged. The store changes as the analysis changed it. */
  lemma HandleAnalysisPassesSuccess(m: map<string, SessionState>, comments: seq<string>, query: Option<string>,
                                    sessionId: Option<string>, cfg: Config, env: Env)
    requires |comments| > 0
    ensures var inner := Analyze(m, comments, query, sessionId, cfg, env);
      var outer := HandleAnalysis(m, comments, query, sessionId, cfg, env);
      && outer.sessions == inner.sessions
      && (outer.result.Success? <==> inner.result.Success? && inner.result.value.Status() != "error")
      && (outer.result.Success? ==> outer == inner)
      && (inner.result.Failure? ==> outer.result == Failure(InternalError(inner.result.error)))
      && (inner.result.Success? && inner.result.value.Status() == "error" ==>
            outer.result == Failure(InternalError(inner.result.value.error)))
  {
    AnalysisStatusIsError(m, comments, query, sessionId, cfg, env);
  }

  /** `analyze_with_context_handler`. */
  method AnalyzeWithContextHandler(store: SessionStore, comments: seq<string>, query: Option<string>,
                                   sessionId: Option<string>, cfg: Config, env: Env)
    returns (r: Result<AnalysisResult, Error>)
    requires store.Valid()
    modifies store, store.sessions.Values
    ensures store.Valid()
    ensures AnalysisTurn(store.View(), r) == HandleAnalysis(old(store.View()), comments, query, sessionId, cfg, env)
  {
    if |comments| == 0 {
      return Failure(CommentsRequired);
    }
    var result := store.AnalyzeSentimentWithContext(comments, query, sessionId, cfg, env);
    match result {
      case Failure(e) =>
        return Failure(InternalError(e));
      case Success(a) =>
        if a.AnalysisError? {
          return Failure(InternalError(a.error));
        }
        return Success(a);
    }
  }
}
