/** The session store of adimpactbot/chatbotana.py: the module-level dict
    `_chat_sessions` and the functions that work on it, including the chat
    turn `chat_with_openrouter` and `analyze_sentiment_with_context`.

    The first half gives the meaning of each operation as a function on the
    store's value, a map from session id to `SessionState`; the class
    `SessionStore` that follows holds the `ChatbotSession` objects and its
    methods are proved to change that value exactly as these functions say. */
module Store {
  import opened Wrappers
  import opened Text
  import opened Errors
  import opened Sessions
  import opened Gateway
  import opened Analysis

  const MaxMessageLength := 5000
  const MaxSessionIdLength := 500

  /** The parts of `ChatbotSettings` the core reads. */
  datatype Config = Config(apiKey: string, sessionTimeoutMinutes: int, systemPrompt: string)

  /** `validate_api_key()`. */
  predicate ApiKeyConfigured(cfg: Config) {
    cfg.apiKey != "" && cfg.apiKey != "apikey"
  }

  /** What the outside world supplies to one call: the clock reading
      (`datetime.now()`, in seconds), the id `uuid4()` would generate, and the
      provider, as a function from the request's messages to its outcome. */
  datatype Env = Env(now: real, freshId: string, send: seq<Message> -> Outbound)

  /** A missing and an empty session id are both falsy in Python. */
  function SessionIdOf(sessionId: Option<string>): string {
    sessionId.GetOr("")
  }

  // ---------------------------------------------------------------------
  // The store's operations as functions on its value
  // ---------------------------------------------------------------------

  /** `create_chat_session(id)`: an empty or already used id is refused and
      nothing changes; otherwise exactly that key is added, mapped to a new
      session with no history, and every other entry stays as it was. */
  function Created(m: map<string, SessionState>, id: string, now: real): (r: Result<map<string, SessionState>, Error>)
    ensures id == "" ==> r == Failure(EmptySessionId)
    ensures id != "" && id in m ==> r == Failure(SessionExists)
    ensures id != "" && id !in m ==>
      && r.Success?
      && r.value.Keys == m.Keys + {id}
      && r.value[id] == Fresh(now)
      && forall k :: k in m ==> r.value[k] == m[k]
  {
    if id == "" then Failure(EmptySessionId)
    else if id in m then Failure(SessionExists)
    else Success(m[id := Fresh(now)])
  }

  /** The ids `cleanup_expired_sessions` collects. */
  function ExpiredIds(m: map<string, SessionState>, now: real, timeoutMinutes: int): (ids: set<string>)
    ensures ids <= m.Keys
  {
    set id | id in m && Expired(m[id], now, timeoutMinutes)
  }

  /** `cleanup_expired_sessions()`: no expired session remains and every
      other session survives unchanged. */
  function Sweep(m: map<string, SessionState>, now: real, timeoutMinutes: int): (r: map<string, SessionState>)
    ensures forall id :: id in r <==> id in m && !Expired(m[id], now, timeoutMinutes)
    ensures forall id :: id in r ==> r[id] == m[id]
  {
    map id | id in m && !Expired(m[id], now, timeoutMinutes) :: m[id]
  }

  /** The sweep removes exactly the expired ids, so the count it returns is
      the number of sessions it removed. */
  lemma SweepRemovesExpired(m: map<string, SessionState>, now: real, timeoutMinutes: int)
    ensures Sweep(m, now, timeoutMinutes).Keys == m.Keys - ExpiredIds(m, now, timeoutMinutes)
    ensures |Sweep(m, now, timeoutMinutes)| == |m| - |ExpiredIds(m, now, timeoutMinutes)|
  {
    var r := Sweep(m, now, timeoutMinutes);
    var ids := ExpiredIds(m, now, timeoutMinutes);
    assert r.Keys == m.Keys - ids;
    assert m.Keys == r.Keys + ids;
    assert r.Keys !! ids;
    assert |m.Keys| == |r.Keys| + |ids|;
  }

  /** The result of `clear_session`, with the store after it. */
  datatype Cleared = Cleared(deleted: bool, sessions: map<string, SessionState>)

  /** `clear_session(id)`: true and only that key removed when the id is
      non-empty and present; false and nothing changed otherwise. */
  function Clear(m: map<string, SessionState>, id: string): (c: Cleared)
    ensures c.deleted <==> id != "" && id in m
    ensures c.deleted ==> c.sessions.Keys == m.Keys - {id}
    ensures forall k :: k in c.sessions ==> k in m && c.sessions[k] == m[k]
    ensures !c.deleted ==> c.sessions == m
  {
    if id == "" then Cleared(false, m)
    else if id in m then Cleared(true, m - {id})
    else Cleared(false, m)
  }

  /** Clearing the same id twice: the second call finds nothing and changes
      nothing. */
  lemma {:induction false} ClearTwice(m: map<string, SessionState>, id: string)
    ensures !Clear(Clear(m, id).sessions, id).deleted
    ensures Clear(Clear(m, id).sessions, id).sessions == Clear(m, id).sessions
  {
    var once := Clear(m, id);
    assert id !in once.sessions || id == "" by {
      if once.deleted { assert once.sessions.Keys == m.Keys - {id}; }
    }
  }

  /** The validation at the head of `chat_with_openrouter`: a falsy message,
      a stripped message over 5000 characters, a non-empty session id over
      500 characters. */
  function ValidateChat(userMessage: string, sessionId: Option<string>): Outcome<Error> {
    if userMessage == "" then Fail(EmptyMessage)
    else if |Strip(userMessage)| > MaxMessageLength then Fail(MessageTooLong)
    else if SessionIdOf(sessionId) != "" && |SessionIdOf(sessionId)| > MaxSessionIdLength then Fail(InvalidSessionIdFormat)
    else Pass
  }

  /** The dict `{"status", "response", "session_id"}` a chat turn returns. */
  datatype ChatResponse = ChatResponse(status: string, response: string, sessionId: string)

  /** The store after a chat turn, with what the turn returned or raised. */
  datatype Turn = Turn(sessions: map<string, SessionState>, result: Result<ChatResponse, Error>)

  /** The key a chat turn works on: the caller's id when it is non-empty, the
      freshly generated one otherwise. */
  function TurnId(sessionId: Option<string>, env: Env): string {
    if SessionIdOf(sessionId) != "" then SessionIdOf(sessionId) else env.freshId
  }

  /** Get-or-create: a non-empty id that is present is reused; a non-empty id
      that is absent is created under that id; otherwise the fresh id is
      created. */
  function Resolved(swept: map<string, SessionState>, sessionId: Option<string>, env: Env): (r: Result<map<string, SessionState>, Error>)
    ensures r.Success? ==> TurnId(sessionId, env) in r.value
  {
    var sid := SessionIdOf(sessionId);
    if sid != "" && sid in swept then Success(swept)
    else Created(swept, TurnId(sessionId, env), env.now)
  }

  /** The history a turn builds on: that of the reused session, or none. */
  function Prior(swept: map<string, SessionState>, sessionId: Option<string>): seq<Message> {
    var sid := SessionIdOf(sessionId);
    if sid != "" && sid in swept then swept[sid].messages else []
  }

  /** The request sent to the provider: the system prompt, then the history
      including the new user message. */
  function Payload(cfg: Config, history: seq<Message>): seq<Message> {
    [Message("system", cfg.systemPrompt)] + history
  }

  /** Whether a turn gets past validation and the API key check. */
  predicate Admitted(userMessage: string, sessionId: Option<string>, cfg: Config) {
    ValidateChat(userMessage, sessionId).Pass? && ApiKeyConfigured(cfg)
  }

  /** Whether get-or-create succeeds: always for a non-empty caller id (an
      absent one is created), and for the generated id when it is usable. */
  predicate Resolves(swept: map<string, SessionState>, sessionId: Option<string>, env: Env) {
    SessionIdOf(sessionId) != "" || (env.freshId != "" && env.freshId !in swept)
  }

  /** `chat_with_openrouter` on the store's value, step by step in the order
      of the source. What it guarantees is stated by the lemmas below. */
  function ChatTurn(m: map<string, SessionState>, userMessage: string, sessionId: Option<string>, cfg: Config, env: Env): Turn
  {
    match ValidateChat(userMessage, sessionId)
    case Fail(e) => Turn(m, Failure(e))
    case Pass =>
      if !ApiKeyConfigured(cfg) then Turn(m, Failure(ApiKeyNotConfigured))
      else
        var swept := Sweep(m, env.now, cfg.sessionTimeoutMinutes);
        match Resolved(swept, sessionId, env)
        case Failure(e) => Turn(swept, Failure(e))
        case Success(resolved) =>
          Exchange(resolved, TurnId(sessionId, env), Strip(userMessage), cfg, env)
  }

  /** The part of a chat turn after get-or-create, on the session `id`: the
      user message is recorded, the provider is asked, and its reply is
      recorded. */
  function Exchange(resolved: map<string, SessionState>, id: string, message: string, cfg: Config, env: Env): Turn
    requires id in resolved
  {
    match Appended(resolved[id], "user", message, env.now)
    case Failure(e) => Turn(resolved, Failure(e))
    case Success(withUser) =>
      var afterUser := resolved[id := withUser];
      match Classify(env.send(Payload(cfg, withUser.messages)))
      case Failure(e) => Turn(afterUser, Failure(e))
      case Success(reply) =>
        match Appended(withUser, "assistant", reply, env.now)
        case Failure(e) => Turn(afterUser, Failure(InvalidResponseFormat(e)))
        case Success(withReply) =>
          Turn(resolved[id := withReply], Success(ChatResponse("success", reply, id)))
  }

  /** The exchange changes only the session `id`, and keeps its creation
      time. */
  lemma ExchangeTouchesOnlyItsSession(resolved: map<string, SessionState>, id: string, message: string, cfg: Config, env: Env)
    requires id in resolved
    ensures var t := Exchange(resolved, id, message, cfg, env);
      && t.sessions.Keys == resolved.Keys
      && (forall k :: k in resolved && k != id ==> t.sessions[k] == resolved[k])
      && t.sessions[id].createdAt == resolved[id].createdAt
  {
  }

  /** A validation failure or a missing API key raises before the sweep and
      leaves the store as it was. */
  lemma ChatTurnRejectsBeforeSweep(m: map<string, SessionState>, userMessage: string, sessionId: Option<string>, cfg: Config, env: Env)
    ensures userMessage == "" ==> ChatTurn(m, userMessage, sessionId, cfg, env) == Turn(m, Failure(EmptyMessage))
    ensures userMessage != "" && |Strip(userMessage)| > MaxMessageLength ==>
      ChatTurn(m, userMessage, sessionId, cfg, env) == Turn(m, Failure(MessageTooLong))
    ensures userMessage != "" && |Strip(userMessage)| <= MaxMessageLength
            && SessionIdOf(sessionId) != "" && |SessionIdOf(sessionId)| > MaxSessionIdLength ==>
      ChatTurn(m, userMessage, sessionId, cfg, env) == Turn(m, Failure(InvalidSessionIdFormat))
    ensures ValidateChat(userMessage, sessionId).Pass? && !ApiKeyConfigured(cfg) ==>
      ChatTurn(m, userMessage, sessionId, cfg, env) == Turn(m, Failure(ApiKeyNotConfigured))
  {
  }

  /** Past validation, expired sessions are swept first. If get-or-create
      succeeds, the turn's session is the only entry that changes: a reused
      session keeps its creation time, a created one starts at `now`. If it
      fails (the generated id is empty or taken), the sweep stays done and
      nothing else changes. */
  lemma ChatTurnTouchesOnlyItsSession(m: map<string, SessionState>, userMessage: string, sessionId: Option<string>, cfg: Config, env: Env)
    requires Admitted(userMessage, sessionId, cfg)
    ensures var swept := Sweep(m, env.now, cfg.sessionTimeoutMinutes);
      var t := ChatTurn(m, userMessage, sessionId, cfg, env);
      var id := TurnId(sessionId, env);
      && (!Resolves(swept, sessionId, env) ==> t.sessions == swept && t.result.Failure?)
      && (Resolves(swept, sessionId, env) ==>
        && t.sessions.Keys == swept.Keys + {id}
        && (forall k :: k in swept && k != id ==> t.sessions[k] == swept[k])
        && t.sessions[id].createdAt == (if id in swept then swept[id].createdAt else env.now))
  {
    var swept := Sweep(m, env.now, cfg.sessionTimeoutMinutes);
    var id := TurnId(sessionId, env);
    if Resolves(swept, sessionId, env) {
      var resolved := Resolved(swept, sessionId, env).value;
      assert resolved.Keys == swept.Keys + {id};
      assert resolved[id].createdAt == (if id in swept then swept[id].createdAt else env.now);
      ExchangeTouchesOnlyItsSession(resolved, id, Strip(userMessage), cfg, env);
    }
  }

  /** A message that is blank once stripped passes validation but is refused
      by `add_message`: after the sweep and after the session has been
      created, and with no entry appended. */
  lemma ChatTurnBlankMessage(m: map<string, SessionState>, userMessage: string, sessionId: Option<string>, cfg: Config, env: Env)
    requires Admitted(userMessage, sessionId, cfg)
    requires Resolves(Sweep(m, env.now, cfg.sessionTimeoutMinutes), sessionId, env)
    requires Strip(userMessage) == ""
    ensures var swept := Sweep(m, env.now, cfg.sessionTimeoutMinutes);
      var t := ChatTurn(m, userMessage, sessionId, cfg, env);
      && t.result == Failure(EmptyContent)
      && t.sessions == Resolved(swept, sessionId, env).value
      && t.sessions[TurnId(sessionId, env)].messages == Prior(swept, sessionId)
  {
  }

  /** Once the user message is recorded the provider is called with the
      system prompt followed by the whole history. A failed call leaves the
      history one user message longer and adds no reply; a successful one adds
      exactly the user message and the reply, and returns the reply with the
      session's id. */
  lemma ChatTurnRecordsExchange(m: map<string, SessionState>, userMessage: string, sessionId: Option<string>, cfg: Config, env: Env)
    requires Admitted(userMessage, sessionId, cfg)
    requires Resolves(Sweep(m, env.now, cfg.sessionTimeoutMinutes), sessionId, env)
    requires Strip(userMessage) != ""
    ensures var swept := Sweep(m, env.now, cfg.sessionTimeoutMinutes);
      var t := ChatTurn(m, userMessage, sessionId, cfg, env);
      var id := TurnId(sessionId, env);
      var withUser := Prior(swept, sessionId) + [Message("user", Strip(userMessage))];
      var outcome := Classify(env.send(Payload(cfg, withUser)));
      && t.sessions[id].lastAccessed == env.now
      && (outcome.Failure? ==> t.result == Failure(outcome.error) && t.sessions[id].messages == withUser)
      && (outcome.Success? ==>
            && t.result == Success(ChatResponse("success", outcome.value, id))
            && t.sessions[id].messages == withUser + [Message("assistant", outcome.value)])
  {
    var swept := Sweep(m, env.now, cfg.sessionTimeoutMinutes);
    var resolved := Resolved(swept, sessionId, env).value;
    var id := TurnId(sessionId, env);
    assert resolved[id].messages == Prior(swept, sessionId);
    StripIdempotent(userMessage);
  }

  /** A missing session id and an empty one lead to the same turn. */
  lemma EmptySessionIdIsAbsent(m: map<string, SessionState>, userMessage: string, cfg: Config, env: Env)
    ensures ChatTurn(m, userMessage, None, cfg, env) == ChatTurn(m, userMessage, Some(""), cfg, env)
  {
  }

  /** The dict `analyze_sentiment_with_context` returns: the chat turn's dict
      with `comment_count` and `sample_count` added, or the error dict whose
      `comment_count` is the number of comments received. */
  datatype AnalysisResult =
    | Analyzed(reply: ChatResponse, commentCount: nat, sampleCount: nat)
    | AnalysisError(error: Error, commentCount: nat)
  {
    function Status(): string {
      if Analyzed? then reply.status else "error"
    }
  }

  datatype AnalysisTurn = AnalysisTurn(sessions: map<string, SessionState>, result: Result<AnalysisResult, Error>)

  /** `analyze_sentiment_with_context` on the store's value. */
  function Analyze(m: map<string, SessionState>, comments: seq<string>, userQuery: Option<string>,
                   sessionId: Option<string>, cfg: Config, env: Env): (t: AnalysisTurn)
    // the validation raises before any chat call and touches nothing
    ensures |comments| == 0 ==> t == AnalysisTurn(m, Failure(CommentsNotNonEmptyList))
    ensures |comments| > MaxComments ==> t == AnalysisTurn(m, Failure(TooManyComments))
    ensures 0 < |comments| <= MaxComments && ValidComments(comments) == [] ==>
      t == AnalysisTurn(m, Failure(NoValidComments))
    ensures 0 < |comments| <= MaxComments && ValidComments(comments) != [] && |QueryText(userQuery)| > MaxQueryLength ==>
      t == AnalysisTurn(m, Failure(QueryTooLong))
    // afterwards one chat turn with the prompt, whose failure becomes an error dict
    ensures 0 < |comments| <= MaxComments && ValidComments(comments) != [] && |QueryText(userQuery)| <= MaxQueryLength ==>
      var valid := ValidComments(comments);
      var chat := ChatTurn(m, AnalysisPrompt(valid, userQuery), sessionId, cfg, env);
      && t.sessions == chat.sessions
      && t.result.Success?
      && (chat.result.Success? ==>
            t.result.value == Analyzed(chat.result.value, |valid|, if |valid| < SampleSize then |valid| else SampleSize))
      && (chat.result.Failure? ==> t.result.value == AnalysisError(chat.result.error, |comments|))
  {
    if |comments| == 0 then AnalysisTurn(m, Failure(CommentsNotNonEmptyList))
    else if |comments| > MaxComments then AnalysisTurn(m, Failure(TooManyComments))
    else
      var valid := ValidComments(comments);
      if valid == [] then AnalysisTurn(m, Failure(NoValidComments))
      else if QueryText(userQuery) != "" && |QueryText(userQuery)| > MaxQueryLength then AnalysisTurn(m, Failure(QueryTooLong))
      else
        var samples := Take(valid, SampleSize);
        var chat := ChatTurn(m, AnalysisPrompt(valid, userQuery), sessionId, cfg, env);
        match chat.result
        case Success(reply) => AnalysisTurn(chat.sessions, Success(Analyzed(reply, |valid|, |samples|)))
        case Failure(e) => AnalysisTurn(chat.sessions, Success(AnalysisError(e, |comments|)))
  }

  /** The only validation the analysis prompt can fail in the chat turn is the
      caller's session id: the prompt itself is always accepted. */
  lemma AnalysisPromptPassesValidation(valid: seq<string>, userQuery: Option<string>, sessionId: Option<string>)
    requires |valid| <= MaxComments && |QueryText(userQuery)| <= MaxQueryLength
    ensures ValidateChat(AnalysisPrompt(valid, userQuery), sessionId).Fail? ==>
      ValidateChat(AnalysisPrompt(valid, userQuery), sessionId) == Fail(InvalidSessionIdFormat)
  {
  }

  // ---------------------------------------------------------------------
  // The store itself
  // ---------------------------------------------------------------------

  /** A second update of the same key overrides the first. */
  lemma UpdateTwice(m: map<string, SessionState>, k: string, a: SessionState, b: SessionState)
    ensures m[k := a][k := b] == m[k := b]
  {
  }

  /** The value of a map of session objects. */
  ghost function ViewOf(objects: map<string, ChatbotSession>): map<string, SessionState>
    reads objects.Values
  {
    map id | id in objects :: objects[id].State()
  }

  /** Deleting the objects that report themselves expired leaves the value
      `Sweep` describes, and as many entries fewer as there were expired
      ids. */
  lemma SweepOfSessions(objects: map<string, ChatbotSession>, expired: set<string>, now: real, timeoutMinutes: int)
    requires forall id :: id in expired <==> id in objects && objects[id].IsExpired(now, timeoutMinutes)
    ensures expired == ExpiredIds(ViewOf(objects), now, timeoutMinutes)
    ensures ViewOf(objects - expired) == Sweep(ViewOf(objects), now, timeoutMinutes)
    ensures |objects - expired| == |objects| - |expired|
  {
    var before := ViewOf(objects);
    assert expired == ExpiredIds(before, now, timeoutMinutes);
    var after := Sweep(before, now, timeoutMinutes);
    var kept := ViewOf(objects - expired);
    assert kept.Keys == after.Keys;
    assert forall id :: id in kept ==> kept[id] == after[id];
    assert kept == after;
    RemovedCount(objects, expired);
  }

  /** Removing a set of present keys shrinks a map by that many entries. */
  lemma RemovedCount(objects: map<string, ChatbotSession>, ids: set<string>)
    requires ids <= objects.Keys
    ensures |objects - ids| == |objects| - |ids|
  {
    var rest := (objects - ids).Keys;
    assert rest == objects.Keys - ids;
    assert objects.Keys == rest + ids && rest !! ids;
    assert |objects.Keys| == |rest| + |ids|;
  }

  class SessionStore {
    /** `_chat_sessions`. */
    var sessions: map<string, ChatbotSession>

    /** Every session is filed under its own id, so distinct keys hold
        distinct objects. */
    ghost predicate Valid()
      reads this
    {
      forall id :: id in sessions ==> sessions[id].sessionId == id
    }

    /** The store's value. */
    ghost function View(): map<string, SessionState>
      reads this, sessions.Values
    {
      ViewOf(sessions)
    }

    constructor ()
      ensures Valid() && sessions == map[]
    {
      sessions := map[];
    }

    /** `create_chat_session`. */
    method CreateChatSession(sessionId: string, now: real) returns (r: Result<ChatbotSession, Error>)
      requires Valid()
      modifies this
      ensures Valid()
      ensures Created(old(View()), sessionId, now) == if r.Success? then Success(View()) else Failure(r.error)
      ensures r.Success? ==> fresh(r.value) && sessions == old(sessions)[sessionId := r.value]
      ensures r.Failure? ==> sessions == old(sessions)
    {
      if sessionId == "" {
        return Failure(EmptySessionId);
      }
      if sessionId in sessions {
        return Failure(SessionExists);
      }
      var session := new ChatbotSession(sessionId, now);
      sessions := sessions[sessionId := session];
      assert View() == old(View())[sessionId := Fresh(now)];
      return Success(session);
    }

    /** `get_chat_session`: the session filed under the id, if any. */
    function GetChatSession(sessionId: string): (r: Option<ChatbotSession>)
      requires Valid()
      reads this
      ensures r.Some? <==> sessionId in sessions
      ensures r.Some? ==> r.value == sessions[sessionId] && r.value.sessionId == sessionId
    {
      if sessionId in sessions then Some(sessions[sessionId]) else None
    }

    /** `cleanup_expired_sessions`: collects the expired ids, then deletes
        them one by one; returns how many it collected, which is how many
        sessions were removed. */
    method CleanupExpiredSessions(now: real, timeoutMinutes: int) returns (removed: nat)
      requires Valid()
      modifies this
      ensures Valid()
      ensures View() == Sweep(old(View()), now, timeoutMinutes)
      ensures removed == |ExpiredIds(old(View()), now, timeoutMinutes)|
      ensures removed == |old(sessions)| - |sessions|
      ensures forall id :: id in sessions ==> id in old(sessions) && sessions[id] == old(sessions[id])
    {
      ghost var initial := sessions;
      var expired := set id | id in sessions && sessions[id].IsExpired(now, timeoutMinutes);
      var pending := expired;
      while pending != {}
        invariant pending <= expired
        invariant forall k :: k in sessions <==> k in initial && (k in expired ==> k in pending)
        invariant forall k :: k in sessions ==> sessions[k] == initial[k]
        decreases pending
      {
        var id :| id in pending;
        sessions := sessions - {id};
        pending := pending - {id};
      }
      assert sessions == initial - expired;
      assert ViewOf(initial) == old(View());
      removed := |expired|;
      SweepOfSessions(initial, expired, now, timeoutMinutes);
    }

    /** `get_session_history`: the history of a non-empty, present id; `None`
        otherwise. */
    function GetSessionHistory(sessionId: string): (r: Option<seq<Message>>)
      requires Valid()
      reads this, sessions.Values
      ensures r.Some? <==> sessionId != "" && sessionId in View()
      ensures r.Some? ==> r.value == View()[sessionId].messages
    {
      if sessionId == "" then None
      else
        match GetChatSession(sessionId)
        case Some(session) => Some(session.messages)
        case None => None
    }

    /** `clear_session`. */
    method ClearSession(sessionId: string) returns (deleted: bool)
      requires Valid()
      modifies this
      ensures Valid()
      ensures Cleared(deleted, View()) == Clear(old(View()), sessionId)
      ensures sessions == if deleted then old(sessions) - {sessionId} else old(sessions)
    {
      if sessionId == "" {
        return false;
      }
      if sessionId in sessions {
        sessions := sessions - {sessionId};
        assert View() == old(View()) - {sessionId};
        return true;
      }
      return false;
    }

    /** `session.add_message(...)` on the session filed under `id`; only that
        session changes. */
    method AddToSession(id: string, role: string, content: string, now: real) returns (r: Outcome<Error>)
      requires Valid() && id in sessions
      modifies sessions[id]
      ensures Valid() && sessions == old(sessions)
      ensures Appended(old(View())[id], role, content, now).Success? ==>
        r.Pass? && View() == old(View())[id := Appended(old(View())[id], role, content, now).value]
      ensures Appended(old(View())[id], role, content, now).Failure? ==>
        r == Fail(Appended(old(View())[id], role, content, now).error) && View() == old(View())
    {
      var session := sessions[id];
      r := session.AddMessage(role, content, now);
      assert forall k :: k in sessions && k != id ==> sessions[k] != session;
      if r.Pass? {
        assert View() == old(View())[id := session.State()];
      } else {
        assert View() == old(View());
      }
    }

    /** `chat_with_openrouter`: one chat turn, exactly as `ChatTurn` says. */
    method ChatWithOpenRouter(userMessage: string, sessionId: Option<string>, cfg: Config, env: Env)
      returns (r: Result<ChatResponse, Error>)
      requires Valid()
      modifies this, sessions.Values
      ensures Valid()
      ensures Turn(View(), r) == ChatTurn(old(View()), userMessage, sessionId, cfg, env)
    {
      var check := ValidateChat(userMessage, sessionId);
      if check.Fail? {
        return Failure(check.error);
      }
      if !ApiKeyConfigured(cfg) {
        return Failure(ApiKeyNotConfigured);
      }
      var removed := CleanupExpiredSessions(env.now, cfg.sessionTimeoutMinutes);
      var resolution := ResolveSession(sessionId, env);
      if resolution.Fail? {
        return Failure(resolution.error);
      }
      r := ExchangeOn(TurnId(sessionId, env), Strip(userMessage), cfg, env);
    }

    /** The get-or-create step of `chat_with_openrouter`. */
    method ResolveSession(sessionId: Option<string>, env: Env) returns (r: Outcome<Error>)
      requires Valid()
      modifies this
      ensures Valid()
      ensures Resolved(old(View()), sessionId, env) == if r.Pass? then Success(View()) else Failure(r.error)
      ensures r.Fail? ==> View() == old(View())
      ensures forall id :: id in sessions ==> sessions[id] in old(sessions.Values) || fresh(sessions[id])
    {
      var sid := SessionIdOf(sessionId);
      var existing := if sid != "" then GetChatSession(sid) else None;
      if existing.Some? {
        return Pass;
      }
      var created := CreateChatSession(TurnId(sessionId, env), env.now);
      if created.Failure? {
        return Fail(created.error);
      }
      return Pass;
    }

    /** The rest of `chat_with_openrouter`, on the session filed under `id`. */
    method ExchangeOn(id: string, message: string, cfg: Config, env: Env) returns (r: Result<ChatResponse, Error>)
      requires Valid() && id in sessions
      modifies sessions[id]
      ensures Valid()
      ensures Turn(View(), r) == Exchange(old(View()), id, message, cfg, env)
    {
      ghost var before := View();
      var added := AddToSession(id, "user", message, env.now);
      if added.Fail? {
        return Failure(added.error);
      }
      ghost var withUser := Appended(before[id], "user", message, env.now).value;
      assert View() == before[id := withUser];
      var payload := Payload(cfg, sessions[id].messages);
      match Classify(env.send(payload)) {
        case Failure(e) =>
          return Failure(e);
        case Success(reply) =>
          // a reply from `Classify` is never empty, so storing it cannot fail
          var stored := AddToSession(id, "assistant", reply, env.now);
          assert stored.Pass?;
          ghost var withReply := Appended(withUser, "assistant", reply, env.now).value;
          assert View() == before[id := withUser][id := withReply];
          UpdateTwice(before, id, withUser, withReply);
          return Success(ChatResponse("success", reply, id));
      }
    }

    /** `analyze_sentiment_with_context`: validates, builds `valid_comments`
        in a loop, then runs one chat turn with the analysis prompt. */
    method AnalyzeSentimentWithContext(comments: seq<string>, userQuery: Option<string>, sessionId: Option<string>,
                                       cfg: Config, env: Env)
      returns (r: Result<AnalysisResult, Error>)
      requires Valid()
      modifies this, sessions.Values
      ensures Valid()
      ensures AnalysisTurn(View(), r) == Analyze(old(View()), comments, userQuery, sessionId, cfg, env)
    {
      if |comments| == 0 {
        return Failure(CommentsNotNonEmptyList);
      }
      if |comments| > MaxComments {
        return Failure(TooManyComments);
      }
      var valid: seq<string> := [];
      var i := 0;
      while i < |comments|
        invariant 0 <= i <= |comments|
        invariant valid == ValidComments(comments[..i])
      {
        var stripped := Strip(comments[i]);
        if stripped != "" && |stripped| <= MaxCommentLength {
          valid := valid + [stripped];
        }
        assert comments[..i + 1][..i] == comments[..i];
        i := i + 1;
      }
      assert comments[..i] == comments;
      if valid == [] {
        return Failure(NoValidComments);
      }
      if QueryText(userQuery) != "" && |QueryText(userQuery)| > MaxQueryLength {
        return Failure(QueryTooLong);
      }
      var samples := Take(valid, SampleSize);
      var prompt := AnalysisPrompt(valid, userQuery);
      var chat := ChatWithOpenRouter(prompt, sessionId, cfg, env);
      match chat {
        case Success(reply) =>
          return Success(Analyzed(reply, |valid|, |samples|));
        case Failure(e) =>
          return Success(AnalysisError(e, |comments|));
      }
    }
  }
}
