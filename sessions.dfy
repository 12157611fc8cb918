/** One conversation: `ChatbotSession` of adimpactbot/chatbotana.py.
    The session's value (`SessionState`) and the pure meaning of its
    operations come first; the class that the store holds follows. */
module Sessions {
  import opened Wrappers
  import opened Text
  import opened Errors

  /** One `{"role": ..., "content": ...}` entry of the history. */
  datatype Message = Message(role: string, content: string)

  predicate ValidRole(role: string) {
    role == "user" || role == "assistant" || role == "system"
  }

  /** What a session holds. Times are seconds, as real numbers. */
  datatype SessionState = SessionState(messages: seq<Message>, createdAt: real, lastAccessed: real)

  /** A session just created at `now`: no history, both timestamps `now`. */
  function Fresh(now: real): SessionState {
    SessionState([], now, now)
  }

  /** `add_message(role, content)` on the session's value. It refuses a role
      outside user/assistant/system and an empty content (checked BEFORE
      stripping, so "  " is accepted and stored as ""); otherwise exactly one
      entry, with the stripped content, is appended after the untouched
      earlier ones, and the access time becomes `now`. */
  function Appended(s: SessionState, role: string, content: string, now: real): (r: Result<SessionState, Error>)
    ensures !ValidRole(role) ==> r == Failure(InvalidRole)
    ensures ValidRole(role) && content == "" ==> r == Failure(EmptyContent)
    ensures ValidRole(role) && content != "" ==>
      && r.Success?
      && |r.value.messages| == |s.messages| + 1
      && r.value.messages[..|s.messages|] == s.messages
      && r.value.messages[|s.messages|] == Message(role, Strip(content))
      && r.value.createdAt == s.createdAt
      && r.value.lastAccessed == now
  {
    if !ValidRole(role) then Failure(InvalidRole)
    else if content == "" then Failure(EmptyContent)
    else Success(s.(messages := s.messages + [Message(role, Strip(content))], lastAccessed := now))
  }

  /** `is_expired(timeout_minutes)`: more than `timeoutMinutes * 60` seconds
      have passed since the last access. */
  predicate Expired(s: SessionState, now: real, timeoutMinutes: int) {
    now - s.lastAccessed > (timeoutMinutes * 60) as real
  }

  /** The comparison is strict: a session idle for exactly the timeout is not
      expired, and one idle for any longer is. */
  lemma ExpiryIsStrict(s: SessionState, timeoutMinutes: int, later: real)
    requires later > s.lastAccessed + (timeoutMinutes * 60) as real
    ensures !Expired(s, s.lastAccessed + (timeoutMinutes * 60) as real, timeoutMinutes)
    ensures Expired(s, later, timeoutMinutes)
  {
  }

  /** Once expired, a session that is not touched stays expired. */
  lemma ExpiryIsMonotone(s: SessionState, timeoutMinutes: int, now: real, later: real)
    requires now <= later
    requires Expired(s, now, timeoutMinutes)
    ensures Expired(s, later, timeoutMinutes)
  {
  }

  class ChatbotSession {
    const sessionId: string
    /** The history, oldest first. Dafny sequences are values, so reading this
        field is already the copy that `get_messages()` returns, and
        `|messages|` is `get_message_count()`. */
    var messages: seq<Message>
    var createdAt: real
    var lastAccessed: real

    function State(): SessionState
      reads this
    {
      SessionState(messages, createdAt, lastAccessed)
    }

    predicate IsExpired(now: real, timeoutMinutes: int)
      reads this
    {
      Expired(State(), now, timeoutMinutes)
    }

    constructor (sessionId: string, now: real)
      requires sessionId != ""
      ensures this.sessionId == sessionId
      ensures State() == Fresh(now)
    {
      this.sessionId := sessionId;
      messages := [];
      createdAt := now;
      lastAccessed := now;
    }

    /** `add_message`: on a refusal nothing changes; otherwise the session's
        new value is the one `Appended` describes. */
    method AddMessage(role: string, content: string, now: real) returns (r: Outcome<Error>)
      modifies this
      ensures Appended(old(State()), role, content, now) == if r.Pass? then Success(State()) else Failure(r.error)
      ensures r.Fail? ==> State() == old(State())
    {
      if !ValidRole(role) {
        return Fail(InvalidRole);
      }
      if content == "" {
        return Fail(EmptyContent);
      }
      messages := messages + [Message(role, Strip(content))];
      lastAccessed := now;
      return Pass;
    }
  }
}
