# AdImpact chatbot core in Dafny

This project models the conversational core of the AdImpact service.

- **`adimpactbot/chatbotana.py`** holds the chat sessions. `ChatbotSession` keeps a history of role/content messages with a creation and a last-access time. The module-level store `_chat_sessions` creates, looks up, expires and clears sessions.
- **`chat_with_openrouter`** runs one chat turn:
  1. validate the message and the session id;
  2. check the API key;
  3. sweep the expired sessions;
  4. get or create the session;
  5. record the user message;
  6. ask the provider for a reply, sending the system prompt followed by the history;
  7. classify the provider's answer or failure;
  8. record and return the reply, which is cut to 10000 characters plus a marker when longer.
- **`analyze_sentiment_with_context`** keeps the comments that are non-empty and at most 5000 characters once stripped. It builds an analysis prompt from them and runs one chat turn with it.
- **`adimpactbot/chatbot.py`** holds the request handlers on top of that: `send_message`, `get_history`, `delete_session_handler` and `analyze_with_context_handler`. It also holds the per-client token bucket `_is_chat_rate_limited`, which refills `capacity` tokens every 60 seconds and takes one token per admitted call.

## How the model is built

The state the source changes in place is modelled by Dafny classes:

- `Sessions.ChatbotSession` has the fields `messages`, `createdAt` and `lastAccessed`.
- `Store.SessionStore` holds `sessions: map<string, ChatbotSession>`, which is `_chat_sessions`.
- `RateLimit.RateLimiter` holds `store: map<string, Bucket>`, which is `_chat_rate_store`.

Each class has a value (`State()` or `View()`), and every meaning is a pure function on values:

- `Appended` for `add_message`;
- `Created` and `Sweep` for the store's functions;
- `ChatTurn` and `Analyze` for the chat turn and the analysis;
- `Check` for the token bucket;
- `Send`, `Delete` and `HandleAnalysis` for the handlers.

Each method is proved to change its object's value exactly as its function says. The properties the source promises are then proved about those functions, as lemmas.

Python exceptions become `Failure(e)` results. The `Errors.Error` datatype has one constructor per distinct error the modelled paths can raise. Sites that raise the same error share one: `SessionIdRequired` stands for chatbot.py:152 and :176, and `InternalError` for :138 and :213. The error dict that chatbot.py:207 re-raises has no constructor of its own; it is carried directly inside the `InternalError` of :213. The raises at chatbotana.py:84, :401, :409 and :490 cannot be reached in the model (see "## Left out"). `IsRuntimeError` tells `RuntimeError` apart from `ValueError`, because `send_message` wraps the two differently. Python falsiness is modelled explicitly:

- a session id is an `Option<string>`, and `None` and `Some("")` behave alike;
- `str.strip()` is `Text.Strip`, over Python's full set of whitespace code points.

The clock (`datetime.now()` and `time.time()`), the id `uuid4()` would produce, and the provider's answer are inputs, not effects. They are bundled in `Store.Env`:

- `now` is a real number of seconds;
- `freshId` is the generated id;
- `send` maps the request's messages to an `Outbound` outcome: a timeout, a connection error, a rejected HTTP status, or the decoded list of choices.

`ChatbotSettings` is reduced to `Store.Config`, which holds the API key, the session timeout in minutes and the system prompt. `CHAT_RATE_LIMIT_PER_MIN` is the limiter's `capacity`, and its default is `RateLimit.DefaultCapacity`.

## Model

| member | source | states |
|---|---|---|
| `Text.StripEmptyIffBlank` | adimpactbot/chatbot.py:108 | `strip()` gives the empty string exactly when every character is whitespace, which is the "blank message" test |
| `Text.Strip` | adimpactbot/chatbotana.py:108-111 | `str.strip()`: the result is never longer than the input and has no whitespace at either end |
| `Text.StripIsSlice` | adimpactbot/chatbotana.py:108-111 | `strip()` only removes whitespace from the ends: its result is a slice `s[i..j]` of the input, and everything outside that slice is whitespace |
| `Text.StripIdempotent` | adimpactbot/chatbotana.py:108-111 | stripping twice is stripping once, so re-stripping an already stripped message in `add_message` changes nothing |
| `Sessions.Appended` | adimpactbot/chatbotana.py:91-112 | `add_message` refuses a role outside user/assistant/system and an empty content (checked before stripping); otherwise it appends exactly one message with the stripped content, keeps the earlier history and the creation time, and sets the access time |
| `Sessions.ExpiryIsStrict` | adimpactbot/chatbotana.py:122-136 | a session idle for exactly the timeout is not expired, and one idle for any longer is |
| `Sessions.ExpiryIsMonotone` | adimpactbot/chatbotana.py:122-136 | an untouched expired session stays expired as time goes on |
| `Sessions.ChatbotSession.constructor` | adimpactbot/chatbotana.py:81-89 | a new session has the given id, no history, and both timestamps set to now |
| `Sessions.ChatbotSession.AddMessage` | adimpactbot/chatbotana.py:91-112 | the object's new state is what `Appended` gives; nothing changes on a refusal |
| `Gateway.TruncateReply` | adimpactbot/chatbotana.py:356-358 | a reply of at most 10000 characters is kept; a longer one becomes its first 10000 characters followed by "...[truncated]" |
| `Gateway.TruncatedReplyIsTrimmed` | adimpactbot/chatbotana.py:349-361 | a truncated, stripped, non-empty reply is non-empty and unchanged by the strip `add_message` applies |
| `Gateway.Classify` | adimpactbot/chatbotana.py:336-405 | timeout, unreachable host, 401, 429 and other statuses map to distinct errors; no choices and a blank first choice are invalid responses; success holds iff there is a non-blank first choice, and the reply is its stripped, truncated, non-empty text; every failure is a RuntimeError |
| `Analysis.ValidComments` | adimpactbot/chatbotana.py:496-504 | the surviving comments are stripped, non-empty and at most 5000 characters, and there are no more of them than comments |
| `Analysis.ValidCommentsOfConcat` | adimpactbot/chatbotana.py:496-504 | the filter distributes over concatenation, so it keeps the input's order |
| `Analysis.ValidCommentsOfOne` | adimpactbot/chatbotana.py:502-504 | a single comment survives, stripped, exactly when its stripped text is non-empty and within 5000 characters |
| `Analysis.SampleLines` | adimpactbot/chatbotana.py:517-518 | line i is the bullet followed by the first 100 characters of sample i, one line per sample, so no line exceeds the bullet plus 100 characters |
| `Analysis.AnalysisPrompt` | adimpactbot/chatbotana.py:516-533 | with at most 100 comments and a query of at most 1000 characters, the prompt is non-empty, has no surrounding whitespace and is at most 5000 characters |
| `Store.Created` | adimpactbot/chatbotana.py:151-174 | an empty or existing id is refused; otherwise exactly that id is added, with a fresh session, and every other entry is kept |
| `Store.ExpiredIds` | adimpactbot/chatbotana.py:197-200 | the collected ids are ids of the store |
| `Store.Sweep` | adimpactbot/chatbotana.py:190-212 | a session survives the cleanup iff it is not expired, and survivors are unchanged |
| `Store.SweepRemovesExpired` | adimpactbot/chatbotana.py:190-212 | the cleanup removes exactly the expired ids, so the count it returns is the number of sessions removed |
| `Store.Clear` | adimpactbot/chatbotana.py:432-456 | `clear_session` returns true iff the id is non-empty and present, and then removes only that key; otherwise nothing changes |
| `Store.ClearTwice` | adimpactbot/chatbotana.py:432-456 | clearing the same id a second time returns false and changes nothing |
| `Store.Resolved` | adimpactbot/chatbotana.py:289-298 | when get-or-create succeeds, the turn's session id is in the store |
| `Store.ChatTurnRejectsBeforeSweep` | adimpactbot/chatbotana.py:259-280 | an empty message, a stripped message over 5000 characters, a session id over 500 characters and a missing API key each raise their own error before the sweep, and the store is unchanged |
| `Store.ChatTurnTouchesOnlyItsSession` | adimpactbot/chatbotana.py:286-298 | past validation the expired sessions are swept; if get-or-create succeeds only the turn's session changes, and it keeps its creation time when reused and starts at now when created; if it fails the turn raises with only the sweep done |
| `Store.ChatTurnBlankMessage` | adimpactbot/chatbotana.py:259-301 | a whitespace-only message passes validation but `add_message` refuses it after the sweep and the creation of the session, with no message appended |
| `Store.ChatTurnRecordsExchange` | adimpactbot/chatbotana.py:300-409 | the user message is recorded and the provider is sent the system prompt followed by the whole history; a failed call leaves exactly the user message added and raises the classified error, and a successful one adds the user message and the reply and returns status "success", the reply and the session id |
| `Store.EmptySessionIdIsAbsent` | adimpactbot/chatbotana.py:267-298 | a missing session id and an empty one give the same turn |
| `Store.Analyze` | adimpactbot/chatbotana.py:486-574 | an empty list, more than 100 comments, no surviving comment and a query over 1000 characters raise in that order and leave the store unchanged; otherwise one chat turn with the prompt runs; its success gains comment_count = number of surviving comments and sample_count = min(5, that number), and its failure becomes an error dict carrying the original number of comments |
| `Store.AnalysisPromptPassesValidation` | adimpactbot/chatbotana.py:516-533 | the analysis prompt always passes the chat turn's message checks; only the caller's session id can fail validation |
| `Store.SweepOfSessions` | adimpactbot/chatbotana.py:197-212 | deleting the session objects that report themselves expired leaves the value `Sweep` describes, with as many entries fewer as there were expired ids |
| `Store.SessionStore.constructor` | adimpactbot/chatbotana.py:148 | the store starts empty |
| `Store.SessionStore.CreateChatSession` | adimpactbot/chatbotana.py:151-174 | the store's new value is what `Created` gives; a success files a new object under the id, and a refusal changes nothing |
| `Store.SessionStore.GetChatSession` | adimpactbot/chatbotana.py:177-187 | returns the session filed under the id, which carries that id, and nothing when absent |
| `Store.SessionStore.CleanupExpiredSessions` | adimpactbot/chatbotana.py:190-212 | deletes the collected expired ids one by one: the new value is `Sweep` of the old, the returned count is the number collected and the number removed, and surviving ids keep their objects |
| `Store.SessionStore.GetSessionHistory` | adimpactbot/chatbotana.py:412-429 | returns the history iff the id is non-empty and present, and that history is the session's whole history |
| `Store.SessionStore.ClearSession` | adimpactbot/chatbotana.py:432-456 | the result and the new value are those of `Clear` |
| `Store.SessionStore.AddToSession` | adimpactbot/chatbotana.py:300-301 | `add_message` on the session filed under the id changes that session as `Appended` says and no other |
| `Store.SessionStore.ResolveSession` | adimpactbot/chatbotana.py:289-298 | get-or-create changes the store as `Resolved` says, and nothing on a refusal |
| `Store.SessionStore.ExchangeOn` | adimpactbot/chatbotana.py:300-409 | records the user message, asks the provider, records the reply, as `Exchange` says |
| `Store.SessionStore.ChatWithOpenRouter` | adimpactbot/chatbotana.py:230-409 | the result and the store's new value are those of `ChatTurn` |
| `Store.SessionStore.AnalyzeSentimentWithContext` | adimpactbot/chatbotana.py:459-574 | builds the surviving comments in a loop; the result and the store's new value are those of `Analyze` |
| `RateLimit.CheckStaysInRange` | adimpactbot/chatbot.py:35-49 | with capacity at least 1 and a clock that does not go back, a call keeps the ip's tokens within [0, capacity] and stamps the bucket with now; the call is limited iff the refilled count is below 1, and an admitted call takes exactly one token |
| `RateLimit.Burst` | adimpactbot/chatbot.py:29-50 | the answers of n successive calls, one per call |
| `RateLimit.BurstDrains` | adimpactbot/chatbot.py:38-50 | a bucket holding k whole tokens admits k more calls at the same instant and limits the next one |
| `RateLimit.BurstFromNewClient` | adimpactbot/chatbot.py:32-50 | from an unseen ip, capacity calls at the same instant are admitted and call capacity + 1 is limited |
| `RateLimit.RefillReadmits` | adimpactbot/chatbot.py:41-47 | once 60 / capacity seconds have passed since the last call, the next call is admitted |
| `RateLimit.RefillReadmitsOnce` | adimpactbot/chatbot.py:41-50 | a bucket drained below one token admits exactly one call after 60 / capacity seconds, and the next call at that instant is limited |
| `RateLimit.DefaultBurstFromNewClient` | adimpactbot/chatbot.py:23-50 | with the default limit of 20 per minute, a new client's first 20 calls at one instant are admitted and the 21st is limited |
| `RateLimit.CallKeepsStoreBounded` | adimpactbot/chatbot.py:35-49 | a call keeps every bucket of the store within bounds and changes no other ip's bucket |
| `RateLimit.RateLimiter.constructor` | adimpactbot/chatbot.py:24-25 | the store starts empty with the configured capacity |
| `RateLimit.RateLimiter.IsChatRateLimited` | adimpactbot/chatbot.py:29-50 | the answer and the ip's new bucket are those of `Check`: a new ip is admitted with capacity - 1 tokens; otherwise the tokens refill at capacity/60 per second up to capacity, the call is limited iff fewer than 1 token remains, and it stores the refilled count, less one when admitted, stamped with now; no other ip changes |
| `Handlers.WrapChatError` | adimpactbot/chatbot.py:133-138 | a RuntimeError from the chat turn becomes a chatbot error and any other error an internal error, both around the original error |
| `Handlers.SendRejectsBeforeChat` | adimpactbot/chatbot.py:99-121 | a limited call raises the rate limit, and a call refused by the blank, length or session-id check raises that error, both before the chat turn and with the store unchanged |
| `Handlers.SendValidationCoversChat` | adimpactbot/chatbot.py:108-128 | a message the handler accepts passes the chat turn's own validation once stripped, and is not blank |
| `Handlers.ChatTurnErrorsAfterSendValidation` | adimpactbot/chatbot.py:123-138 | after the handler's checks, the chat turn can only raise a RuntimeError or a get-or-create refusal |
| `Handlers.SendErrors` | adimpactbot/chatbot.py:99-138 | `send_message` raises only the rate limit, its own three checks, a wrapped chatbot error, or an internal error that comes from get-or-create |
| `Handlers.SendMessage` | adimpactbot/chatbot.py:88-138 | the client's bucket is updated on every call; a limited call raises before any validation; then blank, raw length over 5000 and session id over 500 are refused; then the chat turn runs on the stripped message with its errors wrapped |
| `Handlers.GetHistory` | adimpactbot/chatbot.py:141-162 | an empty id and an unknown id are refused; otherwise it returns the id, the session's whole history and message_count equal to its length |
| `Handlers.Delete` | adimpactbot/chatbot.py:165-183 | an empty id is refused; otherwise the session is cleared, and the status is "success" iff the session existed and "not_found" otherwise, with a message naming the id |
| `Handlers.DeleteTwice` | adimpactbot/chatbot.py:175-183 | a second delete of the same id reports "not_found" and changes nothing |
| `Handlers.DeleteSessionHandler` | adimpactbot/chatbot.py:165-183 | the result and the store's new value are those of `Delete` |
| `Handlers.ChatTurnSuccessStatus` | adimpactbot/chatbotana.py:365-369 | a successful chat turn always reports the status "success" |
| `Handlers.AnalysisStatusIsError` | adimpactbot/chatbot.py:206-207 | the analysis result has the status "error" exactly when it is an error dict |
| `Handlers.HandleAnalysisPassesSuccess` | adimpactbot/chatbot.py:196-212 | for a non-empty list, the handler fails exactly when the analysis raised or returned status "error", always as an internal error around the analysis's error, and otherwise passes the analysis's result through unchanged |
| `Handlers.AnalyzeWithContextHandler` | adimpactbot/chatbot.py:186-212 | an empty list is refused first; the result and the store's new value are those of `HandleAnalysis` |

## Definitions

The rows above name members whose contracts state properties. They reason about the following definitions, which model the source directly and have no contract of their own:

| definition | source | models |
|---|---|---|
| `Sessions.ValidRole` | adimpactbot/chatbotana.py:102 | the roles `add_message` accepts: "user", "assistant" and "system" |
| `Sessions.Expired` | adimpactbot/chatbotana.py:122-136 | `is_expired` on a session's value: the time since the last access is strictly more than the timeout |
| `Sessions.ChatbotSession.IsExpired` | adimpactbot/chatbotana.py:122-136 | `is_expired` on the session object, which is `Expired` of its state |
| `Store.ApiKeyConfigured` | adimpactbot/chatbotana.py:47-49 | `validate_api_key`: the key is non-empty and not the placeholder "apikey" |
| `Store.Payload` | adimpactbot/chatbotana.py:304-305 | the request's messages: the system prompt followed by the session's history |
| `Gateway.FirstContent` | adimpactbot/chatbotana.py:349 | the content of the first choice, "" when its message or content key is missing |
| `Analysis.Keeps` | adimpactbot/chatbotana.py:502-503 | the comment filter's test: the stripped comment is non-empty and at most 5000 characters |
| `Store.ValidateChat` | adimpactbot/chatbotana.py:259-269 | the chat turn's checks on the message and the session id, in the source's order |
| `Store.ChatTurn` | adimpactbot/chatbotana.py:230-409 | `chat_with_openrouter` on the store's value |
| `Store.Exchange` | adimpactbot/chatbotana.py:300-409 | the part of the chat turn after get-or-create: record the user message, call the provider, record the reply |
| `RateLimit.Refilled` | adimpactbot/chatbot.py:41-42 | the refill: the stored tokens plus capacity/60 per elapsed second, capped at capacity |
| `RateLimit.Check` | adimpactbot/chatbot.py:29-50 | one call of `_is_chat_rate_limited` on one ip's bucket |
| `RateLimit.AfterCall` | adimpactbot/chatbot.py:35-49 | the store write: the ip's bucket becomes the one `Check` gives, and no other entry changes |
| `Handlers.ValidateSend` | adimpactbot/chatbot.py:108-121 | `send_message`'s own checks on the raw message and the session id |
| `Handlers.Send` | adimpactbot/chatbot.py:99-138 | `send_message` on the store's value, given the rate limiter's answer |
| `Handlers.HandleAnalysis` | adimpactbot/chatbot.py:196-212 | `analyze_with_context_handler` on the store's value |

## Left out

- adimpactbot/main.py is not part of this model. It is a second, near-duplicate set of FastAPI handlers that call chatbotana.py directly and repeat their own checks. Its `send_message` applies no rate limit and no session-id length check. It also holds the web routing, static serving, CORS and preflight handlers.
- The HTTP request itself is not modelled: headers, JSON encoding, the model name, temperature, max_tokens and the request timeout. The provider appears only through `Env.send` and the outcomes it can produce.
- Some error paths of the HTTP call cannot be reached in the model: a `RequestException` other than a timeout, a connection error or an HTTP error (chatbotana.py:399-401), and the catch-all `Exception` (chatbotana.py:407-409). One example is a JSON `null` content, on which `.strip()` raises `AttributeError`. A missing `message` or `content` key is modelled, as `None`, read as "".
- `Store.ExpiredIds`: the source calls `datetime.now()` separately for each `is_expired` check, and again in `add_message` and in the constructor. The model reads one clock value, `Env.now`, for the whole call, and the rate limiter's `time.time()` reads the same value.
- Exception message texts are not modelled, including the `str(e)` carried inside wrapped errors. Only which error is raised is modelled, with its wrapping.
- Logging is not modelled.
- `ChatbotSettings` and its environment loading are left out. The exact text of `SYSTEM_PROMPT` is a parameter too.
- `get_age` and `get_session_stats` are left out. They are diagnostics only.
- Concurrency is left out. `_chat_rate_lock` is declared in the source and never used.
- Floating point is not modelled. Token counts and times are real numbers, so IEEE rounding is not captured.
- The `len(comments) == 0` raise in `analyze_sentiment_with_context` (chatbotana.py:489-490) has no constructor. The `not comments` test just before it already refuses an empty list, so it cannot fire in the source either.
- `Sessions.ChatbotSession.constructor` requires a non-empty id. Its own check raising `ValueError("Invalid session_id")` (chatbotana.py:83-84) cannot fire, because `create_chat_session`, its only caller, refuses an empty id first.
- `isinstance` checks on the message, the session id, the comments and each comment are left out. The Dafny types already rule out non-strings, so the "not a string, skipping" branch of the comment filter does not exist in the model.
- `get_messages()` and `get_message_count()` are not separate members. Dafny sequences are values, so the field `messages` is already the copy `get_messages()` returns, and `|messages|` is the count.
- `RateLimit.RateLimiter.IsChatRateLimited`: each bucket is a value in the map. The source mutates the bucket dict in place, but no other code holds that dict, so the aliasing is not observable.
