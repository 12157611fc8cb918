/** The outbound call of `chat_with_openrouter`, seen from the outside: the
    HTTP transport is not modelled, only what it can produce, and how the
    code turns each outcome into a reply or a raised error. */
module Gateway {
  import opened Wrappers
  import opened Text
  import opened Errors

  /** What `requests.post(...)` and the JSON decoding can produce.
      `HttpStatus(code)` is an answer whose status `raise_for_status()`
      rejects, which is a code from 400 to 599; the type leaves the code
      unconstrained, and `Classify`'s contract holds for every code, so no
      range is assumed of it. `Ok(choices)` is a decoded 2xx body, one entry per element of
      `"choices"`: the text at `message.content`, or `None` when either key
      is missing. */
  datatype Outbound =
    | Timeout
    | ConnectionError
    | HttpStatus(code: int)
    | Ok(choices: seq<Option<string>>)

  const MaxReplyLength := 10000
  const TruncationMarker := "...[truncated]"

  /** The length cap on the provider's answer: a text over 10000 characters
      keeps its first 10000 characters, followed by the marker. */
  function TruncateReply(text: string): (r: string)
    ensures |text| <= MaxReplyLength ==> r == text
    ensures |text| > MaxReplyLength ==>
      && |r| == MaxReplyLength + |TruncationMarker|
      && r[..MaxReplyLength] == text[..MaxReplyLength]
      && r[MaxReplyLength..] == TruncationMarker
  {
    if |text| > MaxReplyLength then text[..MaxReplyLength] + TruncationMarker else text
  }

  /** `data["choices"][0].get("message", {}).get("content", "")`. */
  function FirstContent(choices: seq<Option<string>>): string
    requires |choices| > 0
  {
    choices[0].GetOr("")
  }

  /** A truncated, stripped, non-empty answer is not changed by the `strip()`
      that `add_message` applies when it is stored. */
  lemma TruncatedReplyIsTrimmed(text: string)
    requires text != [] && Strip(text) == text
    ensures TruncateReply(text) != []
    ensures Strip(TruncateReply(text)) == TruncateReply(text)
  {
    var r := TruncateReply(text);
    if |text| > MaxReplyLength {
      assert r[0] == text[0];
      assert r[|r| - 1] == ']';
      StripKeepsTrimmed(r);
    }
  }

  /** The error taxonomy of lines 336-405: a timeout, an unreachable host and
      the statuses 401, 429 and any other are told apart; an answer without
      choices or whose first choice is blank is an invalid response; every
      failure is a `RuntimeError`. The reply, when there is one, is the
      stripped first content, capped by `TruncateReply`, and is non-empty and
      without surrounding whitespace. */
  function Classify(o: Outbound): (r: Result<string, Error>)
    ensures o.Timeout? ==> r == Failure(RequestTimedOut)
    ensures o.ConnectionError? ==> r == Failure(Unreachable)
    ensures o.HttpStatus? && o.code == 401 ==> r == Failure(AuthFailed)
    ensures o.HttpStatus? && o.code == 429 ==> r == Failure(ProviderRateLimited)
    ensures o.HttpStatus? && o.code != 401 && o.code != 429 ==> r == Failure(ProviderError(o.code))
    ensures o.Ok? && |o.choices| == 0 ==> r == Failure(InvalidResponseFormat(NoChoices))
    ensures o.Ok? && |o.choices| > 0 && Strip(FirstContent(o.choices)) == "" ==>
      r == Failure(InvalidResponseFormat(EmptyResponse))
    ensures r.Success? <==> o.Ok? && |o.choices| > 0 && Strip(FirstContent(o.choices)) != ""
    ensures r.Success? ==>
      && r.value == TruncateReply(Strip(FirstContent(o.choices)))
      && r.value != ""
      && Strip(r.value) == r.value
    ensures r.Failure? ==> r.error.IsRuntimeError()
  {
    match o
    case Timeout => Failure(RequestTimedOut)
    case ConnectionError => Failure(Unreachable)
    case HttpStatus(code) =>
      if code == 401 then Failure(AuthFailed)
      else if code == 429 then Failure(ProviderRateLimited)
      else Failure(ProviderError(code))
    case Ok(choices) =>
      if |choices| == 0 then Failure(InvalidResponseFormat(NoChoices))
      else
        var text := Strip(FirstContent(choices));
        if text == "" then Failure(InvalidResponseFormat(EmptyResponse))
        else
          StripIdempotent(FirstContent(choices));
          TruncatedReplyIsTrimmed(text);
          Success(TruncateReply(text))
  }
}
