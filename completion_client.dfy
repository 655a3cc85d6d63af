/** `OpenAIService.getResponse`: one prompt, sent to the chat-completion
    endpoint until a reply yields text or the retry budget of three is spent.
    The endpoint is a server script: `server(n)` is the reply to the `n`-th
    request of the session, so any sequence of replies can be played. */
module CompletionClient {
  import opened Wrappers

  const MAX_RETRIES: nat := 3

  /** The body of a reply, as the two JSON schemas see it: the message of an
      `{error: {message, type, ...}}` object if the body decodes as one, and
      the `choices[i].message.content` strings if it decodes as a chat
      response. A body may decode as both, either or neither. */
  datatype Payload = Payload(errorMessage: Option<string>, choices: Option<seq<string>>)

  /** What one request brings back: a body, or a failure of the HTTP client. */
  datatype Reply = Delivered(body: Payload) | TransportFailed(error: Error)

  /** The result handed to the completion handler, with the prompts of all
      requests made, in order. */
  datatype Outcome = Outcome(result: Result<string, Error>, sent: seq<string>)

  /** `handleAPIResponse`, up to the retry decision: the error schema wins,
      then the first choice's content, "" when there are no choices. */
  function HandleAPIResponse(body: Payload): (r: Result<string, Error>)
    ensures body.errorMessage.Some? ==> r == Err(AppError(OPENAI_DOMAIN, 1002, body.errorMessage.value))
    ensures body.errorMessage.None? && body.choices.Some? ==>
      r == Ok(if body.choices.value == [] then "" else body.choices.value[0])
    ensures body.errorMessage.None? && body.choices.None? ==> r == Err(DecodingError)
  {
    match body.errorMessage
    case Some(message) => Err(AppError(OPENAI_DOMAIN, 1002, message))
    case None =>
      match body.choices
      case Some(contents) => Ok(if |contents| > 0 then contents[0] else "")
      case None => Err(DecodingError)
  }

  /** The outcome of one request: its text, or the error `handleAPIError` sees. */
  function Attempt(reply: Reply): Result<string, Error>
  {
    match reply
    case Delivered(body) => HandleAPIResponse(body)
    case TransportFailed(e) => Err(e)
  }

  /** The outcome `o`, after the requests `earlier` were made. */
  function After(earlier: seq<string>, o: Outcome): Outcome
  {
    Outcome(o.result, earlier + o.sent)
  }

  /** `getResponseWithRetry(for: prompt, retries: retries)`, starting with
      request number `start`. */
  function ResponseWithRetry(prompt: string, server: nat -> Reply, start: nat, retries: nat): Outcome
    decreases retries
  {
    match Attempt(server(start))
    case Ok(text) => Outcome(Ok(text), [prompt])
    case Err(e) =>
      if retries > 0 then After([prompt], ResponseWithRetry(prompt, server, start + 1, retries - 1))
      else Outcome(Err(e), [prompt])
  }

  /** `getResponse(for: prompt)`: the chain of `getResponseWithRetry` calls
      unrolled into a loop; every failed attempt spends one retry. */
  method GetResponse(prompt: string, server: nat -> Reply, start: nat) returns (result: Result<string, Error>, sent: seq<string>)
    ensures Outcome(result, sent) == ResponseWithRetry(prompt, server, start, MAX_RETRIES)
  {
    var retries := MAX_RETRIES;
    sent := [];
    while true
      invariant |sent| + retries == MAX_RETRIES
      invariant ResponseWithRetry(prompt, server, start, MAX_RETRIES)
        == After(sent, ResponseWithRetry(prompt, server, start + |sent|, retries))
      decreases retries
    {
      var n := start + |sent|;
      var attempt := Attempt(server(n));
      if attempt.Ok? {
        result := attempt;
        sent := sent + [prompt];
        return;
      }
      if retries > 0 {
        ghost var rest := ResponseWithRetry(prompt, server, n + 1, retries - 1);
        assert ResponseWithRetry(prompt, server, n, retries) == After([prompt], rest);
        assert sent + ([prompt] + rest.sent) == (sent + [prompt]) + rest.sent;
        retries := retries - 1;
        sent := sent + [prompt];
      } else {
        result := attempt;
        sent := sent + [prompt];
        return;
      }
    }
  }

  /** Every request in `sent` carried `prompt`. */
  predicate AllSentWith(sent: seq<string>, prompt: string)
  {
    forall i | 0 <= i < |sent| :: sent[i] == prompt
  }

  lemma AllSentWithConcat(a: seq<string>, b: seq<string>, prompt: string)
    requires AllSentWith(a, prompt) && AllSentWith(b, prompt)
    ensures AllSentWith(a + b, prompt)
  {
    forall i | 0 <= i < |a + b| ensures (a + b)[i] == prompt {
      if i >= |a| {
        assert (a + b)[i] == b[i - |a|];
      }
    }
  }

  /** Number of requests: one at least, one per retry at most more, and every
      request carries the same prompt. */
  lemma {:induction false} AttemptsBounded(prompt: string, server: nat -> Reply, start: nat, retries: nat)
    ensures var o := ResponseWithRetry(prompt, server, start, retries);
            1 <= |o.sent| <= retries + 1 && AllSentWith(o.sent, prompt)
    decreases retries
  {
    if Attempt(server(start)).Err? && retries > 0 {
      AttemptsBounded(prompt, server, start + 1, retries - 1);
      AllSentWithConcat([prompt], ResponseWithRetry(prompt, server, start + 1, retries - 1).sent, prompt);
    }
  }

  /** Request number `n` of the session fails. */
  predicate FailsAt(server: nat -> Reply, n: nat)
  {
    Attempt(server(n)).Err?
  }

  /** A success is the first successful attempt, after only failures. */
  lemma {:induction false} SuccessIsFirstSuccess(prompt: string, server: nat -> Reply, start: nat, retries: nat)
    ensures var o := ResponseWithRetry(prompt, server, start, retries);
            o.result.Ok? ==>
              && o.result == Attempt(server(start + |o.sent| - 1))
              && forall n | start <= n < start + |o.sent| - 1 :: FailsAt(server, n)
    decreases retries
  {
    if FailsAt(server, start) && retries > 0 {
      SuccessIsFirstSuccess(prompt, server, start + 1, retries - 1);
    }
  }

  /** A failure comes only after `retries + 1` failed attempts, and it is the
      error of the last one; conversely, when every attempt fails, so does
      the call. */
  lemma {:induction false} FailureIsLastError(prompt: string, server: nat -> Reply, start: nat, retries: nat)
    ensures var o := ResponseWithRetry(prompt, server, start, retries);
            o.result.Err? <==> forall n | start <= n <= start + retries :: FailsAt(server, n)
    ensures var o := ResponseWithRetry(prompt, server, start, retries);
            o.result.Err? ==> |o.sent| == retries + 1 && o.result == Attempt(server(start + retries))
    decreases retries
  {
    var o := ResponseWithRetry(prompt, server, start, retries);
    if retries > 0 {
      FailureIsLastError(prompt, server, start + 1, retries - 1);
      var rest := ResponseWithRetry(prompt, server, start + 1, retries - 1);
      if FailsAt(server, start) {
        assert o == After([prompt], rest);
      } else {
        assert o.result.Ok?;
      }
    } else {
      assert o.result.Err? <==> FailsAt(server, start);
    }
  }

  /** A server that fails four times in a row makes `getResponse` fail with
      the fourth error; one that fails twice and then answers gives that
      answer after three requests. */
  lemma RetryScenarios(prompt: string, server: nat -> Reply, start: nat, text: string)
    ensures (forall n | start <= n < start + 4 :: FailsAt(server, n)) ==>
      ResponseWithRetry(prompt, server, start, MAX_RETRIES).result == Attempt(server(start + 3))
    ensures FailsAt(server, start) && FailsAt(server, start + 1) && Attempt(server(start + 2)) == Ok(text) ==>
      ResponseWithRetry(prompt, server, start, MAX_RETRIES) == Outcome(Ok(text), [prompt, prompt, prompt])
  {
    FailureIsLastError(prompt, server, start, MAX_RETRIES);
  }
}
