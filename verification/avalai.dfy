/**
 * xilma/providers/avalai.py: the AvalAI chat provider. Its exchange is the one
 * of module Upstream, but its settings are stored as given (a negative retry
 * count empties the attempt range) and its failures are `ProviderError`s.
 */
module AvalAI {
  import opened Wrappers
  import opened Json
  import opened Errors
  import opened Upstream
  import Text
  import AiClient

  /** The `ProviderError` each failed chat exchange raises; a non-object `message` escapes as `AttributeError`. */
  function AsProviderError(f: ChatFailure): (e: Exception)
    ensures f.NoGetMethod? <==> e == Uncaught
    ensures e.ProviderError? ==> (e.providerStatus.Some? <==> f.HttpStatus?)
  {
    match f
    case HttpStatus(s) => ProviderError(AvalAIStatusText, Some(s))
    case Network => ProviderError(AvalAINetworkError, None)
    case NotAttempted => ProviderError(AvalAIRequestFailed, None)
    case BadFormat => ProviderError(AvalAIResponseFormatError, None)
    case NoGetMethod => Uncaught
  }

  /** What `AvalAIProvider.generate_response` returns or raises. */
  function Generated(maxRetries: int, backoff: real, outs: seq<HttpOutcome>, model: string): Result<ChatReply, Exception> {
    match ChatCompletion(maxRetries, backoff, outs, model)
    case Ok(reply) => Ok(reply)
    case Err(f) => Err(AsProviderError(f))
  }

  /**
   * "AvalAI request failed" is raised exactly when the stored retry count is
   * negative, and then no request is sent; a status error carries the status the
   * last attempt saw; a network error comes only after every allowed attempt.
   */
  lemma GeneratedMeaning(maxRetries: int, backoff: real, outs: seq<HttpOutcome>, model: string)
    ensures var r := Generated(maxRetries, backoff, outs, model);
      var x := PostWithRetries(maxRetries, backoff, outs);
      && (r == Err(ProviderError(AvalAIRequestFailed, None)) <==> maxRetries < 0)
      && (maxRetries < 0 ==> x.calls == 0)
      && (r.Ok? ==> r.value.content != JNull && x.result.Ok?)
      && (r.Err? && r.error.ProviderError? && r.error.providerStatus.Some? ==>
            r.error.providerMessage == AvalAIStatusText && 1 <= x.calls
            && var last := Answer(outs, x.calls - 1);
            last.Http? && last.status == r.error.providerStatus.value >= 400)
      && (r == Err(ProviderError(AvalAINetworkError, None)) ==> x.calls == maxRetries + 1)
  {
    ChatCompletionFailures(maxRetries, backoff, outs, model);
  }

  /** The `ProviderError` counterpart of each `APIError` of ai_client.py. */
  function Rebrand(e: Exception): Exception {
    match e
    case APIError(StatusText, s) => ProviderError(AvalAIStatusText, s)
    case APIError(NetworkError, s) => ProviderError(AvalAINetworkError, s)
    case APIError(RequestFailed, s) => ProviderError(AvalAIRequestFailed, s)
    case APIError(ResponseFormatError, s) => ProviderError(AvalAIResponseFormatError, s)
    case _ => e
  }

  /**
   * With a non-negative retry count the provider behaves exactly as `AIClient`
   * on the same outcomes, up to the exception class and message prefix.
   */
  lemma AgreesWithAIClient(maxRetries: nat, backoff: real, outs: seq<HttpOutcome>, model: string)
    ensures var a := AiClient.Generated(maxRetries, backoff, outs, model);
      Generated(maxRetries, backoff, outs, model) == (if a.Ok? then a else Err(Rebrand(a.error)))
  {
  }

  /** The retry count a negative setting leaves: no attempt at all. */
  lemma NegativeRetries(maxRetries: int, backoff: real, outs: seq<HttpOutcome>, model: string)
    requires maxRetries < 0
    ensures Generated(maxRetries, backoff, outs, model) == Err(ProviderError(AvalAIRequestFailed, None))
    ensures PostWithRetries(maxRetries, backoff, outs).calls == 0
  {
  }

  /** `AvalAIProvider`: settings fixed at construction, and a session `start` and `close` toggle. */
  class AvalAIProvider {
    const apiKey: string
    const baseUrl: string
    const timeout: real
    const maxRetries: int
    const retryBackoff: real
    var session: ClientSession?

    constructor(apiKey: string, baseUrl: string, timeout: real, maxRetries: int, retryBackoff: real)
      ensures this.apiKey == apiKey && this.baseUrl == Text.RStrip(baseUrl, '/') && !Text.EndsWith(this.baseUrl, '/')
      ensures this.timeout == timeout && this.maxRetries == maxRetries && this.retryBackoff == retryBackoff
      ensures session == null
    {
      this.apiKey := apiKey;
      this.baseUrl := Text.RStrip(baseUrl, '/');
      this.timeout := timeout;
      this.maxRetries := maxRetries;
      this.retryBackoff := retryBackoff;
      session := null;
    }

    /** Opens a session with the provider's timeout unless one is open. */
    method Start()
      modifies this
      ensures old(session) != null ==> session == old(session)
      ensures old(session) == null ==> session != null && fresh(session) && session.timeout == timeout && !session.closed
    {
      if session == null {
        session := new ClientSession(timeout);
      }
    }

    /** Closes the open session, if any, and forgets it. */
    method Close()
      modifies this, session
      ensures session == null
      ensures old(session) != null ==> old(session).closed
    {
      if session != null {
        session.Close();
        session := null;
      }
    }

    /**
     * `generate_response`: opens a session if needed, sends the payload with the
     * bearer token to the chat endpoint through the retry loop, and decodes the reply.
     */
    method GenerateResponse(messages: seq<Message>, model: string, sampling: Sampling, outs: seq<HttpOutcome>)
      returns (r: Result<ChatReply, Exception>, request: Request, exchange: Exchange)
      modifies this
      ensures session != null && (old(session) != null ==> session == old(session))
      ensures request == ChatRequest(baseUrl, apiKey, Payload(model, messages, sampling))
      ensures exchange == PostWithRetries(maxRetries, retryBackoff, outs)
      ensures r == Generated(maxRetries, retryBackoff, outs, model)
    {
      if session == null {
        Start();
      }
      request := ChatRequest(baseUrl, apiKey, Payload(model, messages, sampling));
      exchange := Post(maxRetries, retryBackoff, outs);
      match exchange.result {
        case Ok(data) =>
          var reply := ParseChatReply(data, model);
          if reply.Ok? {
            r := Ok(reply.value);
          } else {
            r := Err(AsProviderError(reply.error));
          }
        case Err(StatusFailure(s)) =>
          r := Err(ProviderError(AvalAIStatusText, Some(s)));
        case Err(NetworkFailure) =>
          r := Err(ProviderError(AvalAINetworkError, None));
        case Err(NoAttempt) =>
          r := Err(ProviderError(AvalAIRequestFailed, None));
      }
    }
  }
}
