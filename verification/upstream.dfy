/**
 * The chat-completion exchange that ai_client.py and providers/avalai.py both
 * perform: the request payload, the POST retry loop with exponential back-off,
 * and the decoding of the reply. Each HTTP attempt's outcome is an input, consumed
 * in order; an attempt past the given outcomes fails at the transport level.
 */
module Upstream {
  import opened Wrappers
  import opened Json
  import opened Backoff

  /** What one HTTP attempt produced: a status with its decoded body, or a transport error
      (`asyncio.TimeoutError` or `aiohttp.ClientError`). */
  datatype HttpOutcome = Http(status: int, body: Json) | NetErr

  function Answer(outs: seq<HttpOutcome>, k: nat): HttpOutcome {
    if k < |outs| then outs[k] else NetErr
  }

  /** The statuses the loops retry. */
  predicate Retryable(status: int) {
    status == 429 || status == 500
  }

  /** An attempt the loop may retry, given attempts remain. */
  predicate Transient(o: HttpOutcome) {
    o.NetErr? || (o.status >= 400 && Retryable(o.status))
  }

  /** How the retry loop ended without a body. */
  datatype LoopFailure = StatusFailure(status: int) | NetworkFailure | NoAttempt

  /** The loop's result, the number of attempts made and the pauses taken between them. */
  datatype Exchange = Exchange(result: Result<Json, LoopFailure>, calls: nat, delays: seq<real>)

  /** The loop from attempt `attempt` on; `range(maxRetries + 1)` bounds the attempts. */
  function AttemptFrom(maxRetries: int, backoff: real, outs: seq<HttpOutcome>, attempt: nat): Exchange
    requires attempt <= maxRetries
    decreases maxRetries - attempt
  {
    var o := Answer(outs, attempt);
    if o.Http? && o.status < 400 then Exchange(Ok(o.body), attempt + 1, [])
    else if Transient(o) && attempt < maxRetries then
      var rest := AttemptFrom(maxRetries, backoff, outs, attempt + 1);
      rest.(delays := [Delay(backoff, attempt)] + rest.delays)
    else if o.Http? then Exchange(Err(StatusFailure(o.status)), attempt + 1, [])
    else Exchange(Err(NetworkFailure), attempt + 1, [])
  }

  /** The whole loop; with a negative retry count `range` is empty and the `for`-`else` fires. */
  function PostWithRetries(maxRetries: int, backoff: real, outs: seq<HttpOutcome>): Exchange {
    if maxRetries < 0 then Exchange(Err(NoAttempt), 0, [])
    else AttemptFrom(maxRetries, backoff, outs, 0)
  }

  /**
   * The loop from `attempt` on makes between one and all remaining attempts; every
   * attempt but the last was transient; the pauses are the doubling back-off; and
   * the last attempt decides: a body on success, its status on an HTTP error that
   * is not retryable or came on the final attempt, a network failure only on the
   * final attempt.
   */
  lemma {:induction false} AttemptFromMeaning(maxRetries: int, backoff: real, outs: seq<HttpOutcome>, attempt: nat)
    requires attempt <= maxRetries
    ensures var x := AttemptFrom(maxRetries, backoff, outs, attempt);
      && attempt < x.calls <= maxRetries + 1
      && var last := Answer(outs, x.calls - 1);
      && x.delays == Delays(backoff, x.calls - 1)[attempt..]
      && (forall k :: attempt <= k < x.calls - 1 ==> Transient(Answer(outs, k)))
      && (x.result.Ok? ==> last.Http? && last.status < 400 && last.body == x.result.value)
      && (x.result.Err? && x.result.error.StatusFailure? ==>
            last.Http? && last.status == x.result.error.status && last.status >= 400
            && (!Retryable(last.status) || x.calls == maxRetries + 1))
      && (x.result == Err(NetworkFailure) ==> last == NetErr && x.calls == maxRetries + 1)
      && x.result != Err(NoAttempt)
  {
    AttemptFromCalls(maxRetries, backoff, outs, attempt);
    AttemptFromDelays(maxRetries, backoff, outs, attempt);
    AttemptFromLast(maxRetries, backoff, outs, attempt);
  }

  /** Between one and all remaining attempts, every one but the last transient. */
  lemma {:induction false} AttemptFromCalls(maxRetries: int, backoff: real, outs: seq<HttpOutcome>, attempt: nat)
    requires attempt <= maxRetries
    ensures var x := AttemptFrom(maxRetries, backoff, outs, attempt);
      && attempt < x.calls <= maxRetries + 1
      && (forall k :: attempt <= k < x.calls - 1 ==> Transient(Answer(outs, k)))
      && x.result != Err(NoAttempt)
    decreases maxRetries - attempt
  {
    var o := Answer(outs, attempt);
    if !(o.Http? && o.status < 400) && Transient(o) && attempt < maxRetries {
      AttemptFromCalls(maxRetries, backoff, outs, attempt + 1);
    }
  }

  /** The pauses are the doubling back-off, from `attempt` on. */
  lemma {:induction false} AttemptFromDelays(maxRetries: int, backoff: real, outs: seq<HttpOutcome>, attempt: nat)
    requires attempt <= maxRetries
    ensures var x := AttemptFrom(maxRetries, backoff, outs, attempt);
      attempt < x.calls && x.delays == Delays(backoff, x.calls - 1)[attempt..]
    decreases maxRetries - attempt
  {
    var o := Answer(outs, attempt);
    if !(o.Http? && o.status < 400) && Transient(o) && attempt < maxRetries {
      AttemptFromDelays(maxRetries, backoff, outs, attempt + 1);
      var rest := AttemptFrom(maxRetries, backoff, outs, attempt + 1);
      var x := AttemptFrom(maxRetries, backoff, outs, attempt);
      assert x == rest.(delays := [Delay(backoff, attempt)] + rest.delays);
      var all := Delays(backoff, rest.calls - 1);
      assert rest.delays == all[attempt + 1..];
      assert all[attempt] == Delay(backoff, attempt);
      DropOne(all, attempt);
    }
  }

  /** The last attempt decides the result. */
  lemma {:induction false} AttemptFromLast(maxRetries: int, backoff: real, outs: seq<HttpOutcome>, attempt: nat)
    requires attempt <= maxRetries
    ensures var x := AttemptFrom(maxRetries, backoff, outs, attempt);
      && x.calls >= 1
      && var last := Answer(outs, x.calls - 1);
      && (x.result.Ok? ==> last.Http? && last.status < 400 && last.body == x.result.value)
      && (x.result.Err? && x.result.error.StatusFailure? ==>
            last.Http? && last.status == x.result.error.status && last.status >= 400
            && (!Retryable(last.status) || x.calls == maxRetries + 1))
      && (x.result == Err(NetworkFailure) ==> last == NetErr && x.calls == maxRetries + 1)
    decreases maxRetries - attempt
  {
    var o := Answer(outs, attempt);
    if !(o.Http? && o.status < 400) && Transient(o) && attempt < maxRetries {
      AttemptFromLast(maxRetries, backoff, outs, attempt + 1);
    }
  }

  lemma DropOne(s: seq<real>, i: nat)
    requires i < |s|
    ensures s[i..] == [s[i]] + s[i + 1..]
  {
  }

  /** The loop never asks for a negative pause when the back-off is non-negative. */
  lemma PauseNonNegative(maxRetries: int, backoff: real, outs: seq<HttpOutcome>)
    requires backoff >= 0.0
    ensures forall d :: d in PostWithRetries(maxRetries, backoff, outs).delays ==> d >= 0.0
  {
    if maxRetries >= 0 {
      AttemptFromMeaning(maxRetries, backoff, outs, 0);
      var x := PostWithRetries(maxRetries, backoff, outs);
      forall d | d in x.delays ensures d >= 0.0 {
        var j :| 0 <= j < |x.delays| && x.delays[j] == d;
        DelayDoubles(backoff, j);
      }
    }
  }

  /** A 429 followed by a success, with one retry allowed: two attempts and one pause of `backoff`. */
  lemma RetryThenSuccess(backoff: real, busy: Json, body: Json)
    ensures PostWithRetries(1, backoff, [Http(429, busy), Http(200, body)])
         == Exchange(Ok(body), 2, [backoff])
  {
    assert Delay(backoff, 0) == backoff;
  }

  /** A client error is never retried. */
  lemma ClientErrorNotRetried(maxRetries: nat, backoff: real, body: Json, rest: seq<HttpOutcome>)
    ensures PostWithRetries(maxRetries, backoff, [Http(400, body)] + rest)
         == Exchange(Err(StatusFailure(400)), 1, [])
  {
  }

  lemma {:induction false} ExhaustedFrom(maxRetries: int, backoff: real, attempt: nat)
    requires attempt <= maxRetries
    ensures AttemptFrom(maxRetries, backoff, [], attempt)
         == Exchange(Err(NetworkFailure), maxRetries + 1, Delays(backoff, maxRetries)[attempt..])
    decreases maxRetries - attempt
  {
    var all := Delays(backoff, maxRetries);
    if attempt < maxRetries {
      ExhaustedFrom(maxRetries, backoff, attempt + 1);
      assert all[attempt..] == [all[attempt]] + all[attempt + 1..];
    }
  }

  /** Transport errors on every attempt exhaust the loop: `maxRetries + 1` attempts, then a network failure. */
  lemma NetworkExhausted(maxRetries: nat, backoff: real)
    ensures PostWithRetries(maxRetries, backoff, []) == Exchange(Err(NetworkFailure), maxRetries + 1, Delays(backoff, maxRetries))
  {
    ExhaustedFrom(maxRetries, backoff, 0);
    assert Delays(backoff, maxRetries)[0..] == Delays(backoff, maxRetries);
  }

  /**
   * The loop of `generate_response`: `for attempt in range(maxRetries + 1)`, a
   * `break` on a successful body, `continue` after a pause on a transient failure
   * with attempts left, and the `for`-`else` when no attempt is made.
   */
  method Post(maxRetries: int, backoff: real, outs: seq<HttpOutcome>) returns (x: Exchange)
    ensures x == PostWithRetries(maxRetries, backoff, outs)
  {
    var delays: seq<real> := [];
    var attempt := 0;
    while attempt < maxRetries + 1
      invariant 0 <= attempt
      invariant attempt > 0 ==> attempt <= maxRetries
      invariant attempt <= maxRetries ==>
        PostWithRetries(maxRetries, backoff, outs)
          == (var rest := AttemptFrom(maxRetries, backoff, outs, attempt); rest.(delays := delays + rest.delays))
      decreases maxRetries + 1 - attempt
    {
      var outcome := Answer(outs, attempt);
      if outcome.Http? && outcome.status < 400 {
        return Exchange(Ok(outcome.body), attempt + 1, delays);
      }
      if outcome.Http? {
        if Retryable(outcome.status) && attempt < maxRetries {
          delays := delays + [Delay(backoff, attempt)];
          attempt := attempt + 1;
          continue;
        }
        return Exchange(Err(StatusFailure(outcome.status)), attempt + 1, delays);
      }
      if attempt < maxRetries {
        delays := delays + [Delay(backoff, attempt)];
        attempt := attempt + 1;
        continue;
      }
      return Exchange(Err(NetworkFailure), attempt + 1, delays);
    }
    return Exchange(Err(NoAttempt), 0, []);
  }

  /** `aiohttp.ClientSession`: its total timeout and whether it has been closed. */
  class ClientSession {
    const timeout: real
    var closed: bool

    constructor(timeout: real)
      ensures this.timeout == timeout && !closed
    {
      this.timeout := timeout;
      closed := false;
    }

    method Close()
      modifies this
      ensures closed
    {
      closed := true;
    }
  }

  // ---------------------------------------------------------------------------
  // The request

  datatype Role = SystemRole | UserRole | AssistantRole

  /**
   * One entry of the `messages` list: `{"role": ..., "content": ...}`. The
   * content is JSON because an assistant turn stores the reply's content as sent.
   */
  datatype Message = Message(role: Role, content: Json)

  function RoleName(r: Role): string {
    match r
    case SystemRole => "system"
    case UserRole => "user"
    case AssistantRole => "assistant"
  }

  function MessageJson(m: Message): Json {
    JObj(map["role" := JStr(RoleName(m.role)), "content" := m.content])
  }

  function MessagesJson(ms: seq<Message>): (r: Json)
    ensures r.JList? && |r.items| == |ms| && forall i :: 0 <= i < |ms| ==> r.items[i] == MessageJson(ms[i])
  {
    JList(seq(|ms|, i requires 0 <= i < |ms| => MessageJson(ms[i])))
  }

  /** The sampling options of one request; `None` leaves a key out of the payload. */
  datatype Sampling = Sampling(temperature: Option<real>, maxTokens: Option<int>, topP: Option<real>, user: Option<string>)

  function PutIf<T>(d: map<string, Json>, key: string, v: Option<T>, enc: T -> Json): map<string, Json> {
    if v.Some? then d[key := enc(v.value)] else d
  }

  /** The request body: model and messages, then each option that is not `None`. */
  function Payload(model: string, messages: seq<Message>, s: Sampling): (p: map<string, Json>)
    ensures p.Keys == {"model", "messages"}
      + (if s.temperature.Some? then {"temperature"} else {})
      + (if s.maxTokens.Some? then {"max_tokens"} else {})
      + (if s.topP.Some? then {"top_p"} else {})
      + (if s.user.Some? then {"user"} else {})
    ensures p["model"] == JStr(model) && p["messages"] == MessagesJson(messages)
    ensures s.temperature.Some? ==> p["temperature"] == JFloat(s.temperature.value)
    ensures s.maxTokens.Some? ==> p["max_tokens"] == JInt(s.maxTokens.value)
    ensures s.topP.Some? ==> p["top_p"] == JFloat(s.topP.value)
    ensures s.user.Some? ==> p["user"] == JStr(s.user.value)
  {
    var base := map["model" := JStr(model), "messages" := MessagesJson(messages)];
    var p1 := PutIf(base, "temperature", s.temperature, (t: real) => JFloat(t));
    var p2 := PutIf(p1, "max_tokens", s.maxTokens, (n: int) => JInt(n));
    var p3 := PutIf(p2, "top_p", s.topP, (t: real) => JFloat(t));
    PutIf(p3, "user", s.user, (u: string) => JStr(u))
  }

  /** What is sent: the URL, the bearer token and the JSON body. */
  datatype Request = Request(url: string, authorization: string, payload: map<string, Json>)

  const ChatPath: string := "/v1/chat/completions"

  function ChatRequest(baseUrl: string, apiKey: string, payload: map<string, Json>): Request {
    Request(baseUrl + ChatPath, "Bearer " + apiKey, payload)
  }

  // ---------------------------------------------------------------------------
  // The reply

  /** `AIResponse` / `LLMResponse`: content, model and usage as the server sent them. */
  datatype ChatReply = ChatReply(content: Json, model: Json, usage: Json)

  /** Why a chat completion failed. */
  datatype ChatFailure =
    | HttpStatus(status: int)      // an HTTP error status
    | Network                      // transport errors on every allowed attempt
    | NotAttempted                 // the retry range was empty
    | BadFormat                    // `KeyError`, `IndexError` or `TypeError` while decoding
    | NoGetMethod                  // `message` is not an object: `AttributeError`, not caught

  /** `data["choices"][0]["message"]`, when every step of that path exists. */
  function ReplyMessage(data: Json): Option<Json> {
    if data.JObj? && "choices" in data.fields && data.fields["choices"].JList? && data.fields["choices"].items != [] then
      var choice := data.fields["choices"].items[0];
      if choice.JObj? && "message" in choice.fields then Some(choice.fields["message"]) else None
    else None
  }

  /**
   * `data["choices"][0]["message"].get("content")`: every `KeyError`, `IndexError`
   * and `TypeError` on the way is a format error; a `message` that is not an object
   * has no `.get` and raises `AttributeError`. A missing `model` reads as the model
   * requested; a missing `usage` as `None`.
   */
  function ParseChatReply(data: Json, requested: string): (r: Result<ChatReply, ChatFailure>)
    ensures r.Err? ==> r.error == BadFormat || r.error == NoGetMethod
    ensures r.Ok? <==> ReplyMessage(data).Some? && ReplyMessage(data).value.JObj?
                       && Get(ReplyMessage(data).value.fields, "content") != JNull
    ensures r == Err(NoGetMethod) <==> ReplyMessage(data).Some? && !ReplyMessage(data).value.JObj?
    ensures r.Ok? ==>
      && r.value.content == Get(ReplyMessage(data).value.fields, "content")
      && r.value.model == (if "model" in data.fields then data.fields["model"] else JStr(requested))
      && r.value.usage == Get(data.fields, "usage")
  {
    if !data.JObj? || "choices" !in data.fields then Err(BadFormat)
    else
      var choices := data.fields["choices"];
      // A string `choices` indexes to a one-character string, on which `["message"]`
      // is a `TypeError` as well.
      if !choices.JList? || |choices.items| == 0 then Err(BadFormat)
      else
        var choice := choices.items[0];
        if !choice.JObj? || "message" !in choice.fields then Err(BadFormat)
        else
          var message := choice.fields["message"];
          if !message.JObj? then Err(NoGetMethod)
          else
            var content := Get(message.fields, "content");
            if content == JNull then Err(BadFormat)
            else
              var model := if "model" in data.fields then data.fields["model"] else JStr(requested);
              Ok(ChatReply(content, model, Get(data.fields, "usage")))
  }

  /** A well-formed completion body carrying `content`, and optionally `model` and `usage`. */
  function CompletionBody(content: Json, model: Option<Json>, usage: Option<Json>): Json {
    var message := JObj(map["role" := JStr("assistant"), "content" := content]);
    var choice := JObj(map["index" := JInt(0), "message" := message]);
    var base := map["choices" := JList([choice])];
    var withModel := if model.Some? then base["model" := model.value] else base;
    JObj(if usage.Some? then withModel["usage" := usage.value] else withModel)
  }

  /** Decoding a well-formed body gives back what it carries. */
  lemma ParseCompletionBody(content: Json, model: Option<Json>, usage: Option<Json>, requested: string)
    requires content != JNull
    ensures ParseChatReply(CompletionBody(content, model, usage), requested)
         == Ok(ChatReply(content, model.GetOr(JStr(requested)), usage.GetOr(JNull)))
  {
    var body := CompletionBody(content, model, usage);
    assert "choices" in body.fields;
    assert ("model" in body.fields) <==> model.Some?;
    assert ("usage" in body.fields) <==> usage.Some?;
  }

  /** Empty `choices` and a null `content` are format errors; a string `message` is an `AttributeError`. */
  lemma ParseChatReplyFailures(requested: string)
    ensures ParseChatReply(JObj(map["choices" := JList([])]), requested) == Err(BadFormat)
    ensures ParseChatReply(JList([]), requested) == Err(BadFormat)
    ensures ParseChatReply(CompletionBody(JNull, None, None), requested) == Err(BadFormat)
    ensures ParseChatReply(JObj(map["choices" := JList([JObj(map["message" := JStr("hi")])])]), requested)
         == Err(NoGetMethod)
  {
    var body := CompletionBody(JNull, None, None);
    assert "choices" in body.fields;
  }

  /** The complete exchange: the loop, then the decoding of its body. */
  function ChatCompletion(maxRetries: int, backoff: real, outs: seq<HttpOutcome>, requested: string): (r: Result<ChatReply, ChatFailure>)
    ensures r.Ok? ==> PostWithRetries(maxRetries, backoff, outs).result.Ok?
  {
    var x := PostWithRetries(maxRetries, backoff, outs);
    match x.result
    case Ok(data) => ParseChatReply(data, requested)
    case Err(StatusFailure(s)) => Err(HttpStatus(s))
    case Err(NetworkFailure) => Err(Network)
    case Err(NoAttempt) => Err(NotAttempted)
  }

  /**
   * How a completion can fail: an HTTP status only from an error status the last
   * attempt saw, a network failure only after every allowed attempt, and no attempt
   * at all exactly when the retry count is negative.
   */
  lemma ChatCompletionFailures(maxRetries: int, backoff: real, outs: seq<HttpOutcome>, requested: string)
    ensures var r := ChatCompletion(maxRetries, backoff, outs, requested);
      var x := PostWithRetries(maxRetries, backoff, outs);
      && (r == Err(NotAttempted) <==> maxRetries < 0)
      && (r.Err? && r.error.HttpStatus? ==>
            x.calls >= 1 && var last := Answer(outs, x.calls - 1); last.Http? && last.status == r.error.status >= 400)
      && (r == Err(Network) ==> x.calls == maxRetries + 1)
  {
    if maxRetries >= 0 {
      AttemptFromMeaning(maxRetries, backoff, outs, 0);
    }
  }
}
