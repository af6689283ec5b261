/**
 * xilma/ai_client.py: the OpenAI-compatible client. `generate_response` posts a
 * chat completion through the shared retry loop of module Upstream; `list_models`
 * asks two endpoints in turn, each with its own retry budget, and returns the
 * first non-empty model list. HTTP outcomes are inputs consumed in order.
 */
module AiClient {
  import opened Wrappers
  import opened Json
  import opened Errors
  import opened Backoff
  import opened Upstream
  import opened Models
  import Text

  /** The `APIError` each failed chat exchange raises; a non-object `message` escapes as `AttributeError`. */
  function AsApiError(f: ChatFailure): (e: Exception)
    ensures f.NoGetMethod? <==> e == Uncaught
    ensures e.APIError? ==> (e.apiStatus.Some? <==> f.HttpStatus?)
  {
    match f
    case HttpStatus(s) => APIError(StatusText, Some(s))
    case Network => APIError(NetworkError, None)
    case NotAttempted => APIError(RequestFailed, None)
    case BadFormat => APIError(ResponseFormatError, None)
    case NoGetMethod => Uncaught
  }

  /** What `generate_response` returns or raises. */
  function Generated(maxRetries: int, backoff: real, outs: seq<HttpOutcome>, model: string): Result<ChatReply, Exception> {
    match ChatCompletion(maxRetries, backoff, outs, model)
    case Ok(reply) => Ok(reply)
    case Err(f) => Err(AsApiError(f))
  }

  /**
   * With the clamped, non-negative retry count, `generate_response` never reaches
   * its "Request failed" branch; a status error carries the status the last
   * attempt saw; a network error comes only after every allowed attempt; and a
   * reply always has content.
   */
  lemma GeneratedMeaning(maxRetries: nat, backoff: real, outs: seq<HttpOutcome>, model: string)
    ensures var r := Generated(maxRetries, backoff, outs, model);
      var x := PostWithRetries(maxRetries, backoff, outs);
      && r != Err(APIError(RequestFailed, None))
      && (r.Ok? ==> r.value.content != JNull && x.result.Ok?)
      && (r.Err? && r.error.APIError? && r.error.apiStatus.Some? ==>
            r.error.apiMessage == StatusText && 1 <= x.calls
            && var last := Answer(outs, x.calls - 1);
            last.Http? && last.status == r.error.apiStatus.value >= 400)
      && (r == Err(APIError(NetworkError, None)) ==> x.calls == maxRetries + 1)
  {
    ChatCompletionFailures(maxRetries, backoff, outs, model);
  }

  // ---------------------------------------------------------------------------
  // `list_models`

  /** How one endpoint's attempts ended: models found, the endpoint passed over, or an error raised. */
  datatype PathVerdict = Found(models: seq<ModelInfo>) | Skipped | Failed(error: Exception)

  /** The verdict, the attempts made on the endpoint and the pauses between them. */
  datatype PathRun = PathRun(verdict: PathVerdict, calls: nat, delays: seq<real>)

  /**
   * The inner loop of `list_models` from attempt `attempt` on, the endpoint's
   * outcomes starting at `outs[base]`: a 404 or an empty model list moves on to
   * the next endpoint; a non-empty list is returned; a 429 or 500 and a transport
   * error are retried while attempts remain; anything else raises.
   */
  function FetchFrom(maxRetries: int, backoff: real, outs: seq<HttpOutcome>, base: nat, attempt: nat): PathRun
    requires attempt <= maxRetries
    decreases maxRetries - attempt
  {
    var o := Answer(outs, base + attempt);
    if o.Http? && o.status == 404 then PathRun(Skipped, attempt + 1, [])
    else if o.Http? && o.status < 400 then
      var models := ExtractedModels(o.body);
      PathRun(if models != [] then Found(models) else Skipped, attempt + 1, [])
    else if Transient(o) && attempt < maxRetries then
      var rest := FetchFrom(maxRetries, backoff, outs, base, attempt + 1);
      rest.(delays := [Delay(backoff, attempt)] + rest.delays)
    else if o.Http? then PathRun(Failed(APIError(StatusText, Some(o.status))), attempt + 1, [])
    else PathRun(Failed(APIError(NetworkError, None)), attempt + 1, [])
  }

  /** One endpoint; an empty `range(maxRetries + 1)` passes straight on to the next. */
  function FetchPath(maxRetries: int, backoff: real, outs: seq<HttpOutcome>, base: nat): PathRun {
    if maxRetries < 0 then PathRun(Skipped, 0, []) else FetchFrom(maxRetries, backoff, outs, base, 0)
  }

  /**
   * An endpoint's attempts: at most `maxRetries + 1`, every one but the last
   * transient, and the pauses the doubling back-off restarted from `backoff`.
   */
  lemma FetchFromAttempts(maxRetries: int, backoff: real, outs: seq<HttpOutcome>, base: nat, attempt: nat)
    requires attempt <= maxRetries
    ensures var run := FetchFrom(maxRetries, backoff, outs, base, attempt);
      && attempt < run.calls <= maxRetries + 1
      && run.delays == Delays(backoff, run.calls - 1)[attempt..]
      && (forall k :: base + attempt <= k < base + run.calls - 1 ==> Transient(Answer(outs, k)))
  {
    var run := FetchFrom(maxRetries, backoff, outs, base, attempt);
    FetchFromCalls(maxRetries, backoff, outs, base, attempt);
    FetchFromPauses(maxRetries, backoff, outs, base, attempt);
    var all := Delays(backoff, run.calls - 1);
    assert run.delays == all[attempt..];
  }

  lemma {:induction false} FetchFromCalls(maxRetries: int, backoff: real, outs: seq<HttpOutcome>, base: nat, attempt: nat)
    requires attempt <= maxRetries
    ensures var run := FetchFrom(maxRetries, backoff, outs, base, attempt);
      && attempt < run.calls <= maxRetries + 1
      && (forall k :: base + attempt <= k < base + run.calls - 1 ==> Transient(Answer(outs, k)))
    decreases maxRetries - attempt
  {
    var o := Answer(outs, base + attempt);
    if !(o.Http? && o.status < 400) && !(o.Http? && o.status == 404) && Transient(o) && attempt < maxRetries {
      FetchFromCalls(maxRetries, backoff, outs, base, attempt + 1);
      var run, rest := FetchFrom(maxRetries, backoff, outs, base, attempt), FetchFrom(maxRetries, backoff, outs, base, attempt + 1);
      assert run.calls == rest.calls;
    }
  }

  lemma {:induction false} FetchFromPauses(maxRetries: int, backoff: real, outs: seq<HttpOutcome>, base: nat, attempt: nat)
    requires attempt <= maxRetries
    ensures var run := FetchFrom(maxRetries, backoff, outs, base, attempt);
      && attempt + |run.delays| + 1 == run.calls
      && (forall j :: 0 <= j < |run.delays| ==> run.delays[j] == Delay(backoff, attempt + j))
    decreases maxRetries - attempt
  {
    var o := Answer(outs, base + attempt);
    if !(o.Http? && o.status < 400) && !(o.Http? && o.status == 404) && Transient(o) && attempt < maxRetries {
      FetchFromPauses(maxRetries, backoff, outs, base, attempt + 1);
      var run, rest := FetchFrom(maxRetries, backoff, outs, base, attempt), FetchFrom(maxRetries, backoff, outs, base, attempt + 1);
      assert run.calls == rest.calls && run.delays == [Delay(backoff, attempt)] + rest.delays;
      forall j | 0 < j < |run.delays| ensures run.delays[j] == Delay(backoff, attempt + j) {
        assert run.delays[j] == rest.delays[j - 1];
      }
    }
  }

  /**
   * The last attempt on an endpoint decides: found models are the non-empty,
   * sorted list of its body; a skip is a 404 or an empty list; an error status is
   * not 404 and was not retried; a network error ends the budget.
   */
  lemma {:induction false} FetchFromVerdict(maxRetries: int, backoff: real, outs: seq<HttpOutcome>, base: nat, attempt: nat)
    requires attempt <= maxRetries
    ensures var run := FetchFrom(maxRetries, backoff, outs, base, attempt);
      && run.calls >= 1
      && var last := Answer(outs, base + run.calls - 1);
      && (run.verdict.Found? ==>
            last.Http? && last.status < 400 && run.verdict.models == ExtractedModels(last.body)
            && run.verdict.models != [])
      && (run.verdict.Skipped? ==>
            last.Http? && (last.status == 404 || (last.status < 400 && ExtractedModels(last.body) == [])))
      && (run.verdict.Failed? ==> run.verdict.error.APIError?)
      && (run.verdict.Failed? && run.verdict.error.apiStatus.Some? ==>
            run.verdict.error.apiMessage == StatusText
            && last.Http? && last.status == run.verdict.error.apiStatus.value
            && last.status >= 400 && last.status != 404
            && (!Retryable(last.status) || run.calls == maxRetries + 1))
      && (run.verdict.Failed? && run.verdict.error.apiStatus.None? ==>
            run.verdict.error.apiMessage == NetworkError && last == NetErr && run.calls == maxRetries + 1)
    decreases maxRetries - attempt
  {
    var o := Answer(outs, base + attempt);
    if !(o.Http? && o.status < 400) && !(o.Http? && o.status == 404) && Transient(o) && attempt < maxRetries {
      FetchFromVerdict(maxRetries, backoff, outs, base, attempt + 1);
      var run, rest := FetchFrom(maxRetries, backoff, outs, base, attempt), FetchFrom(maxRetries, backoff, outs, base, attempt + 1);
      assert run.verdict == rest.verdict && run.calls == rest.calls;
    }
  }

  /** The endpoints `list_models` tries, in order. */
  const ModelPaths: seq<string> := ["/v1/models", "/v1beta/models"]

  /** The models or the error, the URL of every attempt in order, and the pauses taken. */
  datatype Listing = Listing(result: Result<seq<ModelInfo>, Exception>, urls: seq<string>, delays: seq<real>)

  /** `list_models` from endpoint `p` on, that endpoint's outcomes starting at `outs[base]`. */
  function ListFrom(baseUrl: string, maxRetries: int, backoff: real, outs: seq<HttpOutcome>, p: nat, base: nat): Listing
    requires p <= |ModelPaths|
    decreases |ModelPaths| - p
  {
    if p == |ModelPaths| then Listing(Err(APIError(FailedToFetchModels, None)), [], [])
    else
      var run := FetchPath(maxRetries, backoff, outs, base);
      var asked := Text.Repeat(baseUrl + ModelPaths[p], run.calls);
      match run.verdict
      case Found(ms) => Listing(Ok(ms), asked, run.delays)
      case Failed(e) => Listing(Err(e), asked, run.delays)
      case Skipped =>
        var rest := ListFrom(baseUrl, maxRetries, backoff, outs, p + 1, base + run.calls);
        Listing(rest.result, asked + rest.urls, run.delays + rest.delays)
  }

  /** What `list_models` returns or raises. */
  function ListedModels(baseUrl: string, maxRetries: int, backoff: real, outs: seq<HttpOutcome>): Listing {
    ListFrom(baseUrl, maxRetries, backoff, outs, 0, 0)
  }

  /** A URL `list_models` may ask. */
  predicate ModelUrl(baseUrl: string, url: string) {
    exists p :: 0 <= p < |ModelPaths| && url == baseUrl + ModelPaths[p]
  }

  lemma ListFromMeaning(baseUrl: string, maxRetries: nat, backoff: real, outs: seq<HttpOutcome>, p: nat, base: nat)
    requires p <= |ModelPaths|
    ensures var l := ListFrom(baseUrl, maxRetries, backoff, outs, p, base);
      && |l.urls| <= (|ModelPaths| - p) * (maxRetries + 1)
      && (forall u :: u in l.urls ==> ModelUrl(baseUrl, u))
      && (l.result.Ok? ==> l.result.value != [] && SortedById(l.result.value) && UniqueIds(l.result.value))
      && (l.result.Err? ==> l.result.error.APIError? && l.result.error.apiMessage in {StatusText, NetworkError, FailedToFetchModels})
      && (l.result == Err(APIError(FailedToFetchModels, None)) ==>
            |l.urls| >= |ModelPaths| - p
            && (p < |ModelPaths| ==> l.urls[|l.urls| - 1] == baseUrl + ModelPaths[|ModelPaths| - 1]))
  {
    ListFromUrls(baseUrl, maxRetries, backoff, outs, p, base);
    ListFromResult(baseUrl, maxRetries, backoff, outs, p, base);
    ListFromExhausted(baseUrl, maxRetries, backoff, outs, p, base);
  }

  /** At most `maxRetries + 1` attempts per remaining endpoint, on the model URLs only. */
  lemma ListFromUrls(baseUrl: string, maxRetries: nat, backoff: real, outs: seq<HttpOutcome>, p: nat, base: nat)
    requires p <= |ModelPaths|
    ensures var l := ListFrom(baseUrl, maxRetries, backoff, outs, p, base);
      && |l.urls| <= (|ModelPaths| - p) * (maxRetries + 1)
      && (forall u :: u in l.urls ==> ModelUrl(baseUrl, u))
  {
    ListFromCount(baseUrl, maxRetries, backoff, outs, p, base);
    assert (|ModelPaths| - p) * (maxRetries + 1) == if p == 0 then 2 * (maxRetries + 1) else if p == 1 then maxRetries + 1 else 0;
    ListFromModelUrls(baseUrl, maxRetries, backoff, outs, p, base);
  }

  lemma {:induction false} ListFromCount(baseUrl: string, maxRetries: nat, backoff: real, outs: seq<HttpOutcome>, p: nat, base: nat)
    requires p <= |ModelPaths|
    ensures var n := |ListFrom(baseUrl, maxRetries, backoff, outs, p, base).urls|;
      && (p == 0 ==> n <= 2 * (maxRetries + 1))
      && (p == 1 ==> n <= maxRetries + 1)
      && (p == 2 ==> n == 0)
    decreases |ModelPaths| - p
  {
    if p < |ModelPaths| {
      var run := FetchPath(maxRetries, backoff, outs, base);
      FetchFromCalls(maxRetries, backoff, outs, base, 0);
      ListFromLength(baseUrl, maxRetries, backoff, outs, p, base);
      if run.verdict.Skipped? {
        ListFromCount(baseUrl, maxRetries, backoff, outs, p + 1, base + run.calls);
      }
    }
  }

  /** The URLs of one endpoint are its attempts, followed by the later endpoints' when it is passed over. */
  lemma ListFromLength(baseUrl: string, maxRetries: int, backoff: real, outs: seq<HttpOutcome>, p: nat, base: nat)
    requires p < |ModelPaths|
    ensures var run := FetchPath(maxRetries, backoff, outs, base);
      |ListFrom(baseUrl, maxRetries, backoff, outs, p, base).urls|
      == run.calls + if run.verdict.Skipped? then |ListFrom(baseUrl, maxRetries, backoff, outs, p + 1, base + run.calls).urls| else 0
  {
  }

  lemma {:induction false} ListFromModelUrls(baseUrl: string, maxRetries: nat, backoff: real, outs: seq<HttpOutcome>, p: nat, base: nat)
    requires p <= |ModelPaths|
    ensures forall u :: u in ListFrom(baseUrl, maxRetries, backoff, outs, p, base).urls ==> ModelUrl(baseUrl, u)
    decreases |ModelPaths| - p
  {
    if p < |ModelPaths| {
      var run := FetchPath(maxRetries, backoff, outs, base);
      var asked := Text.Repeat(baseUrl + ModelPaths[p], run.calls);
      assert forall u :: u in asked ==> ModelUrl(baseUrl, u);
      if run.verdict.Skipped? {
        ListFromSkipped(baseUrl, maxRetries, backoff, outs, p, base);
        ListFromModelUrls(baseUrl, maxRetries, backoff, outs, p + 1, base + run.calls);
        var rest := ListFrom(baseUrl, maxRetries, backoff, outs, p + 1, base + run.calls);
        assert forall u :: u in asked + rest.urls ==> u in asked || u in rest.urls;
      } else {
        ListFromDecided(baseUrl, maxRetries, backoff, outs, p, base);
      }
    }
  }

  /** Models found are non-empty, sorted and unique; an error is one of the three `APIError`s. */
  lemma {:induction false} ListFromResult(baseUrl: string, maxRetries: nat, backoff: real, outs: seq<HttpOutcome>, p: nat, base: nat)
    requires p <= |ModelPaths|
    ensures var l := ListFrom(baseUrl, maxRetries, backoff, outs, p, base);
      && (l.result.Ok? ==> l.result.value != [] && SortedById(l.result.value) && UniqueIds(l.result.value))
      && (l.result.Err? ==> l.result.error.APIError? && l.result.error.apiMessage in {StatusText, NetworkError, FailedToFetchModels})
    decreases |ModelPaths| - p
  {
    if p < |ModelPaths| {
      var run := FetchPath(maxRetries, backoff, outs, base);
      assert run == FetchFrom(maxRetries, backoff, outs, base, 0);
      FetchFromVerdict(maxRetries, backoff, outs, base, 0);
      if run.verdict.Found? {
        ListFromDecided(baseUrl, maxRetries, backoff, outs, p, base);
        ExtractedModelsSorted(Answer(outs, base + run.calls - 1).body);
      } else if run.verdict.Skipped? {
        ListFromSkipped(baseUrl, maxRetries, backoff, outs, p, base);
        ListFromResult(baseUrl, maxRetries, backoff, outs, p + 1, base + run.calls);
      } else {
        ListFromDecided(baseUrl, maxRetries, backoff, outs, p, base);
      }
    }
  }

  /** "Failed to fetch models" comes only after every remaining endpoint was asked, the last one last. */
  lemma {:induction false} ListFromExhausted(baseUrl: string, maxRetries: nat, backoff: real, outs: seq<HttpOutcome>, p: nat, base: nat)
    requires p <= |ModelPaths|
    ensures var l := ListFrom(baseUrl, maxRetries, backoff, outs, p, base);
      l.result == Err(APIError(FailedToFetchModels, None)) ==>
        |l.urls| >= |ModelPaths| - p
        && (p < |ModelPaths| ==> l.urls[|l.urls| - 1] == baseUrl + ModelPaths[|ModelPaths| - 1])
    decreases |ModelPaths| - p
  {
    if p < |ModelPaths| {
      var run := FetchPath(maxRetries, backoff, outs, base);
      assert run == FetchFrom(maxRetries, backoff, outs, base, 0);
      FetchFromVerdict(maxRetries, backoff, outs, base, 0);
      var l := ListFrom(baseUrl, maxRetries, backoff, outs, p, base);
      var asked := Text.Repeat(baseUrl + ModelPaths[p], run.calls);
      if run.verdict.Skipped? {
        ListFromSkipped(baseUrl, maxRetries, backoff, outs, p, base);
        ListFromExhausted(baseUrl, maxRetries, backoff, outs, p + 1, base + run.calls);
        var rest := ListFrom(baseUrl, maxRetries, backoff, outs, p + 1, base + run.calls);
        assert l.result == rest.result && l.urls == asked + rest.urls;
        if p + 1 == |ModelPaths| {
          ListFromEnd(baseUrl, maxRetries, backoff, outs, base + run.calls);
          assert l.urls == asked;
        } else if l.result == Err(APIError(FailedToFetchModels, None)) {
          assert l.urls[|l.urls| - 1] == rest.urls[|rest.urls| - 1];
        }
      } else {
        ListFromDecided(baseUrl, maxRetries, backoff, outs, p, base);
        assert l.result != Err(APIError(FailedToFetchModels, None));
      }
    }
  }

  /**
   * `list_models` returns a non-empty list sorted by id without repeated ids, or
   * raises an `APIError`: a status error, a network error, or "Failed to fetch
   * models" only after both endpoints were asked. Each endpoint gets at most
   * `maxRetries + 1` attempts, and only the two model URLs are asked.
   */
  lemma ListedModelsMeaning(baseUrl: string, maxRetries: nat, backoff: real, outs: seq<HttpOutcome>)
    ensures var l := ListedModels(baseUrl, maxRetries, backoff, outs);
      && 1 <= |l.urls| <= 2 * (maxRetries + 1)
      && l.urls[0] == baseUrl + "/v1/models"
      && (forall u :: u in l.urls ==> u == baseUrl + "/v1/models" || u == baseUrl + "/v1beta/models")
      && (l.result.Ok? ==> l.result.value != [] && SortedById(l.result.value) && UniqueIds(l.result.value))
      && (l.result.Err? ==> l.result.error.APIError? && l.result.error.apiMessage in {StatusText, NetworkError, FailedToFetchModels})
      && (l.result == Err(APIError(FailedToFetchModels, None)) ==> l.urls[|l.urls| - 1] == baseUrl + "/v1beta/models")
  {
    ListFromMeaning(baseUrl, maxRetries, backoff, outs, 0, 0);
    FetchFromAttempts(maxRetries, backoff, outs, 0, 0);
    var l := ListedModels(baseUrl, maxRetries, backoff, outs);
    forall u | u in l.urls ensures u == baseUrl + "/v1/models" || u == baseUrl + "/v1beta/models" {
      assert ModelUrl(baseUrl, u);
    }
  }

  /** A 404 on the first endpoint falls back to the second, whose models are returned. */
  lemma ListModelsFallback(baseUrl: string, maxRetries: nat, backoff: real, outs: seq<HttpOutcome>)
    requires |outs| >= 2 && outs[0].Http? && outs[0].status == 404
    requires outs[1].Http? && outs[1].status < 400 && ExtractedModels(outs[1].body) != []
    ensures ListedModels(baseUrl, maxRetries, backoff, outs)
         == Listing(Ok(ExtractedModels(outs[1].body)), [baseUrl + "/v1/models", baseUrl + "/v1beta/models"], [])
  {
    var v1, v1beta := baseUrl + "/v1/models", baseUrl + "/v1beta/models";
    FallbackSecond(baseUrl, maxRetries, backoff, outs);
    FallbackFirst(baseUrl, maxRetries, backoff, outs);
    assert [v1] + [v1beta] == [v1, v1beta];
  }

  lemma FallbackSecond(baseUrl: string, maxRetries: nat, backoff: real, outs: seq<HttpOutcome>)
    requires |outs| >= 2 && outs[1].Http? && outs[1].status < 400 && ExtractedModels(outs[1].body) != []
    ensures var rest := ListFrom(baseUrl, maxRetries, backoff, outs, 1, 1);
      rest.result == Ok(ExtractedModels(outs[1].body)) && rest.urls == [baseUrl + "/v1beta/models"] && rest.delays == []
  {
    var ms := ExtractedModels(outs[1].body);
    FetchModels(maxRetries, backoff, outs, 1, 0);
    assert FetchPath(maxRetries, backoff, outs, 1) == PathRun(Found(ms), 1, []);
    ListFromDecided(baseUrl, maxRetries, backoff, outs, 1, 1);
    PathsSpelled();
    RepeatOnce(baseUrl + ModelPaths[1]);
  }

  lemma FallbackFirst(baseUrl: string, maxRetries: nat, backoff: real, outs: seq<HttpOutcome>)
    requires |outs| >= 1 && outs[0].Http? && outs[0].status == 404
    ensures var rest, l := ListFrom(baseUrl, maxRetries, backoff, outs, 1, 1), ListedModels(baseUrl, maxRetries, backoff, outs);
      l.result == rest.result && l.urls == [baseUrl + "/v1/models"] + rest.urls && l.delays == rest.delays
  {
    FetchNotFound(maxRetries, backoff, outs, 0, 0);
    assert FetchPath(maxRetries, backoff, outs, 0) == PathRun(Skipped, 1, []);
    ListFromSkipped(baseUrl, maxRetries, backoff, outs, 0, 0);
    PathsSpelled();
    RepeatOnce(baseUrl + ModelPaths[0]);
  }

  lemma PathsSpelled()
    ensures ModelPaths[0] == "/v1/models" && ModelPaths[1] == "/v1beta/models"
  {
  }

  lemma RepeatOnce(url: string)
    ensures Text.Repeat(url, 1) == [url]
  {
    assert Text.Repeat(url, 0) == [];
  }

  /** An answer of 404 passes the endpoint over at once. */
  lemma FetchNotFound(maxRetries: int, backoff: real, outs: seq<HttpOutcome>, base: nat, attempt: nat)
    requires attempt <= maxRetries
    requires base + attempt < |outs| && outs[base + attempt].Http? && outs[base + attempt].status == 404
    ensures FetchFrom(maxRetries, backoff, outs, base, attempt) == PathRun(Skipped, attempt + 1, [])
  {
  }

  /** An answer with models returns them at once. */
  lemma FetchModels(maxRetries: int, backoff: real, outs: seq<HttpOutcome>, base: nat, attempt: nat)
    requires attempt <= maxRetries
    requires base + attempt < |outs| && outs[base + attempt].Http? && outs[base + attempt].status < 400
    requires ExtractedModels(outs[base + attempt].body) != []
    ensures FetchFrom(maxRetries, backoff, outs, base, attempt)
         == PathRun(Found(ExtractedModels(outs[base + attempt].body)), attempt + 1, [])
  {
  }

  /** An endpoint passed over hands on to the next, with the attempts it used. */
  lemma ListFromSkipped(baseUrl: string, maxRetries: int, backoff: real, outs: seq<HttpOutcome>, p: nat, base: nat)
    requires p < |ModelPaths|
    requires FetchPath(maxRetries, backoff, outs, base).verdict.Skipped?
    ensures var run := FetchPath(maxRetries, backoff, outs, base);
      ListFrom(baseUrl, maxRetries, backoff, outs, p, base)
      == Resumed(Text.Repeat(baseUrl + ModelPaths[p], run.calls), run.delays,
                 ListFrom(baseUrl, maxRetries, backoff, outs, p + 1, base + run.calls))
  {
  }

  /** An endpoint that found models or raised ends the listing. */
  lemma ListFromDecided(baseUrl: string, maxRetries: int, backoff: real, outs: seq<HttpOutcome>, p: nat, base: nat)
    requires p < |ModelPaths|
    requires !FetchPath(maxRetries, backoff, outs, base).verdict.Skipped?
    ensures var run := FetchPath(maxRetries, backoff, outs, base);
      ListFrom(baseUrl, maxRetries, backoff, outs, p, base)
      == Listing(if run.verdict.Found? then Ok(run.verdict.models) else Err(run.verdict.error),
                 Text.Repeat(baseUrl + ModelPaths[p], run.calls), run.delays)
  {
  }

  /** An empty model list on both endpoints raises "Failed to fetch models". */
  lemma ListModelsBothEmpty(baseUrl: string, maxRetries: nat, backoff: real)
    ensures ListedModels(baseUrl, maxRetries, backoff, [Http(200, JList([])), Http(200, JObj(map[]))]).result
         == Err(APIError(FailedToFetchModels, None))
  {
    var outs := [Http(200, JList([])), Http(200, JObj(map[]))];
    assert ExtractedModels(JList([])) == [];
    FetchNoModels(maxRetries, backoff, outs, 0, 0);
    ListFromSkipped(baseUrl, maxRetries, backoff, outs, 0, 0);
    assert ExtractedModels(JObj(map[])) == [];
    FetchNoModels(maxRetries, backoff, outs, 1, 0);
    ListFromSkipped(baseUrl, maxRetries, backoff, outs, 1, 1);
  }

  /** An answer without models passes the endpoint over at once. */
  lemma FetchNoModels(maxRetries: int, backoff: real, outs: seq<HttpOutcome>, base: nat, attempt: nat)
    requires attempt <= maxRetries
    requires base + attempt < |outs| && outs[base + attempt].Http? && outs[base + attempt].status < 400
    requires ExtractedModels(outs[base + attempt].body) == []
    ensures FetchFrom(maxRetries, backoff, outs, base, attempt) == PathRun(Skipped, attempt + 1, [])
  {
  }

  /**
   * Each endpoint has its own attempt budget and its back-off restarts: with one
   * retry, a 500 and a 404 on the first endpoint and a 500 then models on the
   * second take four attempts and two pauses of `backoff`.
   */
  lemma ListModelsBudgetPerPath(baseUrl: string, backoff: real, outs: seq<HttpOutcome>)
    requires |outs| >= 4 && outs[0].Http? && outs[0].status == 500 && outs[1].Http? && outs[1].status == 404
    requires outs[2].Http? && outs[2].status == 500
    requires outs[3].Http? && outs[3].status < 400 && ExtractedModels(outs[3].body) != []
    ensures ListedModels(baseUrl, 1, backoff, outs)
         == Listing(Ok(ExtractedModels(outs[3].body)),
                    [baseUrl + "/v1/models", baseUrl + "/v1/models", baseUrl + "/v1beta/models", baseUrl + "/v1beta/models"],
                    [backoff, backoff])
  {
    var v1, v1beta := baseUrl + "/v1/models", baseUrl + "/v1beta/models";
    BudgetSecond(baseUrl, backoff, outs);
    BudgetFirst(baseUrl, backoff, outs);
    assert [v1, v1] + [v1beta, v1beta] == [v1, v1, v1beta, v1beta];
    assert [backoff] + [backoff] == [backoff, backoff];
  }

  lemma BudgetSecond(baseUrl: string, backoff: real, outs: seq<HttpOutcome>)
    requires |outs| >= 4 && outs[2].Http? && outs[2].status == 500
    requires outs[3].Http? && outs[3].status < 400 && ExtractedModels(outs[3].body) != []
    ensures var rest := ListFrom(baseUrl, 1, backoff, outs, 1, 2);
      && rest.result == Ok(ExtractedModels(outs[3].body))
      && rest.urls == [baseUrl + "/v1beta/models", baseUrl + "/v1beta/models"] && rest.delays == [backoff]
  {
    var ms := ExtractedModels(outs[3].body);
    FetchRetried(backoff, outs, 2);
    FetchModels(1, backoff, outs, 2, 1);
    assert FetchPath(1, backoff, outs, 2) == PathRun(Found(ms), 2, [backoff]);
    ListFromDecided(baseUrl, 1, backoff, outs, 1, 2);
    PathsSpelled();
    RepeatTwice(baseUrl + ModelPaths[1]);
  }

  lemma BudgetFirst(baseUrl: string, backoff: real, outs: seq<HttpOutcome>)
    requires |outs| >= 2 && outs[0].Http? && outs[0].status == 500 && outs[1].Http? && outs[1].status == 404
    ensures var rest, l := ListFrom(baseUrl, 1, backoff, outs, 1, 2), ListedModels(baseUrl, 1, backoff, outs);
      && l.result == rest.result
      && l.urls == [baseUrl + "/v1/models", baseUrl + "/v1/models"] + rest.urls
      && l.delays == [backoff] + rest.delays
  {
    FetchRetried(backoff, outs, 0);
    FetchNotFound(1, backoff, outs, 0, 1);
    assert FetchPath(1, backoff, outs, 0) == PathRun(Skipped, 2, [backoff]);
    ListFromSkipped(baseUrl, 1, backoff, outs, 0, 0);
    PathsSpelled();
    RepeatTwice(baseUrl + ModelPaths[0]);
  }

  lemma RepeatTwice(url: string)
    ensures Text.Repeat(url, 2) == [url, url]
  {
    RepeatOnce(url);
  }

  /** With one retry, a first answer of 500 is retried after a pause of `backoff`. */
  lemma FetchRetried(backoff: real, outs: seq<HttpOutcome>, base: nat)
    requires base < |outs| && outs[base].Http? && outs[base].status == 500
    ensures var second := FetchFrom(1, backoff, outs, base, 1);
      FetchPath(1, backoff, outs, base) == second.(delays := [backoff] + second.delays)
  {
    assert Delay(backoff, 0) == backoff;
  }

  /** A run whose first pauses were already taken. */
  function Prepend(pauses: seq<real>, run: PathRun): PathRun {
    run.(delays := pauses + run.delays)
  }

  lemma PrependTwice(pauses: seq<real>, d: real, run: PathRun)
    ensures Prepend(pauses, Prepend([d], run)) == Prepend(pauses + [d], run)
  {
    assert pauses + ([d] + run.delays) == (pauses + [d]) + run.delays;
  }

  /** A transient answer with attempts left pauses, then tries again. */
  lemma FetchRetryStep(maxRetries: int, backoff: real, outs: seq<HttpOutcome>, base: nat, attempt: nat, pauses: seq<real>)
    requires attempt < maxRetries
    requires var o := Answer(outs, base + attempt); Transient(o) && !(o.Http? && o.status < 400)
    ensures Prepend(pauses, FetchFrom(maxRetries, backoff, outs, base, attempt))
         == Prepend(pauses + [Delay(backoff, attempt)], FetchFrom(maxRetries, backoff, outs, base, attempt + 1))
  {
    var rest := FetchFrom(maxRetries, backoff, outs, base, attempt + 1);
    assert FetchFrom(maxRetries, backoff, outs, base, attempt) == Prepend([Delay(backoff, attempt)], rest);
    PrependTwice(pauses, Delay(backoff, attempt), rest);
  }

  /** The inner loop of `list_models` for one endpoint. */
  method FetchEndpoint(maxRetries: int, backoff: real, outs: seq<HttpOutcome>, base: nat) returns (run: PathRun)
    ensures run == FetchPath(maxRetries, backoff, outs, base)
  {
    var pauses: seq<real> := [];
    var attempt := 0;
    while attempt < maxRetries + 1
      invariant 0 <= attempt
      invariant attempt > 0 ==> attempt <= maxRetries
      invariant attempt <= maxRetries ==>
        FetchPath(maxRetries, backoff, outs, base) == Prepend(pauses, FetchFrom(maxRetries, backoff, outs, base, attempt))
      decreases maxRetries + 1 - attempt
    {
      var outcome := Answer(outs, base + attempt);
      if outcome.Http? && outcome.status >= 400 {
        if outcome.status == 404 {
          return PathRun(Skipped, attempt + 1, pauses);
        }
        if Retryable(outcome.status) && attempt < maxRetries {
          FetchRetryStep(maxRetries, backoff, outs, base, attempt, pauses);
          pauses := pauses + [Delay(backoff, attempt)];
          attempt := attempt + 1;
          continue;
        }
        return PathRun(Failed(APIError(StatusText, Some(outcome.status))), attempt + 1, pauses);
      }
      if outcome.Http? {
        var models := ExtractModels(outcome.body);
        if models != [] {
          return PathRun(Found(models), attempt + 1, pauses);
        }
        return PathRun(Skipped, attempt + 1, pauses);
      }
      if attempt < maxRetries {
        FetchRetryStep(maxRetries, backoff, outs, base, attempt, pauses);
        pauses := pauses + [Delay(backoff, attempt)];
        attempt := attempt + 1;
        continue;
      }
      return PathRun(Failed(APIError(NetworkError, None)), attempt + 1, pauses);
    }
    return PathRun(Skipped, 0, []);
  }

  /** A listing whose first URLs and pauses were already taken. */
  function Resumed(urls: seq<string>, delays: seq<real>, rest: Listing): Listing {
    Listing(rest.result, urls + rest.urls, delays + rest.delays)
  }

  /** One endpoint of `list_models` after the URLs and pauses of the earlier ones. */
  lemma ListFromResumed(baseUrl: string, maxRetries: int, backoff: real, outs: seq<HttpOutcome>, p: nat, base: nat,
                        urls: seq<string>, delays: seq<real>)
    requires p < |ModelPaths|
    ensures var run := FetchPath(maxRetries, backoff, outs, base);
      var asked := Text.Repeat(baseUrl + ModelPaths[p], run.calls);
      Resumed(urls, delays, ListFrom(baseUrl, maxRetries, backoff, outs, p, base))
      == match run.verdict
         case Found(ms) => Listing(Ok(ms), urls + asked, delays + run.delays)
         case Failed(e) => Listing(Err(e), urls + asked, delays + run.delays)
         case Skipped => Resumed(urls + asked, delays + run.delays, ListFrom(baseUrl, maxRetries, backoff, outs, p + 1, base + run.calls))
  {
    var run := FetchPath(maxRetries, backoff, outs, base);
    var asked := Text.Repeat(baseUrl + ModelPaths[p], run.calls);
    var rest := ListFrom(baseUrl, maxRetries, backoff, outs, p + 1, base + run.calls);
    ResumedStep(urls, delays, asked, run.delays, rest);
  }

  /** Past the last endpoint, the listing fails with "Failed to fetch models". */
  lemma ListFromEnd(baseUrl: string, maxRetries: int, backoff: real, outs: seq<HttpOutcome>, base: nat)
    ensures ListFrom(baseUrl, maxRetries, backoff, outs, |ModelPaths|, base) == Listing(Err(APIError(FailedToFetchModels, None)), [], [])
  {
  }

  lemma ResumedStep(urls: seq<string>, delays: seq<real>, asked: seq<string>, paused: seq<real>, rest: Listing)
    ensures Resumed(urls, delays, Listing(rest.result, asked + rest.urls, paused + rest.delays))
         == Resumed(urls + asked, delays + paused, rest)
    ensures forall x :: Resumed(urls, delays, Listing(x, asked, paused)) == Listing(x, urls + asked, delays + paused)
  {
    assert urls + (asked + rest.urls) == (urls + asked) + rest.urls;
    assert delays + (paused + rest.delays) == (delays + paused) + rest.delays;
  }

  /** The settings a client holds. */
  datatype ClientSettings = ClientSettings(apiKey: string, baseUrl: string, maxRetries: int, retryBackoff: real)

  function Max(a: int, b: int): int {
    if a < b then b else a
  }

  function MaxReal(a: real, b: real): real {
    if a < b then b else a
  }

  /** `AIClient`: its settings, clamped on the way in, and its lazily opened HTTP session. */
  class AIClient {
    var apiKey: string
    var baseUrl: string
    const timeout: real
    var maxRetries: int
    var retryBackoff: real
    var session: ClientSession?

    function Settings(): ClientSettings
      reads this
    {
      ClientSettings(apiKey, baseUrl, maxRetries, retryBackoff)
    }

    /** Retries and back-off are never negative; the base URL has no trailing slash. */
    ghost predicate Valid()
      reads this
    {
      maxRetries >= 0 && retryBackoff >= 0.0 && !Text.EndsWith(baseUrl, '/')
    }

    constructor(apiKey: string, baseUrl: string, timeout: real, maxRetries: int, retryBackoff: real)
      ensures Valid()
      ensures Settings() == ClientSettings(apiKey, Text.RStrip(baseUrl, '/'), Max(0, maxRetries), MaxReal(0.0, retryBackoff))
      ensures this.timeout == timeout && session == null
    {
      this.apiKey := apiKey;
      this.baseUrl := Text.RStrip(baseUrl, '/');
      this.timeout := timeout;
      this.maxRetries := Max(0, maxRetries);
      this.retryBackoff := MaxReal(0.0, retryBackoff);
      session := null;
    }

    /** Opens a session with the client's timeout unless one is open. */
    method Start()
      modifies this
      ensures Settings() == old(Settings())
      ensures old(session) != null ==> session == old(session)
      ensures old(session) == null ==> session != null && fresh(session) && session.timeout == timeout && !session.closed
    {
      if session == null {
        session := new ClientSession(timeout);
      }
    }

    /** Closes the open session, if any, and forgets it. */
    method Close()
      modifies this, session
      ensures Settings() == old(Settings())
      ensures session == null
      ensures old(session) != null ==> old(session).closed
    {
      if session != null {
        session.Close();
        session := null;
      }
    }

    /** `update_settings`: each given value replaces the old one, clamped as in the constructor. */
    method UpdateSettings(apiKey: Option<string>, baseUrl: Option<string>, maxRetries: Option<int>, retryBackoff: Option<real>)
      requires Valid()
      modifies this
      ensures Valid() && session == old(session)
      ensures this.apiKey == (if apiKey.Some? then apiKey.value else old(this.apiKey))
      ensures this.baseUrl == (if baseUrl.Some? then Text.RStrip(baseUrl.value, '/') else old(this.baseUrl))
      ensures this.maxRetries == (if maxRetries.Some? then Max(0, maxRetries.value) else old(this.maxRetries))
      ensures this.retryBackoff == (if retryBackoff.Some? then MaxReal(0.0, retryBackoff.value) else old(this.retryBackoff))
    {
      if apiKey.Some? {
        this.apiKey := apiKey.value;
      }
      if baseUrl.Some? {
        this.baseUrl := Text.RStrip(baseUrl.value, '/');
      }
      if maxRetries.Some? {
        this.maxRetries := Max(0, maxRetries.value);
      }
      if retryBackoff.Some? {
        this.retryBackoff := MaxReal(0.0, retryBackoff.value);
      }
    }

    /**
     * `generate_response`: opens a session if needed, sends the payload with the
     * bearer token to the chat endpoint through the retry loop, and decodes the reply.
     */
    method GenerateResponse(messages: seq<Message>, model: string, sampling: Sampling, outs: seq<HttpOutcome>)
      returns (r: Result<ChatReply, Exception>, request: Request, exchange: Exchange)
      requires Valid()
      modifies this
      ensures Valid() && Settings() == old(Settings()) && session != null
      ensures old(session) != null ==> session == old(session)
      ensures request == ChatRequest(baseUrl, apiKey, Payload(model, messages, sampling))
      ensures exchange == PostWithRetries(maxRetries, retryBackoff, outs)
      ensures r == Generated(maxRetries, retryBackoff, outs, model)
    {
      if session == null {
        Start();
      }
      request := ChatRequest(baseUrl, apiKey, Payload(model, messages, sampling));
      exchange := Post(maxRetries, retryBackoff, outs);
      match exchange.result {
        case Ok(data) =>
          var reply := ParseChatReply(data, model);
          if reply.Ok? {
            r := Ok(reply.value);
          } else {
            r := Err(AsApiError(reply.error));
          }
        case Err(StatusFailure(s)) =>
          r := Err(APIError(StatusText, Some(s)));
        case Err(NetworkFailure) =>
          r := Err(APIError(NetworkError, None));
        case Err(NoAttempt) =>
          r := Err(APIError(RequestFailed, None));
      }
    }

    /** `list_models`: both endpoints in turn, each through its own retry loop. */
    method ListModels(outs: seq<HttpOutcome>) returns (r: Result<seq<ModelInfo>, Exception>, urls: seq<string>, delays: seq<real>)
      requires Valid()
      modifies this
      ensures Valid() && Settings() == old(Settings()) && session != null
      ensures old(session) != null ==> session == old(session)
      ensures Listing(r, urls, delays) == ListedModels(baseUrl, maxRetries, retryBackoff, outs)
    {
      if session == null {
        Start();
      }
      var base, retries, backoff := baseUrl, maxRetries, retryBackoff;
      ghost var listing := ListedModels(base, retries, backoff, outs);
      urls := [];
      delays := [];
      var p := 0;
      while p < |ModelPaths|
        invariant p <= |ModelPaths|
        modifies {}
        invariant listing == Resumed(urls, delays, ListFrom(base, retries, backoff, outs, p, |urls|))
      {
        var url := base + ModelPaths[p];
        var run := FetchEndpoint(retries, backoff, outs, |urls|);
        var asked := Text.Repeat(url, run.calls);
        ListFromResumed(base, retries, backoff, outs, p, |urls|, urls, delays);
        assert |urls + asked| == |urls| + run.calls;
        urls := urls + asked;
        delays := delays + run.delays;
        match run.verdict {
          case Found(ms) =>
            return Ok(ms), urls, delays;
          case Failed(e) =>
            return Err(e), urls, delays;
          case Skipped =>
            p := p + 1;
        }
      }
      r := Err(APIError(FailedToFetchModels, None));
      ListFromEnd(base, retries, backoff, outs, |urls|);
      assert urls + [] == urls && delays + [] == delays;
    }
  }
}
