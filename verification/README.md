# xilma core, modelled in Dafny

xilma is a Telegram chat bot. It forwards a user's messages to an
OpenAI-compatible chat-completions endpoint (AvalAI by default) and keeps a
short per-user history. Before it serves a user, it can require membership in
a list of sponsor channels. This project models the bot's core as Dafny
definitions and proves what that core promises. The core is:

- the sponsor-channel service: channel normalisation, the channel list, and
  the membership check with retries;
- the upstream HTTP client: payload, retry loop with exponential backoff,
  response parsing, model listing with endpoint fallback, model extraction and
  price extraction;
- the AvalAI provider, which uses the same loop but does not clamp its
  settings;
- the LLM router, with its provider fallback;
- the user handlers `chat`, `new_chat` and `set_model`, with history trimming;
- the two membership gates (the common one and the user-handler one);
- configuration loading from an environment map;
- the logging setup rules.

The world outside the process is passed in as data:

- **HTTP answers.** The answers a server would give, one per request, are a
  sequence of `HttpOutcome` values. `Http(status, body)` is a response and
  `NetErr` is a timeout or client error. Reading past the end of the sequence
  reads as `NetErr`.
- **Membership lookups.** The answers of Telegram's `get_chat_member` are a
  sequence of `Lookup` values, either a status or a `TelegramError`.
- **Sleeps.** Each operation returns the delays it would sleep, in order,
  instead of waiting.
- **Environment.** The process environment is a `map<string, string>`.
- **JSON.** JSON values are the `Json` datatype. An object is a
  `map<string, Json>`.

Every loop in the source is a `method` with a `while` or `for` loop. Each loop
is proved equal to a recursive specification function, or proved to leave the
state its contract names:

- `Upstream.Post`
- `AiClient.FetchEndpoint` and `AiClient.AIClient.ListModels`
- `Models.ExtractModels`, `Models.ExtractPrice` and `Models.PricingParts`
- `Sponsor.NormalizeChannels`, `Sponsor.SponsorService.IsMember` and
  `Sponsor.SponsorService.LookupMember`
- `Config.ParseAdminIdsLoop` (through `Config.CollectIds`)
- `LoggingSetup.ExtractExtras` and `LoggingSetup.ReplaceHandlers`
- `LlmClient.LLMClient.Start` and `LlmClient.LLMClient.Close`

A list comprehension with no loop variable of its own, such as
`build_buttons`, is a function.

The properties are lemmas about those functions. Objects whose fields the
source updates are classes:

- `AiClient.AIClient`
- `AvalAI.AvalAIProvider`
- `LlmClient.LLMClient`
- `Upstream.ClientSession`
- `Sponsor.SponsorService`
- `HandlersUser.UserData` (a user's `user_data`)
- `LoggingSetup.RootLogger`

Where the code and its written description differ, the model follows the code:

- A history limit of 0 means "keep everything" (`if max_messages:` at
  xilma/handlers/user.py:230), not "keep nothing".
- `list_models` gives each endpoint its own retry budget.
- An unreachable sponsor channel lets the user through ("fail open").

## Model

| member | source | states |
|---|---|---|
| Backoff.Delays | xilma/ai_client.py:113 | the i-th pause is `retry_backoff * 2^i`, one per retried attempt |
| Backoff.DelayDoubles | xilma/ai_client.py:113 | a non-negative backoff gives non-negative pauses, and each pause doubles the previous one |
| Json.Or | xilma/ai_client.py:239 | Python `a or b` on JSON values: the result is truthy exactly when either operand is |
| Upstream.Payload | xilma/ai_client.py:84-92 | the payload always has `model` and `messages`, and has each of `temperature`, `max_tokens`, `top_p` and `user` exactly when that argument is given, with that value |
| Upstream.MessagesJson | xilma/handlers/user.py:207-209 | the message list is encoded item by item, in order |
| Upstream.AttemptFromMeaning | xilma/ai_client.py:100-132 | at most `max_retries + 1` POSTs; every attempt before the last was transient (429, 500 or a transport error); the pauses are the backoff schedule; success carries the last body with status < 400; a status failure carries the last status ≥ 400, which was either not retryable or the last allowed attempt; a network failure means every attempt was used and the last one failed in transport |
| Upstream.AttemptFromCalls | xilma/ai_client.py:99-130 | from any attempt, between one and all remaining POSTs are made, every one before the last transient, and the loop never ends without an attempt |
| Upstream.AttemptFromDelays | xilma/ai_client.py:110-128 | from any attempt, the pauses are the doubling back-off `retry_backoff * 2**k` for each retried attempt k, in order |
| Upstream.AttemptFromLast | xilma/ai_client.py:99-130 | from any attempt, the last answer decides: its body on success, its status on a non-retryable or final HTTP error, and a network failure only on the final attempt |
| Upstream.PauseNonNegative | xilma/ai_client.py:113 | with a non-negative backoff, no pause is negative |
| Upstream.RetryThenSuccess | xilma/ai_client.py:112-119 | example (the general case is `Upstream.AttemptFromMeaning`): a 429 followed by a 200 gives the second body after two calls and one pause of `retry_backoff` |
| Upstream.ClientErrorNotRetried | xilma/ai_client.py:103-120 | a 400 is raised after one call, without any pause |
| Upstream.ExhaustedFrom | xilma/ai_client.py:121-130 | from any attempt on, transport errors throughout exhaust the remaining attempts and end in a network failure |
| Upstream.NetworkExhausted | xilma/ai_client.py:121-130 | transport errors throughout give a network failure after `max_retries + 1` calls and `max_retries` pauses |
| Upstream.Post | xilma/ai_client.py:100-132 | the retry loop computes exactly the result, call count and pauses of the retry specification |
| Upstream.ClientSession.constructor | xilma/ai_client.py:46-47 | a new session has the client's timeout and is open |
| Upstream.ClientSession.Close | xilma/ai_client.py:51 | the session is closed |
| Upstream.ParseChatReply | xilma/ai_client.py:134-143 | for any body, decoding succeeds exactly when `choices[0].message` exists, is an object and has non-null `content`; the reply's content is that value, its model is `data["model"]` or else the requested model, and its usage is `data.get("usage")`; a non-object message is the uncaught `AttributeError`, every other failure a format error |
| Upstream.ParseCompletionBody | xilma/ai_client.py:134-143 | a well-formed completion gives its content, its `model` or the requested model, and its `usage` or None |
| Upstream.ParseChatReplyFailures | xilma/ai_client.py:134-141 | empty `choices`, a non-object body and null content are format errors; a string message escapes as an uncaught error |
| Upstream.ChatCompletion | xilma/ai_client.py:100-143 | a reply exists only when the POST loop succeeded |
| Upstream.ChatCompletionFailures | xilma/ai_client.py:100-132 | "request failed" happens exactly when the retry count is negative; an HTTP failure carries the last status ≥ 400; a network failure used every attempt |
| AiClient.AsApiError | xilma/ai_client.py:105-141 | an `APIError` carries a status exactly when the failure was an HTTP status; only the missing-`get` case escapes as a non-`APIError` |
| AiClient.GeneratedMeaning | xilma/ai_client.py:71-143 | with clamped retries, "request failed" never happens; a result has non-null content from a successful POST; a status error carries the last status ≥ 400; "Network error" means every attempt was used |
| AiClient.FetchFromAttempts | xilma/ai_client.py:159-203 | a model-listing attempt on one path makes at most `max_retries + 1` GETs, pauses on the backoff schedule, and retries only after transient answers |
| AiClient.FetchFromCalls | xilma/ai_client.py:159-203 | one path makes between one and `max_retries + 1` GETs, and every answer before the last was a retryable status (429 or 500) or a network error |
| AiClient.FetchFromPauses | xilma/ai_client.py:182-189 | there is one pause fewer than GETs, and pause `j` is `retry_backoff * 2**j` counted from the first attempt |
| AiClient.FetchFromVerdict | xilma/ai_client.py:161-203 | a found verdict holds the non-empty models of a body with status < 400; a skipped path answered 404 or returned no models; a failure is an `APIError` carrying a non-404 status ≥ 400 or "Network error" after every attempt |
| AiClient.ListFromMeaning | xilma/ai_client.py:157-205 | across the remaining paths: the GET count is bounded, every URL is a base URL plus a model path, a result is non-empty, sorted and unique by id, and "Failed to fetch models" is raised only after every path was tried, the last request going to the last path |
| AiClient.ListFromUrls | xilma/ai_client.py:157-205 | the GETs over the remaining paths number at most `max_retries + 1` per path, each to the base URL plus a model path |
| AiClient.ListFromCount | xilma/ai_client.py:157-205 | at most `2 * (max_retries + 1)` GETs from the first path, `max_retries + 1` from the second, none past the last |
| AiClient.ListFromModelUrls | xilma/ai_client.py:159-160 | every requested URL is the base URL followed by `/v1/models` or `/v1beta/models` |
| AiClient.ListFromResult | xilma/ai_client.py:174-205 | a listed result is non-empty, sorted and unique by id; an error is an `APIError` with one of the three messages |
| AiClient.ListFromExhausted | xilma/ai_client.py:157-205 | "Failed to fetch models" comes only after at least one GET per remaining path, the last one to the last path |
| AiClient.ListFromResumed | xilma/ai_client.py:157-205 | after one path, a found or failed verdict ends the listing and a skip goes on to the next path, URLs and pauses concatenated in order |
| AiClient.ListFromEnd | xilma/ai_client.py:205 | with every path tried, the listing raises "Failed to fetch models" without a request |
| AiClient.ListedModelsMeaning | xilma/ai_client.py:145-205 | `list_models` asks `/v1/models` first, then only `/v1beta/models`, at most `2 * (max_retries + 1)` times; results are sorted and unique; its errors are the three `APIError` messages |
| AiClient.ListModelsFallback | xilma/ai_client.py:164-177 | a 404 on `/v1/models` falls through to `/v1beta/models`, whose models are returned |
| AiClient.FetchNotFound | xilma/ai_client.py:164-169 | a 404 ends the current path with no pause |
| AiClient.FetchModels | xilma/ai_client.py:174-177 | a body with models ends the search with those models |
| AiClient.FetchNoModels | xilma/ai_client.py:175-179 | a body without models skips to the next path |
| AiClient.ListFromSkipped | xilma/ai_client.py:157-179 | a skipped path is followed by the next path, with its URLs and pauses kept in order |
| AiClient.ListFromDecided | xilma/ai_client.py:170-203 | a path that found models or failed ends the listing with that outcome |
| AiClient.ListModelsBothEmpty | xilma/ai_client.py:178-205 | example (the general case is `AiClient.ListFromMeaning`): two empty model bodies end in "Failed to fetch models" |
| AiClient.ListModelsBudgetPerPath | xilma/ai_client.py:157-189 | example (the general case is `AiClient.ListFromMeaning`): each path has its own retry budget: a 500 then a 404 on the first path, then a 500 then models on the second, succeed after four GETs and two pauses |
| AiClient.FetchRetried | xilma/ai_client.py:182-189 | a 500 on the first of two attempts pauses `retry_backoff`, then makes the second attempt |
| AiClient.FetchEndpoint | xilma/ai_client.py:159-203 | the per-path loop computes exactly the per-path specification |
| AiClient.ResumedStep | xilma/ai_client.py:157-205 | URLs and pauses of consecutive paths concatenate in order |
| AiClient.AIClient.constructor | xilma/ai_client.py:27-42 | the base URL loses its trailing slashes, `max_retries` is clamped to ≥ 0 and `retry_backoff` to ≥ 0.0, and there is no session |
| AiClient.AIClient.Start | xilma/ai_client.py:44-47 | a session is created only when there is none, with the client's timeout |
| AiClient.AIClient.Close | xilma/ai_client.py:49-52 | an open session is closed and dropped |
| AiClient.AIClient.UpdateSettings | xilma/ai_client.py:54-69 | only the given settings change, clamped and stripped like the constructor's |
| AiClient.AIClient.GenerateResponse | xilma/ai_client.py:71-143 | it starts a session if none is open and otherwise keeps the open one, posts the chat payload to `base_url + /v1/chat/completions`, runs the retry specification, and returns the parsed reply or the matching `APIError` |
| AiClient.AIClient.ListModels | xilma/ai_client.py:145-205 | a session is open afterwards, and an already open one is kept; the result, requested URLs and pauses are those of the listing specification |
| Models.Parts | xilma/ai_client.py:245-256 | there is at most one pricing part per key, and none exactly when no key holds a number |
| Models.PartsFromKeys | xilma/ai_client.py:254-256 | every pricing part is the number held by one of the pricing keys |
| Models.PartsSum | xilma/ai_client.py:245-258 | for every pricing object, `sum(parts)` is the total over all six pricing keys, a missing or non-numeric value counting as 0 |
| Models.PriceOfMeaning | xilma/ai_client.py:238-272 | for every item, the price is a number under `price or cost`; else, when `pricing` is an object with a number under some pricing key, the total of the pricing keys; else the first flat price key holding a number |
| Models.FirstNumber | xilma/ai_client.py:260-271 | the first numeric value among the flat price keys, in key order; None exactly when none is numeric |
| Models.PriceAbsent | xilma/ai_client.py:238-272 | an item without any price key has no price |
| Models.PriceTruthiness | xilma/ai_client.py:239-241 | `price or cost` skips a falsy 0 price, and a boolean counts as a number |
| Models.PriceFromPricing | xilma/ai_client.py:239-258 | example (the general case is `Models.PriceOfMeaning`): with no `price` or `cost` and a pricing object holding exactly the keys `input` and `output`, both numbers, the price is their sum, whatever flat keys the item has |
| Models.PartsAbsent | xilma/ai_client.py:246-256 | keys the pricing object lacks add no part |
| Models.PriceFromFlatKeys | xilma/ai_client.py:239-271 | without a direct price or pricing numbers, a missing `input_price` passes to `output_price`, whatever later keys hold |
| Models.PricingParts | xilma/ai_client.py:245-256 | the pricing loop collects exactly the pricing parts |
| Models.ExtractPrice | xilma/ai_client.py:238-272 | the price loops compute the price specification, whose three rules `Models.PriceOfMeaning` states |
| Models.LexLessIrreflexive | xilma/ai_client.py:235 | the id order used for sorting is irreflexive |
| Models.LexLessTransitive | xilma/ai_client.py:235 | the id order is transitive |
| Models.LexLessTotal | xilma/ai_client.py:235 | any two distinct ids are ordered one way or the other |
| Models.LexLessAsymmetric | xilma/ai_client.py:235 | the id order is asymmetric |
| Models.Insert | xilma/ai_client.py:235 | insertion adds exactly one model and keeps the others |
| Models.InsertSorted | xilma/ai_client.py:235 | inserting a new id into a sorted list keeps it sorted |
| Models.SortById | xilma/ai_client.py:235 | `sorted(..., key=model_id)` is sorted by id and is a permutation of its input |
| Models.Candidate | xilma/ai_client.py:225-231 | a candidate model id is never empty |
| Models.CandidateOrder | xilma/ai_client.py:229-230 | an object's id is its first truthy `id`, `model` or `name`: a non-empty string `id` wins whatever the others hold, a falsy `id` passes to `model` and a falsy `model` to `name`; all three falsy, or a truthy non-string `id`, names no model |
| Models.Kept | xilma/ai_client.py:222-234 | kept models have unique ids |
| Models.KeptFromItems | xilma/ai_client.py:222-234 | each kept model is the one some item names |
| Models.KeptFirstWins | xilma/ai_client.py:229-234 | for every item list, each kept model is the one named by the FIRST item that names its id: no earlier item names a model with that id |
| Models.KeptIds | xilma/ai_client.py:224-234 | the kept ids are exactly the ids of the items that yield a model |
| Models.KeptSnoc | xilma/ai_client.py:232-234 | an item is kept exactly when it yields an id not seen before |
| Models.KeptExample | xilma/ai_client.py:224-234 | example (the general cases are `Models.KeptFirstWins` and `Models.KeptIds`): duplicates and empty ids are dropped, and the first occurrence is kept |
| Models.ExtractedModelsSorted | xilma/ai_client.py:208-235 | the result is sorted by id, has unique ids, and is a permutation of the kept models |
| Models.SortExample | xilma/ai_client.py:235 | example (the general case is `Models.ExtractedModelsSorted`): `[b, a]` sorts to `[a, b]` |
| Models.ExtractedModelsExample | xilma/ai_client.py:208-235 | example (the general cases are `Models.ExtractedModelsSorted` and `Models.KeptFirstWins`): a `data` list with a duplicate, an empty id and an item naming `a` at price 3 gives the two models sorted, with the price |
| Models.CandidatePriced | xilma/ai_client.py:224-230 | example (the general cases are `Models.CandidateOrder` and `Models.PriceOfMeaning`): an object with `id` `a` and `price` 3 names model `a` priced 3 |
| Models.ExtractModels | xilma/ai_client.py:208-235 | the extraction loop computes the extraction specification |
| AvalAI.AsProviderError | xilma/providers/avalai.py:74-121 | a `ProviderError` carries a status exactly when the failure was an HTTP status |
| AvalAI.GeneratedMeaning | xilma/providers/avalai.py:40-123 | "AvalAI request failed" happens exactly when `max_retries < 0`, and then no request is sent; a reply has non-null content; a status error carries the last status ≥ 400; "AvalAI network error" means every attempt was used |
| AvalAI.AgreesWithAIClient | xilma/providers/avalai.py:69-123 | for non-negative retry counts the provider behaves like `AIClient.generate_response`, with the error messages renamed |
| AvalAI.NegativeRetries | xilma/providers/avalai.py:69-112 | a negative retry count sends nothing and raises "AvalAI request failed" |
| AvalAI.AvalAIProvider.constructor | xilma/providers/avalai.py:14-27 | the base URL loses its trailing slashes; retries and backoff are stored unclamped; there is no session |
| AvalAI.AvalAIProvider.Start | xilma/providers/avalai.py:30-33 | a session is created only when there is none |
| AvalAI.AvalAIProvider.Close | xilma/providers/avalai.py:35-38 | an open session is closed and dropped |
| AvalAI.AvalAIProvider.GenerateResponse | xilma/providers/avalai.py:40-123 | it posts the chat payload, runs the retry specification with unclamped settings, and returns the reply or the matching `ProviderError` |
| LlmClient.OrElse | xilma/llm_client.py:46-47 | Python `x or default` on an optional string: the value when non-empty, else the default |
| LlmClient.RouteMeaning | xilma/llm_client.py:46-98 | at most two provider calls, all to registered providers; an unknown provider raises "Unknown provider" with no call; the first call uses the explicit-or-default provider and model; a second call happens exactly when the first raised `ProviderError` and a registered fallback exists, and its outcome is final; otherwise the first outcome is returned |
| LlmClient.FallbackSubstitutes | xilma/llm_client.py:77-80 | the fallback provider and model default to the primary ones, and an unregistered fallback provider means no fallback |
| LlmClient.NoFallbackReraises | xilma/llm_client.py:77-98 | without a configured fallback, the primary outcome is returned after one call |
| LlmClient.FallbackFailureIsFinal | xilma/llm_client.py:89-97 | a failing fallback's error is what the caller sees, after exactly two calls |
| LlmClient.LLMClient.constructor | xilma/llm_client.py:11-23 | the routing configuration is the one given |
| LlmClient.LLMClient.GenerateResponse | xilma/llm_client.py:34-98 | on this client's configuration, at most two calls, all to registered providers |
| LlmClient.LLMClient.Start | xilma/llm_client.py:26-28 | every registered provider has a session afterwards, and existing sessions are kept |
| LlmClient.LLMClient.Close | xilma/llm_client.py:30-32 | every registered provider's open session is closed, and no provider has a session afterwards |
| Sponsor.NormalizeChannel | xilma/services/sponsor.py:40-60 | a normalised channel has `raw == chat_id == label == "@" + username` and `url == "https://t.me/" + username`; blank input is the "empty" error |
| Sponsor.NormalizeSpellings | xilma/services/sponsor.py:45-60 | `https://t.me/u`, `http://t.me/u`, `t.me/u`, `@u` and `u` all normalise to `@u` |
| Sponsor.NormalizeUrl | xilma/services/sponsor.py:45-60 | a link with one of the three `t.me` prefixes normalises to the channel it names |
| Sponsor.NormalizeIdempotent | xilma/services/sponsor.py:40-60 | normalising a channel's label gives the same channel |
| Sponsor.NormalizeRefusals | xilma/services/sponsor.py:40-56 | for every input: an invite-link refusal exactly when the stripped reference, after the `t.me` prefixes, starts with `+` or `joinchat/`; an invalid-username refusal exactly when it is no invite link and the name after one `@` is not alphanumeric without its underscores |
| Sponsor.NormalizeRejectsPlusInvite | xilma/services/sponsor.py:50-51 | a `+hash` invite link is refused, for every hash without whitespace (`-` included) |
| Sponsor.NormalizeRejectsJoinchatInvite | xilma/services/sponsor.py:50-51 | a `joinchat/hash` invite link is refused, for every hash without whitespace |
| Sponsor.NormalizeRejectsUrlInvite | xilma/services/sponsor.py:45-51 | a `+hash` invite link behind the `https://t.me/` prefix is refused, for every hash without whitespace |
| Sponsor.NormalizeRejectsBlank | xilma/services/sponsor.py:41-43 | example (the general case is `Sponsor.NormalizeChannel`): whitespace-only input is refused as empty |
| Sponsor.NormalizeRejectsEmptyUsername | xilma/services/sponsor.py:53-56 | a bare `@`, or a name made only of underscores, is an invalid username |
| Sponsor.ForeignCharInvalid | xilma/services/sponsor.py:55 | a name holding a character other than an ASCII letter, digit or `_` is not a valid username |
| Sponsor.NormalizeRejectsForeignChar | xilma/services/sponsor.py:53-56 | a handle such as `@foo-bar` or `@a.b`, with any such character, is refused as an invalid username |
| Sponsor.Without | xilma/services/sponsor.py:100-102 | filtering out an id removes exactly that id, and keeps only existing channels |
| Sponsor.WithoutFacts | xilma/services/sponsor.py:99-104 | filtering keeps ids unique; the length is unchanged exactly when the id was absent, and then the list is unchanged |
| Sponsor.WithoutUnique | xilma/services/sponsor.py:99-104 | filtering a list with unique ids keeps them unique |
| Sponsor.WithoutKeeps | xilma/services/sponsor.py:99-104 | the length is unchanged exactly when the id was absent, and then the list is unchanged |
| Sponsor.AppendUnique | xilma/services/sponsor.py:90-92 | appending a channel with a new id keeps ids unique and adds exactly that id |
| Sponsor.FirstOccurrencesSnoc | xilma/services/sponsor.py:34-36 | a channel is appended exactly when its id is not already present |
| Sponsor.FirstOccurrencesIds | xilma/services/sponsor.py:27-37 | de-duplication keeps every id |
| Sponsor.Collect | xilma/services/sponsor.py:27-37 | a collected list has unique ids, each from a successful normalisation; any failure is `UserVisibleError(SPONSOR_INVALID)` |
| Sponsor.CollectMeaning | xilma/services/sponsor.py:27-37 | collection fails exactly when some item fails; otherwise it keeps the first channel of each id, in order |
| Sponsor.CollectFails | xilma/services/sponsor.py:27-33 | collection fails exactly when some item fails to normalise |
| Sponsor.CollectValues | xilma/services/sponsor.py:27-37 | without a failure, collection keeps the first channel of each id, in order |
| Sponsor.CollectSnoc | xilma/services/sponsor.py:33-36 | one loop step after a valid item skips a known id and appends a new one |
| Sponsor.NormalizedList | xilma/services/sponsor.py:27-37 | a normalised list has unique ids and canonical channels; its only error is `SPONSOR_INVALID` |
| Sponsor.NormalizedListMeaning | xilma/services/sponsor.py:27-37 | the list fails exactly when some item is invalid, and otherwise keeps first occurrences in order |
| Sponsor.NormalizedListDuplicate | xilma/services/sponsor.py:34-35 | two spellings of one channel give a single entry |
| Sponsor.CollectRepeated | xilma/services/sponsor.py:34-35 | a repeated channel is kept once |
| Sponsor.ParseChannelsCsvSkipsBlank | xilma/services/sponsor.py:63-65 | a blank CSV item is skipped |
| Sponsor.NormalizeChannels | xilma/services/sponsor.py:27-37 | the normalisation loop computes the list specification |
| Sponsor.LookupRunMeaning | xilma/services/sponsor.py:115-126 | one channel's lookups make at most `retries + 1` calls on the backoff schedule; the channel is unreachable exactly when every call failed; otherwise the status is the last call's answer |
| Sponsor.LookupPauses | xilma/services/sponsor.py:123-126 | one pause fewer than lookups, pause `j` being `backoff * 2**j` |
| Sponsor.LookupVerdict | xilma/services/sponsor.py:115-126 | every lookup before the last raised; unreachable means all `retries + 1` raised; otherwise the status is the last lookup's answer |
| Sponsor.MembershipMeaning | xilma/services/sponsor.py:109-135 | `is_member` is false exactly when the last channel checked answered a status other than member, administrator or creator; every earlier channel was satisfied; stopping early as a member means the last channel was unreachable |
| Sponsor.MembershipShape | xilma/services/sponsor.py:112-135 | at most one verdict per channel, at least one when a channel remains, and every verdict but the last satisfied |
| Sponsor.MembershipRefusal | xilma/services/sponsor.py:127-135 | refusal exactly on an unsatisfying status from the last channel reached; stopping short as a member only on an unreachable channel |
| Sponsor.MembershipFromResumed | xilma/services/sponsor.py:112-135 | one channel's lookups either decide the check or hand over to the next channel, queries and pauses concatenated in order |
| Sponsor.MembershipQueries | xilma/services/sponsor.py:112-126 | every lookup targets a checked channel, and there are at most `retries + 1` lookups per channel |
| Sponsor.MembershipNoChannels | xilma/services/sponsor.py:110-111 | with no channels the user is a member and nothing is queried |
| Sponsor.SponsorService.Empty | xilma/services/sponsor.py:70-73 | an empty service with 1 retry and 0.5 s backoff |
| Sponsor.SponsorService.Create | xilma/services/sponsor.py:69-74 | construction succeeds exactly when every initial channel normalises, and the list is the normalised list |
| Sponsor.SponsorService.SetChannels | xilma/services/sponsor.py:79-80 | the list becomes the normalised list, or stays unchanged when an item is invalid; ids stay unique |
| Sponsor.SponsorService.SetChannelsCsv | xilma/services/sponsor.py:82-83 | the same as `set_channels`, on the CSV items |
| Sponsor.SponsorService.AddChannel | xilma/services/sponsor.py:85-92 | invalid input gives `SPONSOR_INVALID` and a known id gives `SPONSOR_ALREADY_EXISTS`, both leaving the list unchanged; otherwise the channel is appended; ids stay unique |
| Sponsor.SponsorService.RemoveChannel | xilma/services/sponsor.py:94-104 | invalid input gives `SPONSOR_INVALID`; otherwise the id is filtered out, and `SPONSOR_NOT_FOUND` is raised exactly when it was absent (the list then unchanged) |
| Sponsor.SponsorService.BuildButtons | xilma/services/sponsor.py:106-107 | one URL-button row per channel, in list order, with the channel's label and URL |
| Sponsor.SponsorService.IsMember | xilma/services/sponsor.py:109-135 | the loop's verdict, queried chats and pauses are those of the membership specification |
| Sponsor.SponsorService.LookupMember | xilma/services/sponsor.py:113-126 | the retry loop for one channel computes that channel's lookup specification |
| Config.SplitCsv | xilma/config.py:34-38 | None or `""` gives `[]`; every item is non-empty and contains no comma |
| Config.SplitCsvMeaning | xilma/config.py:34-38 | items are stripped, and splitting distributes over a comma |
| Config.AdminRaws | xilma/config.py:42-45 | a non-empty primary id comes first |
| Config.Parses | xilma/config.py:48-50 | each raw id is parsed with `int()`, in order |
| Config.Collect | xilma/config.py:47-53 | a collected set contains every parsed id |
| Config.CollectMeaning | xilma/config.py:47-53 | collection succeeds exactly when every item parses, and then gives the set of their values |
| Config.ParseAdminIds | xilma/config.py:41-53 | its only error is the "must be integers" `SystemExit` |
| Config.ParseAdminIdsMeaning | xilma/config.py:41-53 | parsing succeeds exactly when every raw id is an integer, and then gives the set of parsed ids |
| Config.ParseAllMeaning | xilma/config.py:47-53 | the same, for any list of raw ids |
| Config.ParseAdminIdsSingle | xilma/config.py:41-53 | a single id written in decimal parses back to itself |
| Config.ParseAdminIdsLoop | xilma/config.py:41-53 | the parsing loop computes the admin-id specification |
| Config.CollectIds | xilma/config.py:46-52 | the loop adds each parsed id in turn and stops at the first raw id that is not an integer; its result is the collection specification, whose meaning `Config.CollectMeaning` states |
| Config.GetFloat | xilma/config.py:56-62 | None or `""` gives None; otherwise the parsed float, or `SystemExit("Invalid float value")` exactly when parsing fails |
| Config.GetInt | xilma/config.py:65-71 | None or `""` gives None; otherwise the parsed integer, or `SystemExit("Invalid integer value")` exactly when parsing fails |
| Config.GetBool | xilma/config.py:74-77 | None gives the default; otherwise true exactly when the stripped, lower-cased value is one of 1, true, yes, on |
| Config.GetBoolSetValue | xilma/config.py:74-77 | a set value ignores the default, and a blank value is false |
| Config.OrNone | xilma/config.py:100-101 | an empty string becomes None |
| Config.LoadSettings | xilma/config.py:80-141 | a missing token fails first, then bad admin ids, then a missing API key, then the first malformed number, whose error is the result; loaded settings are exactly `Assemble` of the token, the parsed admin ids, the key and the numbers read; they have non-empty token and key, empty fallbacks as None, and the split channel list |
| Config.ReadTuning | xilma/config.py:103-111 | the tuning values load exactly when each one parses, and equal their parses; a bad timeout is the first error |
| Config.Assemble | xilma/config.py:96-141 | retries, backoff and history limit are `max(0, value)`: kept when non-negative, else 0; timeout and sampling options are kept as read; each string setting is the variable when set and else its default (`https://api.avalai.ir`, `avalai`, `gpt-4o`, `sponsors.json`, `INFO`, `json`); anonymisation defaults to true |
| Config.LoadSettingsDefaults | xilma/config.py:80-141 | example (the general case is `Config.LoadSettings`): with only a token and a key set, every other setting takes its documented default |
| Config.LoadSettingsOnly | xilma/config.py:80-141 | the same, for any environment holding just those two keys |
| Config.DefaultTuning | xilma/config.py:103-111 | the default strings parse to 30, 1, 0.5 and 12 |
| Config.DefaultAdminIds | xilma/config.py:87-90 | no admin variables give no admins |
| Config.DefaultAssembly | xilma/config.py:96-141 | the default URL, provider, model, file, log level, format and anonymisation flag |
| LoggingSetup.Extras | xilma/logging_setup.py:32-38 | never more attributes than the record has |
| LoggingSetup.ExtrasMeaning | xilma/logging_setup.py:32-38 | an attribute is kept exactly when its key is not a standard record attribute; nothing is added or altered |
| LoggingSetup.ExtrasAppend | xilma/logging_setup.py:34-37 | extraction distributes over concatenation and keeps the order |
| LoggingSetup.ExtrasDistinct | xilma/logging_setup.py:32-38 | distinct keys stay distinct |
| LoggingSetup.ExtractExtras | xilma/logging_setup.py:32-38 | the extraction loop computes the extras specification |
| LoggingSetup.ParseFormats | xilma/logging_setup.py:65-71 | every format is lower-case and comma-free; an empty list only comes from a comma list |
| LoggingSetup.ParseFormatsIgnoresCase | xilma/logging_setup.py:66 | parsing ignores letter case |
| LoggingSetup.ParseFormatsSingle | xilma/logging_setup.py:65-71 | a plain lower-case name other than `both` or `all` selects exactly itself |
| LoggingSetup.BothFormats | xilma/logging_setup.py:65-91 | `both` or `all`, in any case and surrounded by any whitespace, selects text and json and installs the JSON handler before the text handler |
| LoggingSetup.ParseFormatsPair | xilma/logging_setup.py:69-70 | `a, b` gives `[a, b]` for any two plain lower-case names |
| LoggingSetup.Handlers | xilma/logging_setup.py:79-91 | a JSON handler exactly when `json` is listed; a text handler exactly when `text` is listed or `json` is not; one or two distinct handlers, JSON first |
| LoggingSetup.RootLogger.constructor | xilma/logging_setup.py:75 | the root logger starts at WARNING with no handlers |
| LoggingSetup.RootLogger.SetLevel | xilma/logging_setup.py:76 | a known level name sets the level; an unknown one raises `ValueError` and changes nothing |
| LoggingSetup.RootLogger.AddHandler | xilma/logging_setup.py:94-95 | a handler is appended unless already present |
| LoggingSetup.ReplaceHandlers | xilma/logging_setup.py:93-95 | the root's handlers become exactly the new ones, in order, and the level is unchanged |
| LoggingSetup.SetupLogging | xilma/logging_setup.py:74-95 | an unknown upper-cased level raises before anything changes; otherwise the level is set and the handlers are replaced wholesale by the selected ones |
| LoggingSetup.SetupAlwaysHandles | xilma/logging_setup.py:81-91 | there is always at least one handler; JSON comes first when requested, and otherwise the text handler is the only one |
| HandlersCommon.IsAdmin | xilma/handlers/common.py:10-16 | never an admin without a user and settings; otherwise an admin exactly when the id is among `admin_user_ids` |
| HandlersCommon.AdminFromEnvironment | xilma/handlers/common.py:10-16 | under loaded settings, a user is an admin exactly when one of the raw `ADMIN_USER_ID(S)` values parses to their id |
| HandlersCommon.BuildSponsorMarkup | xilma/handlers/common.py:19-29 | no keyboard without a service or without channels; otherwise the channel rows in order, then exactly one `check_membership` row, last |
| HandlersCommon.MemberGate | xilma/handlers/common.py:47-58 | the gate follows `is_member`, and the sponsor prompt with its keyboard is sent exactly when it refuses |
| HandlersCommon.EnsureSponsorMembership | xilma/handlers/common.py:32-58 | admins pass first; an update without a user is refused with no prompt; no service lets everyone through; otherwise `is_member` decides; a prompt is sent exactly on a refusal of a known user |
| HandlersCommon.GateRefusal | xilma/handlers/common.py:47-58 | a prompt means a running service with channels, whose last checked channel answered a non-member status |
| HandlersUser.EnsureSponsorMembership | xilma/handlers/user.py:81-108 | a missing config or service lets everyone through; then the admin passes, an update without a user is refused, and otherwise `is_member` decides; a prompt is sent exactly on a refusal of a known user |
| HandlersUser.GatesAgree | xilma/handlers/user.py:81-108 | with both present and agreeing on who is admin, the two gates decide alike |
| HandlersUser.GatesDifferWithoutUser | xilma/handlers/user.py:88-95 | without a user and without a service, the user-handler gate passes while the common gate refuses |
| HandlersUser.Conversation | xilma/handlers/user.py:207-209 | the upstream messages are the system prompt, then the stored history unchanged, then the user's text |
| HandlersUser.UserTag | xilma/handlers/user.py:211-222 | the `user` field is present exactly for a non-zero user id, and it reads back as that id |
| HandlersUser.Trimmed | xilma/handlers/user.py:229-231 | a non-positive limit keeps everything; a positive one keeps the last `min(limit, length)` messages |
| HandlersUser.TrimmedIdempotent | xilma/handlers/user.py:229-231 | trimming twice is trimming once |
| HandlersUser.TrimKeepsLatestExchange | xilma/handlers/user.py:227-231 | unless the limit is 1, the new user and assistant turns are the last two kept messages |
| HandlersUser.HistoryBounded | xilma/handlers/user.py:229-231 | a positive limit bounds the stored history |
| HandlersUser.UserData.constructor | xilma/handlers/user.py:207-215 | a new user starts with no history and no model override |
| HandlersUser.ChosenModelAgrees | xilma/handlers/user.py:215-218 | a stored override is never empty, so `override or default` and `get("model", default)` pick the same model |
| HandlersUser.Chat | xilma/handlers/user.py:181-232 | in order: a non-text message is refused; a missing config or client raises "App not configured"; a refusing gate stops silently; an empty API key is refused; then the request carries the conversation, the chosen model and the sampling settings; an upstream or delivery error leaves the history unchanged; success appends the user and assistant turns and trims |
| HandlersUser.Ask | xilma/handlers/user.py:207-232 | the upstream request and the history update after the gate has passed |
| HandlersUser.Remember | xilma/handlers/user.py:227-232 | the history gains the user turn, then the assistant turn, then is trimmed; the model is untouched |
| HandlersUser.NewChat | xilma/handlers/user.py:136-141 | a passing gate empties the history and replies "chat reset"; a refusing one changes nothing |
| HandlersUser.SetModel | xilma/handlers/user.py:144-171 | a missing config raises "Config missing" before the gate; no argument replies with the current model or the default; a blank argument is refused with the usage text; otherwise the stripped name becomes the override |

## Left out

- `load_dotenv()` (xilma/config.py:81): not modelled. The `env` map given to `Config.LoadSettings` is the environment after `.env` loading.

- HTTP, Telegram and aiohttp I/O, including awaiting: the answers are input sequences, and the sleeps are returned as delay lists.
- Floating-point rounding in price sums and backoff products: `real` arithmetic is exact.
- Python's Unicode-aware `str.strip`, `str.lower`, `str.isalnum`, `int()` and `float()`: modelled on ASCII. `float()` accepts only an optional sign, digits and one optional decimal point (no exponents, `inf` or `nan`).
- `Text.ParseInt` and `Text.ParseFloat`: reject the `_` digit separators that Python's `int()` and `float()` accept (`"1_000"`, `"0.5_0"`). An admin id or numeric setting written that way (xilma/config.py:50, 60, 69, 103-111) is an error in the model but accepted by the source.
- Logging calls, log formatters (`JsonFormatter`, `TextExtrasFormatter`), `json.dumps` and timestamps: they only produce output.
- Message texts of `APIError`, `ProviderError` and `SystemExit` that embed a response body (`API error {status}: {text}`): the model keeps the status and a message key, not the body text.
- Malformed JSON response bodies (`resp.json()` raising): a body is always a `Json` value.
- The `from exc` cause chain of raised errors, including the unraised "No models returned" error that only ever becomes a cause.
- `Models.Candidate`: keeps only string ids, and drops a truthy non-string `id`, `model` or `name`. The source does not drop it. A number id is kept when every kept id is a number. Mixed with string ids, `sorted` raises `TypeError` (xilma/ai_client.py:235). A list or object id is unhashable, so `model_id not in seen` raises `TypeError` (xilma/ai_client.py:232). `list_models` catches neither error. The model returns a list in all these cases.
- `LoggingSetup.ExtractExtras`: works on the record's attributes as a sequence of key/value pairs with distinct keys, not on a Python `__dict__`.
- `LoggingSetup.RootLogger.SetLevel`: knows the standard level names only. Custom levels registered with `logging.addLevelName` are not modelled. A numeric string such as `"10"` is refused with `ValueError`, as `Logger.setLevel` refuses it.
- `HandlersUser.Chat`: the system prompt text (`texts.SYSTEM_PROMPT`) is a parameter, and the failure of `reply_text` is an input (`delivery`). The typing action and user tracking are left out because they only do I/O.
- `HandlersUser.EnsureSponsorMembership`: the `ConfigStore` type that xilma/handlers/user.py imports is not defined in xilma/config.py. The model uses a record of the fields the handlers read (`ConfigData`).
- The texts key `API_KEY_MISSING` used at xilma/handlers/user.py:205 is absent from xilma/texts.py. It is kept as one more opaque text key.
- `ProviderError` is imported by xilma/providers/avalai.py and xilma/llm_client.py, but xilma/errors.py does not define it. It is modelled as an error with a message and an optional status, like `APIError`.
- xilma/app.py (bootstrap) is not part of this model. It passes `storage_path` to a `SponsorService` constructor that does not accept it (xilma/app.py:46-49). It also never stores `"config"` or `"ai_client"` in the bot data (xilma/app.py:75-77), so under it `chat` would always raise "App not configured" and `set_model` "Config missing". The handlers are modelled with those objects as optional inputs.
- The handlers `start`, `help_command`, `unsupported` and `check_membership`, and the helpers `_track_user` and `_log_incoming_if_config` in xilma/handlers/user.py: they only reply or log after the gate, which is modelled.
- xilma/db.py, xilma/handlers/admin.py, xilma/handlers/errors.py, xilma/utils.py and bot.py are not part of this model: database I/O, admin replies and process start-up.
- `Sponsor.SponsorService.IsMember`: the Telegram `bot` object and user id are replaced by the scripted lookup answers. The user id therefore does not appear.
- `LlmClient.LLMClient.GenerateResponse`: the provider calls are represented by their outcomes (`primary`, `fallback`), because a provider's reply depends on a server the model cannot see. The sampling arguments and `reference_id` are only passed through or logged.
- Concurrency: two updates of the same user handled at once could interleave their history writes. The model handles one update at a time.

Behaviour of the code that the proofs make visible, without calling it wrong:

- A history limit of 1 keeps only the assistant's reply and drops the user turn just added (`HandlersUser.TrimKeepsLatestExchange` needs a limit other than 1).
- The two membership gates disagree on an update without a user when no sponsor service is running (`HandlersUser.GatesDifferWithoutUser`).
- The AvalAI provider does not clamp its settings. A negative retry count sends nothing and fails with "AvalAI request failed" (`AvalAI.NegativeRetries`). A negative backoff would produce negative pauses.
