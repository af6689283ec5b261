/**
 * xilma/handlers/user.py: the per-user conversation. `chat` sends the system
 * prompt, the stored history and the new message upstream, and on a reply keeps
 * the two new turns, trimmed to the configured number of messages; `new_chat`
 * forgets the history and `set_model` chooses the model. Each first runs this
 * file's own membership gate, whose order differs from the one of common.py.
 *
 * The handlers read `config.data`, whose store class is not part of this model:
 * the fields read are a record here. The Telegram update is reduced to the
 * message text and the sender's id, the replies to the text key sent.
 */
module HandlersUser {
  import opened Wrappers
  import opened Json
  import opened Texts
  import opened Errors
  import opened Upstream
  import Text
  import Config
  import Sponsor
  import AiClient
  import LlmClient
  import C = HandlersCommon

  /** The fields of `config.data` the user handlers read. */
  datatype ConfigData = ConfigData(
    adminUserId: int,
    defaultModel: string,
    apiKey: string,
    temperature: Option<real>,
    maxTokens: Option<int>,
    topP: Option<real>,
    maxHistoryMessages: int)

  /** `_is_admin`: the sender is the one configured admin. */
  predicate IsAdmin(user: Option<int>, config: ConfigData) {
    user == Some(config.adminUserId)
  }

  /**
   * `_ensure_sponsor_membership`: everyone passes while the config or the sponsor
   * service is missing; then the admin passes, an update without a user is
   * refused, and otherwise `is_member` decides, with the prompt on a refusal.
   */
  function EnsureSponsorMembership(user: Option<int>, config: Option<ConfigData>,
                                   service: Sponsor.SponsorService?, lookups: seq<Sponsor.Lookup>): (g: C.Gate)
    reads service
    ensures config.None? || service == null ==> g == C.Pass
    ensures config.Some? && service != null && IsAdmin(user, config.value) ==> g == C.Pass
    ensures config.Some? && service != null && user.None? ==> g == C.Gate(false, None, [], [])
    ensures config.Some? && service != null && user.Some? && !IsAdmin(user, config.value)
            ==> g == C.MemberGate(service, lookups)
    ensures g.prompt.Some? <==> !g.allowed && user.Some?
  {
    if config.None? || service == null then C.Pass
    else if IsAdmin(user, config.value) then C.Pass
    else if user.None? then C.Gate(false, None, [], [])
    else C.MemberGate(service, lookups)
  }

  /**
   * With a config, a sponsor service and the same admin verdict, this gate and
   * the one of common.py decide alike, with the same lookups and prompt.
   */
  lemma GatesAgree(user: Option<int>, config: ConfigData, settings: Config.Settings,
                   service: Sponsor.SponsorService, lookups: seq<Sponsor.Lookup>)
    requires IsAdmin(user, config) <==> C.IsAdmin(user, Some(settings))
    ensures EnsureSponsorMembership(user, Some(config), service, lookups)
         == C.EnsureSponsorMembership(user, Some(settings), service, lookups)
  {
  }

  /**
   * The two gates differ on an update without a user while no sponsor service
   * runs: this one lets it through, the one of common.py refuses it.
   */
  lemma GatesDifferWithoutUser(config: Option<ConfigData>, settings: Option<Config.Settings>, lookups: seq<Sponsor.Lookup>)
    ensures EnsureSponsorMembership(None, config, null, lookups).allowed
    ensures !C.EnsureSponsorMembership(None, settings, null, lookups).allowed
  {
  }

  // ---------------------------------------------------------------------------
  // The conversation

  function UserTurn(text: string): Message {
    Message(UserRole, JStr(text))
  }

  function AssistantTurn(content: Json): Message {
    Message(AssistantRole, content)
  }

  /** The messages sent upstream: the system prompt, the stored history, then the new message. */
  function Conversation(systemPrompt: string, history: seq<Message>, text: string): (ms: seq<Message>)
    ensures |ms| == |history| + 2
    ensures ms[0] == Message(SystemRole, JStr(systemPrompt))
    ensures ms[1..|ms| - 1] == history
    ensures ms[|ms| - 1] == UserTurn(text)
  {
    [Message(SystemRole, JStr(systemPrompt))] + history + [UserTurn(text)]
  }

  /** `str(user_id) if user_id else None`, where a missing user counts as id 0. */
  function UserTag(user: Option<int>): (tag: Option<string>)
    ensures tag.Some? <==> user.Some? && user.value != 0
    ensures tag.Some? ==> Text.ParseInt(tag.value) == user
  {
    if user.Some? && user.value != 0 then
      Text.IntToDecimalRoundTrip(user.value);
      Some(Text.IntToDecimal(user.value))
    else None
  }

  /** The sampling options of a chat request: the config's, and the sender's tag. */
  function SamplingFor(config: ConfigData, user: Option<int>): Sampling {
    Sampling(config.temperature, config.maxTokens, config.topP, UserTag(user))
  }

  /**
   * The kept history: with `n = max(max_history_messages, 0)`, the last `n`
   * messages when `n` is positive, and everything when it is 0.
   */
  function Trimmed(h: seq<Message>, maxHistory: int): (r: seq<Message>)
    ensures maxHistory <= 0 ==> r == h
    ensures maxHistory > 0 ==> |r| == (if maxHistory < |h| then maxHistory else |h|)
    ensures |r| <= |h| && r == h[|h| - |r|..]
  {
    var n := Config.Max(maxHistory, 0);
    if n != 0 && n < |h| then h[|h| - n..] else h
  }

  /** Trimming twice keeps what trimming once kept. */
  lemma TrimmedIdempotent(h: seq<Message>, maxHistory: int)
    ensures Trimmed(Trimmed(h, maxHistory), maxHistory) == Trimmed(h, maxHistory)
  {
  }

  /**
   * Unless only one message is kept, the exchange just made survives the trim:
   * the new history ends with the user's message and then the reply.
   */
  lemma TrimKeepsLatestExchange(h: seq<Message>, text: string, content: Json, maxHistory: int)
    requires maxHistory != 1
    ensures var r := Trimmed(h + [UserTurn(text), AssistantTurn(content)], maxHistory);
      |r| >= 2 && r[|r| - 2..] == [UserTurn(text), AssistantTurn(content)]
  {
    var full := h + [UserTurn(text), AssistantTurn(content)];
    var r := Trimmed(full, maxHistory);
    assert r[|r| - 2..] == full[|full| - 2..];
  }

  /** With a positive limit every stored history stays within it. */
  lemma HistoryBounded(h: seq<Message>, text: string, content: Json, maxHistory: int)
    requires maxHistory > 0
    ensures |Trimmed(h + [UserTurn(text), AssistantTurn(content)], maxHistory)| <= maxHistory
  {
  }

  /** A reply sent to the user. */
  datatype Reply = Said(key: TextKey) | CurrentModel(model: string)

  /** `context.user_data`: the stored history and the chosen model, absent until set. */
  class UserData {
    var history: seq<Message>
    var model: Option<string>

    /** A chosen model is always a stripped, non-empty name. */
    ghost predicate Valid()
      reads this
    {
      model.Some? ==> model.value != "" && Text.Strip(model.value) == model.value
    }

    constructor()
      ensures Valid() && history == [] && model == None
    {
      history := [];
      model := None;
    }
  }

  /**
   * The model `chat` asks for is the one `/model` reports: a stored model is
   * never blank, so `model_override or default_model` and
   * `user_data.get("model", default_model)` agree.
   */
  lemma ChosenModelAgrees(data: UserData, defaultModel: string)
    requires data.Valid()
    ensures LlmClient.OrElse(data.model, defaultModel) == data.model.GetOr(defaultModel)
  {
  }

  /**
   * `chat`: refuses a non-text message, needs the config and the client, runs the
   * gate, needs an API key, then asks the client with the stored history and the
   * new message; after the reply is delivered the two new turns are stored and
   * the history trimmed. `outs` are the client's HTTP outcomes and `delivery` is
   * what sending the reply raised, if anything.
   */
  method Chat(data: UserData, text: Option<string>, user: Option<int>, config: Option<ConfigData>,
              client: AiClient.AIClient?, service: Sponsor.SponsorService?, lookups: seq<Sponsor.Lookup>,
              systemPrompt: string, outs: seq<HttpOutcome>, delivery: Option<Exception>)
    returns (raised: Option<Exception>, gate: Option<C.Gate>, request: Option<Request>)
    requires client != null ==> client.Valid()
    modifies data, client
    ensures data.model == old(data.model)
    ensures client != null ==> client.Valid() && client.Settings() == old(client.Settings())
    ensures raised.None? && request.Some? ==> |data.history| >= 1
    ensures text.None? || text.value == "" ==>
      raised == Some(UserVisibleError(ChatOnlyText)) && gate.None? && request.None? && data.history == old(data.history)
    ensures text.Some? && text.value != "" && (config.None? || client == null) ==>
      raised == Some(RuntimeError(AppNotConfigured)) && gate.None? && request.None? && data.history == old(data.history)
    ensures text.Some? && text.value != "" && config.Some? && client != null ==>
      gate == Some(EnsureSponsorMembership(user, config, service, lookups))
    ensures gate.Some? && !gate.value.allowed ==> raised.None? && request.None? && data.history == old(data.history)
    ensures gate.Some? && gate.value.allowed && config.value.apiKey == "" ==>
      raised == Some(UserVisibleError(ApiKeyMissing)) && request.None? && data.history == old(data.history)
    ensures gate.Some? && gate.value.allowed && config.value.apiKey != "" ==>
      var cfg := config.value;
      var model := LlmClient.OrElse(data.model, cfg.defaultModel);
      var r := AiClient.Generated(client.maxRetries, client.retryBackoff, outs, model);
      && request == Some(ChatRequest(client.baseUrl, client.apiKey,
                                     Payload(model, Conversation(systemPrompt, old(data.history), text.value), SamplingFor(cfg, user))))
      && (r.Err? ==> raised == Some(r.error) && data.history == old(data.history))
      && (r.Ok? && delivery.Some? ==> raised == delivery && data.history == old(data.history))
      && (r.Ok? && delivery.None? ==>
            raised.None?
            && data.history == Trimmed(old(data.history) + [UserTurn(text.value), AssistantTurn(r.value.content)], cfg.maxHistoryMessages))
  {
    gate, request := None, None;
    if text.None? || text.value == "" {
      return Some(UserVisibleError(ChatOnlyText)), gate, request;
    }
    if config.None? || client == null {
      return Some(RuntimeError(AppNotConfigured)), gate, request;
    }
    var cfg := config.value;
    var g := EnsureSponsorMembership(user, config, service, lookups);
    gate := Some(g);
    if !g.allowed {
      return None, gate, request;
    }
    if cfg.apiKey == "" {
      return Some(UserVisibleError(ApiKeyMissing)), gate, request;
    }
    raised, request := Ask(data, text.value, user, cfg, client, systemPrompt, outs, delivery);
  }

  /** The part of `chat` after the checks: the upstream call, the reply, and the history update. */
  method Ask(data: UserData, text: string, user: Option<int>, cfg: ConfigData, client: AiClient.AIClient,
             systemPrompt: string, outs: seq<HttpOutcome>, delivery: Option<Exception>)
    returns (raised: Option<Exception>, request: Option<Request>)
    requires client.Valid()
    modifies data, client
    ensures data.model == old(data.model)
    ensures client.Valid() && client.Settings() == old(client.Settings())
    ensures var model := LlmClient.OrElse(data.model, cfg.defaultModel);
      var r := AiClient.Generated(client.maxRetries, client.retryBackoff, outs, model);
      && request == Some(ChatRequest(client.baseUrl, client.apiKey,
                                     Payload(model, Conversation(systemPrompt, old(data.history), text), SamplingFor(cfg, user))))
      && (r.Err? ==> raised == Some(r.error) && data.history == old(data.history))
      && (r.Ok? && delivery.Some? ==> raised == delivery && data.history == old(data.history))
      && (r.Ok? && delivery.None? ==>
            raised.None?
            && data.history == Trimmed(old(data.history) + [UserTurn(text), AssistantTurn(r.value.content)], cfg.maxHistoryMessages))
  {
    var messages := Conversation(systemPrompt, data.history, text);
    var model := LlmClient.OrElse(data.model, cfg.defaultModel);
    var r, sent, exchange := client.GenerateResponse(messages, model, SamplingFor(cfg, user), outs);
    request := Some(sent);
    if r.Err? {
      return Some(r.error), request;
    }
    if delivery.Some? {
      return delivery, request;
    }
    Remember(data, text, r.value.content, cfg.maxHistoryMessages);
    raised := None;
  }

  /** The two appends of `chat`, then `history[-n:]` when `n = max(max_history_messages, 0)` is not 0. */
  method Remember(data: UserData, text: string, content: Json, maxHistory: int)
    modifies data
    ensures data.model == old(data.model)
    ensures data.history == Trimmed(old(data.history) + [UserTurn(text), AssistantTurn(content)], maxHistory)
  {
    var history := data.history;
    history := history + [UserTurn(text)];
    history := history + [AssistantTurn(content)];
    var maxMessages := Config.Max(maxHistory, 0);
    if maxMessages != 0 && maxMessages < |history| {
      history := history[|history| - maxMessages..];
    }
    data.history := history;
  }

  /** `new_chat`: once the gate passes, the history is emptied and the reset confirmed. */
  method NewChat(data: UserData, user: Option<int>, config: Option<ConfigData>,
                 service: Sponsor.SponsorService?, lookups: seq<Sponsor.Lookup>)
    returns (gate: C.Gate, reply: Option<Reply>)
    modifies data
    ensures gate == EnsureSponsorMembership(user, config, service, lookups)
    ensures data.model == old(data.model)
    ensures gate.allowed ==> data.history == [] && reply == Some(Said(ChatReset))
    ensures !gate.allowed ==> data.history == old(data.history) && reply.None?
  {
    gate := EnsureSponsorMembership(user, config, service, lookups);
    if !gate.allowed {
      return gate, None;
    }
    data.history := [];
    reply := Some(Said(ChatReset));
  }

  /**
   * `set_model`: needs the config, runs the gate, then reports the current model
   * when no argument is given, refuses a blank name, and otherwise stores the
   * stripped name.
   */
  method SetModel(data: UserData, args: seq<string>, user: Option<int>, config: Option<ConfigData>,
                  service: Sponsor.SponsorService?, lookups: seq<Sponsor.Lookup>)
    returns (raised: Option<Exception>, gate: Option<C.Gate>, reply: Option<Reply>)
    requires data.Valid()
    modifies data
    ensures data.Valid() && data.history == old(data.history)
    ensures config.None? ==>
      raised == Some(RuntimeError(ConfigMissing)) && gate.None? && reply.None? && data.model == old(data.model)
    ensures config.Some? ==> gate == Some(EnsureSponsorMembership(user, config, service, lookups))
    ensures gate.Some? && !gate.value.allowed ==> raised.None? && reply.None? && data.model == old(data.model)
    ensures gate.Some? && gate.value.allowed && args == [] ==>
      raised.None? && reply == Some(CurrentModel(old(data.model).GetOr(config.value.defaultModel)))
      && data.model == old(data.model)
    ensures gate.Some? && gate.value.allowed && args != [] && Text.Strip(args[0]) == [] ==>
      raised == Some(UserVisibleError(ModelUsage)) && reply.None? && data.model == old(data.model)
    ensures gate.Some? && gate.value.allowed && args != [] && Text.Strip(args[0]) != [] ==>
      raised.None? && reply == Some(Said(ModelSet)) && data.model == Some(Text.Strip(args[0]))
  {
    gate, reply := None, None;
    if config.None? {
      return Some(RuntimeError(ConfigMissing)), gate, reply;
    }
    var g := EnsureSponsorMembership(user, config, service, lookups);
    gate := Some(g);
    if !g.allowed {
      return None, gate, reply;
    }
    if args == [] {
      return None, gate, Some(CurrentModel(data.model.GetOr(config.value.defaultModel)));
    }
    var model := Text.Strip(args[0]);
    if model == [] {
      return Some(UserVisibleError(ModelUsage)), gate, reply;
    }
    Text.StripIdempotent(args[0]);
    data.model := Some(model);
    return None, gate, Some(Said(ModelSet));
  }
}
