/**
 * xilma/llm_client.py: the router in front of the providers. It resolves the
 * provider and model, calls the primary provider, and on a `ProviderError`
 * makes at most one call to the configured fallback. The outcomes of the two
 * possible provider calls are inputs.
 */
module LlmClient {
  import opened Wrappers
  import opened Errors
  import opened Upstream
  import AvalAI

  /** Python's `value or default` on an optional string: `None` and `""` are falsy. */
  function OrElse(value: Option<string>, default: string): (r: string)
    ensures value.Some? && value.value != "" ==> r == value.value
    ensures value.None? || value.value == "" ==> r == default
  {
    if value.Some? && value.value != "" then value.value else default
  }

  predicate Truthy(value: Option<string>) {
    value.Some? && value.value != ""
  }

  /** One provider call: which provider, with which model. */
  datatype Call = Call(provider: string, model: string)

  /** The router's result and the provider calls it made, in order. */
  datatype Routed = Routed(result: Result<ChatReply, Exception>, calls: seq<Call>)

  /** The routing configuration, fixed at construction. */
  datatype Routing = Routing(
    registered: set<string>,
    defaultProvider: string,
    defaultModel: string,
    fallbackProvider: Option<string>,
    fallbackModel: Option<string>)

  /** The fallback call a failed primary call leads to, if any. */
  function FallbackCall(cfg: Routing, primary: Call): Option<Call> {
    if Truthy(cfg.fallbackProvider) || Truthy(cfg.fallbackModel) then
      var c := Call(OrElse(cfg.fallbackProvider, primary.provider), OrElse(cfg.fallbackModel, primary.model));
      if c.provider in cfg.registered then Some(c) else None
    else None
  }

  /**
   * `generate_response`: `primary` is what the first provider call returns or
   * raises, `fallback` what the fallback call would.
   */
  function Route(cfg: Routing, model: Option<string>, provider: Option<string>,
                 primary: Result<ChatReply, Exception>, fallback: Result<ChatReply, Exception>): Routed
  {
    var first := Call(OrElse(provider, cfg.defaultProvider), OrElse(model, cfg.defaultModel));
    if first.provider !in cfg.registered then
      Routed(Err(ProviderError(UnknownProvider(first.provider), None)), [])
    else if primary.Ok? || !primary.error.ProviderError? then Routed(primary, [first])
    else
      match FallbackCall(cfg, first)
      case Some(second) => Routed(fallback, [first, second])
      case None => Routed(primary, [first])
  }

  /**
   * The router makes at most two calls: none for an unregistered provider, which
   * raises "Unknown provider"; the first with the explicit provider and model when
   * truthy, else the defaults; a second only after a `ProviderError`, and then its
   * outcome is final. Otherwise the primary's outcome is returned unchanged.
   */
  lemma RouteMeaning(cfg: Routing, model: Option<string>, provider: Option<string>,
                     primary: Result<ChatReply, Exception>, fallback: Result<ChatReply, Exception>)
    ensures var r := Route(cfg, model, provider, primary, fallback);
      var name := OrElse(provider, cfg.defaultProvider);
      && |r.calls| <= 2
      && (name !in cfg.registered <==> r.calls == [])
      && (name !in cfg.registered ==> r.result == Err(ProviderError(UnknownProvider(name), None)))
      && (|r.calls| >= 1 ==> r.calls[0] == Call(name, OrElse(model, cfg.defaultModel)))
      && (forall c :: c in r.calls ==> c.provider in cfg.registered)
      && (|r.calls| == 2 <==> name in cfg.registered && primary.Err? && primary.error.ProviderError?
                              && FallbackCall(cfg, r.calls[0]).Some?)
      && (|r.calls| == 2 ==> r.calls[1] == FallbackCall(cfg, r.calls[0]).value && r.result == fallback)
      && (|r.calls| == 1 ==> r.result == primary)
  {
  }

  /** The fallback substitutes only the half that is configured. */
  lemma FallbackSubstitutes(cfg: Routing, primary: Call)
    requires Truthy(cfg.fallbackProvider) || Truthy(cfg.fallbackModel)
    ensures var p := OrElse(cfg.fallbackProvider, primary.provider);
      FallbackCall(cfg, primary) == (if p in cfg.registered then Some(Call(p, OrElse(cfg.fallbackModel, primary.model))) else None)
    ensures !Truthy(cfg.fallbackProvider) ==> (FallbackCall(cfg, primary).Some? <==> primary.provider in cfg.registered)
    ensures !Truthy(cfg.fallbackModel) && FallbackCall(cfg, primary).Some? ==> FallbackCall(cfg, primary).value.model == primary.model
  {
  }

  /** Without a fallback configured a `ProviderError` is re-raised after the one call. */
  lemma NoFallbackReraises(cfg: Routing, model: Option<string>, provider: Option<string>,
                           primary: Result<ChatReply, Exception>, fallback: Result<ChatReply, Exception>)
    requires !Truthy(cfg.fallbackProvider) && !Truthy(cfg.fallbackModel)
    requires OrElse(provider, cfg.defaultProvider) in cfg.registered
    ensures Route(cfg, model, provider, primary, fallback).result == primary
    ensures |Route(cfg, model, provider, primary, fallback).calls| == 1
  {
  }

  /** A failing primary and a configured, registered fallback: exactly two calls, and the fallback's failure is final. */
  lemma FallbackFailureIsFinal(cfg: Routing, model: Option<string>, provider: Option<string>, e1: Exception, e2: Exception)
    requires e1.ProviderError?
    requires OrElse(provider, cfg.defaultProvider) in cfg.registered
    requires FallbackCall(cfg, Call(OrElse(provider, cfg.defaultProvider), OrElse(model, cfg.defaultModel))).Some?
    ensures Route(cfg, model, provider, Err(e1), Err(e2)).result == Err(e2)
    ensures |Route(cfg, model, provider, Err(e1), Err(e2)).calls| == 2
  {
  }

  /** `LLMClient`: the registered providers in registration order, and the routing defaults. */
  class LLMClient {
    const names: seq<string>
    const providers: map<string, AvalAI.AvalAIProvider>
    const defaultProvider: string
    const defaultModel: string
    const fallbackProvider: Option<string>
    const fallbackModel: Option<string>

    /** Every registered name appears once in the order. */
    ghost predicate Valid() {
      (forall i, j :: 0 <= i < j < |names| ==> names[i] != names[j])
      && (forall n :: n in providers <==> n in names)
    }

    function Config(): Routing {
      Routing(providers.Keys, defaultProvider, defaultModel, fallbackProvider, fallbackModel)
    }

    constructor(names: seq<string>, providers: map<string, AvalAI.AvalAIProvider>, defaultProvider: string,
                defaultModel: string, fallbackProvider: Option<string>, fallbackModel: Option<string>)
      requires forall i, j :: 0 <= i < j < |names| ==> names[i] != names[j]
      requires forall n :: n in providers <==> n in names
      ensures Valid()
      ensures this.names == names && this.providers == providers
      ensures Config() == Routing(providers.Keys, defaultProvider, defaultModel, fallbackProvider, fallbackModel)
    {
      this.names := names;
      this.providers := providers;
      this.defaultProvider := defaultProvider;
      this.defaultModel := defaultModel;
      this.fallbackProvider := fallbackProvider;
      this.fallbackModel := fallbackModel;
    }

    ghost function Providers(): set<AvalAI.AvalAIProvider> {
      set n | n in providers :: providers[n]
    }

    /** `generate_response` on this client's configuration. */
    function GenerateResponse(model: Option<string>, provider: Option<string>,
                              primary: Result<ChatReply, Exception>, fallback: Result<ChatReply, Exception>): (r: Routed)
      ensures |r.calls| <= 2 && forall c :: c in r.calls ==> c.provider in providers
    {
      RouteMeaning(Config(), model, provider, primary, fallback);
      Route(Config(), model, provider, primary, fallback)
    }

    /** `start`: starts every registered provider; an open session is kept. */
    method Start()
      requires Valid()
      modifies Providers()
      ensures forall n :: n in providers ==> providers[n].session != null
      ensures forall n :: n in providers && old(providers[n].session) != null ==> providers[n].session == old(providers[n].session)
    {
      for i := 0 to |names|
        invariant forall j :: 0 <= j < i ==> providers[names[j]].session != null
        invariant forall n :: n in providers && old(providers[n].session) != null ==> providers[n].session == old(providers[n].session)
      {
        providers[names[i]].Start();
      }
    }

    /** `close`: closes every registered provider. */
    method Close()
      requires Valid()
      modifies Providers(), set n | n in providers :: providers[n].session
      ensures forall n :: n in providers ==> providers[n].session == null
      ensures forall n :: n in providers && old(providers[n].session) != null ==> old(providers[n].session).closed
    {
      for i := 0 to |names|
        invariant forall j :: 0 <= j < i ==> providers[names[j]].session == null
        invariant forall n :: n in providers && providers[n].session == null && old(providers[n].session) != null ==> old(providers[n].session).closed
        invariant forall n :: n in providers ==> providers[n].session == null || providers[n].session == old(providers[n].session)
      {
        var p := providers[names[i]];
        p.Close();
      }
    }
  }
}
