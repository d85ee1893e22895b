/** A model of the OpenAI-compatible gateway in front of a local Ollama
    inference engine: bearer-token authentication, a process-wide cache of
    model names, and the policy that resolves a requested model name against
    that cache (refresh on a miss, fall back to the first cached name,
    otherwise 404). The engine's "list" and "chat" calls are inputs. */
module Gateway {

  datatype Option<T> = None | Some(value: T)

  /** One record of the engine's model listing; only `model` is read. */
  datatype ModelInfo = ModelInfo(model: string, details: map<string, string>)

  /** A chat message: an opaque role/content mapping owned by the engine. */
  type Message = map<string, string>

  /** The engine's answer to a chat call; only `message` is read. */
  datatype EngineReply = EngineReply(message: Message, details: map<string, string>)

  /** The body of POST /v1/chat/completions, and what is sent to the engine. */
  datatype ChatRequest = ChatRequest(model: string, messages: seq<Message>)

  datatype Choice = Choice(message: Message)

  /** What an endpoint answers: a chat body, a model-list body, or an HTTP error. */
  datatype Response =
    | ChatBody(choices: seq<Choice>)
    | ModelsBody(message: string, models: seq<string>)
    | HttpError(status: nat, detail: string)

  const Forbidden: nat := 403
  const NotFound: nat := 404
  const InvalidTokenDetail := "Invalid Bearer Token"
  const NoModelsDetail := "No Ollama models available on the system."
  const CacheUpdatedMessage := "Model cache updated"

  /** The names of an engine listing, in the engine's order. */
  function ModelNames(listing: seq<ModelInfo>): (names: seq<string>)
    ensures |names| == |listing|
    ensures forall i :: 0 <= i < |listing| ==> names[i] == listing[i].model
  {
    if listing == [] then [] else [listing[0].model] + ModelNames(listing[1..])
  }

  /** A name is cached after a refresh exactly when the engine listed it. */
  lemma ModelNamesMembership(listing: seq<ModelInfo>, name: string)
    ensures name in ModelNames(listing) <==>
            exists i :: 0 <= i < |listing| && listing[i].model == name
  {
  }

  /** The first cached name, if there is one. */
  function FirstModel(cache: seq<string>): (first: Option<string>)
    ensures first.None? <==> cache == []
    ensures first.Some? ==> first.value in cache && first.value == cache[0]
  {
    if cache != [] then Some(cache[0]) else None
  }

  /** Python truthiness of an optional string: None and "" are false. */
  predicate Truthy(s: Option<string>)
    ensures Truthy(s) <==> s != None && s != Some("")
  {
    s.Some? && s.value != ""
  }

  /** verify_bearer_token: None lets the request through, otherwise the 403
      it is refused with. Only the exact configured token passes. */
  function VerifyBearerToken(credential: string, configured: string): (rejection: Option<Response>)
    ensures rejection.None? <==> credential == configured
    ensures rejection.Some? ==> rejection.value == HttpError(Forbidden, InvalidTokenDetail)
    // with a configured token, an empty credential never passes
    ensures configured != "" && credential == "" ==> rejection.Some?
  {
    if credential != configured then Some(HttpError(Forbidden, InvalidTokenDetail)) else None
  }

  /** Wraps the engine's message as the single element of `choices`. */
  function WrapReply(reply: EngineReply): (r: Response)
    ensures r.ChatBody? && |r.choices| == 1
    ensures r.choices[0].message == reply.message
  {
    ChatBody([Choice(reply.message)])
  }

  /** The name to run, or the 404 outcome. */
  datatype Resolution = Use(model: string) | NoModels

  /** The outcome of resolving one request: the resolution, the cache
      afterwards, and whether the engine's listing was consulted. */
  datatype ResolveOutcome = ResolveOutcome(resolution: Resolution, cache: seq<string>, refreshed: bool)

  /** The resolution policy of POST /v1/chat/completions, given the cache
      before the request and the listing the engine would report. */
  function Resolve(cache: seq<string>, requested: string, listing: seq<ModelInfo>): (o: ResolveOutcome)
    // a hit is used as is, without a refresh, and the cache stays
    ensures requested in cache ==> o == ResolveOutcome(Use(requested), cache, false)
    // a miss refreshes exactly once, replacing the cache wholesale
    ensures requested !in cache ==> o.refreshed && o.cache == ModelNames(listing)
    // a name the engine lists is then used as is
    ensures requested !in cache && requested in o.cache ==> o.resolution == Use(requested)
    // otherwise the engine's first name stands in, unless it is falsy
    ensures requested !in cache && requested !in o.cache ==>
              o.resolution == (if listing != [] && listing[0].model != "" then Use(listing[0].model) else NoModels)
    // a resolved name is always in the cache the engine will be asked with
    ensures o.resolution.Use? ==> o.resolution.model in o.cache
    // only the requested name itself or a substitute from the engine's head runs
    ensures o.resolution.Use? ==> o.resolution.model == requested || o.resolution.model == o.cache[0]
    // 404 exactly when the name is nowhere and no truthy substitute exists
    ensures o.resolution.NoModels? <==>
              requested !in cache && requested !in ModelNames(listing) &&
              (listing == [] || listing[0].model == "")
  {
    if requested in cache then
      ResolveOutcome(Use(requested), cache, false)
    else
      var live := ModelNames(listing);
      if requested in live then
        ResolveOutcome(Use(requested), live, true)
      else
        var substitute := FirstModel(live);
        if !Truthy(substitute) then ResolveOutcome(NoModels, live, true)
        else ResolveOutcome(Use(substitute.value), live, true)
  }

  /** On a miss the old cache plays no part: two stale caches give the same outcome. */
  lemma StaleCacheForgotten(cache1: seq<string>, cache2: seq<string>, requested: string, listing: seq<ModelInfo>)
    requires requested !in cache1 && requested !in cache2
    ensures Resolve(cache1, requested, listing) == Resolve(cache2, requested, listing)
  {
  }

  /** After a successful resolution, the same name is served from the cache
      next time, whatever the engine would then report. */
  lemma ResolvedNameIsThenAHit(cache: seq<string>, requested: string, listing: seq<ModelInfo>, later: seq<ModelInfo>)
    requires Resolve(cache, requested, listing).resolution.Use?
    ensures var o := Resolve(cache, requested, listing);
            Resolve(o.cache, o.resolution.model, later) == ResolveOutcome(o.resolution, o.cache, false)
  {
  }

  /** The gateway process: the configured token and the model cache. */
  class Server {
    const token: string
    var cache: seq<string>

    /** The token must be configured (the process refuses to start otherwise). */
    ghost predicate Valid()
      reads this
    {
      token != ""
    }

    /** Start-up: keep the configured token and populate the cache once. */
    constructor (configured: string, listing: seq<ModelInfo>)
      requires configured != ""
      ensures Valid() && token == configured
      ensures cache == ModelNames(listing)
    {
      token := configured;
      cache := ModelNames(listing);
    }

    /** update_model_cache: replace the cache with the engine's names. */
    method UpdateModelCache(listing: seq<ModelInfo>)
      requires Valid()
      modifies this
      ensures Valid() && cache == ModelNames(listing)
    {
      cache := ModelNames(listing);
    }

    /** The resolution step of chat_completions. */
    method ResolveModel(requested: string, listing: seq<ModelInfo>) returns (r: Resolution, ghost refreshed: bool)
      requires Valid()
      modifies this
      ensures Valid()
      ensures ResolveOutcome(r, cache, refreshed) == Resolve(old(cache), requested, listing)
    {
      refreshed := false;
      r := Use(requested);
      if requested !in cache {
        UpdateModelCache(listing);
        refreshed := true;
        if requested !in cache {
          var substitute := FirstModel(cache);
          if !Truthy(substitute) {
            r := NoModels;
          } else {
            r := Use(substitute.value);
          }
        }
      }
    }

    /** POST /v1/chat/completions with a bearer credential. `sent` is the
        request the engine's chat call receives, None when it is never made;
        `reply` is what the engine answers to it. */
    method ChatCompletions(credential: string, request: ChatRequest, listing: seq<ModelInfo>, reply: EngineReply)
      returns (resp: Response, sent: Option<ChatRequest>)
      requires Valid()
      modifies this
      ensures Valid()
      ensures VerifyBearerToken(credential, token).Some? ==>
                resp == HttpError(Forbidden, InvalidTokenDetail) && sent == None && cache == old(cache)
      ensures VerifyBearerToken(credential, token).None? ==>
                var o := Resolve(old(cache), request.model, listing);
                cache == o.cache &&
                match o.resolution
                case NoModels => resp == HttpError(NotFound, NoModelsDetail) && sent == None
                case Use(m) => sent == Some(ChatRequest(m, request.messages)) && resp == WrapReply(reply)
      ensures sent.Some? ==> sent.value.model in cache && sent.value.messages == request.messages
      // the configured token is never empty, so verify_bearer_token refuses an empty credential
      ensures credential == "" ==> resp == HttpError(Forbidden, InvalidTokenDetail) && sent == None
    {
      if VerifyBearerToken(credential, token).Some? {
        return HttpError(Forbidden, InvalidTokenDetail), None;
      }
      var r;
      ghost var refreshed;
      r, refreshed := ResolveModel(request.model, listing);
      match r
      case NoModels =>
        resp, sent := HttpError(NotFound, NoModelsDetail), None;
      case Use(m) =>
        sent := Some(ChatRequest(m, request.messages));
        resp := WrapReply(reply);
    }

    /** GET /v1/models/update: always refresh, then return the new cache. */
    method RefreshModels(credential: string, listing: seq<ModelInfo>) returns (resp: Response)
      requires Valid()
      modifies this
      ensures Valid()
      ensures VerifyBearerToken(credential, token).Some? ==>
                resp == HttpError(Forbidden, InvalidTokenDetail) && cache == old(cache)
      ensures VerifyBearerToken(credential, token).None? ==>
                cache == ModelNames(listing) && resp == ModelsBody(CacheUpdatedMessage, cache)
      ensures credential == "" ==> resp == HttpError(Forbidden, InvalidTokenDetail)
    {
      if VerifyBearerToken(credential, token).Some? {
        return HttpError(Forbidden, InvalidTokenDetail);
      }
      UpdateModelCache(listing);
      resp := ModelsBody(CacheUpdatedMessage, cache);
    }
  }

  /** Five request scenarios, checked against the contracts above alone. */
  method Walkthrough() {
    var noDetails: map<string, string> := map[];
    var hi: Message := map["role" := "user", "content" := "hi"];
    var answer := EngineReply(map["role" := "assistant", "content" := "hello"], noDetails);

    // the requested model is cached: the engine runs it unchanged
    var s := new Server("secret123", [ModelInfo("llama3", noDetails)]);
    var resp, sent := s.ChatCompletions("secret123", ChatRequest("llama3", [hi]), [], answer);
    assert sent == Some(ChatRequest("llama3", [hi]));
    assert resp == ChatBody([Choice(answer.message)]);

    // a wrong token is refused before anything else happens
    resp, sent := s.ChatCompletions("guess", ChatRequest("llama3", [hi]), [], answer);
    assert resp == HttpError(403, "Invalid Bearer Token") && sent == None;
    assert s.cache == ["llama3"];

    // the requested model is unknown everywhere: the engine's first model stands in
    var mistral := [ModelInfo("mistral", noDetails)];
    s := new Server("secret123", mistral);
    resp, sent := s.ChatCompletions("secret123", ChatRequest("llama3", [hi]), mistral, answer);
    assert "llama3" !in ModelNames(mistral);
    assert sent == Some(ChatRequest("mistral", [hi]));

    // an empty listing: 404, and the engine's chat is never called
    resp, sent := s.ChatCompletions("secret123", ChatRequest("llama3", [hi]), [], answer);
    assert resp == HttpError(404, "No Ollama models available on the system.") && sent == None;
    assert s.cache == [];

    // the manual refresh runs even with a populated cache
    var ab := [ModelInfo("a", noDetails), ModelInfo("b", noDetails)];
    s := new Server("secret123", [ModelInfo("a", noDetails)]);
    resp := s.RefreshModels("secret123", ab);
    assert resp == ModelsBody("Model cache updated", ["a", "b"]);
  }
}
