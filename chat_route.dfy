/**
 * The chat API route. `action` answers a chat turn: the CORS gate first, then the
 * model named in the request body is resolved against the registry and the turn is
 * handed to that model's provider with the provider's options. `loader` answers
 * everything that is not an action: preflights, refusals and 405.
 *
 * The language-model SDK is not part of this model. What `action` hands to it is a
 * `DispatchPlan`; the conversion of the chat messages and the streaming call are
 * parameters, each either succeeding or throwing.
 */
module ChatRoute {
  import opened Wrappers
  import opened Text
  import opened Cors
  import opened ModelList

  /** A thrown value: an `Error` object with its message, or anything else. */
  datatype Thrown = ErrorObject(message: string) | NonError

  /** The message the route reports for a thrown value. */
  function ThrownMessage(t: Thrown): (m: string)
    ensures t.ErrorObject? ==> m == t.message
    ensures t.NonError? ==> m == "Internal server error"
  {
    match t
    case ErrorObject(message) => message
    case NonError => "Internal server error"
  }

  /** The part of a chat request body the route reads: the optional `modelId`. */
  datatype ChatBody = ChatBody(modelId: Option<string>)

  /** `NODE_ENV` and `ALLOWED_ORIGINS`, each `None` when unset. */
  datatype Env = Env(nodeEnv: Option<string>, allowedOriginsVar: Option<string>)

  /**
   * A request: its method, its `Origin` header (`None` when absent) and its body
   * as `request.json()` gives it, or the value that parsing throws.
   */
  datatype ChatRequest = ChatRequest(requestMethod: string, origin: Option<string>, body: Result<ChatBody, Thrown>)

  /** The tools a turn may be given; the route has one, the current time. */
  datatype Tool = CurrentTime

  /**
   * What `action` hands to the SDK: the provider, the provider's own model id, the
   * tools forwarded, and the Google `thinkingConfig.includeThoughts` option
   * (`None` when no provider options are passed).
   */
  datatype DispatchPlan = DispatchPlan(provider: Provider, providerModelId: string, tools: seq<Tool>, includeThoughts: Option<bool>)

  /**
   * How `action` settles a request before any streaming: the CORS guard answers it,
   * it fails with a status and an error message, or it is dispatched to a provider.
   */
  datatype Decision = Respond(response: Response) | Fail(status: int, message: string) | Dispatch(plan: DispatchPlan)

  function CorsConfig(env: Env): Config
  {
    DefaultConfig(env.allowedOriginsVar)
  }

  /** `modelId || defaultModelId`: a missing or empty id falls back to the default. */
  function SelectedModelId(modelId: Option<string>): (id: string)
    ensures id != ""
    ensures modelId.Some? && modelId.value != "" ==> id == modelId.value
    ensures modelId == None || modelId == Some("") ==> id == DefaultModelId
  {
    if modelId.Some? && modelId.value != "" then modelId.value else DefaultModelId
  }

  /**
   * The provider switch: OpenAI gets the tools, Google the tools and
   * `includeThoughts: true`, Anthropic neither; any other provider is unsupported.
   * The model is always addressed by its provider id.
   */
  function PlanFor(m: ModelConfig): (r: Result<DispatchPlan, string>)
    ensures r.Success? <==> m.provider != Mistral
    ensures r.Success? ==> r.value.provider == m.provider && r.value.providerModelId == m.modelId
    ensures r.Success? ==> (r.value.tools == [CurrentTime] <==> m.provider != Anthropic)
    ensures r.Success? ==> (r.value.tools == [] <==> m.provider == Anthropic)
    ensures r.Success? ==> (r.value.includeThoughts == Some(true) <==> m.provider == Google)
    ensures r.Success? ==> (r.value.includeThoughts == None <==> m.provider != Google)
    ensures r.Failure? ==> r.error == "Unsupported provider: " + ProviderKey(m.provider)
  {
    match m.provider
    case OpenAI => Success(DispatchPlan(OpenAI, m.modelId, [CurrentTime], None))
    case Google => Success(DispatchPlan(Google, m.modelId, [CurrentTime], Some(true)))
    case Anthropic => Success(DispatchPlan(Anthropic, m.modelId, [], None))
    case Mistral => Failure("Unsupported provider: " + ProviderKey(m.provider))
  }

  /**
   * How `action` settles a request the CORS guard lets through: a body that does not
   * parse fails with 500; an unknown model with 400 before the messages are
   * converted; a conversion that throws with 500; then the provider switch decides.
   */
  function Resolve(body: Result<ChatBody, Thrown>, conversion: Option<Thrown>): (d: Decision)
    ensures !d.Respond?
    ensures d.Fail? ==> d.status == 400 || d.status == 500
    ensures d.Dispatch? ==>
      && body.Success? && conversion.None?
      && Find(Models, SelectedModelId(body.value.modelId)) ==
        Some(ModelConfig(SelectedModelId(body.value.modelId), d.plan.provider, d.plan.providerModelId))
    ensures d.Dispatch? ==> PlanFor(Find(Models, SelectedModelId(body.value.modelId)).value) == Success(d.plan)
  {
    match body
    case Failure(t) => Fail(500, ThrownMessage(t))
    case Success(b) =>
      var id := SelectedModelId(b.modelId);
      FindFound(Models, id);
      match Find(Models, id)
      case None => Fail(400, "Model " + id + " not found")
      case Some(m) =>
        if conversion.Some? then Fail(500, ThrownMessage(conversion.value))
        else
          match PlanFor(m)
          case Failure(message) => Fail(400, message)
          case Success(plan) => Dispatch(plan)
  }

  /**
   * The decision `action` takes, given whether converting the messages throws: the
   * CORS guard answers first, and only a request it lets through is resolved.
   */
  function Decide(env: Env, req: ChatRequest, conversion: Option<Thrown>): (d: Decision)
    ensures !IsOriginAllowed(req.origin, CorsConfig(env), env.nodeEnv) ==> d == Respond(ForbiddenResponse())
    ensures IsOriginAllowed(req.origin, CorsConfig(env), env.nodeEnv) && req.requestMethod == "OPTIONS" ==>
      d == Respond(PreflightResponse(req.origin, CorsConfig(env), env.nodeEnv))
    ensures IsOriginAllowed(req.origin, CorsConfig(env), env.nodeEnv) && req.requestMethod != "OPTIONS" ==>
      d == Resolve(req.body, conversion)
  {
    match HandleCORS(req.origin, req.requestMethod, CorsConfig(env), env.nodeEnv)
    case Some(response) => Respond(response)
    case None => Resolve(req.body, conversion)
  }

  /** An entry `Find` returns carries the id looked for and is an entry of the list. */
  lemma FindFound(list: seq<ModelConfig>, id: string)
    ensures Find(list, id).Some? ==> Find(list, id).value.id == id && Find(list, id).value in list
  {
  }

  /** The response `action` returns, given the conversion outcome and the streaming call. */
  function ActionResponse(env: Env, req: ChatRequest, conversion: Option<Thrown>, stream: DispatchPlan -> Result<Response, Thrown>)
    : Response
  {
    var origin := Given(req.origin);
    match Decide(env, req, conversion)
    case Respond(response) => response
    case Fail(status, message) => ErrorResponse(message, Some(status), origin, CorsConfig(env), env.nodeEnv)
    case Dispatch(plan) =>
      match stream(plan)
      case Success(response) => WithCORS(response, origin, CorsConfig(env), env.nodeEnv)
      case Failure(t) => ErrorResponse(ThrownMessage(t), Some(500), origin, CorsConfig(env), env.nodeEnv)
  }

  /**
   * `action`: early returns for the CORS answer, the unparsable body, the unknown
   * model and the failed conversion, then the provider switch assigns the call and
   * its result gets the CORS headers. `called` is the plan handed to the SDK, if any.
   */
  method Action(env: Env, req: ChatRequest, conversion: Option<Thrown>, stream: DispatchPlan -> Result<Response, Thrown>)
    returns (r: Response, called: Option<DispatchPlan>)
    ensures r == ActionResponse(env, req, conversion, stream)
    ensures called == (var d := Decide(env, req, conversion); if d.Dispatch? then Some(d.plan) else None)
  {
    var config := DefaultConfig(env.allowedOriginsVar);
    var origin := req.origin;
    ghost var d := Decide(env, req, conversion);
    called := None;
    var corsResponse := HandleCORS(origin, req.requestMethod, config, env.nodeEnv);
    if corsResponse.Some? {
      r := corsResponse.value;
      return;
    }
    assert d == Resolve(req.body, conversion);
    if req.body.Failure? {
      r := CreateCORSErrorResponse(ThrownMessage(req.body.error), Some(500), Given(origin), config, env.nodeEnv);
      return;
    }
    var modelId := req.body.value.modelId;
    var selectedModelId := if modelId.Some? && modelId.value != "" then modelId.value else DefaultModelId;
    var modelConfig := Find(Models, selectedModelId);
    if modelConfig.None? {
      assert d == Fail(400, "Model " + selectedModelId + " not found");
      r := CreateCORSErrorResponse("Model " + selectedModelId + " not found", Some(400), Given(origin), config, env.nodeEnv);
      return;
    }
    if conversion.Some? {
      assert d == Fail(500, ThrownMessage(conversion.value));
      r := CreateCORSErrorResponse(ThrownMessage(conversion.value), Some(500), Given(origin), config, env.nodeEnv);
      return;
    }
    var m := modelConfig.value;
    match m.provider {
      case OpenAI =>
        called := Some(DispatchPlan(OpenAI, m.modelId, [CurrentTime], None));
      case Google =>
        called := Some(DispatchPlan(Google, m.modelId, [CurrentTime], Some(true)));
      case Anthropic =>
        called := Some(DispatchPlan(Anthropic, m.modelId, [], None));
      case Mistral =>
        assert d == Fail(400, "Unsupported provider: " + ProviderKey(m.provider));
        r := CreateCORSErrorResponse("Unsupported provider: " + ProviderKey(m.provider), Some(400), Given(origin), config, env.nodeEnv);
        return;
    }
    assert d == Dispatch(called.value);
    var streamResult := stream(called.value);
    match streamResult {
      case Success(response) =>
        r := AddCORSHeaders(response, Given(origin), config, env.nodeEnv);
      case Failure(t) =>
        r := CreateCORSErrorResponse(ThrownMessage(t), Some(500), Given(origin), config, env.nodeEnv);
    }
  }

  /**
   * `loader`: the CORS guard's answer when it has one (403 or 204), otherwise 405
   * "Method not allowed" with the CORS headers.
   */
  function Loader(env: Env, req: ChatRequest): (r: Response)
    ensures r.status == 403 || r.status == 204 || r.status == 405
    ensures r.status == 405 <==> IsOriginAllowed(req.origin, CorsConfig(env), env.nodeEnv) && req.requestMethod != "OPTIONS"
    ensures r.status == 403 <==> !IsOriginAllowed(req.origin, CorsConfig(env), env.nodeEnv)
    ensures r.status == 405 ==> r.body == Text(ErrorBody("Method not allowed"))
    ensures !IsOriginAllowed(req.origin, CorsConfig(env), env.nodeEnv) ==> r == ForbiddenResponse()
    ensures IsOriginAllowed(req.origin, CorsConfig(env), env.nodeEnv) && req.requestMethod == "OPTIONS" ==>
      r == PreflightResponse(req.origin, CorsConfig(env), env.nodeEnv)
    ensures IsOriginAllowed(req.origin, CorsConfig(env), env.nodeEnv) && req.requestMethod != "OPTIONS" ==>
      r == ErrorResponse("Method not allowed", Some(405), Given(req.origin), CorsConfig(env), env.nodeEnv)
  {
    var config := CorsConfig(env);
    var cors := HandleCORS(req.origin, req.requestMethod, config, env.nodeEnv);
    if cors.Some? then cors.value
    else ErrorResponse("Method not allowed", Some(405), Given(req.origin), config, env.nodeEnv)
  }

  // ---------------------------------------------------------------------------
  // Properties of the route

  /** A refused origin gets the 403 answer whatever the body, the model and the SDK do. */
  lemma RefusedBeforeParsing(env: Env, req: ChatRequest, conversion: Option<Thrown>, stream: DispatchPlan -> Result<Response, Thrown>)
    requires !IsOriginAllowed(req.origin, CorsConfig(env), env.nodeEnv)
    ensures Decide(env, req, conversion) == Respond(ForbiddenResponse())
    ensures ActionResponse(env, req, conversion, stream) == ForbiddenResponse()
  {
  }

  /** A body that does not parse, or a conversion that throws, is reported as a 500 with its message. */
  lemma ThrownIs500(env: Env, req: ChatRequest, conversion: Option<Thrown>)
    requires HandleCORS(req.origin, req.requestMethod, CorsConfig(env), env.nodeEnv).None?
    ensures req.body.Failure? ==> Decide(env, req, conversion) == Fail(500, ThrownMessage(req.body.error))
    ensures req.body.Success? && Find(Models, SelectedModelId(req.body.value.modelId)).Some? && conversion.Some? ==>
      Decide(env, req, conversion) == Fail(500, ThrownMessage(conversion.value))
  {
  }

  /** A request naming no model, or the empty id, is served by the default Google model. */
  lemma MissingModelUsesDefault(env: Env, req: ChatRequest)
    requires HandleCORS(req.origin, req.requestMethod, CorsConfig(env), env.nodeEnv).None?
    requires req.body == Success(ChatBody(None)) || req.body == Success(ChatBody(Some("")))
    ensures Decide(env, req, None) == Dispatch(DispatchPlan(Google, "gemini-2.5-flash", [CurrentTime], Some(true)))
  {
    DefaultRegistered();
  }

  /** A registered id reaches its own provider under its provider id. */
  lemma RegisteredModelDispatched(env: Env, req: ChatRequest, i: nat)
    requires HandleCORS(req.origin, req.requestMethod, CorsConfig(env), env.nodeEnv).None?
    requires i < |Models| && req.body == Success(ChatBody(Some(Models[i].id)))
    ensures Decide(env, req, None).Dispatch?
    ensures Decide(env, req, None).plan.provider == Models[i].provider
    ensures Decide(env, req, None).plan.providerModelId == Models[i].modelId
    ensures PlanFor(Models[i]) == Success(Decide(env, req, None).plan)
  {
    RegistryIdsDistinct();
    FindEntry(Models, i);
    assert Models[i].id != "";
  }

  /**
   * Two ids are served under a different provider id: `gpt-4.1` by `gpt-4-turbo` with
   * the tools, `claude-4.0-sonnet` by `claude-4-sonnet-20240229` without them.
   */
  lemma RenamedModelsDispatched()
    ensures Resolve(Success(ChatBody(Some("gpt-4.1"))), None) ==
      Dispatch(DispatchPlan(OpenAI, "gpt-4-turbo", [CurrentTime], None))
    ensures Resolve(Success(ChatBody(Some("claude-4.0-sonnet"))), None) ==
      Dispatch(DispatchPlan(Anthropic, "claude-4-sonnet-20240229", [], None))
  {
    RegistryIdsDistinct();
    FindEntry(Models, 1);
    FindEntry(Models, 4);
  }

  /**
   * Every registered provider is supported, so with the registry as it stands a 400
   * from `action` always means an unknown model id.
   */
  lemma OnlyUnknownModelIs400(body: Result<ChatBody, Thrown>, conversion: Option<Thrown>)
    ensures var d := Resolve(body, conversion);
      d.Fail? && d.status == 400 ==>
        body.Success? && Find(Models, SelectedModelId(body.value.modelId)).None?
        && d.message == "Model " + SelectedModelId(body.value.modelId) + " not found"
  {
    if body.Success? {
      FindFound(Models, SelectedModelId(body.value.modelId));
    }
  }

  /** The JSON error body of an unknown model carries its message unescaped. */
  lemma UnknownModelBody()
    ensures ErrorBody("Model unknown-model not found") == ErrorPrefix + "Model unknown-model not found" + ErrorSuffix
  {
    JsonEscapePlain("Model unknown-model not found");
  }

  /**
   * An id the registry does not hold fails with 400 and a message naming it, whatever
   * the conversion would have done: the lookup comes first.
   */
  lemma UnknownModelRejected(id: string, conversion: Option<Thrown>)
    requires id != "" && forall i :: 0 <= i < |Models| ==> Models[i].id != id
    ensures Resolve(Success(ChatBody(Some(id))), conversion) == Fail(400, "Model " + id + " not found")
  {
  }

  /** `unknown-model` is not a registry id. */
  lemma UnknownModelUnregistered()
    ensures forall i :: 0 <= i < |Models| ==> Models[i].id != "unknown-model"
  {
    assert forall i :: 0 <= i < |Models| ==> Models[i].id[0] != 'u';
  }

  /**
   * A request the CORS guard lets through whose body names an unregistered id is
   * answered with the 400 JSON error naming it; the SDK is never called.
   */
  lemma UnknownModelResponse(env: Env, req: ChatRequest, stream: DispatchPlan -> Result<Response, Thrown>)
    requires HandleCORS(req.origin, req.requestMethod, CorsConfig(env), env.nodeEnv).None?
    requires req.body.Success? && req.body.value.modelId.Some? && req.body.value.modelId.value != ""
    requires forall i :: 0 <= i < |Models| ==> Models[i].id != req.body.value.modelId.value
    ensures var message := "Model " + req.body.value.modelId.value + " not found";
      && ActionResponse(env, req, None, stream) == ErrorResponse(message, Some(400), Given(req.origin), CorsConfig(env), env.nodeEnv)
      && ActionResponse(env, req, None, stream).status == 400
      && ParseErrorBody(ActionResponse(env, req, None, stream).body.text) == Some(message)
  {
    UnknownModelRejected(req.body.value.modelId.value, None);
  }

  /** Loader: a preflight from an allowed origin is 204, any other method from it 405. */
  lemma LoaderOutcomes(env: Env, origin: Option<string>, body: Result<ChatBody, Thrown>)
    requires IsOriginAllowed(origin, CorsConfig(env), env.nodeEnv)
    ensures Loader(env, ChatRequest("OPTIONS", origin, body)).status == 204
    ensures Loader(env, ChatRequest("GET", origin, body)).status == 405
  {
  }
}
