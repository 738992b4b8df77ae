/** `chat_completion` (ai_bridge.py): merge the stored context ahead of the
    new messages, resolve the provider, call its adapter, look up the reply,
    record the turn, answer. The adapter call itself is a parameter `call`
    that maps the provider name and the messages sent to what came back. */
module Router {
  import opened Wrappers
  import opened Json
  import opened Messages
  import opened ContextStore
  import opened Registry
  import opened Adapters

  /** `ChatRequest`; `temperature` and `max_tokens` as validated values. */
  datatype ChatRequest = ChatRequest(
    messages: seq<Message>,
    model: Option<string>,
    provider: Option<string>,
    temperature: Option<real>,
    maxTokens: Option<int>,
    stream: Option<bool>,
    contextId: Option<string>)

  /** The field constraints of `ChatRequest`: a temperature, when given, lies
      in [0, 2]; a token limit, when given, is at least 1. */
  predicate ValidRequest(req: ChatRequest) {
    && (req.temperature.Some? ==> 0.0 <= req.temperature.value <= 2.0)
    && (req.maxTokens.Some? ==> req.maxTokens.value >= 1)
  }

  /** `AIResponse`. */
  datatype AIResponse = AIResponse(
    content: string,
    model: string,
    provider: string,
    usage: Option<Json>,
    contextId: Option<string>)

  /** What an adapter call ended in: the provider's decoded JSON reply, or the
      `HTTPException(status, detail)` the adapter raised. */
  datatype Upstream = Replied(body: Json) | Failed(status: int, detail: string)

  /** The exception raised inside the `try` block of `chat_completion`. */
  datatype Cause =
    | UpstreamError(status: int, detail: string)  // raised by the adapter
    | UnknownProvider(name: string)               // the HTTPException(400) of the final `else`
    | MalformedReply                              // a failed reply lookup
    | InvalidResponse                             // `AIResponse(...)` rejected the usage

  /** What the caller of the endpoint sees fail. */
  datatype ChatError =
    | InvalidRequest          // the request body failed the field constraints
    | NoProviderAvailable     // auto-selection found nothing
    | ServiceError(cause: Cause)  // anything raised inside the `try`, rewrapped

  /** The HTTP status of each failure. */
  function Status(e: ChatError): int {
    match e
    case InvalidRequest => 422
    case NoProviderAvailable => 503
    case ServiceError(_) => 500
  }

  /** The detail text of a failure where the code fixes it: only the 503's.
      The 500's detail embeds `str(e)` and the 422's is the framework's
      validation report, so neither is modelled. */
  function Detail(e: ChatError): Option<string> {
    match e
    case NoProviderAvailable => Some("No AI providers available")
    case _ => None
  }

  /** `if request.context_id:`. */
  predicate UsesContext(req: ChatRequest) {
    TruthyStr(req.contextId)
  }

  /** `request.messages` after line 255: the stored context, then the new messages. */
  function Merged(contexts: map<string, seq<Message>>, req: ChatRequest): seq<Message> {
    if UsesContext(req) then Lookup(contexts, req.contextId.value) + req.messages else req.messages
  }

  /** The provider named in the request if that name is truthy, else the
      auto-selected one; failing only when auto-selection finds nothing. */
  function ResolveProvider(env: Env, req: ChatRequest): Result<string, ChatError> {
    if TruthyStr(req.provider) then Ok(req.provider.value)
    else
      var auto := AutoSelect(env);
      if auto.Some? then Ok(auto.value) else Err(NoProviderAvailable)
  }

  /** The reply lookup of the selected provider. */
  function Extract(provider: string, body: Json): Option<Extracted>
    requires provider in KnownProviders
  {
    if provider == "openai" then ExtractOpenAI(body)
    else if provider == "ollama" then ExtractOllama(body)
    else ExtractAnthropic(body)
  }

  /** The usage `AIResponse` accepts (`Optional[Dict[str, int]]`). */
  predicate ValidUsage(usage: Option<Json>) {
    usage.None? || (usage.value.JObj? && forall k :: k in usage.value.fields ==> usage.value.fields[k].JInt?)
  }

  /** `request.model or MODEL_CONFIG[provider]["default"]`. */
  function ResponseModel(req: ChatRequest, provider: string): string
    requires provider in KnownProviders
  {
    if TruthyStr(req.model) then req.model.value else DefaultModel(provider)
  }

  /** The outcome of one completion and the context map it leaves behind. */
  datatype Turn = Turn(result: Result<AIResponse, ChatError>, contexts: map<string, seq<Message>>)

  /** `chat_completion`, step by step as the code takes them. */
  function Complete(env: Env, contexts: map<string, seq<Message>>, req: ChatRequest,
                    call: (string, seq<Message>) -> Upstream): Turn
  {
    var sent := Merged(contexts, req);
    match ResolveProvider(env, req)
    case Err(e) => Turn(Err(e), contexts)
    case Ok(p) =>
      if p !in KnownProviders then Turn(Err(ServiceError(UnknownProvider(p))), contexts)
      else
        match call(p, sent)
        case Failed(status, detail) => Turn(Err(ServiceError(UpstreamError(status, detail))), contexts)
        case Replied(body) =>
          var x := Extract(p, body);
          if x.None? then Turn(Err(ServiceError(MalformedReply)), contexts)
          else
            var after := if UsesContext(req)
                         then Updated(contexts, req.contextId.value, sent + [Assistant(x.value.content)])
                         else contexts;
            if !ValidUsage(x.value.usage) then Turn(Err(ServiceError(InvalidResponse)), after)
            else Turn(Ok(AIResponse(x.value.content, ResponseModel(req, p), p, x.value.usage, req.contextId)), after)
  }

  /** `POST /chat`: the body is validated before `chat_completion` runs. */
  function HandleChat(env: Env, contexts: map<string, seq<Message>>, req: ChatRequest,
                      call: (string, seq<Message>) -> Upstream): Turn
  {
    if !ValidRequest(req) then Turn(Err(InvalidRequest), contexts) else Complete(env, contexts, req, call)
  }

  // ---------------------------------------------------------------- lemmas

  /** Provider resolution: a truthy requested name is used verbatim, known or
      not; otherwise the auto-selection chain decides, and when it finds
      nothing the answer is the 503. */
  lemma ResolveProviderSpec(env: Env, req: ChatRequest)
    ensures TruthyStr(req.provider) ==> ResolveProvider(env, req) == Ok(req.provider.value)
    ensures !TruthyStr(req.provider) && AutoSelect(env).Some? ==> ResolveProvider(env, req) == Ok(AutoSelect(env).value)
    ensures ResolveProvider(env, req).Err? <==> !TruthyStr(req.provider) && AutoSelect(env).None?
    ensures ResolveProvider(env, req).Err? ==> Status(ResolveProvider(env, req).error) == 503
    ensures ResolveProvider(env, req).Err? ==> Detail(ResolveProvider(env, req).error) == Some("No AI providers available")
  {
  }

  /** A non-empty provider name outside the three is rejected inside the
      `try`, so the caller sees a 500 "AI service error", not a 400; no
      provider is contacted and no context changes. */
  lemma UnknownProviderIs500(env: Env, contexts: map<string, seq<Message>>, req: ChatRequest,
                             call: (string, seq<Message>) -> Upstream)
    requires TruthyStr(req.provider) && req.provider.value !in KnownProviders
    ensures Complete(env, contexts, req, call) == Turn(Err(ServiceError(UnknownProvider(req.provider.value))), contexts)
    ensures Status(Complete(env, contexts, req, call).result.error) == 500
  {
  }

  /** An invalid request is refused before anything else: whatever the
      providers would answer, the result and the contexts are the same. */
  lemma InvalidRequestContactsNoProvider(env: Env, contexts: map<string, seq<Message>>, req: ChatRequest,
                                         call1: (string, seq<Message>) -> Upstream,
                                         call2: (string, seq<Message>) -> Upstream)
    requires !ValidRequest(req)
    ensures HandleChat(env, contexts, req, call1) == HandleChat(env, contexts, req, call2)
    ensures HandleChat(env, contexts, req, call1) == Turn(Err(InvalidRequest), contexts)
  {
  }

  /** A temperature of 3.5 is refused with no provider contacted. */
  lemma HotTemperatureRefused(env: Env, contexts: map<string, seq<Message>>, msgs: seq<Message>,
                              call: (string, seq<Message>) -> Upstream)
    ensures HandleChat(env, contexts, ChatRequest(msgs, None, None, Some(3.5), None, None, None), call)
            == Turn(Err(InvalidRequest), contexts)
  {
  }

  /** The context is written only once a reply has been looked up: every
      failure before that point (no provider, unknown provider, adapter
      error, malformed reply) leaves every context as it was. */
  lemma FailureLeavesContexts(env: Env, contexts: map<string, seq<Message>>, req: ChatRequest,
                              call: (string, seq<Message>) -> Upstream)
    ensures var t := Complete(env, contexts, req, call);
      t.result.Err? && t.result.error != ServiceError(InvalidResponse) ==> t.contexts == contexts
    ensures var t := Complete(env, contexts, req, call);
      t.contexts != contexts ==> UsesContext(req) && (t.result.Ok? || t.result.error == ServiceError(InvalidResponse))
  {
  }

  /** A successful answer is what the selected provider replied to the merged
      messages (stored context first, then the new ones): its text and usage
      are the reply's, its provider the resolved one, its model the
      requested one if truthy and else that provider's default, and its
      context id the request's. */
  lemma SuccessSpec(env: Env, contexts: map<string, seq<Message>>, req: ChatRequest,
                    call: (string, seq<Message>) -> Upstream)
    requires Complete(env, contexts, req, call).result.Ok?
    ensures var r := Complete(env, contexts, req, call).result.value;
      && ResolveProvider(env, req) == Ok(r.provider)
      && r.provider in KnownProviders
      && call(r.provider, Merged(contexts, req)).Replied?
      && Extract(r.provider, call(r.provider, Merged(contexts, req)).body) == Some(Extracted(r.content, r.usage))
      && ValidUsage(r.usage)
      && r.model == (if TruthyStr(req.model) then req.model.value else DefaultModel(r.provider))
      && r.contextId == req.contextId
  {
  }

  /** What a successful turn records: with a context id, the new history is
      the window of the stored history, then the WHOLE merged list sent (the
      stored history again, then the new messages), then the assistant's
      reply, so prior context is re-appended every turn; other ids and
      requests without a context id leave the map as it was. */
  lemma SuccessContext(env: Env, contexts: map<string, seq<Message>>, req: ChatRequest,
                       call: (string, seq<Message>) -> Upstream, other: string)
    requires Complete(env, contexts, req, call).result.Ok?
    ensures var t := Complete(env, contexts, req, call);
      && (!UsesContext(req) ==> t.contexts == contexts)
      && (UsesContext(req) ==>
            var stored := Lookup(contexts, req.contextId.value);
            && Lookup(t.contexts, req.contextId.value)
               == Window(stored + (stored + req.messages) + [Assistant(t.result.value.content)])
            && (other != req.contextId.value ==> Lookup(t.contexts, other) == Lookup(contexts, other)))
  {
    if UsesContext(req) {
      var stored := Lookup(contexts, req.contextId.value);
      assert stored + ((stored + req.messages) + [Assistant(Complete(env, contexts, req, call).result.value.content)])
          == stored + (stored + req.messages) + [Assistant(Complete(env, contexts, req, call).result.value.content)];
    }
  }

  /** Completions never break the retention bound. */
  lemma CompleteKeepsBound(env: Env, contexts: map<string, seq<Message>>, req: ChatRequest,
                           call: (string, seq<Message>) -> Upstream)
    requires Bounded(contexts)
    ensures Bounded(Complete(env, contexts, req, call).contexts)
  {
    var t := Complete(env, contexts, req, call);
    if t.contexts != contexts {
      var sent := Merged(contexts, req);
      var p := ResolveProvider(env, req).value;
      UpdatedSpec(contexts, req.contextId.value, sent + [Assistant(Extract(p, call(p, sent).body).value.content)], "");
    }
  }

  /** A reply whose usage `AIResponse` rejects (say an OpenAI usage holding a
      nested object) fails with a 500, yet the turn has already been
      recorded: the context write precedes the response construction. */
  lemma RejectedUsageStillRecorded(env: Env, contexts: map<string, seq<Message>>, user: Message,
                                   content: string)
    requires TruthyStr(env.openaiKey)
    ensures var usage := JObj(map["prompt_tokens_details" := JObj(map["cached_tokens" := JInt(0)])]);
      var call := (p: string, ms: seq<Message>) => Replied(OpenAIReply(content, Some(usage)));
      var req := ChatRequest([user], None, None, None, None, None, Some("s"));
      var t := Complete(env, contexts, req, call);
      && t.result == Err(ServiceError(InvalidResponse))
      && Lookup(t.contexts, "s") == Window(Lookup(contexts, "s") + (Lookup(contexts, "s") + [user]) + [Assistant(content)])
  {
    var usage := JObj(map["prompt_tokens_details" := JObj(map["cached_tokens" := JInt(0)])]);
    ExtractWellFormed(content, Some(usage));
    assert !ValidUsage(Some(usage)) by {
      assert "prompt_tokens_details" in usage.fields;
    }
    var stored := Lookup(contexts, "s");
    assert stored + ((stored + [user]) + [Assistant(content)]) == stored + (stored + [user]) + [Assistant(content)];
  }

  /** Two turns of one user message each, starting from an empty context:
      the history holds 2 messages after the first turn but 6 after the
      second, the first exchange appearing twice. */
  lemma TwoTurnsRepeatContext(env: Env, u1: Message, u2: Message, a1: string, a2: string)
    requires TruthyStr(env.openaiKey)
    ensures var call1 := (p: string, ms: seq<Message>) => Replied(OpenAIReply(a1, None));
      var call2 := (p: string, ms: seq<Message>) => Replied(OpenAIReply(a2, None));
      var req1 := ChatRequest([u1], None, None, None, None, None, Some("s"));
      var req2 := ChatRequest([u2], None, None, None, None, None, Some("s"));
      var t1 := Complete(env, map[], req1, call1);
      var t2 := Complete(env, t1.contexts, req2, call2);
      && t1.result.Ok? && t2.result.Ok?
      && Lookup(t1.contexts, "s") == [u1, Assistant(a1)]
      && Lookup(t2.contexts, "s") == [u1, Assistant(a1), u1, Assistant(a1), u2, Assistant(a2)]
  {
    var s1 := OpenAITurn(env, map[], u1, a1);
    var t1 := Complete(env, map[], ChatRequest([u1], None, None, None, None, None, Some("s")),
                       (p: string, ms: seq<Message>) => Replied(OpenAIReply(a1, None)));
    assert [] + ([] + [u1]) + [Assistant(a1)] == [u1, Assistant(a1)];
    var s2 := OpenAITurn(env, t1.contexts, u2, a2);
    assert s1 == [];
    assert s2 == [u1, Assistant(a1)];
    assert s2 + (s2 + [u2]) + [Assistant(a2)] == [u1, Assistant(a1), u1, Assistant(a1), u2, Assistant(a2)];
  }

  /** One turn answered by OpenAI on context "s", as the two-turn example uses it. */
  lemma OpenAITurn(env: Env, contexts: map<string, seq<Message>>, u: Message, a: string)
    returns (stored: seq<Message>)
    requires TruthyStr(env.openaiKey)
    ensures stored == Lookup(contexts, "s")
    ensures var t := Complete(env, contexts, ChatRequest([u], None, None, None, None, None, Some("s")),
                              (p: string, ms: seq<Message>) => Replied(OpenAIReply(a, None)));
      && t.result.Ok?
      && Lookup(t.contexts, "s") == Window(stored + (stored + [u]) + [Assistant(a)])
  {
    stored := Lookup(contexts, "s");
    ExtractWellFormed(a, None);
    assert stored + ((stored + [u]) + [Assistant(a)]) == stored + (stored + [u]) + [Assistant(a)];
  }

  /** An explicit "ollama" request with a plain user turn is answered by
      Ollama with its default model, whatever keys are configured. */
  lemma ExplicitOllamaExample(env: Env, contexts: map<string, seq<Message>>, content: string)
    ensures var call := (p: string, ms: seq<Message>) => Replied(OllamaReply(content));
      var req := ChatRequest([Message("user", "hi")], None, Some("ollama"), None, None, None, None);
      var t := Complete(env, contexts, req, call);
      && t.result.Ok?
      && t.result.value.provider == "ollama"
      && t.result.value.model == "llama2"
      && t.result.value.content == content
      && t.contexts == contexts
  {
    ExtractWellFormed(content, None);
  }

  // ---------------------------------------------------------------- method

  /** `chat_completion` against the process-wide `ContextManager`. */
  method ChatCompletion(cm: ContextManager, env: Env, req: ChatRequest,
                        call: (string, seq<Message>) -> Upstream)
    returns (r: Result<AIResponse, ChatError>)
    requires cm.Valid()
    modifies cm
    ensures cm.Valid()
    ensures r == Complete(env, old(cm.contexts), req, call).result
    ensures cm.contexts == Complete(env, old(cm.contexts), req, call).contexts
  {
    var messages := req.messages;
    if TruthyStr(req.contextId) {
      var stored := cm.GetContext(req.contextId.value);
      messages := stored + messages;
    }
    assert messages == Merged(old(cm.contexts), req);
    assert cm.contexts == old(cm.contexts);

    var provider: string;
    if TruthyStr(req.provider) {
      provider := req.provider.value;
    } else if TruthyStr(env.openaiKey) {
      provider := "openai";
    } else if Text.Contains(OllamaConfig(env).endpoint, "localhost") {
      provider := "ollama";
    } else if TruthyStr(env.anthropicKey) {
      provider := "anthropic";
    } else {
      return Err(NoProviderAvailable);
    }
    assert ResolveProvider(env, req) == Ok(provider);

    var extracted: Option<Extracted>;
    if provider == "openai" || provider == "ollama" || provider == "anthropic" {
      var reply := call(provider, messages);
      if reply.Failed? {
        return Err(ServiceError(UpstreamError(reply.status, reply.detail)));
      }
      if provider == "openai" {
        extracted := ExtractOpenAI(reply.body);
      } else if provider == "ollama" {
        extracted := ExtractOllama(reply.body);
      } else {
        extracted := ExtractAnthropic(reply.body);
      }
      assert extracted == Extract(provider, call(provider, messages).body);
    } else {
      return Err(ServiceError(UnknownProvider(provider)));
    }
    if extracted.None? {
      return Err(ServiceError(MalformedReply));
    }
    var content := extracted.value.content;

    if TruthyStr(req.contextId) {
      cm.UpdateContext(req.contextId.value, messages + [Assistant(content)]);
    }
    assert cm.contexts == Complete(env, old(cm.contexts), req, call).contexts;

    if !ValidUsage(extracted.value.usage) {
      return Err(ServiceError(InvalidResponse));
    }
    var model := if TruthyStr(req.model) then req.model.value else DefaultModel(provider);
    r := Ok(AIResponse(content, model, provider, extracted.value.usage, req.contextId));
  }

  /** `DELETE /context/{context_id}`: always succeeds. */
  method ClearContextEndpoint(cm: ContextManager, id: string) returns (message: string)
    requires cm.Valid()
    modifies cm
    ensures cm.Valid()
    ensures cm.contexts == Cleared(old(cm.contexts), id)
    ensures message == "Context " + id + " cleared"
  {
    cm.ClearContext(id);
    message := "Context " + id + " cleared";
  }
}
