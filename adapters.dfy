/** The pre-network halves of `call_openai`, `call_ollama` and `call_anthropic`
    (payload construction from the messages and the keyword arguments) and the
    post-network reply lookups of `chat_completion` (ai_bridge.py). The HTTP
    exchange itself is not modelled here. */
module Adapters {
  import opened Wrappers
  import opened Json
  import opened Text
  import opened Messages

  /** The keyword arguments an adapter receives, by name. */
  type Options = map<string, Json>

  const DefaultTemperature: real := 0.7
  const AnthropicDefaultMaxTokens: int := 1024

  // ------------------------------------------------------------------ OpenAI

  /** The payload `call_openai` posts. */
  function OpenAIPayload(ms: seq<Message>, opts: Options): Json {
    var base := map[
      "model" := GetOr(opts, "model", JStr("gpt-4")),
      "messages" := JArr(ListToJson(ms)),
      "temperature" := GetOr(opts, "temperature", JReal(DefaultTemperature)),
      "stream" := GetOr(opts, "stream", JBool(false))];
    if "max_tokens" in opts && Truthy(opts["max_tokens"])
    then JObj(base["max_tokens" := opts["max_tokens"]])
    else JObj(base)
  }

  /** What the OpenAI payload carries: the four fixed keys, plus "max_tokens"
      exactly when that option is truthy (so 0 and null are dropped); each
      option passes through when given and takes its default when absent; and
      the messages can be decoded back unchanged. */
  lemma OpenAIPayloadSpec(ms: seq<Message>, opts: Options)
    ensures var p := OpenAIPayload(ms, opts);
      && p.JObj?
      && p.fields.Keys == {"model", "messages", "temperature", "stream"}
                          + (if "max_tokens" in opts && Truthy(opts["max_tokens"]) then {"max_tokens"} else {})
      && ("max_tokens" in p.fields ==> p.fields["max_tokens"] == opts["max_tokens"])
      && p.fields["model"] == (if "model" in opts then opts["model"] else JStr("gpt-4"))
      && p.fields["temperature"] == (if "temperature" in opts then opts["temperature"] else JReal(0.7))
      && p.fields["stream"] == (if "stream" in opts then opts["stream"] else JBool(false))
      && p.fields["messages"].JArr?
      && ListFromJson(p.fields["messages"].items) == Some(ms)
  {
    ListRoundTrip(ms);
  }

  // ------------------------------------------------------------------ Ollama

  /** One transcript line, `f"{msg.role}: {msg.content}"`. */
  function Line(m: Message): string {
    m.role + ": " + m.content
  }

  function Lines(ms: seq<Message>): (r: seq<string>)
    ensures |r| == |ms|
  {
    seq(|ms|, i requires 0 <= i < |ms| => Line(ms[i]))
  }

  /** `"\n".join(...)`: the transcript Ollama receives as its prompt. */
  function OllamaPrompt(ms: seq<Message>): string {
    JoinWith(Lines(ms), '\n')
  }

  /** The payload `call_ollama` posts: model, prompt, stream and the
      temperature nested under "options". */
  function OllamaPayload(ms: seq<Message>, opts: Options): Json {
    JObj(map[
      "model" := GetOr(opts, "model", JStr("llama2")),
      "prompt" := JStr(OllamaPrompt(ms)),
      "stream" := GetOr(opts, "stream", JBool(false)),
      "options" := JObj(map["temperature" := GetOr(opts, "temperature", JReal(DefaultTemperature))])])
  }

  /** The prompt holds one "role: content" line per message, in order, and no
      more: as long as no role or content holds a newline, splitting the
      prompt at newlines gives back exactly those lines (so nothing trails the
      last one). */
  lemma OllamaPromptLines(ms: seq<Message>)
    requires |ms| >= 1
    requires forall i :: 0 <= i < |ms| ==> '\n' !in ms[i].role && '\n' !in ms[i].content
    ensures SplitOn(OllamaPrompt(ms), '\n') == Lines(ms)
    ensures forall i :: 0 <= i < |ms| ==> Lines(ms)[i] == ms[i].role + ": " + ms[i].content
  {
    forall i | 0 <= i < |ms| ensures '\n' !in Lines(ms)[i] {
      assert Lines(ms)[i] == ms[i].role + (": " + ms[i].content);
    }
    SplitOnJoin(Lines(ms), '\n');
  }

  /** The Ollama payload has exactly its four keys and passes the options
      through, with defaults "llama2", no streaming (`false`) and temperature
      0.7. */
  lemma OllamaPayloadSpec(ms: seq<Message>, opts: Options)
    ensures var p := OllamaPayload(ms, opts);
      && p.JObj?
      && p.fields.Keys == {"model", "prompt", "stream", "options"}
      && p.fields["prompt"] == JStr(OllamaPrompt(ms))
      && p.fields["model"] == (if "model" in opts then opts["model"] else JStr("llama2"))
      && p.fields["stream"] == (if "stream" in opts then opts["stream"] else JBool(false))
      && p.fields["options"] == JObj(map["temperature" := if "temperature" in opts then opts["temperature"] else JReal(0.7)])
  {
  }

  // --------------------------------------------------------------- Anthropic

  /** `next((m.content for m in ms if m.role == "system"), None)`. */
  function SystemPrompt(ms: seq<Message>): Option<string> {
    if ms == [] then None
    else if ms[0].role == "system" then Some(ms[0].content)
    else SystemPrompt(ms[1..])
  }

  /** `[m for m in ms if m.role != "system"]`. */
  function NonSystem(ms: seq<Message>): seq<Message> {
    if ms == [] then []
    else (if ms[0].role == "system" then [] else [ms[0]]) + NonSystem(ms[1..])
  }

  /** How many system messages `ms` holds. */
  function CountSystem(ms: seq<Message>): nat {
    if ms == [] then 0 else (if ms[0].role == "system" then 1 else 0) + CountSystem(ms[1..])
  }

  /** The payload `call_anthropic` posts. */
  function AnthropicPayload(ms: seq<Message>, opts: Options): Json {
    var base := map[
      "model" := GetOr(opts, "model", JStr("claude-3-sonnet")),
      "messages" := JArr(ListToJson(NonSystem(ms))),
      "max_tokens" := GetOr(opts, "max_tokens", JInt(AnthropicDefaultMaxTokens)),
      "temperature" := GetOr(opts, "temperature", JReal(DefaultTemperature))];
    var system := SystemPrompt(ms);
    if TruthyStr(system) then JObj(base["system" := JStr(system.value)]) else JObj(base)
  }

  /** The system prompt is the content of the FIRST system message anywhere
      in the list, and there is none exactly when no message is a system one. */
  lemma {:induction false} SystemPromptIsFirst(ms: seq<Message>)
    ensures SystemPrompt(ms).None? <==> CountSystem(ms) == 0
    ensures SystemPrompt(ms).Some? ==>
      exists i :: 0 <= i < |ms| && ms[i].role == "system" && ms[i].content == SystemPrompt(ms).value
                  && NonSystem(ms[..i]) == ms[..i]
  {
    if ms != [] {
      SystemPromptIsFirst(ms[1..]);
      if ms[0].role == "system" {
        assert ms[..0] == [];
      } else if SystemPrompt(ms).Some? {
        var i :| 0 <= i < |ms[1..]| && ms[1..][i].role == "system"
                 && ms[1..][i].content == SystemPrompt(ms).value
                 && NonSystem(ms[1..][..i]) == ms[1..][..i];
        assert ms[..i + 1] == [ms[0]] + ms[1..][..i];
        NonSystemAppend([ms[0]], ms[1..][..i]);
        assert NonSystem([ms[0]]) == [ms[0]];
        assert ms[i + 1].role == "system";
      }
    }
  }

  lemma {:induction false} NonSystemAppend(a: seq<Message>, b: seq<Message>)
    ensures NonSystem(a + b) == NonSystem(a) + NonSystem(b)
  {
    if a == [] {
      assert a + b == b;
    } else {
      assert (a + b)[0] == a[0];
      assert (a + b)[1..] == a[1..] + b;
      NonSystemAppend(a[1..], b);
    }
  }

  /** The turns sent to Anthropic are the non-system messages in their
      original order: none of them is a system message, exactly the system
      messages are dropped, and a list without system messages passes
      through unchanged. */
  lemma {:induction false} NonSystemSpec(ms: seq<Message>)
    ensures forall k :: 0 <= k < |NonSystem(ms)| ==> NonSystem(ms)[k].role != "system"
    ensures |NonSystem(ms)| + CountSystem(ms) == |ms|
    ensures CountSystem(ms) == 0 ==> NonSystem(ms) == ms
  {
    if ms != [] {
      NonSystemSpec(ms[1..]);
      var head := if ms[0].role == "system" then [] else [ms[0]];
      assert NonSystem(ms) == head + NonSystem(ms[1..]);
      if CountSystem(ms) == 0 {
        assert [ms[0]] + ms[1..] == ms;
      }
    }
  }

  /** The Anthropic payload: "max_tokens" is the option when the key is
      present (whatever its value) and 1024 when absent; "system" is present
      exactly when the first system message has non-empty content, and then
      holds that content; the temperature is the option when given and 0.7
      when absent; the turns decode back to the non-system messages. */
  lemma AnthropicPayloadSpec(ms: seq<Message>, opts: Options)
    ensures var p := AnthropicPayload(ms, opts);
      && p.JObj?
      && p.fields.Keys == {"model", "messages", "max_tokens", "temperature"}
                          + (if TruthyStr(SystemPrompt(ms)) then {"system"} else {})
      && p.fields["max_tokens"] == (if "max_tokens" in opts then opts["max_tokens"] else JInt(1024))
      && ("system" in p.fields ==> p.fields["system"] == JStr(SystemPrompt(ms).value) && SystemPrompt(ms).value != "")
      && p.fields["model"] == (if "model" in opts then opts["model"] else JStr("claude-3-sonnet"))
      && p.fields["temperature"] == (if "temperature" in opts then opts["temperature"] else JReal(0.7))
      && p.fields["messages"].JArr?
      && ListFromJson(p.fields["messages"].items) == Some(NonSystem(ms))
  {
    var base := map[
      "model" := GetOr(opts, "model", JStr("claude-3-sonnet")),
      "messages" := JArr(ListToJson(NonSystem(ms))),
      "max_tokens" := GetOr(opts, "max_tokens", JInt(AnthropicDefaultMaxTokens)),
      "temperature" := GetOr(opts, "temperature", JReal(DefaultTemperature))];
    assert base.Keys == {"model", "messages", "max_tokens", "temperature"};
    assert AnthropicPayload(ms, opts).fields == if TruthyStr(SystemPrompt(ms)) then base["system" := JStr(SystemPrompt(ms).value)] else base;
    ListRoundTrip(NonSystem(ms));
  }

  // --------------------------------------------------------- reply lookups

  /** The reply text and usage `chat_completion` takes from a provider's JSON. */
  datatype Extracted = Extracted(content: string, usage: Option<Json>)

  /** A JSON string as text; any other value is not modelled as content. */
  function AsText(v: Option<Json>): Option<string> {
    if v.Some? && v.value.JStr? then Some(v.value.s) else None
  }

  function Bind(v: Option<Json>, f: Json -> Option<Json>): Option<Json> {
    if v.Some? then f(v.value) else None
  }

  /** `response["choices"][0]["message"]["content"]`, usage passed through. */
  function ExtractOpenAI(body: Json): Option<Extracted> {
    var content := AsText(Bind(Bind(Bind(Field(body, "choices"), First), m => Field(m, "message")), c => Field(c, "content")));
    if content.Some? then Some(Extracted(content.value, GetOpt(body, "usage"))) else None
  }

  /** `response["response"]`, with usage approximated by the word count. */
  function ExtractOllama(body: Json): Option<Extracted> {
    var content := AsText(Field(body, "response"));
    if content.Some?
    then Some(Extracted(content.value, Some(JObj(map["total_tokens" := JInt(|Words(content.value)|)]))))
    else None
  }

  /** `response["content"][0]["text"]`, usage passed through. */
  function ExtractAnthropic(body: Json): Option<Extracted> {
    var content := AsText(Bind(Bind(Field(body, "content"), First), b => Field(b, "text")));
    if content.Some? then Some(Extracted(content.value, GetOpt(body, "usage"))) else None
  }

  /** A well-formed OpenAI reply with the given text and usage. */
  function OpenAIReply(content: string, usage: Option<Json>): Json {
    var message := JObj(map["role" := JStr("assistant"), "content" := JStr(content)]);
    var base := map["choices" := JArr([JObj(map["message" := message])])];
    if usage.Some? then JObj(base["usage" := usage.value]) else JObj(base)
  }

  /** A well-formed Ollama reply with the given text. */
  function OllamaReply(content: string): Json {
    JObj(map["response" := JStr(content), "done" := JBool(true)])
  }

  /** A well-formed Anthropic reply with the given text and usage. */
  function AnthropicReply(content: string, usage: Option<Json>): Json {
    var base := map["content" := JArr([JObj(map["type" := JStr("text"), "text" := JStr(content)])])];
    if usage.Some? then JObj(base["usage" := usage.value]) else JObj(base)
  }

  /** Each lookup recovers the text and usage a well-formed reply carries;
      for Ollama the usage is the word count of the text. */
  lemma ExtractWellFormed(content: string, usage: Option<Json>)
    requires usage.None? || usage.value != JNull
    ensures ExtractOpenAI(OpenAIReply(content, usage)) == Some(Extracted(content, usage))
    ensures ExtractAnthropic(AnthropicReply(content, usage)) == Some(Extracted(content, usage))
    ensures ExtractOllama(OllamaReply(content))
            == Some(Extracted(content, Some(JObj(map["total_tokens" := JInt(|Words(content)|)]))))
  {
  }

  /** A reply whose first choice or content block is missing, or an object
      without the expected key, is a failed lookup. */
  lemma ExtractMalformed(usage: Json)
    ensures ExtractOpenAI(JObj(map["choices" := JArr([]), "usage" := usage])).None?
    ensures ExtractAnthropic(JObj(map["content" := JArr([])])).None?
    ensures ExtractOllama(JObj(map["error" := JStr("model not found")])).None?
    ensures ExtractOllama(JObj(map["response" := JInt(42)])).None?
  {
  }

  /** An Ollama reply is read exactly when it is an object whose "response"
      is a string. */
  lemma ExtractOllamaShape(body: Json)
    ensures ExtractOllama(body).Some? <==>
      body.JObj? && "response" in body.fields && body.fields["response"].JStr?
    ensures ExtractOllama(body).Some? ==> ExtractOllama(body).value.content == body.fields["response"].s
  {
  }

  /** An OpenAI reply is read exactly when "choices" is a non-empty array
      whose first element is an object with an object "message" holding a
      string "content"; that string is the reply text. */
  lemma ExtractOpenAIShape(body: Json)
    ensures ExtractOpenAI(body).Some? <==>
      && body.JObj? && "choices" in body.fields
      && body.fields["choices"].JArr? && |body.fields["choices"].items| > 0
      && body.fields["choices"].items[0].JObj?
      && "message" in body.fields["choices"].items[0].fields
      && body.fields["choices"].items[0].fields["message"].JObj?
      && "content" in body.fields["choices"].items[0].fields["message"].fields
      && body.fields["choices"].items[0].fields["message"].fields["content"].JStr?
    ensures ExtractOpenAI(body).Some? ==>
      ExtractOpenAI(body).value.content == body.fields["choices"].items[0].fields["message"].fields["content"].s
  {
  }

  /** An Anthropic reply is read exactly when "content" is a non-empty array
      whose first element is an object holding a string "text"; that string
      is the reply text. */
  lemma ExtractAnthropicShape(body: Json)
    ensures ExtractAnthropic(body).Some? <==>
      && body.JObj? && "content" in body.fields
      && body.fields["content"].JArr? && |body.fields["content"].items| > 0
      && body.fields["content"].items[0].JObj?
      && "text" in body.fields["content"].items[0].fields
      && body.fields["content"].items[0].fields["text"].JStr?
    ensures ExtractAnthropic(body).Some? ==>
      ExtractAnthropic(body).value.content == body.fields["content"].items[0].fields["text"].s
  {
  }
}
