# ELWOSA AI bridge and task query builder, in Dafny

This project models the decision logic of the ELWOSA AI gateway
(`src/backend/api/ai_bridge.py`) and the query builder of the task service
(`src/backend/api/tasks.py`), and proves properties of that model.

- **Conversation contexts.** The `ContextManager` keeps one message history per
  context id and retains only the newest 20 entries of each. It is a class over
  a `map<string, seq<Message>>`.
- **`chat_completion`.** The handler merges the stored context ahead of the new
  messages, picks a provider (the named one, or OpenAI, Ollama, Anthropic in
  that priority), calls its adapter, looks up the reply text and usage, records
  the turn and answers. Each failure is mapped to its HTTP status. The model
  gives it twice: once as a function (`Router.Complete`) and once as a method
  over the shared `ContextManager` (`Router.ChatCompletion`). The adapter call is
  a parameter `call` that maps the provider and the messages sent to the
  provider's JSON reply or to the `HTTPException` the adapter raised.
- **Adapter payloads.** The payloads that `call_openai`, `call_ollama` and
  `call_anthropic` build, as functions of the messages and an options map in
  which a key can be present or absent.
- **The model catalogue.** `list_models`: one entry per (provider, model) in
  configuration order, with its availability and feature tags, built by nested
  loops.
- **Pseudo-streaming.** `stream_ai_response` cuts a completed answer into one
  chunk per whitespace-separated word. The `/ws/chat` loop sends those chunks
  and then one "complete" event per request.
- **The task list query.** `list_tasks` grows a SQL string and its positional
  parameters clause by clause. `TaskBase` adds its field constraints.

Python semantics the model spells out:
- truthiness of strings, numbers and JSON values;
- `dict.get(k, default)`, which tells a present key (even one holding null)
  from an absent one;
- `str.split()`, which splits on runs of Python's whitespace characters;
- `"\n".join`;
- the slice `[-20:]`.

Module layout, one file each:
- `Wrappers`: `Option` and `Result`.
- `Json`: JSON values and their truthiness.
- `Text`: string operations.
- `Messages`: chat messages and their JSON form.
- `ContextStore`: the context store.
- `Registry`: `MODEL_CONFIG`, auto-selection and the catalogue.
- `Adapters`: payloads and reply lookups.
- `Router`: `chat_completion`.
- `Streaming`: chunking and the websocket loop.
- `Tasks`: the task service.

The model follows the code as written. Three of its behaviours are easy to miss on a first reading:
- **Prior context is sent again on every turn.** After a successful turn with a
  context id, the history becomes `last20(stored + (stored + new) + [reply])`,
  not `last20(stored + new + [reply])`. The list written back is the
  already-merged message list (`Router.SuccessContext`,
  `Router.TwoTurnsRepeatContext`).
- **An unknown provider gives 500, not 400.** A non-empty provider name other
  than the three is rejected inside the `try`. The caller therefore sees the
  rewrapped 500 "AI service error", not the 400 the code raises at
  `ai_bridge.py:288` (`Router.UnknownProviderIs500`).
- **The history is written before the response is validated.** A reply whose
  `usage` the `AIResponse` model rejects still has its turn recorded before the
  500 is raised (`Router.RejectedUsageStillRecorded`).

## Model

| member | source | states |
|---|---|---|
| ContextStore.WindowIsNewestSuffix | src/backend/api/ai_bridge.py:108-109 | The retained history is the newest suffix of the list: all of it when it holds at most 20 entries, else exactly the last 20. |
| ContextStore.WindowOfWindow | src/backend/api/ai_bridge.py:104-109 | Trimming to 20, appending, then trimming again equals one trim of the whole concatenation. Successive updates therefore compose. |
| ContextStore.UpdatedSpec | src/backend/api/ai_bridge.py:104-109 | After an update, the id holds `last20(old + ms)`, where old is `[]` if the id was absent. The store stays bounded by 20. Every other id is unchanged, and the key set gains exactly the id. |
| ContextStore.ClearedSpec | src/backend/api/ai_bridge.py:111-113 | After a clear, the id reads as empty and every other id is unchanged. Clearing an absent id is a no-op, and clearing twice equals clearing once. The bound is kept. |
| ContextStore.ContextManager.constructor | src/backend/api/ai_bridge.py:98-99 | A new manager holds no contexts. |
| ContextStore.ContextManager.GetContext | src/backend/api/ai_bridge.py:101-102 | It returns the stored history of a known id and the empty list for an unknown one, never more than 20 entries. |
| ContextStore.ContextManager.UpdateContext | src/backend/api/ai_bridge.py:104-109 | It creates the entry when it is absent, extends it and re-slices it. The new map is exactly `Updated(old, id, ms)`, and the 20-entry bound is kept. |
| ContextStore.ContextManager.ClearContext | src/backend/api/ai_bridge.py:111-113 | It deletes the entry when present. The new map is exactly `Cleared(old, id)`. |
| Messages.ListRoundTrip | src/backend/api/ai_bridge.py:129 | The JSON list of `{"role", "content"}` objects built from the messages decodes back to the same messages. |
| Text.WordsAreWords | src/backend/api/ai_bridge.py:346 | Every word `str.split()` yields is non-empty and free of whitespace. |
| Text.WordsKeepAllText | src/backend/api/ai_bridge.py:346 | Gluing the words back together gives every non-whitespace character of the input, in order. Only whitespace is dropped. |
| Text.WordsCount | src/backend/api/ai_bridge.py:280 | The Ollama token estimate `len(content.split())` equals the number of positions where a non-whitespace character starts the text or follows whitespace. |
| Text.WordsOfJoin | src/backend/api/ai_bridge.py:346 | Splitting words that were joined with single spaces gives exactly those words. |
| Registry.AutoSelectPriority | src/backend/api/ai_bridge.py:258-268 | Auto-selection is a strict priority chain. Each case holds if and only if its condition holds and every earlier one fails: "openai" when its key is truthy; else "ollama" when its endpoint contains "localhost"; else "anthropic" when its key is truthy; else none. |
| Registry.AutoSelectPicksAvailable | src/backend/api/ai_bridge.py:226 | The auto-selected provider is one of the three known ones, and the catalogue marks it available. |
| Registry.DefaultHostAlwaysSelects | src/backend/api/ai_bridge.py:48 | With OLLAMA_HOST unset the endpoint contains "localhost", so auto-selection always finds a provider. |
| Registry.CatalogueAt | src/backend/api/ai_bridge.py:221-243 | The catalogue has exactly one entry per (provider, model) in configuration order. Provider i's entries follow those of the providers before it, and its j-th entry describes its j-th model. |
| Registry.CatalogueLength | src/backend/api/ai_bridge.py:223-224 | The catalogue has as many entries as there are configured models. |
| Registry.ShippedCatalogueSize | src/backend/api/ai_bridge.py:40-58 | The shipped configuration lists 10 models: 3 for OpenAI, then 4 for Ollama, then 3 for Anthropic. |
| Registry.ShippedVisionEntry | src/backend/api/ai_bridge.py:44 | "gpt-4-vision-preview" is entry 2. It is tagged "vision" only, and it is available exactly when the OpenAI key is truthy. |
| Registry.ShippedCodeEntry | src/backend/api/ai_bridge.py:49 | "codellama" is entry 5, an Ollama model available without any key and tagged "code" then "local". |
| Registry.ListModels | src/backend/api/ai_bridge.py:219-243 | The nested loops build exactly the catalogue. Each entry's `available` is `bool(api_key or provider == "ollama")`. Its features are "vision", "code" and "local", in that order, each when its substring or provider test holds. |
| Adapters.OpenAIPayloadSpec | src/backend/api/ai_bridge.py:127-135 | The OpenAI payload holds model, messages, temperature and stream, each the option when present and the default (gpt-4, 0.7, false) when absent. It adds max_tokens exactly when that option is truthy. The messages decode back unchanged. |
| Adapters.OllamaPromptLines | src/backend/api/ai_bridge.py:151 | The prompt is the newline-join of one "role: content" line per message, in order. For a non-empty message list in which no field holds a newline, splitting the prompt at newlines gives back exactly those lines, so there is no trailing newline. |
| Adapters.OllamaPayloadSpec | src/backend/api/ai_bridge.py:153-160 | The Ollama payload has exactly model, prompt, stream and options. Each option passes through when given. Model defaults to llama2, stream defaults to false, and the temperature nested under options defaults to 0.7. |
| Adapters.SystemPromptIsFirst | src/backend/api/ai_bridge.py:181 | The system prompt is the content of the first system message anywhere in the list. There is none exactly when no message is a system one. |
| Adapters.NonSystemSpec | src/backend/api/ai_bridge.py:182 | The Anthropic turns are the non-system messages. None of them is a system message, exactly the system messages are dropped, and a list without system messages passes through unchanged. |
| Adapters.AnthropicPayloadSpec | src/backend/api/ai_bridge.py:184-192 | The Anthropic payload holds model, messages, max_tokens and temperature. It adds "system" exactly when the first system content is non-empty. max_tokens is the option when the key is present and 1024 when it is absent. The temperature is the option when given and 0.7 when absent. The messages decode back to the non-system list. |
| Adapters.ExtractWellFormed | src/backend/api/ai_bridge.py:274-285 | Each reply lookup recovers the text and usage that a well-formed reply of that provider carries. For Ollama the usage is `{"total_tokens": number of words}`. |
| Adapters.ExtractOllamaShape | src/backend/api/ai_bridge.py:279 | For every body: the Ollama lookup succeeds if and only if the body is an object whose "response" is a string, and the text is that string. |
| Adapters.ExtractOpenAIShape | src/backend/api/ai_bridge.py:274 | For every body: the OpenAI lookup succeeds if and only if "choices" is a non-empty array whose first element is an object with an object "message" holding a string "content", and the text is that string. |
| Adapters.ExtractAnthropicShape | src/backend/api/ai_bridge.py:284 | For every body: the Anthropic lookup succeeds if and only if "content" is a non-empty array whose first element is an object holding a string "text", and the text is that string. |
| Adapters.ExtractMalformed | src/backend/api/ai_bridge.py:274-285 | An empty choices or content list, a missing "response" key, or a non-string response is a failed lookup. |
| Router.ResolveProviderSpec | src/backend/api/ai_bridge.py:258-268 | A truthy provider name is used verbatim, known or not. Otherwise auto-selection decides. Resolution fails if and only if no name is given and auto-selection finds nothing, and that failure is a 503 with the detail "No AI providers available". |
| Router.UnknownProviderIs500 | src/backend/api/ai_bridge.py:287-288 | A non-empty unknown provider name ends in a 500 service error, not a 400. No adapter is called and no context changes. |
| Router.InvalidRequestContactsNoProvider | src/backend/api/ai_bridge.py:72-73 | A request whose temperature lies outside [0, 2], or whose max_tokens is below 1, is refused with 422 before anything runs. Its outcome does not depend on the providers. |
| Router.HotTemperatureRefused | src/backend/api/ai_bridge.py:72 | A temperature of 3.5 is refused with 422 and leaves the contexts as they were. |
| Router.FailureLeavesContexts | src/backend/api/ai_bridge.py:290-295 | Every failure before the reply lookup succeeds leaves every context unchanged: no provider, an unknown provider, an adapter error or a malformed reply. A context changes only when the request names one and the lookup succeeded. |
| Router.SuccessSpec | src/backend/api/ai_bridge.py:252-303 | A successful answer comes from the resolved, known provider, called with the merged messages. Its text and usage are those of that provider's reply, and its usage is absent or a str-to-int map. Its model is the requested one if truthy, else the provider's default. Its context id is the request's. |
| Router.SuccessContext | src/backend/api/ai_bridge.py:253-255 | On success with a context id, that history becomes `last20(stored + (stored + new) + [reply])` and every other id is unchanged. Without a context id nothing changes. |
| Router.CompleteKeepsBound | src/backend/api/ai_bridge.py:291-295 | A completion never breaks the 20-entry bound of any context. |
| Router.RejectedUsageStillRecorded | src/backend/api/ai_bridge.py:291-303 | An OpenAI reply whose usage holds a nested object fails with a 500, yet its turn is already recorded. |
| Router.TwoTurnsRepeatContext | src/backend/api/ai_bridge.py:290-295 | Two one-message turns on a fresh context leave 2 entries, then 6, and the first exchange appears twice. |
| Router.ExplicitOllamaExample | src/backend/api/ai_bridge.py:277-280 | An explicit "ollama" request is answered by Ollama with the model "llama2" and the reply text, whatever keys are set, and touches no context. |
| Router.ChatCompletion | src/backend/api/ai_bridge.py:247-307 | The handler, run against the shared `ContextManager`, returns exactly `Complete`'s result and leaves exactly its contexts. The store stays bounded. |
| Router.ClearContextEndpoint | src/backend/api/ai_bridge.py:352-356 | Clearing a context always succeeds with the message "Context <id> cleared" and leaves `Cleared(old, id)`. |
| Streaming.StreamChunks | src/backend/api/ai_bridge.py:346-348 | It yields one chunk per word of the answer, in order, each the word followed by one space. |
| Streaming.EventsSpec | src/backend/api/ai_bridge.py:322-333 | One request gives exactly one chunk event per word, in order, then a single "complete" event. |
| Streaming.ChunksRejoin | src/backend/api/ai_bridge.py:346-348 | Gluing the chunks together and splitting again gives exactly the words of the answer. |
| Streaming.ThreeWordExample | src/backend/api/ai_bridge.py:322-333 | The answer "a b c" streams as "a ", "b ", "c " and then "complete". |
| Streaming.SendChunks | src/backend/api/ai_bridge.py:322-327 | The send loop adds one chunk event per chunk, in order, to what was already sent. |
| Streaming.AnswerRequest | src/backend/api/ai_bridge.py:319-333 | One inbound request produces exactly the events, the open or closed state and the contexts that `Step` gives. A request that fails validation, or whose completion fails, closes the connection. |
| Streaming.WebSocketChat | src/backend/api/ai_bridge.py:315-337 | The receive loop answers requests in order until one closes the connection. The events it sends and the contexts it leaves are exactly `Serve`'s. |
| Streaming.ServeAllSucceed | src/backend/api/ai_bridge.py:316-333 | When no request closes the connection, at least one event is sent per request, and the first request's chunks and "complete" event come first. |
| Tasks.ListTasksQuery | src/backend/api/tasks.py:151-171 | It builds exactly the query of the active filters: the fixed head, one clause per filter, then the paging clause. Its parameters are the filter values, in order, then limit and offset (default 100 and 0). |
| Tasks.QueryAlignment | src/backend/api/tasks.py:151-171 | The query has exactly one placeholder per parameter: the rendered text holds exactly as many `%` characters as there are parameters, as the fixed head and the clause texts hold none. There are between 2 and 5 parameters. The last two are limit and offset. The query starts with the fixed head and ends with `ORDER BY created_at DESC LIMIT %s OFFSET %s`. |
| Tasks.FiltersSpec | src/backend/api/tasks.py:158-168 | Status is applied only when truthy (an empty string adds nothing). Priority is applied whenever given, 0 included. Assignee is applied only when truthy. Filters come in the order status, priority, assignee. |
| Tasks.DefaultQuery | src/backend/api/tasks.py:139-140 | With nothing given, the query is the fixed head and the paging clause, bound to [100, 0]. |
| Tasks.ValidateTaskSpec | src/backend/api/tasks.py:83-91 | A task validates if and only if 1 ≤ \|title\| ≤ 200 and the priority is absent or in [0, 10]. A validated task meets those constraints and keeps its title, priority, task id, project id, description and assignee. Its status is the given one when given, "QUEUED" when left out and null when sent as null. A title failure is reported if and only if the title is out of bounds. |
| Tasks.ValidateRoundTrip | src/backend/api/tasks.py:81-93 | Sending a valid task back as input validates to the same task. |

## Left out

- Network I/O is not modelled: the `aiohttp` sessions, HTTP status checks and response decoding. Each adapter call is the parameter `call`, which yields a decoded JSON reply or the `HTTPException(status, detail)` the adapter raised.
- Keyword-argument binding is not modelled. The handler calls each adapter with the messages positionally plus `**request.dict()`. As written, that dict also carries a `messages` key, and it carries `model` and `max_tokens` even when they are unset. The payload builders are modelled on an explicit options map with present-or-absent keys, and the handler's adapter call stays abstract. As written, Python therefore raises TypeError ("got multiple values for argument 'messages'") at lines 273, 278 and 283 for every known provider, so the handler as written always ends in the 500 response. The success-path lemmas describe a handler whose argument binding is fixed.
- Router.Detail: only the 503 detail text is modelled. The detail text of the 500 is not modelled, and neither is the 422 validation report the framework builds. The 500's detail embeds `str(e)`, and the model keeps the cause as a structured value. Logging is left out too.
- Router.ValidUsage: pydantic's coercion of float, bool and numeric-string usage values to `int` is not modelled. Such usage values are treated as rejected.
- Adapters.ExtractOpenAI: pydantic's coercion of non-string reply content to `str` is not modelled. A non-string content counts as a failed lookup.
- Adapters.ExtractAnthropic: the same coercion of non-string content is not modelled. A non-string content counts as a failed lookup.
- Floating point is not modelled: temperatures are exact reals, and `estimated_hours` and `actual_hours` of `TaskBase` are not modelled.
- Environment variables are a parameter (`Registry.Env`), not read from the process.
- The health and status endpoints are not modelled, including the `active_contexts` count.
- The timestamps of websocket events, the 0.05 s delay between chunks, and `websocket.accept`/`close` are not modelled.
- Concurrency is not modelled. The model assumes each request finishes before the next one starts, and the code gives no such guarantee. `chat_completion` awaits the provider call (lines 273, 278, 283) between reading the context (line 254) and updating it (line 292), without a lock, so two requests on the same context id can interleave and one update can be lost.
- Running the query is not modelled: the database connection, cursor, row conversion and the other task endpoints.
- `TaskBase` tags and steps are not modelled.
- The PHP front end is not part of this model.
