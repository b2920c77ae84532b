/**
  The Together AI vendor: a provider with seven catalogued open models and a
  facade over Together's text completion interface.  The SDK is given the
  facade's credential before each call.  Chat is a completion of the
  conversation rendered with System/User/Assistant labels.

  Every exception inside `generate` and `chat` becomes an error response
  and every exception inside `generate_stream` a final `Error: ...`
  fragment; only an argument clash when `chat_stream` forwards its keyword
  arguments escapes.
 */
module TogetherVendor {

  import opened Base
  import opened Dict
  import opened Json
  import opened Errors
  import opened LlmFacade
  import opened Catalogs
  import opened LlmProvider
  import opened Prompts

  /** The Together catalog, in declaration order. */
  function Listing(): seq<(string, Details)> {
    [ ("meta-llama/Meta-Llama-3.1-405B-Instruct-Turbo",
        Priced("Meta Llama 3.1 405B - Largest Llama model via Together", "3.1", 16384,
            ["Complex reasoning", "Code generation", "Long context"], 3.50, 3.50)),
      ("meta-llama/Meta-Llama-3.1-70B-Instruct-Turbo",
        Priced("Meta Llama 3.1 70B Turbo", "3.1",
            32768, ["Balanced", "Fast", "Cost-effective"], 0.88, 0.88)),
      ("meta-llama/Meta-Llama-3.1-8B-Instruct-Turbo",
        Priced("Meta Llama 3.1 8B Turbo - Fast and efficient", "3.1", 8192,
            ["Speed", "Low cost", "Simple tasks"], 0.18, 0.18)),
      ("mistralai/Mixtral-8x7B-Instruct-v0.1",
        Priced("Mixtral 8x7B - MoE model", "0.1", 32768,
            ["Efficient", "Multi-lingual", "Code"], 0.60, 0.60)),
      ("mistralai/Mistral-7B-Instruct-v0.2",
        Priced("Mistral 7B Instruct v0.2", "0.2", 32768,
            ["Fast", "Efficient", "General purpose"], 0.20, 0.20)),
      ("Qwen/Qwen2.5-72B-Instruct-Turbo",
        Priced("Qwen 2.5 72B - Strong multilingual model", "2.5",
            32768, ["Multilingual", "Math", "Code"], 0.88, 0.88)),
      ("deepseek-ai/deepseek-llm-67b-chat",
        Priced("DeepSeek LLM 67B - Strong at code and reasoning",
            "1.0", 4096, ["Code", "Math", "Reasoning"], 0.90, 0.90)) ]
  }

  /** `TogetherProvider(provider_name, api_key, config)`. */
  function New(name: string, apiKey: Json, config: Json): (p: Provider)
    ensures p.vendor == Together && p.name == name && p.apiKey == apiKey
  {
    NewProvider(Together, name, apiKey, config, Records(Listing()))
  }

  /** The Together catalog names seven models, once each, in this order. */
  lemma ListingNames()
    ensures NamesDistinct(Listing())
    ensures Names(Listing()) ==
      ["meta-llama/Meta-Llama-3.1-405B-Instruct-Turbo", "meta-llama/Meta-Llama-3.1-70B-Instruct-Turbo",
       "meta-llama/Meta-Llama-3.1-8B-Instruct-Turbo", "mistralai/Mixtral-8x7B-Instruct-v0.1",
       "mistralai/Mistral-7B-Instruct-v0.2", "Qwen/Qwen2.5-72B-Instruct-Turbo",
       "deepseek-ai/deepseek-llm-67b-chat"]
  {
  }

  /** The Together provider offers its seven models, in declaration order. */
  lemma Models(name: string, apiKey: Json, config: Json)
    ensures AvailableModels(New(name, apiKey, config)) == Names(Listing())
    ensures |AvailableModels(New(name, apiKey, config))| == 7
  {
    ListingNames();
    CatalogModels(New(name, apiKey, config), Listing());
  }

  // ---------------------------------------------------------------------
  // Requests.

  function MaxTokens(kwargs: Dict<Json>): Json {
    GetOr(kwargs, "max_tokens", JInt(512))
  }

  function Temperature(kwargs: Dict<Json>): Json {
    GetOr(kwargs, "temperature", JFloat(0.7))
  }

  /** `together.Complete.create(...)` as `generate` calls it, with the
      sampling settings' defaults. */
  function CompleteRequest(f: Facade, prompt: string, kwargs: Dict<Json>): Request {
    Request("Complete.create", f.apiKey,
            JObj([("model", JStr(f.modelName)), ("prompt", JStr(prompt)),
                  ("max_tokens", MaxTokens(kwargs)), ("temperature", Temperature(kwargs)),
                  ("top_p", GetOr(kwargs, "top_p", JFloat(0.7))),
                  ("top_k", GetOr(kwargs, "top_k", JInt(50))),
                  ("repetition_penalty", GetOr(kwargs, "repetition_penalty", JFloat(1.0)))]))
  }

  /** A completion call with only the token limit and the temperature, as
      `chat` and `generate_stream` make it. */
  function PlainRequest(api: string, f: Facade, prompt: string, kwargs: Dict<Json>): Request {
    Request(api, f.apiKey,
            JObj([("model", JStr(f.modelName)), ("prompt", JStr(prompt)),
                  ("max_tokens", MaxTokens(kwargs)), ("temperature", Temperature(kwargs))]))
  }

  // ---------------------------------------------------------------------
  // Replies.

  /** `response['output']['choices'][0]['text']`. */
  function OutputText(response: Json): Result<string, PyFault> {
    var output :- PyItem(response, "output");
    var choices :- PyItem(output, "choices");
    var first :- PyAt(choices, 0);
    var text :- PyItem(first, "text");
    AsText(text)
  }

  /** The reading of a completion reply: the first choice's text, the
      reported usage (`{}` when absent), and the given metadata. */
  function ReadReply(response: Json, metadata: Json): Result<Reading, PyFault> {
    var content :- OutputText(response);
    var usage :- PyGet(response, "usage", JObj([]));
    Ok(Reading(content, usage, metadata))
  }

  /** `generate(prompt, **kwargs)`: the first choice's text, with the whole
      reply as `raw_response` metadata; a failure anywhere gives an error
      response instead. */
  function Generate(t: Transport, f: Facade, prompt: string, kwargs: Dict<Json>, now: Time): (r: Response)
    ensures r.model == f.modelName && r.provider == f.providerName
    ensures t.call(CompleteRequest(f, prompt, kwargs)).Failed? ==>
              r == ErrorResponse(f, t.call(CompleteRequest(f, prompt, kwargs)).message, now)
    ensures r.error.None? <==>
              t.call(CompleteRequest(f, prompt, kwargs)).Answered?
              && OutputText(t.call(CompleteRequest(f, prompt, kwargs)).body).Ok?
    ensures r.error.None? ==>
              r.metadata == JObj([("raw_response", t.call(CompleteRequest(f, prompt, kwargs)).body)])
  {
    var outcome :=
      var response :- Reached(t.call(CompleteRequest(f, prompt, kwargs)));
      Caught(ReadReply(response, JObj([("raw_response", response)])));
    Respond(f, outcome, now)
  }

  /** One streamed chunk: the first choice's `text` (the empty text when it
      has none) when the chunk has a non-empty `choices`, else nothing. */
  function StreamChunk(chunk: Json): Result<Option<string>, PyFault> {
    var has :- PyIn("choices", chunk);
    if !has then Ok(None)
    else
      var choices :- PyItem(chunk, "choices");
      if !Truthy(choices) then Ok(None)
      else
        var first :- PyAt(choices, 0);
        var text :- PyGet(first, "text", JStr(""));
        var s :- AsText(text);
        Ok(Some(s))
  }

  function StreamRequest(f: Facade, prompt: string, kwargs: Dict<Json>): Request {
    PlainRequest("Complete.create_streaming", f, prompt, kwargs)
  }

  /** `generate_stream(prompt, **kwargs)`: the chunks' texts; a failure ends
      the stream with one error fragment, and nothing escapes. */
  function GenerateStream(t: Transport, f: Facade, prompt: string, kwargs: Dict<Json>): (r: Fragments)
    ensures r.raised.None?
    ensures var s := t.stream(StreamRequest(f, prompt, kwargs));
            r.chunks == CaughtStream(s.items, StreamChunk, s.failure)
  {
    var s := t.stream(StreamRequest(f, prompt, kwargs));
    Fragments(CaughtStream(s.items, StreamChunk, s.failure), None)
  }

  function ChatRequest(f: Facade, messages: seq<Message>, kwargs: Dict<Json>): Request {
    PlainRequest("Complete.create", f, TogetherPrompt(messages), kwargs)
  }

  /** `chat(messages, **kwargs)`: a completion of the rendered conversation
      with only the token limit and temperature passed on, and no metadata;
      a failure anywhere gives an error response instead. */
  function Chat(t: Transport, f: Facade, messages: seq<Message>, kwargs: Dict<Json>, now: Time): (r: Response)
    ensures r.model == f.modelName && r.provider == f.providerName
    ensures r.metadata == JNull
    ensures t.call(ChatRequest(f, messages, kwargs)).Failed? ==>
              r == ErrorResponse(f, t.call(ChatRequest(f, messages, kwargs)).message, now)
    ensures r.error.None? <==>
              t.call(ChatRequest(f, messages, kwargs)).Answered?
              && OutputText(t.call(ChatRequest(f, messages, kwargs)).body).Ok?
  {
    var outcome :=
      var response :- Reached(t.call(ChatRequest(f, messages, kwargs)));
      Caught(ReadReply(response, JNull));
    Respond(f, outcome, now)
  }

  /** `chat_stream(messages, **kwargs)`: the stream of `generate_stream` on
      the rendered conversation; a `prompt` keyword argument collides with
      the positional prompt. */
  function ChatStream(t: Transport, f: Facade, messages: seq<Message>, kwargs: Dict<Json>): (r: Fragments)
    ensures HasKey(kwargs, "prompt") ==> r == Fragments([], Some(ArgumentClash("prompt")))
    ensures !HasKey(kwargs, "prompt") ==> r == GenerateStream(t, f, TogetherPrompt(messages), kwargs)
  {
    if HasKey(kwargs, "prompt") then Fragments([], Some(ArgumentClash("prompt")))
    else GenerateStream(t, f, TogetherPrompt(messages), kwargs)
  }

  // ---------------------------------------------------------------------
  // Lemmas.

  /** A reply in Together's completion format answers with the first
      choice's text and reports its usage. */
  lemma CompletionReply(response: Dict<Json>, output: Dict<Json>, choice: Dict<Json>,
                        rest: seq<Json>, answer: string)
    requires Get(response, "output") == Some(JObj(output))
    requires Get(output, "choices") == Some(JArr([JObj(choice)] + rest))
    requires Get(choice, "text") == Some(JStr(answer))
    ensures OutputText(JObj(response)) == Ok(answer)
    ensures ReadReply(JObj(response), JNull)
            == Ok(Reading(answer, GetOr(response, "usage", JObj([])), JNull))
  {
  }

  /** `generate` asks for 512 tokens at temperature 0.7 with top-p 0.7,
      top-k 50 and no repetition penalty unless told otherwise, and passes
      the prompt unchanged. */
  lemma GenerateDefaults(f: Facade, prompt: string)
    ensures var args := CompleteRequest(f, prompt, []).args.fields;
            Get(args, "prompt") == Some(JStr(prompt))
            && Get(args, "max_tokens") == Some(JInt(512))
            && Get(args, "temperature") == Some(JFloat(0.7))
            && Get(args, "top_p") == Some(JFloat(0.7))
            && Get(args, "top_k") == Some(JInt(50))
            && Get(args, "repetition_penalty") == Some(JFloat(1.0))
  {
    var args := CompleteRequest(f, prompt, []).args.fields;
    LiteralReads(args);
    assert args[1].0 == "prompt" && args[2].0 == "max_tokens" && args[3].0 == "temperature";
    assert args[4].0 == "top_p" && args[5].0 == "top_k" && args[6].0 == "repetition_penalty";
  }

  /** Chat depends on the keyword arguments only through the token limit
      and the temperature: every other sampling setting is dropped. */
  lemma ChatIgnoresSampling(t: Transport, f: Facade, messages: seq<Message>,
                            kw1: Dict<Json>, kw2: Dict<Json>, now: Time)
    requires MaxTokens(kw1) == MaxTokens(kw2) && Temperature(kw1) == Temperature(kw2)
    ensures Chat(t, f, messages, kw1, now) == Chat(t, f, messages, kw2, now)
  {
    assert ChatRequest(f, messages, kw1) == ChatRequest(f, messages, kw2);
  }

  /** Chat sends the conversation as one prompt, system turns included. */
  lemma ChatSendsConversation(f: Facade, messages: seq<Message>, kwargs: Dict<Json>)
    ensures Get(ChatRequest(f, messages, kwargs).args.fields, "prompt") == Some(JStr(TogetherPrompt(messages)))
  {
    var args := ChatRequest(f, messages, kwargs).args.fields;
    LiteralReads(args);
    assert args[1].0 == "prompt";
  }

  /** Chunks without choices are skipped; a chunk with choices yields its
      first choice's text. */
  lemma ChunkShapes(rest: Dict<Json>, choice: Dict<Json>, more: seq<Json>, text: string)
    requires !HasKey(rest, "choices")
    requires GetOr(choice, "text", JStr("")) == JStr(text)
    ensures StreamChunk(JObj(rest)) == Ok(None)
    ensures StreamChunk(JObj(rest + [("choices", JArr([]))])) == Ok(None)
    ensures StreamChunk(JObj(rest + [("choices", JArr([JObj(choice)] + more))])) == Ok(Some(text))
  {
    var d1 := rest + [("choices", JArr([JObj(choice)] + more))];
    assert Get(d1, "choices") == Some(JArr([JObj(choice)] + more));
  }
}
