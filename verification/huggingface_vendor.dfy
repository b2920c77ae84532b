/**
  The Hugging Face vendor: a provider with eight catalogued open models and
  a facade over the Inference API, with a client created from the facade's
  credential.  `generate` uses text generation; `chat` uses the chat
  completion interface and, when that fails, falls back to text generation
  on the conversation rendered one `Role: content` line per message.

  `chat_stream` is a generator, so its fallback `return
  self.generate_stream(...)` only ends the stream: the fallback stream is
  created and never iterated.  `ChatStream` models that behaviour;
  `ChatStreamFallback` is the evidently intended one, which streams the
  fallback.
 */
module HuggingFaceVendor {

  import opened Base
  import opened Dict
  import opened Text
  import opened Json
  import opened Errors
  import opened LlmFacade
  import opened Catalogs
  import opened LlmProvider
  import opened Prompts

  /** The Hugging Face catalog, in declaration order. */
  function Listing(): seq<(string, Details)> {
    [ ("meta-llama/Meta-Llama-3.1-70B-Instruct",
        Priced("Meta Llama 3.1 70B via Hugging Face", "3.1",
            8192, ["General purpose", "Instruction following", "Open source"], 0.65, 0.65)),
      ("meta-llama/Meta-Llama-3.1-8B-Instruct",
        Priced("Meta Llama 3.1 8B via Hugging Face", "3.1",
            8192, ["Fast", "Efficient", "Cost-effective"], 0.05, 0.05)),
      ("mistralai/Mistral-7B-Instruct-v0.3",
        Priced("Mistral 7B Instruct v0.3", "0.3", 32768,
            ["Efficient", "Multi-lingual", "Open source"], 0.05, 0.05)),
      ("mistralai/Mixtral-8x7B-Instruct-v0.1",
        Priced("Mixtral 8x7B - MoE architecture", "0.1", 32768,
            ["MoE", "Multi-lingual", "Efficient"], 0.25, 0.25)),
      ("microsoft/Phi-3-mini-4k-instruct",
        Priced("Microsoft Phi-3 Mini - Compact and efficient", "3",
            4096, ["Small", "Fast", "Edge deployment"], 0.02, 0.02)),
      ("Qwen/Qwen2.5-72B-Instruct",
        Priced("Qwen 2.5 72B - Strong multilingual", "2.5", 32768,
            ["Multilingual", "Math", "Code"], 0.40, 0.40)),
      ("google/gemma-2-9b-it",
        Priced("Google Gemma 2 9B - Open source from Google", "2", 8192,
            ["Open source", "Efficient", "Google research"], 0.05, 0.05)),
      ("tiiuae/falcon-180B-chat",
        Priced("Falcon 180B - Large open source model", "180B", 2048,
            ["Large scale", "Open source", "Research"], 1.80, 1.80)) ]
  }

  /** `HuggingFaceProvider(provider_name, api_key, config)`. */
  function New(name: string, apiKey: Json, config: Json): (p: Provider)
    ensures p.vendor == HuggingFace && p.name == name && p.apiKey == apiKey
  {
    NewProvider(HuggingFace, name, apiKey, config, Records(Listing()))
  }

  /** The Hugging Face catalog names eight models, once each, in this order. */
  lemma ListingNames()
    ensures NamesDistinct(Listing())
    ensures Names(Listing()) ==
      ["meta-llama/Meta-Llama-3.1-70B-Instruct", "meta-llama/Meta-Llama-3.1-8B-Instruct",
       "mistralai/Mistral-7B-Instruct-v0.3", "mistralai/Mixtral-8x7B-Instruct-v0.1",
       "microsoft/Phi-3-mini-4k-instruct", "Qwen/Qwen2.5-72B-Instruct",
       "google/gemma-2-9b-it", "tiiuae/falcon-180B-chat"]
  {
  }

  /** The Hugging Face provider offers its eight models, in declaration
      order. */
  lemma Models(name: string, apiKey: Json, config: Json)
    ensures AvailableModels(New(name, apiKey, config)) == Names(Listing())
    ensures |AvailableModels(New(name, apiKey, config))| == 8
  {
    ListingNames();
    CatalogModels(New(name, apiKey, config), Listing());
  }

  // ---------------------------------------------------------------------
  // Requests.

  function MaxTokens(kwargs: Dict<Json>): Json {
    GetOr(kwargs, "max_tokens", JInt(512))
  }

  function Temperature(kwargs: Dict<Json>): Json {
    GetOr(kwargs, "temperature", JFloat(0.7))
  }

  /** `client.text_generation(...)` as `generate` calls it: the new-token
      limit, temperature, top-p 0.9 and no repetition penalty by default,
      and only the generated text returned. */
  function GenerateRequest(f: Facade, prompt: string, kwargs: Dict<Json>): Request {
    Request("text_generation", f.apiKey,
            JObj([("prompt", JStr(prompt)), ("model", JStr(f.modelName)),
                  ("max_new_tokens", MaxTokens(kwargs)), ("temperature", Temperature(kwargs)),
                  ("top_p", GetOr(kwargs, "top_p", JFloat(0.9))),
                  ("repetition_penalty", GetOr(kwargs, "repetition_penalty", JFloat(1.0))),
                  ("return_full_text", JBool(false))]))
  }

  function StreamRequest(f: Facade, prompt: string, kwargs: Dict<Json>): Request {
    Request("text_generation", f.apiKey,
            JObj([("prompt", JStr(prompt)), ("model", JStr(f.modelName)),
                  ("max_new_tokens", MaxTokens(kwargs)), ("temperature", Temperature(kwargs)),
                  ("stream", JBool(true))]))
  }

  /** `client.chat_completion(...)` with the messages as given. */
  function ChatRequest(f: Facade, messages: seq<Message>, kwargs: Dict<Json>): Request {
    Request("chat_completion", f.apiKey,
            JObj([("messages", MessagesJson(messages)), ("model", JStr(f.modelName)),
                  ("max_tokens", MaxTokens(kwargs)), ("temperature", Temperature(kwargs))]))
  }

  function ChatStreamRequest(f: Facade, messages: seq<Message>, kwargs: Dict<Json>): Request {
    Request("chat_completion", f.apiKey,
            JObj([("messages", MessagesJson(messages)), ("model", JStr(f.modelName)),
                  ("max_tokens", MaxTokens(kwargs)), ("stream", JBool(true))]))
  }

  // ---------------------------------------------------------------------
  // Text generation.

  /** The generated text: the reply itself when it is a string, else its
      `generated_text` (the empty text when missing). */
  function GeneratedText(response: Json): Result<string, PyFault> {
    match response
    case JStr(s) => Ok(s)
    case _ =>
      var text :- PyGet(response, "generated_text", JStr(""));
      AsText(text)
  }

  /** `generate(prompt, **kwargs)`: the generated text, with the word counts
      of prompt and answer as usage; a failure anywhere gives an error
      response instead. */
  function Generate(t: Transport, f: Facade, prompt: string, kwargs: Dict<Json>, now: Time): (r: Response)
    ensures r.model == f.modelName && r.provider == f.providerName
    ensures t.call(GenerateRequest(f, prompt, kwargs)).Failed? ==>
              r == ErrorResponse(f, t.call(GenerateRequest(f, prompt, kwargs)).message, now)
    ensures r.error.None? <==>
              t.call(GenerateRequest(f, prompt, kwargs)).Answered?
              && GeneratedText(t.call(GenerateRequest(f, prompt, kwargs)).body).Ok?
    ensures r.error.None? ==>
              r.usage == TokenUsage(JInt(WordCount(prompt)), JInt(WordCount(r.content)))
              && r.metadata == JNull
  {
    var outcome :=
      var response :- Reached(t.call(GenerateRequest(f, prompt, kwargs)));
      var content :- Caught(GeneratedText(response));
      Ok(Reading(content, TokenUsage(JInt(WordCount(prompt)), JInt(WordCount(content))), JNull));
    Respond(f, outcome, now)
  }

  /** `generate_stream(prompt, **kwargs)`: the streamed tokens; a failure
      ends the stream with one error fragment, and nothing escapes. */
  function GenerateStream(t: Transport, f: Facade, prompt: string, kwargs: Dict<Json>): (r: Fragments)
    ensures r.raised.None?
    ensures var s := t.stream(StreamRequest(f, prompt, kwargs));
            r.chunks == CaughtStream(s.items, TextItem, s.failure)
  {
    var s := t.stream(StreamRequest(f, prompt, kwargs));
    Fragments(CaughtStream(s.items, TextItem, s.failure), None)
  }

  // ---------------------------------------------------------------------
  // Chat.

  /** `response.choices[0].message.content if response.choices else ""`. */
  function ChoiceText(response: Json): Result<string, PyFault> {
    var choices :- Attr(response, "choices");
    if !Truthy(choices) then Ok("")
    else
      var first :- PyAt(choices, 0);
      var message :- Attr(first, "message");
      var content :- Attr(message, "content");
      AsText(content)
  }

  /** `response.usage.<field> if hasattr(response, 'usage') else 0`. */
  function UsageCount(response: Json, field: string): Result<Json, PyFault> {
    if !HasAttr(response, "usage") then Ok(JInt(0))
    else
      var usage :- Attr(response, "usage");
      Attr(usage, field)
  }

  /** What `chat` reads out of a chat completion. */
  function ChatReading(response: Json): Result<Reading, PyFault> {
    var content :- ChoiceText(response);
    var input :- UsageCount(response, "prompt_tokens");
    var output :- UsageCount(response, "completion_tokens");
    Ok(Reading(content, TokenUsage(input, output), JNull))
  }

  /** The outcome of the chat completion attempt. */
  function ChatAttempt(t: Transport, f: Facade, messages: seq<Message>, kwargs: Dict<Json>)
    : Result<Reading, string>
  {
    var response :- Reached(t.call(ChatRequest(f, messages, kwargs)));
    Caught(ChatReading(response))
  }

  /** `chat(messages, **kwargs)`: the chat completion's first choice; when
      the attempt fails, `generate` on the line-rendered conversation, where
      a `prompt` keyword argument collides with the positional prompt and
      escapes. */
  function Chat(t: Transport, f: Facade, messages: seq<Message>, kwargs: Dict<Json>, now: Time): (r: Outcome)
    ensures ChatAttempt(t, f, messages, kwargs).Ok? ==>
              r == Returned(Respond(f, ChatAttempt(t, f, messages, kwargs), now))
    ensures ChatAttempt(t, f, messages, kwargs).Err? && !HasKey(kwargs, "prompt") ==>
              r == Returned(Generate(t, f, LinePrompt(messages), kwargs, now))
    ensures r.Raised? <==> ChatAttempt(t, f, messages, kwargs).Err? && HasKey(kwargs, "prompt")
    ensures r.Raised? ==> r.exc == ArgumentClash("prompt")
  {
    match ChatAttempt(t, f, messages, kwargs)
    case Ok(x) => Returned(Respond(f, Ok(x), now))
    case Err(_) =>
      if HasKey(kwargs, "prompt") then Raised(ArgumentClash("prompt"))
      else Returned(Generate(t, f, LinePrompt(messages), kwargs, now))
  }

  /** One streamed chat chunk: the first choice's delta content when it is
      non-empty, else nothing. */
  function DeltaStep(chunk: Json): Result<Option<string>, PyFault> {
    var choices :- Attr(chunk, "choices");
    var first :- PyAt(choices, 0);
    var delta :- Attr(first, "delta");
    var content :- Attr(delta, "content");
    if !Truthy(content) then Ok(None)
    else
      var s :- AsText(content);
      Ok(Some(s))
  }

  /** Whether the chat stream failed, by an SDK exception or a chunk of the
      wrong shape. */
  predicate ChatStreamFailed(s: StreamReply) {
    FirstFault(s.items, DeltaStep).Some? || s.failure.Some?
  }

  /** `chat_stream(messages, **kwargs)` as written: the delta contents up to
      the failure, if any; after a failure the fallback stream is created
      (so a `prompt` keyword argument collides and escapes) but nothing of
      it is yielded. */
  function ChatStream(t: Transport, f: Facade, messages: seq<Message>, kwargs: Dict<Json>): (r: Fragments)
    ensures var s := t.stream(ChatStreamRequest(f, messages, kwargs));
            r.chunks == Yields(s.items, DeltaStep)
            && (r.raised.Some? <==> ChatStreamFailed(s) && HasKey(kwargs, "prompt"))
            && (r.raised.Some? ==> r.raised.value == ArgumentClash("prompt"))
  {
    var s := t.stream(ChatStreamRequest(f, messages, kwargs));
    var yielded := Yields(s.items, DeltaStep);
    if !ChatStreamFailed(s) then Fragments(yielded, None)
    else if HasKey(kwargs, "prompt") then Fragments(yielded, Some(ArgumentClash("prompt")))
    else Fragments(yielded, None)
  }

  /** `chat_stream` as evidently intended: after a failure, the fragments of
      `generate_stream` on the line-rendered conversation follow what was
      already yielded. */
  function ChatStreamFallback(t: Transport, f: Facade, messages: seq<Message>, kwargs: Dict<Json>)
    : (r: Fragments)
    ensures var s := t.stream(ChatStreamRequest(f, messages, kwargs));
            (!ChatStreamFailed(s) ==> r == Fragments(Yields(s.items, DeltaStep), None))
            && (ChatStreamFailed(s) && !HasKey(kwargs, "prompt") ==>
                  r.raised.None?
                  && r.chunks == Yields(s.items, DeltaStep)
                                 + GenerateStream(t, f, LinePrompt(messages), kwargs).chunks)
            && (ChatStreamFailed(s) && HasKey(kwargs, "prompt") ==>
                  r == Fragments(Yields(s.items, DeltaStep), Some(ArgumentClash("prompt"))))
  {
    var s := t.stream(ChatStreamRequest(f, messages, kwargs));
    var yielded := Yields(s.items, DeltaStep);
    if !ChatStreamFailed(s) then Fragments(yielded, None)
    else if HasKey(kwargs, "prompt") then Fragments(yielded, Some(ArgumentClash("prompt")))
    else Fragments(yielded + GenerateStream(t, f, LinePrompt(messages), kwargs).chunks, None)
  }

  // ---------------------------------------------------------------------
  // Lemmas.

  /** A plain-text reply is the answer, and its usage counts words. */
  lemma TextReply(t: Transport, f: Facade, prompt: string, kwargs: Dict<Json>, now: Time, answer: string)
    requires t.call(GenerateRequest(f, prompt, kwargs)) == Answered(JStr(answer))
    ensures Generate(t, f, prompt, kwargs, now)
            == MakeResponse(f, answer, TokenUsage(JInt(WordCount(prompt)), JInt(WordCount(answer))), JNull, now)
  {
  }

  /** A chat completion answers with its first choice's message content and
      the token counts it reports. */
  lemma ChatReply(choice: Dict<Json>, message: Dict<Json>, usage: Dict<Json>, rest: seq<Json>,
                  answer: string, input: Json, output: Json)
    requires Get(choice, "message") == Some(JObj(message))
    requires Get(message, "content") == Some(JStr(answer))
    requires Get(usage, "prompt_tokens") == Some(input) && Get(usage, "completion_tokens") == Some(output)
    ensures var response := JObj([("choices", JArr([JObj(choice)] + rest)), ("usage", JObj(usage))]);
            ChatReading(response) == Ok(Reading(answer, TokenUsage(input, output), JNull))
  {
    var fs := [("choices", JArr([JObj(choice)] + rest)), ("usage", JObj(usage))];
    assert Get(fs, "choices") == Get(fs[..1], "choices");
  }

  /** A failed chat completion falls back to text generation on the
      line-rendered conversation. */
  lemma ChatFallsBack(t: Transport, f: Facade, messages: seq<Message>, kwargs: Dict<Json>, now: Time, m: string)
    requires t.call(ChatRequest(f, messages, kwargs)) == Failed(m)
    requires !HasKey(kwargs, "prompt")
    ensures Chat(t, f, messages, kwargs, now) == Returned(Generate(t, f, LinePrompt(messages), kwargs, now))
  {
  }

  /** A chat stream of non-empty deltas yields them in order, in both
      versions. */
  lemma DeltaStream(t: Transport, f: Facade, messages: seq<Message>, kwargs: Dict<Json>, outs: seq<string>)
    requires var s := t.stream(ChatStreamRequest(f, messages, kwargs));
             s.failure.None? && |s.items| == |outs|
             && forall i :: 0 <= i < |outs| ==> DeltaStep(s.items[i]) == Ok(Some(outs[i]))
    ensures ChatStream(t, f, messages, kwargs) == Fragments(outs, None)
    ensures ChatStreamFallback(t, f, messages, kwargs) == Fragments(outs, None)
  {
    var s := t.stream(ChatStreamRequest(f, messages, kwargs));
    YieldsAll(s.items, DeltaStep, outs);
  }

  /** The two versions differ exactly after a failure: when the chat stream
      is refused outright and the fallback stream is refused too, the
      written version ends silently while the intended one reports the
      fallback's error. */
  lemma SilentFallback(t: Transport, f: Facade, messages: seq<Message>, kwargs: Dict<Json>, m: string, m2: string)
    requires t.stream(ChatStreamRequest(f, messages, kwargs)) == StreamReply([], Some(m))
    requires t.stream(StreamRequest(f, LinePrompt(messages), kwargs)) == StreamReply([], Some(m2))
    requires !HasKey(kwargs, "prompt")
    ensures ChatStream(t, f, messages, kwargs) == Fragments([], None)
    ensures ChatStreamFallback(t, f, messages, kwargs) == Fragments([ErrorFragment(m2)], None)
  {
  }

  /** With the fallback streamed, a failed chat stream is never silent
      unless the fallback stream itself ends cleanly without a token: every
      fallback token, and a fallback failure, shows up as a fragment. */
  lemma FallbackNotSilent(t: Transport, f: Facade, messages: seq<Message>, kwargs: Dict<Json>)
    requires ChatStreamFailed(t.stream(ChatStreamRequest(f, messages, kwargs)))
    requires !HasKey(kwargs, "prompt")
    requires var s := t.stream(StreamRequest(f, LinePrompt(messages), kwargs));
             |s.items| > 0 || s.failure.Some?
    ensures |ChatStreamFallback(t, f, messages, kwargs).chunks| > 0
  {
  }
}
