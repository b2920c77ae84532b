/**
  The AWS Bedrock vendor: a provider with ten catalogued models (Meta Llama,
  Amazon Titan, Anthropic Claude and Mistral) and a facade that talks to the
  Bedrock runtime.  The request body and the field the answer is read from
  depend on the model family, which the facade recognises by a substring of
  the lower-cased model identifier.  The runtime client is created for the
  configured region (`us-east-1` by default).

  Every exception inside `generate` becomes an error response and every
  exception inside `generate_stream` a final `Error: ...` fragment; only an
  argument clash when `chat` forwards its keyword arguments escapes.
 */
module BedrockVendor {

  import opened Base
  import opened Dict
  import opened Text
  import opened Json
  import opened Errors
  import opened LlmFacade
  import opened Catalogs
  import opened LlmProvider
  import opened Prompts

  /** The Bedrock catalog, in declaration order. */
  function Listing(): seq<(string, Details)> {
    [ ("meta.llama3-3-70b-instruct-v1:0",
        Priced("Meta Llama 3.3 70B Instruct - Powerful open source model", "3.3", 8192,
            ["General purpose", "Instruction following", "Multi-lingual"], 0.99, 0.99)),
      ("meta.llama3-1-405b-instruct-v1:0",
        Priced("Meta Llama 3.1 405B - Largest Llama model",
            "3.1", 32768, ["Complex reasoning", "Code generation", "Extended context"], 5.32, 16.00)),
      ("meta.llama3-1-70b-instruct-v1:0",
        Priced("Meta Llama 3.1 70B Instruct", "3.1", 32768,
            ["Balanced performance", "Cost-effective", "Long context"], 0.99, 0.99)),
      ("meta.llama3-1-8b-instruct-v1:0",
        Priced("Meta Llama 3.1 8B Instruct - Fast and efficient",
            "3.1", 32768, ["Fast inference", "Low cost", "Simple tasks"], 0.22, 0.22)),
      ("amazon.titan-text-premier-v1:0",
        Priced("Amazon Titan Text Premier - Advanced text model",
            "1.0", 32000, ["RAG optimization", "Multi-lingual", "Enterprise"], 0.50, 1.50)),
      ("amazon.titan-text-express-v1",
        Priced("Amazon Titan Text Express", "1.0", 8192,
            ["Fast", "Cost-effective", "General purpose"], 0.20, 0.60)),
      ("anthropic.claude-3-5-sonnet-20241022-v2:0",
        Priced("Claude 3.5 Sonnet via Bedrock", "3.5",
            200000, ["Complex reasoning", "Code generation", "Analysis"], 3.00, 15.00)),
      ("anthropic.claude-3-opus-20240229-v1:0",
        Priced("Claude 3 Opus via Bedrock", "3.0", 200000,
            ["Complex tasks", "Research", "Analysis"], 15.00, 75.00)),
      ("mistral.mistral-large-2407-v1:0",
        Priced("Mistral Large - Advanced multilingual model",
            "2407", 32000, ["Multilingual", "Code", "Function calling"], 4.00, 12.00)),
      ("mistral.mixtral-8x7b-instruct-v0:1",
        Priced("Mixtral 8x7B - MoE architecture model", "0.1",
            32000, ["Cost-effective", "Fast", "General purpose"], 0.45, 0.70)) ]
  }

  /** `BedrockProvider(provider_name, api_key, config)`. */
  function New(name: string, apiKey: Json, config: Json): (p: Provider)
    ensures p.vendor == Bedrock && p.name == name && p.apiKey == apiKey
  {
    NewProvider(Bedrock, name, apiKey, config, Records(Listing()))
  }

  /** The Bedrock catalog names ten models, once each, in this order. */
  lemma ListingNames()
    ensures NamesDistinct(Listing())
    ensures Names(Listing()) ==
      ["meta.llama3-3-70b-instruct-v1:0", "meta.llama3-1-405b-instruct-v1:0",
       "meta.llama3-1-70b-instruct-v1:0", "meta.llama3-1-8b-instruct-v1:0",
       "amazon.titan-text-premier-v1:0", "amazon.titan-text-express-v1",
       "anthropic.claude-3-5-sonnet-20241022-v2:0", "anthropic.claude-3-opus-20240229-v1:0",
       "mistral.mistral-large-2407-v1:0", "mistral.mixtral-8x7b-instruct-v0:1"]
  {
    ListingDistinct();
  }

  /** No two Bedrock catalog entries share a name. */
  lemma ListingDistinct()
    ensures NamesDistinct(Listing())
  {
  }

  /** The Bedrock provider offers its ten models, in declaration order. */
  lemma Models(name: string, apiKey: Json, config: Json)
    ensures AvailableModels(New(name, apiKey, config)) == Names(Listing())
    ensures |AvailableModels(New(name, apiKey, config))| == 10
  {
    ListingNames();
    CatalogModels(New(name, apiKey, config), Listing());
  }

  // ---------------------------------------------------------------------
  // Requests.

  /** The request formats of the model families Bedrock hosts. */
  datatype Family = Llama | Claude | Titan | Generic

  /** The family of a model, tested in this order on the lower-cased
      identifier: "llama", "claude", "titan", else the generic format. */
  function FamilyOf(model: string): Family {
    var m := Lower(model);
    if Contains(m, "llama") then Llama
    else if Contains(m, "claude") then Claude
    else if Contains(m, "titan") then Titan
    else Generic
  }

  /** The region the runtime client is created for. */
  function Region(f: Facade): Json {
    GetOr(f.config, "region", JStr("us-east-1"))
  }

  function MaxTokens(kwargs: Dict<Json>): Json {
    GetOr(kwargs, "max_tokens", JInt(1024))
  }

  function Temperature(kwargs: Dict<Json>): Json {
    GetOr(kwargs, "temperature", JFloat(0.7))
  }

  /** The prompt in the Human/Assistant framing Claude's text completion
      format expects. */
  function ClaudeFrame(prompt: string): string {
    "\n\nHuman: " + prompt + "\n\nAssistant:"
  }

  /** The request body `generate` sends, in the family's format. */
  function Body(family: Family, prompt: string, kwargs: Dict<Json>): Json {
    match family
    case Llama =>
      JObj([("prompt", JStr(prompt)), ("max_gen_len", MaxTokens(kwargs)),
            ("temperature", Temperature(kwargs)), ("top_p", GetOr(kwargs, "top_p", JFloat(0.9)))])
    case Claude =>
      JObj([("prompt", JStr(ClaudeFrame(prompt))), ("max_tokens_to_sample", MaxTokens(kwargs)),
            ("temperature", Temperature(kwargs))])
    case Titan =>
      JObj([("inputText", JStr(prompt)),
            ("textGenerationConfig",
             JObj([("maxTokenCount", MaxTokens(kwargs)), ("temperature", Temperature(kwargs)),
                   ("topP", GetOr(kwargs, "top_p", JFloat(1.0)))]))])
    case Generic =>
      JObj([("prompt", JStr(prompt)), ("max_tokens", MaxTokens(kwargs)),
            ("temperature", Temperature(kwargs))])
  }

  /** `client.invoke_model(modelId=..., body=json.dumps(body))`. */
  function InvokeRequest(f: Facade, prompt: string, kwargs: Dict<Json>): Request {
    Request("invoke_model", Region(f),
            JObj([("modelId", JStr(f.modelName)), ("body", Body(FamilyOf(f.modelName), prompt, kwargs))]))
  }

  // ---------------------------------------------------------------------
  // Replies.

  /** The answer text inside a parsed reply body, in the family's format:
      `generation` for Llama, `completion` for Claude, the first result's
      `outputText` for Titan, and `completion` or else `text` otherwise;
      the empty text wherever the field is missing. */
  function Extract(family: Family, body: Json): Result<Json, PyFault> {
    match family
    case Llama => PyGet(body, "generation", JStr(""))
    case Claude => PyGet(body, "completion", JStr(""))
    case Titan =>
      var results :- PyGet(body, "results", JArr([]));
      if Truthy(results) then
        var first :- PyAt(results, 0);
        PyGet(first, "outputText", JStr(""))
      else Ok(JStr(""))
    case Generic =>
      var text :- PyGet(body, "text", JStr(""));
      PyGet(body, "completion", text)
  }

  /** What `generate` reads out of the runtime's reply: the body stream's
      text parsed as JSON, the answer in the family's field, the invocation
      metrics as usage and the whole body as metadata. */
  function ReadReply(family: Family, reply: Json, parse: string -> Option<Json>)
    : Result<Reading, PyFault>
  {
    var raw :- PyItem(reply, "body");
    var text :- AsText(raw);
    var body :- Loads(parse, text);
    var answer :- Extract(family, body);
    var content :- AsText(answer);
    var usage :- PyGet(body, "amazon-bedrock-invocationMetrics", JObj([]));
    Ok(Reading(content, usage, JObj([("response_body", body)])))
  }

  /** `generate(prompt, **kwargs)`.  The request goes to the facade's model
      in the configured region, and the reply is read in the model family's
      format; a failure anywhere gives an error response instead. */
  function Generate(t: Transport, f: Facade, prompt: string, kwargs: Dict<Json>, now: Time): (r: Response)
    ensures r.model == f.modelName && r.provider == f.providerName
    ensures t.call(InvokeRequest(f, prompt, kwargs)).Failed? ==>
              r == ErrorResponse(f, t.call(InvokeRequest(f, prompt, kwargs)).message, now)
    ensures r.error.None? <==>
              t.call(InvokeRequest(f, prompt, kwargs)).Answered?
              && ReadReply(FamilyOf(f.modelName), t.call(InvokeRequest(f, prompt, kwargs)).body, t.parse).Ok?
    ensures r.error.Some? ==> r.content == "" && r.usage == JNull && r.metadata == JNull
  {
    var outcome :=
      var reply :- Reached(t.call(InvokeRequest(f, prompt, kwargs)));
      Caught(ReadReply(FamilyOf(f.modelName), reply, t.parse));
    Respond(f, outcome, now)
  }

  /** The body `generate_stream` sends, the same for every family. */
  function StreamBody(prompt: string, kwargs: Dict<Json>): Json {
    JObj([("prompt", JStr(prompt)), ("max_tokens", MaxTokens(kwargs)), ("temperature", Temperature(kwargs))])
  }

  /** `client.invoke_model_with_response_stream(modelId=..., body=...)`. */
  function StreamRequest(f: Facade, prompt: string, kwargs: Dict<Json>): Request {
    Request("invoke_model_with_response_stream", Region(f),
            JObj([("modelId", JStr(f.modelName)), ("body", StreamBody(prompt, kwargs))]))
  }

  /** One stream event: its chunk's bytes parsed as JSON, yielding the
      `completion` field if present, else the `outputText` field if
      present, else nothing. */
  function StreamEvent(parse: string -> Option<Json>, event: Json): Result<Option<string>, PyFault> {
    var chunk :- PyItem(event, "chunk");
    var bytes :- PyItem(chunk, "bytes");
    var text :- AsText(bytes);
    var payload :- Loads(parse, text);
    var hasCompletion :- PyIn("completion", payload);
    if hasCompletion then
      var x :- PyItem(payload, "completion");
      var s :- AsText(x);
      Ok(Some(s))
    else
      var hasOutput :- PyIn("outputText", payload);
      if hasOutput then
        var x :- PyItem(payload, "outputText");
        var s :- AsText(x);
        Ok(Some(s))
      else Ok(None)
  }

  /** `generate_stream(prompt, **kwargs)`: the fragments the events carry;
      a failure ends the stream with one error fragment, and nothing
      escapes. */
  function GenerateStream(t: Transport, f: Facade, prompt: string, kwargs: Dict<Json>): (r: Fragments)
    ensures r.raised.None?
    ensures var s := t.stream(StreamRequest(f, prompt, kwargs));
            var step := (e: Json) => StreamEvent(t.parse, e);
            r.chunks == CaughtStream(s.items, step, s.failure)
  {
    var s := t.stream(StreamRequest(f, prompt, kwargs));
    Fragments(CaughtStream(s.items, (e: Json) => StreamEvent(t.parse, e), s.failure), None)
  }

  /** `chat(messages, **kwargs)`: `generate` on the rendered conversation;
      a `prompt` keyword argument collides with the positional prompt. */
  function Chat(t: Transport, f: Facade, messages: seq<Message>, kwargs: Dict<Json>, now: Time): (r: Outcome)
    ensures HasKey(kwargs, "prompt") <==> r.Raised?
    ensures r.Raised? ==> r.exc == ArgumentClash("prompt")
    ensures r.Returned? ==> r.response == Generate(t, f, BedrockPrompt(messages), kwargs, now)
  {
    if HasKey(kwargs, "prompt") then Raised(ArgumentClash("prompt"))
    else Returned(Generate(t, f, BedrockPrompt(messages), kwargs, now))
  }

  /** `chat_stream(messages, **kwargs)`: the stream of `generate_stream` on
      the rendered conversation, under the same collision rule. */
  function ChatStream(t: Transport, f: Facade, messages: seq<Message>, kwargs: Dict<Json>): (r: Fragments)
    ensures HasKey(kwargs, "prompt") ==> r == Fragments([], Some(ArgumentClash("prompt")))
    ensures !HasKey(kwargs, "prompt") ==> r == GenerateStream(t, f, BedrockPrompt(messages), kwargs)
  {
    if HasKey(kwargs, "prompt") then Fragments([], Some(ArgumentClash("prompt")))
    else GenerateStream(t, f, BedrockPrompt(messages), kwargs)
  }

  // ---------------------------------------------------------------------
  // Lemmas.

  /** Every request format carries the prompt (Claude's framed as a
      Human/Assistant exchange) and the token limit, which is 1024 unless
      requested otherwise. */
  lemma RequestCarriesPrompt(family: Family, prompt: string, kwargs: Dict<Json>)
    ensures Body(family, prompt, kwargs).JObj?
    ensures var fs := Body(family, prompt, kwargs).fields;
            match family
            case Llama => Get(fs, "prompt") == Some(JStr(prompt)) && Get(fs, "max_gen_len") == Some(MaxTokens(kwargs))
            case Claude => Get(fs, "prompt") == Some(JStr(ClaudeFrame(prompt)))
                           && Get(fs, "max_tokens_to_sample") == Some(MaxTokens(kwargs))
            case Titan => Get(fs, "inputText") == Some(JStr(prompt))
            case Generic => Get(fs, "prompt") == Some(JStr(prompt)) && Get(fs, "max_tokens") == Some(MaxTokens(kwargs))
    ensures !HasKey(kwargs, "max_tokens") ==> MaxTokens(kwargs) == JInt(1024)
    ensures !HasKey(kwargs, "temperature") ==> Temperature(kwargs) == JFloat(0.7)
  {
    var fs := Body(family, prompt, kwargs).fields;
    LiteralReads(fs);
    match family
    case Llama => assert fs[0].0 == "prompt" && fs[1].0 == "max_gen_len";
    case Claude => assert fs[0].0 == "prompt" && fs[1].0 == "max_tokens_to_sample";
    case Titan => assert fs[0].0 == "inputText";
    case Generic => assert fs[0].0 == "prompt" && fs[1].0 == "max_tokens";
  }

  /** The Titan request nests the token limit in its generation settings. */
  lemma TitanLimit(prompt: string, kwargs: Dict<Json>)
    ensures var fs := Body(Titan, prompt, kwargs).fields;
            Get(fs, "textGenerationConfig").Some?
            && Get(fs, "textGenerationConfig").value.JObj?
            && Get(Get(fs, "textGenerationConfig").value.fields, "maxTokenCount") == Some(MaxTokens(kwargs))
  {
    var fs := Body(Titan, prompt, kwargs).fields;
    LiteralReads(fs);
    assert fs[1].0 == "textGenerationConfig";
    var gs := fs[1].1.fields;
    LiteralReads(gs);
    assert gs[0].0 == "maxTokenCount";
  }

  /** A reply whose body parses to a dict answers with the text in the
      family's field (the empty text when it is missing), reports the
      invocation metrics as usage and the body as metadata. */
  lemma AnsweredReply(t: Transport, f: Facade, prompt: string, kwargs: Dict<Json>, now: Time,
                      text: string, fields: Dict<Json>, answer: string)
    requires FamilyOf(f.modelName) != Titan
    requires t.call(InvokeRequest(f, prompt, kwargs)) == Answered(JObj([("body", JStr(text))]))
    requires t.parse(text) == Some(JObj(fields))
    requires var key := match FamilyOf(f.modelName)
                        case Llama => "generation"
                        case _ => "completion";
             GetOr(fields, key, JStr("")) == JStr(answer)
    requires FamilyOf(f.modelName) == Generic && !HasKey(fields, "completion") ==>
               GetOr(fields, "text", JStr("")) == JStr(answer)
    ensures var r := Generate(t, f, prompt, kwargs, now);
            r.error.None? && r.content == answer
            && r.usage == GetOr(fields, "amazon-bedrock-invocationMetrics", JObj([]))
            && r.metadata == JObj([("response_body", JObj(fields))])
  {
    var reply := JObj([("body", JStr(text))]);
    LiteralReads(reply.fields);
    assert PyItem(reply, "body") == Ok(JStr(text));
  }

  /** A Titan reply answers with the first result's `outputText`, and with
      the empty text when there are no results. */
  lemma TitanReply(body: Dict<Json>, first: Dict<Json>, rest: seq<Json>, answer: string)
    requires GetOr(first, "outputText", JStr("")) == JStr(answer)
    ensures Get(body, "results") == Some(JArr([JObj(first)] + rest)) ==>
              Extract(Titan, JObj(body)) == Ok(JStr(answer))
    ensures !HasKey(body, "results") ==> Extract(Titan, JObj(body)) == Ok(JStr(""))
  {
  }

  /** A body that is not JSON gives an error response, never an exception. */
  lemma UnparsableReply(t: Transport, f: Facade, prompt: string, kwargs: Dict<Json>, now: Time, text: string)
    requires t.call(InvokeRequest(f, prompt, kwargs)) == Answered(JObj([("body", JStr(text))]))
    requires t.parse(text).None?
    ensures Generate(t, f, prompt, kwargs, now).error.Some?
    ensures Generate(t, f, prompt, kwargs, now).content == ""
  {
    var reply := JObj([("body", JStr(text))]);
    LiteralReads(reply.fields);
    assert PyItem(reply, "body") == Ok(JStr(text));
  }

  /** A stream of completion events yields their completions in order, with
      no error fragment; a completion field wins over an output text. */
  lemma CompletionStream(t: Transport, f: Facade, prompt: string, kwargs: Dict<Json>,
                         texts: seq<string>, outs: seq<string>)
    requires var s := t.stream(StreamRequest(f, prompt, kwargs));
             s.failure.None? && |s.items| == |texts| == |outs|
             && (forall i :: 0 <= i < |texts| ==>
                   s.items[i] == JObj([("chunk", JObj([("bytes", JStr(texts[i]))]))]))
             && (forall i :: 0 <= i < |texts| ==>
                   t.parse(texts[i]).Some? && t.parse(texts[i]).value.JObj?
                   && Get(t.parse(texts[i]).value.fields, "completion") == Some(JStr(outs[i])))
    ensures GenerateStream(t, f, prompt, kwargs) == Fragments(outs, None)
  {
    var s := t.stream(StreamRequest(f, prompt, kwargs));
    var step := (e: Json) => StreamEvent(t.parse, e);
    forall i | 0 <= i < |s.items| ensures step(s.items[i]) == Ok(Some(outs[i])) {
      var event := s.items[i];
      LiteralReads(event.fields);
      var chunk := event.fields[0].1;
      LiteralReads(chunk.fields);
      assert PyItem(event, "chunk") == Ok(chunk);
      assert PyItem(chunk, "bytes") == Ok(JStr(texts[i]));
    }
    YieldsAll(s.items, step, outs);
  }

  /** A runtime that refuses the stream yields one error fragment with its
      message, and nothing else. */
  lemma RefusedStream(t: Transport, f: Facade, prompt: string, kwargs: Dict<Json>, m: string)
    requires t.stream(StreamRequest(f, prompt, kwargs)) == StreamReply([], Some(m))
    ensures GenerateStream(t, f, prompt, kwargs) == Fragments([ErrorFragment(m)], None)
  {
  }

  /** Chatting with one user message sends the Human/Assistant prompt
      through `generate`. */
  lemma SingleTurnChat(t: Transport, f: Facade, content: string, kwargs: Dict<Json>, now: Time)
    requires !HasKey(kwargs, "prompt")
    ensures Chat(t, f, [UserMessage(content)], kwargs, now)
            == Returned(Generate(t, f, "Human: " + content + "\n\nAssistant:", kwargs, now))
  {
    BedrockSingleTurn(content);
  }
}
