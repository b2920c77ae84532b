/**
  The xAI Grok vendor: a provider with two catalogued models and a facade
  that posts chat completion requests to `<api_base>/chat/completions`
  (`https://api.x.ai/v1` unless configured) with the credential as a bearer
  token.  `generate` sends the prompt as a single user message.

  The transport's reply to a post is the decoded JSON body; an error status,
  a network error or an undecodable body is a failed call.  A streamed post
  yields the response's lines in server-sent-event form: `data: <json>`
  lines carry chunks, `data: [DONE]` closes the stream, and blank or other
  lines are ignored.  Every exception becomes an error response or a final
  `Error: ...` fragment; nothing escapes.
 */
module GrokVendor {

  import opened Base
  import opened Dict
  import opened Text
  import opened Json
  import opened Errors
  import opened LlmFacade
  import opened Catalogs
  import opened LlmProvider

  /** The Grok catalog, in declaration order. */
  function Listing(): seq<(string, Details)> {
    [ ("grok-beta",
        Priced("Grok Beta - xAI's conversational AI model", "beta", 131072,
            ["Real-time info", "Conversational", "X integration"], 5.00, 15.00)),
      ("grok-vision-beta",
        Priced("Grok Vision Beta - Multimodal Grok", "beta", 8192,
            ["Vision", "Multimodal", "Image understanding"], 5.00, 15.00)) ]
  }

  /** `GrokProvider(provider_name, api_key, config)`. */
  function New(name: string, apiKey: Json, config: Json): (p: Provider)
    ensures p.vendor == Grok && p.name == name && p.apiKey == apiKey
  {
    NewProvider(Grok, name, apiKey, config, Records(Listing()))
  }

  /** The Grok catalog names two models, once each, in this order. */
  lemma ListingNames()
    ensures NamesDistinct(Listing())
    ensures Names(Listing()) == ["grok-beta", "grok-vision-beta"]
  {
  }

  /** The Grok provider offers its two models, in declaration order. */
  lemma Models(name: string, apiKey: Json, config: Json)
    ensures AvailableModels(New(name, apiKey, config)) == ["grok-beta", "grok-vision-beta"]
  {
    ListingNames();
    CatalogModels(New(name, apiKey, config), Listing());
  }

  // ---------------------------------------------------------------------
  // Requests.

  /** The API base the facade was created with. */
  function ApiBase(f: Facade): Json {
    GetOr(f.config, "api_base", JStr("https://api.x.ai/v1"))
  }

  /** The chat completions endpoint under the API base. */
  function Endpoint(f: Facade): string {
    PyStr(ApiBase(f)) + "/chat/completions"
  }

  /** The authorisation header's value. */
  function Bearer(f: Facade): string {
    "Bearer " + PyStr(f.apiKey)
  }

  /** The posted body: the model, the messages, temperature 0.7 and 1024
      tokens unless requested otherwise, and whether to stream. */
  function Payload(f: Facade, messages: Json, kwargs: Dict<Json>, stream: bool): Json {
    JObj([("model", JStr(f.modelName)), ("messages", messages),
          ("temperature", GetOr(kwargs, "temperature", JFloat(0.7))),
          ("max_tokens", GetOr(kwargs, "max_tokens", JInt(1024))),
          ("stream", JBool(stream))])
  }

  /** `requests.post(endpoint, headers=..., json=payload, timeout=60)`. */
  function Post(f: Facade, messages: Json, kwargs: Dict<Json>, stream: bool): Request {
    Request("post", JStr(Bearer(f)),
            JObj([("url", JStr(Endpoint(f))), ("json", Payload(f, messages, kwargs, stream)),
                  ("timeout", JInt(60))]))
  }

  /** The messages `generate` posts: the prompt as one user message. */
  function PromptMessages(prompt: string): Json {
    MessagesJson([UserMessage(prompt)])
  }

  // ---------------------------------------------------------------------
  // Replies.

  /** `result['choices'][0]`. */
  function FirstChoice(result: Json): Result<Json, PyFault> {
    var choices :- PyItem(result, "choices");
    PyAt(choices, 0)
  }

  /** `result['choices'][0]['message']['content']`. */
  function ChoiceText(result: Json): Result<string, PyFault> {
    var first :- FirstChoice(result);
    var message :- PyItem(first, "message");
    var content :- PyItem(message, "content");
    AsText(content)
  }

  /** What `generate` reads: the first choice's message content, the
      reported usage (`{}` when absent), and the first choice's finish
      reason (`None` when absent) as metadata. */
  function GenerateReading(result: Json): Result<Reading, PyFault> {
    var content :- ChoiceText(result);
    var usage :- PyGet(result, "usage", JObj([]));
    var first :- FirstChoice(result);
    var reason :- PyGet(first, "finish_reason", JNull);
    Ok(Reading(content, usage, JObj([("finish_reason", reason)])))
  }

  /** What `chat` reads: the same content and usage, and no metadata. */
  function ChatReading(result: Json): Result<Reading, PyFault> {
    var content :- ChoiceText(result);
    var usage :- PyGet(result, "usage", JObj([]));
    Ok(Reading(content, usage, JNull))
  }

  /** `generate(prompt, **kwargs)`; a failure anywhere gives an error
      response instead. */
  function Generate(t: Transport, f: Facade, prompt: string, kwargs: Dict<Json>, now: Time): (r: Response)
    ensures r.model == f.modelName && r.provider == f.providerName
    ensures var reply := t.call(Post(f, PromptMessages(prompt), kwargs, false));
            (reply.Failed? ==> r == ErrorResponse(f, reply.message, now))
            && (r.error.None? <==> reply.Answered? && GenerateReading(reply.body).Ok?)
  {
    var outcome :=
      var result :- Reached(t.call(Post(f, PromptMessages(prompt), kwargs, false)));
      Caught(GenerateReading(result));
    Respond(f, outcome, now)
  }

  /** `chat(messages, **kwargs)`; a failure anywhere gives an error response
      instead. */
  function Chat(t: Transport, f: Facade, messages: seq<Message>, kwargs: Dict<Json>, now: Time): (r: Response)
    ensures r.model == f.modelName && r.provider == f.providerName && r.metadata == JNull
    ensures var reply := t.call(Post(f, MessagesJson(messages), kwargs, false));
            (reply.Failed? ==> r == ErrorResponse(f, reply.message, now))
            && (r.error.None? <==> reply.Answered? && ChatReading(reply.body).Ok?)
  {
    var outcome :=
      var result :- Reached(t.call(Post(f, MessagesJson(messages), kwargs, false)));
      Caught(ChatReading(result));
    Respond(f, outcome, now)
  }

  /** One line of the event stream: a `data: ` line other than
      `data: [DONE]` is parsed as a chunk, whose first choice's delta
      content is yielded when it is non-empty; every other line yields
      nothing. */
  function LineStep(parse: string -> Option<Json>, line: Json): Result<Option<string>, PyFault> {
    if !Truthy(line) then Ok(None)
    else
      var text :- AsText(line);
      if !StartsWith(text, "data: ") then Ok(None)
      else
        var data := text[6..];
        if data == "[DONE]" then Ok(None)
        else
          var chunk :- Loads(parse, data);
          var first :- FirstChoice(chunk);
          var delta :- PyItem(first, "delta");
          var content :- PyGet(delta, "content", JNull);
          if !Truthy(content) then Ok(None)
          else
            var s :- AsText(content);
            Ok(Some(s))
  }

  /** The fragments of a streamed post; a failure ends the stream with one
      error fragment. */
  function EventStream(t: Transport, request: Request): (r: Fragments)
    ensures r.raised.None?
    ensures r.chunks == CaughtStream(t.stream(request).items, (l: Json) => LineStep(t.parse, l),
                                     t.stream(request).failure)
  {
    var s := t.stream(request);
    Fragments(CaughtStream(s.items, (l: Json) => LineStep(t.parse, l), s.failure), None)
  }

  /** `generate_stream(prompt, **kwargs)`. */
  function GenerateStream(t: Transport, f: Facade, prompt: string, kwargs: Dict<Json>): (r: Fragments)
    ensures r.raised.None?
  {
    EventStream(t, Post(f, PromptMessages(prompt), kwargs, true))
  }

  /** `chat_stream(messages, **kwargs)`. */
  function ChatStream(t: Transport, f: Facade, messages: seq<Message>, kwargs: Dict<Json>): (r: Fragments)
    ensures r.raised.None?
  {
    EventStream(t, Post(f, MessagesJson(messages), kwargs, true))
  }

  // ---------------------------------------------------------------------
  // Lemmas.

  /** `generate` is a one-message chat: it posts exactly what `chat` posts
      for a single user message, so the two answer with the same content,
      usage and error, and differ only in the finish-reason metadata. */
  lemma GenerateIsSingleTurnChat(t: Transport, f: Facade, prompt: string, kwargs: Dict<Json>, now: Time)
    ensures var g := Generate(t, f, prompt, kwargs, now);
            var c := Chat(t, f, [UserMessage(prompt)], kwargs, now);
            g.content == c.content && g.usage == c.usage && g.error == c.error
    ensures GenerateStream(t, f, prompt, kwargs) == ChatStream(t, f, [UserMessage(prompt)], kwargs)
  {
  }

  /** Every post goes to `<api_base>/chat/completions`, the API base being
      `https://api.x.ai/v1` unless configured. */
  lemma EndpointDefault(f: Facade, messages: Json, kwargs: Dict<Json>, stream: bool)
    ensures !HasKey(f.config, "api_base") ==> Endpoint(f) == "https://api.x.ai/v1/chat/completions"
    ensures forall b :: Get(f.config, "api_base") == Some(JStr(b)) ==> Endpoint(f) == b + "/chat/completions"
    ensures Get(Post(f, messages, kwargs, stream).args.fields, "url") == Some(JStr(Endpoint(f)))
  {
    DefaultEndpoint(f);
    PostUrl(f, messages, kwargs, stream);
  }

  /** Without a configured API base the endpoint is xAI's. */
  lemma DefaultEndpoint(f: Facade)
    ensures !HasKey(f.config, "api_base") ==> Endpoint(f) == "https://api.x.ai/v1/chat/completions"
  {
    if !HasKey(f.config, "api_base") {
      assert ApiBase(f) == JStr("https://api.x.ai/v1");
      assert "https://api.x.ai/v1" + "/chat/completions" == "https://api.x.ai/v1/chat/completions";
    }
  }

  /** The post's `url` argument is the endpoint. */
  lemma PostUrl(f: Facade, messages: Json, kwargs: Dict<Json>, stream: bool)
    ensures Get(Post(f, messages, kwargs, stream).args.fields, "url") == Some(JStr(Endpoint(f)))
  {
    var args := Post(f, messages, kwargs, stream).args.fields;
    assert args[0].0 == "url" && args[1].0 == "json" && args[2].0 == "timeout";
    GetOfDistinct(args, 0);
  }

  /** The posted body carries the messages and the stream flag, with
      temperature 0.7 and 1024 tokens unless requested otherwise. */
  lemma PayloadDefaults(f: Facade, messages: Json, stream: bool)
    ensures var body := Payload(f, messages, [], stream).fields;
            Get(body, "messages") == Some(messages)
            && Get(body, "temperature") == Some(JFloat(0.7))
            && Get(body, "max_tokens") == Some(JInt(1024))
            && Get(body, "stream") == Some(JBool(stream))
  {
    var body := Payload(f, messages, [], stream).fields;
    LiteralReads(body);
    assert body[1].0 == "messages" && body[2].0 == "temperature";
    assert body[3].0 == "max_tokens" && body[4].0 == "stream";
  }

  /** A reply in the chat completion format answers with the first choice's
      message content and its finish reason. */
  lemma CompletionReply(choice: Dict<Json>, message: Dict<Json>, rest: seq<Json>, answer: string)
    requires Get(choice, "message") == Some(JObj(message))
    requires Get(message, "content") == Some(JStr(answer))
    ensures var result := JObj([("choices", JArr([JObj(choice)] + rest))]);
            GenerateReading(result)
            == Ok(Reading(answer, JObj([]), JObj([("finish_reason", GetOr(choice, "finish_reason", JNull))])))
  {
    var fs := [("choices", JArr([JObj(choice)] + rest))];
    assert fs[..0] == [];
    assert Get(fs, "usage") == None;
    assert PyAt(JArr([JObj(choice)] + rest), 0) == Ok(JObj(choice));
  }

  /** Blank lines, lines that are not data lines, and the closing
      `data: [DONE]` line yield nothing and never fail. */
  lemma IgnoredLines(parse: string -> Option<Json>, other: string)
    requires !StartsWith(other, "data: ")
    ensures LineStep(parse, JStr("")) == Ok(None)
    ensures LineStep(parse, JStr(other)) == Ok(None)
    ensures LineStep(parse, JStr("data: [DONE]")) == Ok(None)
  {
    var done := "data: [DONE]";
    assert StartsWith(done, "data: ");
    assert done[6..] == "[DONE]";
  }

  /** A data line whose chunk has delta content yields that content. */
  lemma DataLine(parse: string -> Option<Json>, payload: string, choice: Dict<Json>,
                 delta: Dict<Json>, rest: seq<Json>, content: string)
    requires payload != "[DONE]"
    requires parse(payload) == Some(JObj([("choices", JArr([JObj(choice)] + rest))]))
    requires Get(choice, "delta") == Some(JObj(delta))
    requires Get(delta, "content") == Some(JStr(content)) && content != ""
    ensures LineStep(parse, JStr("data: " + payload)) == Ok(Some(content))
  {
    var line := "data: " + payload;
    assert line[..6] == "data: ";
    assert line[6..] == payload;
  }
}
