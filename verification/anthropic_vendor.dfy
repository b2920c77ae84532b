/**
  The Anthropic vendor: a provider with four catalogued Claude models and a
  facade over the Messages interface, with a client created from the
  facade's credential.  `generate` sends the prompt as a single user
  message; `chat` sends the messages as given.  Both read the first content
  block's text, the token counts and the stop reason; both streaming methods
  yield the SDK's text stream.  Every exception becomes an error response or
  a final `Error: ...` fragment; nothing escapes.
 */
module AnthropicVendor {

  import opened Base
  import opened Dict
  import opened Json
  import opened Errors
  import opened LlmFacade
  import opened Catalogs
  import opened LlmProvider

  /** The Anthropic catalog, in declaration order. */
  function Listing(): seq<(string, Details)> {
    [ ("claude-3-5-sonnet-20241022",
        Priced("Most intelligent Claude model, balancing intelligence with speed", "3.5", 200000,
            ["Complex reasoning", "Code generation", "Analysis"], 3.00, 15.00)),
      ("claude-3-opus-20240229",
        Priced("Most powerful Claude model for complex tasks", "3.0", 200000,
            ["Complex analysis", "Research", "Advanced reasoning"], 15.00, 75.00)),
      ("claude-3-sonnet-20240229",
        Priced("Balanced Claude model for various tasks", "3.0", 200000,
            ["General purpose", "Cost-effective", "Reliable"], 3.00, 15.00)),
      ("claude-3-haiku-20240307",
        Priced("Fastest Claude model for simple tasks", "3.0", 200000,
            ["Speed", "Low cost", "Simple tasks"], 0.25, 1.25)) ]
  }

  /** `AnthropicProvider(provider_name, api_key, config)`. */
  function New(name: string, apiKey: Json, config: Json): (p: Provider)
    ensures p.vendor == Anthropic && p.name == name && p.apiKey == apiKey
  {
    NewProvider(Anthropic, name, apiKey, config, Records(Listing()))
  }

  /** The Anthropic catalog names four models, once each, in this order. */
  lemma ListingNames()
    ensures NamesDistinct(Listing())
    ensures Names(Listing()) ==
      ["claude-3-5-sonnet-20241022", "claude-3-opus-20240229",
       "claude-3-sonnet-20240229", "claude-3-haiku-20240307"]
  {
  }

  /** The Anthropic provider offers its four models, in declaration order. */
  lemma Models(name: string, apiKey: Json, config: Json)
    ensures AvailableModels(New(name, apiKey, config)) == Names(Listing())
    ensures |AvailableModels(New(name, apiKey, config))| == 4
  {
    ListingNames();
    CatalogModels(New(name, apiKey, config), Listing());
  }

  // ---------------------------------------------------------------------
  // Requests and replies.

  /** `client.messages.create(...)` or `client.messages.stream(...)`: the
      model, 1024 tokens and temperature 1.0 unless requested otherwise, and
      the messages. */
  function MessagesRequest(api: string, f: Facade, messages: Json, kwargs: Dict<Json>): Request {
    Request(api, f.apiKey,
            JObj([("model", JStr(f.modelName)),
                  ("max_tokens", GetOr(kwargs, "max_tokens", JInt(1024))),
                  ("temperature", GetOr(kwargs, "temperature", JFloat(1.0))),
                  ("messages", messages)]))
  }

  /** `message.content[0].text if message.content else ""`. */
  function FirstText(message: Json): Result<string, PyFault> {
    var blocks :- Attr(message, "content");
    if !Truthy(blocks) then Ok("")
    else
      var first :- PyAt(blocks, 0);
      var text :- Attr(first, "text");
      AsText(text)
  }

  /** What both `generate` and `chat` read out of a message: the first
      block's text, the token counts and the stop reason. */
  function ReadMessage(message: Json): Result<Reading, PyFault> {
    var content :- FirstText(message);
    var usage :- Attr(message, "usage");
    var input :- Attr(usage, "input_tokens");
    var output :- Attr(usage, "output_tokens");
    var reason :- Attr(message, "stop_reason");
    Ok(Reading(content, TokenUsage(input, output), JObj([("stop_reason", reason)])))
  }

  /** One `messages.create` call, read; a failure anywhere gives an error
      response instead. */
  function Create(t: Transport, f: Facade, messages: Json, kwargs: Dict<Json>, now: Time): (r: Response)
    ensures r.model == f.modelName && r.provider == f.providerName
    ensures var reply := t.call(MessagesRequest("messages.create", f, messages, kwargs));
            (reply.Failed? ==> r == ErrorResponse(f, reply.message, now))
            && (r.error.None? <==> reply.Answered? && ReadMessage(reply.body).Ok?)
            && (r.error.None? ==> r.content == FirstText(reply.body).value)
  {
    var outcome :=
      var message :- Reached(t.call(MessagesRequest("messages.create", f, messages, kwargs)));
      Caught(ReadMessage(message));
    Respond(f, outcome, now)
  }

  /** `generate(prompt, **kwargs)`: the prompt as one user message. */
  function Generate(t: Transport, f: Facade, prompt: string, kwargs: Dict<Json>, now: Time): Response
  {
    Create(t, f, MessagesJson([UserMessage(prompt)]), kwargs, now)
  }

  /** `chat(messages, **kwargs)`: the messages as given. */
  function Chat(t: Transport, f: Facade, messages: seq<Message>, kwargs: Dict<Json>, now: Time): Response
  {
    Create(t, f, MessagesJson(messages), kwargs, now)
  }

  /** The text stream of one `messages.stream` call; a failure ends it with
      one error fragment. */
  function Stream(t: Transport, f: Facade, messages: Json, kwargs: Dict<Json>): (r: Fragments)
    ensures r.raised.None?
    ensures var s := t.stream(MessagesRequest("messages.stream", f, messages, kwargs));
            r.chunks == CaughtStream(s.items, TextItem, s.failure)
  {
    var s := t.stream(MessagesRequest("messages.stream", f, messages, kwargs));
    Fragments(CaughtStream(s.items, TextItem, s.failure), None)
  }

  /** `generate_stream(prompt, **kwargs)`. */
  function GenerateStream(t: Transport, f: Facade, prompt: string, kwargs: Dict<Json>): Fragments
  {
    Stream(t, f, MessagesJson([UserMessage(prompt)]), kwargs)
  }

  /** `chat_stream(messages, **kwargs)`. */
  function ChatStream(t: Transport, f: Facade, messages: seq<Message>, kwargs: Dict<Json>): Fragments
  {
    Stream(t, f, MessagesJson(messages), kwargs)
  }

  // ---------------------------------------------------------------------
  // Lemmas.

  /** `generate` is exactly a one-message chat, streamed or not. */
  lemma GenerateIsSingleTurnChat(t: Transport, f: Facade, prompt: string, kwargs: Dict<Json>, now: Time)
    ensures Generate(t, f, prompt, kwargs, now) == Chat(t, f, [UserMessage(prompt)], kwargs, now)
    ensures GenerateStream(t, f, prompt, kwargs) == ChatStream(t, f, [UserMessage(prompt)], kwargs)
  {
  }

  /** Every call asks for 1024 tokens at temperature 1.0 unless told
      otherwise, for the facade's model; `generate` sends the prompt as the
      one user message. */
  lemma RequestDefaults(api: string, f: Facade, prompt: string)
    ensures var args := MessagesRequest(api, f, MessagesJson([UserMessage(prompt)]), []).args.fields;
            Get(args, "model") == Some(JStr(f.modelName))
            && Get(args, "max_tokens") == Some(JInt(1024))
            && Get(args, "temperature") == Some(JFloat(1.0))
            && Get(args, "messages") == Some(JArr([JObj([("role", JStr("user")), ("content", JStr(prompt))])]))
  {
    var args := MessagesRequest(api, f, MessagesJson([UserMessage(prompt)]), []).args.fields;
    LiteralReads(args);
    assert args[0].0 == "model" && args[1].0 == "max_tokens";
    assert args[2].0 == "temperature" && args[3].0 == "messages";
    var m := UserMessage(prompt);
    assert MessageJson(m) == JObj([("role", JStr("user")), ("content", JStr(prompt))]) by {
      assert [("role", JStr("user"))] + [("content", JStr(prompt))]
             == [("role", JStr("user")), ("content", JStr(prompt))];
    }
    assert MessagesJson([m]) == JArr([MessageJson(m)]);
  }

  /** A message answers with its first block's text, its token counts and
      its stop reason; a message without blocks answers with the empty
      text. */
  lemma MessageReply(block: Dict<Json>, rest: seq<Json>, usage: Dict<Json>, text: string,
                     input: Json, output: Json, reason: Json)
    requires Get(block, "text") == Some(JStr(text))
    requires Get(usage, "input_tokens") == Some(input) && Get(usage, "output_tokens") == Some(output)
    ensures var m := JObj([("content", JArr([JObj(block)] + rest)), ("usage", JObj(usage)),
                           ("stop_reason", reason)]);
            ReadMessage(m) == Ok(Reading(text, TokenUsage(input, output), JObj([("stop_reason", reason)])))
    ensures var m := JObj([("content", JArr([])), ("usage", JObj(usage)), ("stop_reason", reason)]);
            FirstText(m) == Ok("")
  {
    var m := [("content", JArr([JObj(block)] + rest)), ("usage", JObj(usage)), ("stop_reason", reason)];
    LiteralReads(m);
    assert m[0].0 == "content" && m[1].0 == "usage" && m[2].0 == "stop_reason";
    var e := [("content", JArr([])), ("usage", JObj(usage)), ("stop_reason", reason)];
    LiteralReads(e);
    assert e[0].0 == "content";
  }

  /** The streaming methods yield the SDK's text pieces unchanged, followed
      by one error fragment only when the stream breaks off. */
  lemma StreamPieces(t: Transport, f: Facade, messages: seq<Message>, kwargs: Dict<Json>,
                     pieces: seq<string>, failure: Option<string>)
    requires t.stream(MessagesRequest("messages.stream", f, MessagesJson(messages), kwargs))
             == StreamReply(seq(|pieces|, i requires 0 <= i < |pieces| => JStr(pieces[i])), failure)
    ensures ChatStream(t, f, messages, kwargs).chunks
            == pieces + (if failure.Some? then [ErrorFragment(failure.value)] else [])
  {
    TextStream(pieces, failure);
  }
}
