/**
  The Google vendor: a provider with five catalogued Gemini models and a
  facade over the Generative AI SDK, configured with the facade's
  credential.  `generate` asks the model for content; `chat` replays all
  but the last message as chat history (user and system turns as the
  user's, every other role as the model's) and sends the last message's
  content.  Unlike the other facades, chat reads `role` and `content`
  strictly: a message without them fails the call.  Every exception becomes
  an error response or a final `Error: ...` fragment; nothing escapes.
 */
module GoogleVendor {

  import opened Base
  import opened Dict
  import opened Json
  import opened Errors
  import opened LlmFacade
  import opened Catalogs
  import opened LlmProvider

  /** The Google catalog, in declaration order. */
  function Listing(): seq<(string, Details)> {
    [ ("gemini-1.5-pro-latest",
        Windowed("Gemini 1.5 Pro - Most capable model for complex tasks",
                  "1.5", 8192, 2000000, ["Long context", "Complex reasoning", "Multimodal"], 1.25, 5.00)),
      ("gemini-1.5-flash-latest",
        Windowed("Gemini 1.5 Flash - Fast and efficient", "1.5", 8192,
                  1000000, ["Speed", "Cost-effective", "Long context"], 0.075, 0.30)),
      ("gemini-1.0-pro",
        Windowed("Gemini 1.0 Pro - General purpose model", "1.0", 8192, 32000,
                  ["General purpose", "Reliable", "Efficient"], 0.50, 1.50)),
      ("gemini-pro",
        Windowed("Gemini Pro - Optimized for text tasks", "1.0", 8192, 32000,
                  ["Text generation", "Balanced", "Versatile"], 0.50, 1.50)),
      ("gemini-1.5-flash-8b",
        Windowed("Gemini 1.5 Flash 8B - Ultra-fast and low cost", "1.5",
                  8192, 1000000, ["Ultra-fast", "Very low cost", "High volume"], 0.0375, 0.15)) ]
  }

  /** `GoogleProvider(provider_name, api_key, config)`. */
  function New(name: string, apiKey: Json, config: Json): (p: Provider)
    ensures p.vendor == Google && p.name == name && p.apiKey == apiKey
  {
    NewProvider(Google, name, apiKey, config, Records(Listing()))
  }

  /** The Google catalog names five models, once each, in this order. */
  lemma ListingNames()
    ensures NamesDistinct(Listing())
    ensures Names(Listing()) ==
      ["gemini-1.5-pro-latest", "gemini-1.5-flash-latest", "gemini-1.0-pro",
       "gemini-pro", "gemini-1.5-flash-8b"]
  {
  }

  /** The Google provider offers its five models, in declaration order. */
  lemma Models(name: string, apiKey: Json, config: Json)
    ensures AvailableModels(New(name, apiKey, config)) == Names(Listing())
    ensures |AvailableModels(New(name, apiKey, config))| == 5
  {
    ListingNames();
    CatalogModels(New(name, apiKey, config), Listing());
  }

  // ---------------------------------------------------------------------
  // Requests.

  function MaxOutputTokens(kwargs: Dict<Json>): Json {
    GetOr(kwargs, "max_tokens", JInt(2048))
  }

  function Temperature(kwargs: Dict<Json>): Json {
    GetOr(kwargs, "temperature", JFloat(0.9))
  }

  /** The generation settings `generate` passes: 2048 output tokens,
      temperature 0.9, top-p 1.0 and top-k 40 unless requested otherwise. */
  function FullSettings(kwargs: Dict<Json>): Json {
    JObj([("max_output_tokens", MaxOutputTokens(kwargs)), ("temperature", Temperature(kwargs)),
          ("top_p", GetOr(kwargs, "top_p", JFloat(1.0))), ("top_k", GetOr(kwargs, "top_k", JInt(40)))])
  }

  /** The generation settings streaming and chat pass: the token limit and
      the temperature only. */
  function ShortSettings(kwargs: Dict<Json>): Json {
    JObj([("max_output_tokens", MaxOutputTokens(kwargs)), ("temperature", Temperature(kwargs))])
  }

  function GenerateRequest(f: Facade, prompt: string, kwargs: Dict<Json>): Request {
    Request("generate_content", f.apiKey,
            JObj([("model", JStr(f.modelName)), ("contents", JStr(prompt)),
                  ("generation_config", FullSettings(kwargs))]))
  }

  function StreamRequest(f: Facade, prompt: string, kwargs: Dict<Json>): Request {
    Request("generate_content", f.apiKey,
            JObj([("model", JStr(f.modelName)), ("contents", JStr(prompt)),
                  ("generation_config", ShortSettings(kwargs)), ("stream", JBool(true))]))
  }

  /** Whose turn a history entry records: the user's for user and system
      messages, the model's for every other role. */
  function Speaker(role: string): string {
    if role == "user" || role == "system" then "user" else "model"
  }

  /** One history entry; `msg['role']` and `msg['content']` are read
      strictly, the role first. */
  function HistoryEntry(m: Message): (r: Result<Json, PyFault>)
    ensures r.Ok? <==> m.role.Some? && m.content.Some?
    ensures m.role.None? ==> r == Err(KeyError("role"))
    ensures m.role.Some? && m.content.None? ==> r == Err(KeyError("content"))
  {
    match m.role
    case None => Err(KeyError("role"))
    case Some(role) =>
      match m.content
      case None => Err(KeyError("content"))
      case Some(c) => Ok(JObj([("role", JStr(Speaker(role))), ("parts", StrList([c]))]))
  }

  /** The fault of the first message whose history entry cannot be built. */
  function FirstEntryFault(ms: seq<Message>): (e: PyFault)
    requires exists i :: 0 <= i < |ms| && HistoryEntry(ms[i]).Err?
    ensures exists i :: 0 <= i < |ms| && HistoryEntry(ms[i]) == Err(e)
                        && forall j :: 0 <= j < i ==> HistoryEntry(ms[j]).Ok?
  {
    if HistoryEntry(ms[0]).Err? then
      HistoryEntry(ms[0]).error
    else
      var i :| 0 <= i < |ms| && HistoryEntry(ms[i]).Err?;
      assert HistoryEntry(ms[1..][i - 1]).Err?;
      var e := FirstEntryFault(ms[1..]);
      var k :| 0 <= k < |ms[1..]| && HistoryEntry(ms[1..][k]) == Err(e)
               && forall j :: 0 <= j < k ==> HistoryEntry(ms[1..][j]).Ok?;
      assert forall j :: 1 <= j < k + 1 ==> ms[j] == ms[1..][j - 1];
      assert HistoryEntry(ms[k + 1]) == Err(e);
      e
  }

  /** The chat history for the given messages, built entry by entry; the
      first message that cannot be read stops it with its fault. */
  function History(ms: seq<Message>): (r: Result<seq<Json>, PyFault>)
    ensures r.Ok? <==> forall i :: 0 <= i < |ms| ==> HistoryEntry(ms[i]).Ok?
    ensures r.Ok? ==> |r.value| == |ms|
                      && forall i :: 0 <= i < |ms| ==> r.value[i] == HistoryEntry(ms[i]).value
    ensures r.Err? ==> exists i :: 0 <= i < |ms| && HistoryEntry(ms[i]) == Err(r.error)
                                   && forall j :: 0 <= j < i ==> HistoryEntry(ms[j]).Ok?
  {
    if forall i :: 0 <= i < |ms| ==> HistoryEntry(ms[i]).Ok? then
      Ok(seq(|ms|, i requires 0 <= i < |ms| => HistoryEntry(ms[i]).value))
    else
      Err(FirstEntryFault(ms))
  }

  /** `messages[-1]['content']`. */
  function LastContent(ms: seq<Message>): (r: Result<string, PyFault>)
    ensures |ms| == 0 ==> r == Err(IndexError)
    ensures |ms| > 0 ==> (r.Ok? <==> ms[|ms| - 1].content.Some?)
    ensures |ms| > 0 && r.Ok? ==> r.value == ms[|ms| - 1].content.value
  {
    if |ms| == 0 then Err(IndexError)
    else match ms[|ms| - 1].content
      case None => Err(KeyError("content"))
      case Some(c) => Ok(c)
  }

  /** All messages but the last (`messages[:-1]`, empty for no message). */
  function Earlier(ms: seq<Message>): seq<Message> {
    if |ms| == 0 then [] else ms[..|ms| - 1]
  }

  /** The chat call: history built and last content read before the SDK is
      reached, so their faults precede any call. */
  function ChatRequest(f: Facade, history: seq<Json>, last: string, settings: Option<Json>): Request {
    Request("send_message", f.apiKey,
            JObj([("model", JStr(f.modelName)), ("history", JArr(history)), ("content", JStr(last))]
                 + (match settings
                    case Some(s) => [("generation_config", s)]
                    case None => [("stream", JBool(true))])))
  }

  // ---------------------------------------------------------------------
  // Replies.

  /** `response.text if response.text else ""`. */
  function ReplyText(response: Json): Result<string, PyFault> {
    var text :- Attr(response, "text");
    if !Truthy(text) then Ok("") else AsText(text)
  }

  /** `response.usage_metadata.<field> if hasattr(...) else 0`. */
  function UsageCount(response: Json, field: string): Result<Json, PyFault> {
    if !HasAttr(response, "usage_metadata") then Ok(JInt(0))
    else
      var usage :- Attr(response, "usage_metadata");
      Attr(usage, field)
  }

  /** The usage both `generate` and `chat` report. */
  function ReplyUsage(response: Json): Result<Json, PyFault> {
    var prompt :- UsageCount(response, "prompt_token_count");
    var completion :- UsageCount(response, "candidates_token_count");
    Ok(JObj([("prompt_tokens", prompt), ("completion_tokens", completion)]))
  }

  /** The first candidate's finish reason, `None` without candidates. */
  function FinishReason(response: Json): Result<Json, PyFault> {
    var candidates :- Attr(response, "candidates");
    if !Truthy(candidates) then Ok(JNull)
    else
      var first :- PyAt(candidates, 0);
      Attr(first, "finish_reason")
  }

  function GenerateReading(response: Json): Result<Reading, PyFault> {
    var content :- ReplyText(response);
    var usage :- ReplyUsage(response);
    var reason :- FinishReason(response);
    Ok(Reading(content, usage, JObj([("finish_reason", reason)])))
  }

  function ChatReading(response: Json): Result<Reading, PyFault> {
    var content :- ReplyText(response);
    var usage :- ReplyUsage(response);
    Ok(Reading(content, usage, JNull))
  }

  /** `generate(prompt, **kwargs)`; a failure anywhere gives an error
      response instead. */
  function Generate(t: Transport, f: Facade, prompt: string, kwargs: Dict<Json>, now: Time): (r: Response)
    ensures r.model == f.modelName && r.provider == f.providerName
    ensures var reply := t.call(GenerateRequest(f, prompt, kwargs));
            (reply.Failed? ==> r == ErrorResponse(f, reply.message, now))
            && (r.error.None? <==> reply.Answered? && GenerateReading(reply.body).Ok?)
  {
    var outcome :=
      var response :- Reached(t.call(GenerateRequest(f, prompt, kwargs)));
      Caught(GenerateReading(response));
    Respond(f, outcome, now)
  }

  /** One streamed chunk: its text when non-empty. */
  function ChunkText(chunk: Json): Result<Option<string>, PyFault> {
    var text :- Attr(chunk, "text");
    if !Truthy(text) then Ok(None)
    else
      var s :- AsText(text);
      Ok(Some(s))
  }

  /** `generate_stream(prompt, **kwargs)`. */
  function GenerateStream(t: Transport, f: Facade, prompt: string, kwargs: Dict<Json>): (r: Fragments)
    ensures r.raised.None?
    ensures var s := t.stream(StreamRequest(f, prompt, kwargs));
            r.chunks == CaughtStream(s.items, ChunkText, s.failure)
  {
    var s := t.stream(StreamRequest(f, prompt, kwargs));
    Fragments(CaughtStream(s.items, ChunkText, s.failure), None)
  }

  /** What `chat` prepares before calling: the history of the earlier
      messages and the last message's content. */
  function ChatInput(ms: seq<Message>): (r: Result<(seq<Json>, string), PyFault>)
    ensures r.Ok? <==> History(Earlier(ms)).Ok? && LastContent(ms).Ok?
    ensures r.Ok? ==> r.value == (History(Earlier(ms)).value, LastContent(ms).value)
  {
    var history :- History(Earlier(ms));
    var last :- LastContent(ms);
    Ok((history, last))
  }

  /** `chat(messages, **kwargs)`; a failure anywhere, including a message
      that cannot be read, gives an error response instead. */
  function Chat(t: Transport, f: Facade, messages: seq<Message>, kwargs: Dict<Json>, now: Time): (r: Response)
    ensures r.model == f.modelName && r.provider == f.providerName && r.metadata == JNull
    ensures ChatInput(messages).Err? ==> r == ErrorResponse(f, FaultText(ChatInput(messages).error), now)
    ensures ChatInput(messages).Ok? ==>
              var (history, last) := ChatInput(messages).value;
              var reply := t.call(ChatRequest(f, history, last, Some(ShortSettings(kwargs))));
              (reply.Failed? ==> r == ErrorResponse(f, reply.message, now))
              && (r.error.None? <==> reply.Answered? && ChatReading(reply.body).Ok?)
  {
    var outcome :=
      var input :- Caught(ChatInput(messages));
      var response :- Reached(t.call(ChatRequest(f, input.0, input.1, Some(ShortSettings(kwargs)))));
      Caught(ChatReading(response));
    Respond(f, outcome, now)
  }

  /** `chat_stream(messages, **kwargs)`: no generation settings are passed;
      a message that cannot be read gives the single error fragment. */
  function ChatStream(t: Transport, f: Facade, messages: seq<Message>, kwargs: Dict<Json>): (r: Fragments)
    ensures r.raised.None?
    ensures ChatInput(messages).Err? ==> r.chunks == [ErrorFragment(FaultText(ChatInput(messages).error))]
    ensures ChatInput(messages).Ok? ==>
              var (history, last) := ChatInput(messages).value;
              var s := t.stream(ChatRequest(f, history, last, None));
              r.chunks == CaughtStream(s.items, ChunkText, s.failure)
  {
    match ChatInput(messages)
    case Err(e) => Fragments([ErrorFragment(FaultText(e))], None)
    case Ok((history, last)) =>
      var s := t.stream(ChatRequest(f, history, last, None));
      Fragments(CaughtStream(s.items, ChunkText, s.failure), None)
  }

  // ---------------------------------------------------------------------
  // Lemmas.

  /** The history replays every earlier message in order: the user's turn
      for user and system messages, the model's otherwise, with the content
      as the only part. */
  lemma HistoryReplays(ms: seq<Message>, i: nat)
    requires i < |ms| && ms[i].role.Some? && ms[i].content.Some?
    requires History(ms).Ok?
    ensures History(ms).value[i].JObj?
    ensures var e := History(ms).value[i].fields;
            Get(e, "role") == Some(JStr(Speaker(ms[i].role.value)))
            && Get(e, "parts") == Some(StrList([ms[i].content.value]))
  {
    var e := History(ms).value[i].fields;
    assert e[..1] == [e[0]];
  }

  /** An empty chat fails with an index error before any call. */
  lemma EmptyChat(t: Transport, f: Facade, kwargs: Dict<Json>, now: Time)
    ensures Chat(t, f, [], kwargs, now) == ErrorResponse(f, FaultText(IndexError), now)
    ensures ChatStream(t, f, [], kwargs).chunks == [ErrorFragment(FaultText(IndexError))]
  {
  }

  /** An earlier message without a role fails the chat with `KeyError`,
      where the other facades would default it to "user". */
  lemma RolelessTurn(t: Transport, f: Facade, m: Message, last: Message, kwargs: Dict<Json>, now: Time)
    requires m.role.None?
    ensures Chat(t, f, [m, last], kwargs, now) == ErrorResponse(f, FaultText(KeyError("role")), now)
  {
    assert Earlier([m, last]) == [m];
    assert HistoryEntry([m][0]).Err?;
    assert History([m]) == Err(KeyError("role"));
  }

  /** A single message is sent as it is, with an empty history. */
  lemma SingleMessage(m: Message)
    requires m.content.Some?
    ensures ChatInput([m]) == Ok(([], m.content.value))
  {
    assert Earlier([m]) == [];
  }

  /** A text stream yields its non-empty pieces; empty ones are skipped. */
  lemma ChunkShapes(text: string)
    ensures ChunkText(JObj([("text", JStr(text))])) == if text == "" then Ok(None) else Ok(Some(text))
  {
  }

  /** `generate` asks for 2048 output tokens at temperature 0.9 with top-p
      1.0 and top-k 40 unless told otherwise. */
  lemma GenerateDefaults()
    ensures var s := FullSettings([]).fields;
            Get(s, "max_output_tokens") == Some(JInt(2048)) && Get(s, "temperature") == Some(JFloat(0.9))
            && Get(s, "top_p") == Some(JFloat(1.0)) && Get(s, "top_k") == Some(JInt(40))
  {
    var s := FullSettings([]).fields;
    LiteralReads(s);
    assert s[0].0 == "max_output_tokens" && s[1].0 == "temperature" && s[2].0 == "top_p" && s[3].0 == "top_k";
  }
}
