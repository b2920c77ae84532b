/**
  The facade contract shared by every vendor: the response record, chat
  messages, the facade's own state, and the vendor transport each facade
  talks to.

  Vendor SDKs and the network are not modelled.  A facade hands its vendor a
  `Request` (the SDK entry point, the client settings and the keyword arguments
  of the call as a JSON object) and receives a `Reply` — the reply object,
  or the exception the SDK raised — from a `Transport` supplied by the
  caller.  A streaming call receives the items the vendor stream produced,
  in order, and whether the stream broke off with an exception after them.
 */
module LlmFacade {

  import opened Base
  import opened Dict
  import opened Json
  import opened Errors

  /** A timestamp as `datetime.now()` returns it; never inspected. */
  datatype Time = Time(ticks: int)

  /** `LLMResponse`.  `usage` and `metadata` are `JNull` when absent. */
  datatype Response = Response(
    content: string,
    model: string,
    provider: string,
    usage: Json,
    metadata: Json,
    timestamp: Time,
    error: Option<string>)

  /** A chat message `{'role': ..., 'content': ...}`; either key may be
      missing from a caller-built dict. */
  datatype Message = Message(role: Option<string>, content: Option<string>)

  function UserMessage(content: string): Message {
    Message(Some("user"), Some(content))
  }

  function AssistantMessage(content: string): Message {
    Message(Some("assistant"), Some(content))
  }

  /** The message as the dict the vendor SDK receives. */
  function MessageJson(m: Message): Json {
    JObj((if m.role.Some? then [("role", JStr(m.role.value))] else [])
         + (if m.content.Some? then [("content", JStr(m.content.value))] else []))
  }

  function MessagesJson(ms: seq<Message>): (r: Json)
    ensures r.JArr? && |r.items| == |ms|
  {
    JArr(seq(|ms|, i requires 0 <= i < |ms| => MessageJson(ms[i])))
  }

  /** The vendors with a facade implementation. */
  datatype Vendor = Mock | Anthropic | Bedrock | Together | Google | HuggingFace | Grok

  /** The state of an `LLMFacade`: bound to one model of one provider, with
      the credential and the merged configuration it was created with. */
  datatype Facade = Facade(
    vendor: Vendor,
    modelName: string,
    providerName: string,
    apiKey: Json,
    config: Dict<Json>)

  /** One call into a vendor SDK: the entry point, what the SDK client was
      constructed with (credential, region or endpoint), and the arguments. */
  datatype Request = Request(api: string, client: Json, args: Json)

  /** The SDK's reply object, or the exception it raised. */
  datatype Reply = Answered(body: Json) | Failed(message: string)

  /** The items a vendor stream produced before it ended, and the exception it
      raised after them, if any. */
  datatype StreamReply = StreamReply(items: seq<Json>, failure: Option<string>)

  /** The vendors as seen from the facades: a call, a streaming call, and
      `json.loads` for the vendors whose stream carries JSON text. */
  datatype Transport = Transport(
    call: Request -> Reply,
    stream: Request -> StreamReply,
    parse: string -> Option<Json>)

  /** A facade method either returns a response or lets an exception escape. */
  datatype Outcome = Returned(response: Response) | Raised(exc: Exc)

  /** What a facade generator produced: the fragments it yielded, and the
      exception that escaped it after them, if any. */
  datatype Fragments = Fragments(chunks: seq<string>, raised: Option<Exc>)

  /** What a facade reads out of a successful vendor reply. */
  datatype Reading = Reading(content: string, usage: Json, metadata: Json)

  /** A vendor reply as a value, or the text of the exception the SDK
      raised. */
  function Reached(reply: Reply): (r: Result<Json, string>)
    ensures reply.Answered? <==> r.Ok?
    ensures r.Ok? ==> r.value == reply.body
    ensures r.Err? ==> r.error == reply.message
  {
    match reply
    case Answered(body) => Ok(body)
    case Failed(m) => Err(m)
  }

  /** A Python operation inside a `try` block: its fault is caught and only
      its text survives. */
  function Caught<T>(r: Result<T, PyFault>): (c: Result<T, string>)
    ensures r.Ok? <==> c.Ok?
    ensures r.Ok? ==> c.value == r.value
    ensures r.Err? ==> c.error == FaultText(r.error)
  {
    match r
    case Ok(v) => Ok(v)
    case Err(e) => Err(FaultText(e))
  }

  /** `json.loads(text)` with the vendor's parser; text that is not JSON
      raises `ValueError`. */
  function Loads(parse: string -> Option<Json>, text: string): (r: Result<Json, PyFault>)
    ensures parse(text).Some? ==> r == Ok(parse(text).value)
    ensures parse(text).None? ==> r.Err? && r.error.ValueError?
  {
    match parse(text)
    case Some(v) => Ok(v)
    case None => Err(ValueError("Expecting value"))
  }

  /** The response a facade's `try ... except Exception as e` block returns:
      the reading, or an error response carrying the exception text. */
  function Respond(f: Facade, r: Result<Reading, string>, now: Time): (resp: Response)
    ensures r.Ok? ==> resp == MakeResponse(f, r.value.content, r.value.usage, r.value.metadata, now)
    ensures r.Err? ==> resp == ErrorResponse(f, r.error, now)
  {
    match r
    case Ok(x) => MakeResponse(f, x.content, x.usage, x.metadata, now)
    case Err(m) => ErrorResponse(f, m, now)
  }

  /** `{'input_tokens': ..., 'output_tokens': ...}`. */
  function TokenUsage(input: Json, output: Json): (r: Json)
    ensures r.JObj? && Get(r.fields, "input_tokens") == Some(input)
    ensures Get(r.fields, "output_tokens") == Some(output)
  {
    var d := [("input_tokens", input), ("output_tokens", output)];
    assert Get(d[..1], "input_tokens") == Some(input);
    JObj(d)
  }

  /** `LLMResponse(content, model, provider, usage, metadata, timestamp=now)`. */
  function MakeResponse(f: Facade, content: string, usage: Json, metadata: Json, now: Time): (r: Response)
    ensures r.error.None? && r.content == content
    ensures r.model == f.modelName && r.provider == f.providerName
  {
    Response(content, f.modelName, f.providerName, usage, metadata, now, None)
  }

  /** The error response every facade returns when its vendor call fails:
      empty content, the exception's text as `error`, no usage or metadata. */
  function ErrorResponse(f: Facade, message: string, now: Time): (r: Response)
    ensures r.content == "" && r.error == Some(message)
    ensures r.usage == JNull && r.metadata == JNull
    ensures r.model == f.modelName && r.provider == f.providerName
  {
    Response("", f.modelName, f.providerName, JNull, JNull, now, Some(message))
  }

  /** The text of the single fragment a failed vendor stream yields. */
  function ErrorFragment(message: string): string {
    "Error: " + message
  }

  /** Python binds `f(x, **params)` only when no key of `params` names a
      parameter `x` (or `self`) already filled positionally. */
  function Clash(params: Dict<Json>, bound: seq<string>): (r: Option<Exc>)
    ensures r.None? <==> forall i :: 0 <= i < |bound| ==> !HasKey(params, bound[i])
    ensures r.Some? ==> r.value.ArgumentClash? && HasKey(params, r.value.name)
  {
    if |bound| == 0 then None
    else if HasKey(params, bound[0]) then Some(ArgumentClash(bound[0]))
    else Clash(params, bound[1..])
  }

  /** How a vendor generator handles one stream item: a fragment to yield,
      nothing, or an exception. */
  type StreamStep = Json -> Result<Option<string>, PyFault>

  /** The fragments the steps yield over `items`, stopping before the first
      item whose step raises. */
  function Yields(items: seq<Json>, step: StreamStep): seq<string> {
    if |items| == 0 then []
    else match step(items[0])
      case Err(_) => []
      case Ok(None) => Yields(items[1..], step)
      case Ok(Some(x)) => [x] + Yields(items[1..], step)
  }

  /** Whether some item's step raises, and which raises first. */
  function FirstFault(items: seq<Json>, step: StreamStep): Option<PyFault> {
    if |items| == 0 then None
    else match step(items[0])
      case Err(e) => Some(e)
      case _ => FirstFault(items[1..], step)
  }

  /** A vendor generator whose body is wrapped in `try ... except Exception
      as e: yield f"Error: {e}"`: it yields what the steps yield, and when a
      step or the stream itself raises, one final error fragment. */
  function CaughtStream(items: seq<Json>, step: StreamStep, failure: Option<string>): (r: seq<string>)
    ensures FirstFault(items, step).None? && failure.None? ==> r == Yields(items, step)
    ensures FirstFault(items, step).Some? ==>
              r == Yields(items, step) + [ErrorFragment(FaultText(FirstFault(items, step).value))]
    ensures FirstFault(items, step).None? && failure.Some? ==>
              r == Yields(items, step) + [ErrorFragment(failure.value)]
  {
    if |items| == 0 then
      (match failure
       case None => []
       case Some(m) => [ErrorFragment(m)])
    else match step(items[0])
      case Err(e) => [ErrorFragment(FaultText(e))]
      case Ok(None) => CaughtStream(items[1..], step, failure)
      case Ok(Some(x)) => [x] + CaughtStream(items[1..], step, failure)
  }

  /** When every item yields a fragment, the stream yields exactly those
      fragments, in item order, and nothing raises. */
  lemma {:induction false} YieldsAll(items: seq<Json>, step: StreamStep, outs: seq<string>)
    requires |outs| == |items|
    requires forall i :: 0 <= i < |items| ==> step(items[i]) == Ok(Some(outs[i]))
    ensures Yields(items, step) == outs
    ensures FirstFault(items, step).None?
  {
    if |items| > 0 {
      YieldsAll(items[1..], step, outs[1..]);
      assert outs == [outs[0]] + outs[1..];
    }
  }

  /** A stream of text pieces (an SDK text stream or a token stream): each
      piece is yielded as it is. */
  function TextItem(item: Json): (r: Result<Option<string>, PyFault>)
    ensures item.JStr? <==> r.Ok?
    ensures item.JStr? ==> r.value == Some(item.s)
  {
    match item
    case JStr(s) => Ok(Some(s))
    case _ => Err(TypeError("text expected"))
  }

  /** A text stream that ends cleanly yields its pieces; one that breaks off
      yields them and then one error fragment. */
  lemma TextStream(pieces: seq<string>, failure: Option<string>)
    ensures var items := seq(|pieces|, i requires 0 <= i < |pieces| => JStr(pieces[i]));
            CaughtStream(items, TextItem, failure)
            == pieces + (if failure.Some? then [ErrorFragment(failure.value)] else [])
  {
    var items := seq(|pieces|, i requires 0 <= i < |pieces| => JStr(pieces[i]));
    YieldsAll(items, TextItem, pieces);
  }

  /** Items that yield nothing are skipped without trace. */
  lemma {:induction false} YieldsSkip(items: seq<Json>, step: StreamStep, rest: seq<Json>)
    requires forall i :: 0 <= i < |items| ==> step(items[i]) == Ok(None)
    ensures Yields(items + rest, step) == Yields(rest, step)
    ensures FirstFault(items + rest, step) == FirstFault(rest, step)
  {
    if |items| > 0 {
      assert (items + rest)[1..] == items[1..] + rest;
      YieldsSkip(items[1..], step, rest);
    } else {
      assert items + rest == rest;
    }
  }

  /** `get_model_info()`. */
  function GetModelInfo(f: Facade): (r: Json)
    ensures r.JObj? && Get(r.fields, "model_name") == Some(JStr(f.modelName))
    ensures Get(r.fields, "provider") == Some(JStr(f.providerName))
    ensures Get(r.fields, "llmconfig") == Some(JObj(f.config))
    ensures Keys(r.fields) == ["model_name", "provider", "llmconfig"]
  {
    var d := [("model_name", JStr(f.modelName)), ("provider", JStr(f.providerName)),
              ("llmconfig", JObj(f.config))];
    LiteralReads(d);
    assert d[0].0 == "model_name" && d[1].0 == "provider" && d[2].0 == "llmconfig";
    JObj(d)
  }

  /** `get_max_tokens()`: the configured `max_tokens`, else 4096. */
  function GetMaxTokens(f: Facade): (r: Json)
    ensures HasKey(f.config, "max_tokens") ==> Some(r) == Get(f.config, "max_tokens")
    ensures !HasKey(f.config, "max_tokens") ==> r == JInt(4096)
  {
    GetOr(f.config, "max_tokens", JInt(4096))
  }

  /** `supports_streaming()` and `supports_chat()`: every facade does both. */
  function SupportsStreaming(f: Facade): (r: bool)
    ensures r
  {
    true
  }

  function SupportsChat(f: Facade): (r: bool)
    ensures r
  {
    true
  }

  /** The facade constructor stores `config or {}`. */
  function NewFacade(vendor: Vendor, modelName: string, providerName: string,
                     apiKey: Json, config: Option<Dict<Json>>): (f: Facade)
    ensures config.None? ==> f.config == []
    ensures config.Some? ==> f.config == config.value
    ensures f.modelName == modelName && f.providerName == providerName
  {
    Facade(vendor, modelName, providerName, apiKey, config.GetOr([]))
  }
}
