/**
  The mock vendor: a provider with three catalogued models and a facade
  that answers from a template, without any vendor call.  The facade sleeps
  for its configured delay before answering; the sleep itself is not
  modelled, only the check `time.sleep` makes of its argument.
 */
module MockVendor {

  import opened Base
  import opened Dict
  import opened Text
  import opened Json
  import opened Errors
  import opened LlmFacade
  import opened Catalogs
  import opened LlmProvider

  /** The mock catalog, in declaration order. */
  function Listing(): seq<(string, Details)> {
    [ ("mock-model", Basic("Basic mock model for testing", 4096)),
      ("mock-model-large", Basic("Large mock model for testing", 8192)),
      ("mock-model-fast", Basic("Fast mock model with minimal delay", 2048)) ]
  }

  /** `MockProvider(provider_name, api_key, config)`. */
  function New(name: string, apiKey: Json, config: Json): (p: Provider)
    ensures p.vendor == Mock && p.name == name && p.apiKey == apiKey
  {
    NewProvider(Mock, name, apiKey, config, Records(Listing()))
  }

  /** The mock catalog names three models, once each, in this order. */
  lemma ListingNames()
    ensures NamesDistinct(Listing())
    ensures Names(Listing()) == ["mock-model", "mock-model-large", "mock-model-fast"]
  {
  }

  /** The mock provider offers its three models, in declaration order. */
  lemma Models(name: string, apiKey: Json, config: Json)
    ensures AvailableModels(New(name, apiKey, config))
            == ["mock-model", "mock-model-large", "mock-model-fast"]
  {
    ListingNames();
    CatalogModels(New(name, apiKey, config), Listing());
  }

  /** The template the facade formats, `"Mock response to: {prompt}"` unless
      configured. */
  function Template(f: Facade): Json {
    GetOr(f.config, "response_template", JStr(DefaultTemplate))
  }

  const DefaultTemplate: string := "Mock response to: {prompt}"

  /** The delay the facade sleeps for, a tenth of a second unless configured. */
  function Delay(f: Facade): Json {
    GetOr(f.config, "response_delay", JFloat(0.1))
  }

  /** What `time.sleep(d)` objects to: a negative length, or a value that is
      not a number (`bool` counts as an integer). */
  function SleepFault(d: Json): (r: Option<PyFault>)
    ensures r.None? <==> (d.JBool? || (d.JInt? && d.i >= 0) || (d.JFloat? && d.r >= 0.0))
  {
    match d
    case JBool(_) => None
    case JInt(i) => if i < 0 then Some(ValueError("sleep length must be non-negative")) else None
    case JFloat(r) => if r < 0.0 then Some(ValueError("sleep length must be non-negative")) else None
    case _ => Some(TypeError("an integer or float is required"))
  }

  /** `template.format(prompt=p)` for the replacement fields a template can
      hold here: `{{` and `}}` stand for single braces, `{prompt}` for `p`;
      any other field is missing (`KeyError`) and a lone `}` or an unclosed
      `{` is malformed (`ValueError`). */
  function Format(t: string, p: string): (r: Result<string, PyFault>)
    decreases |t|
  {
    if |t| == 0 then Ok("")
    else if t[0] == '{' then
      if |t| > 1 && t[1] == '{' then
        var rest :- Format(t[2..], p); Ok("{" + rest)
      else
        match Find(t[1..], '}')
        case None => Err(ValueError("expected '}' before end of string"))
        case Some(j) =>
          var field := t[1..j + 1];
          if field == "prompt" then
            var rest :- Format(t[j + 2..], p); Ok(p + rest)
          else Err(KeyError(field))
    else if t[0] == '}' then
      if |t| > 1 && t[1] == '}' then
        var rest :- Format(t[2..], p); Ok("}" + rest)
      else Err(ValueError("Single '}' encountered in format string"))
    else
      var rest :- Format(t[1..], p); Ok([t[0]] + rest)
  }

  /** `response_template.format(prompt=prompt[:100])`; only a string has a
      `format` method. */
  function Render(template: Json, prompt: string): (r: Result<string, PyFault>)
    ensures !template.JStr? ==> r == Err(AttributeError("format"))
    ensures template.JStr? ==> r == Format(template.s, Take(prompt, 100))
  {
    match template
    case JStr(t) => Format(t, Take(prompt, 100))
    case _ => Err(AttributeError("format"))
  }

  /** The text the facade answers a prompt with, or the exception it raises
      first: the sleep's, then the template's. */
  function Answer(f: Facade, prompt: string): (r: Result<string, PyFault>)
    ensures SleepFault(Delay(f)).Some? ==> r == Err(SleepFault(Delay(f)).value)
    ensures SleepFault(Delay(f)).None? ==> r == Render(Template(f), prompt)
  {
    match SleepFault(Delay(f))
    case Some(e) => Err(e)
    case None => Render(Template(f), prompt)
  }

  /** `generate(prompt, **kwargs)`: the rendered template, word counts as
      usage, and the requested temperature (1.0 by default) in the
      metadata. */
  function Generate(f: Facade, prompt: string, kwargs: Dict<Json>, now: Time): (r: Outcome)
    ensures Answer(f, prompt).Err? ==> r == Raised(Py(Answer(f, prompt).error))
    ensures Answer(f, prompt).Ok? ==> r.Returned? && r.response.content == Answer(f, prompt).value
    ensures r.Returned? ==> r.response.error.None? && r.response.model == f.modelName
    ensures r.Returned? ==> r.response.usage == TokenUsage(JInt(WordCount(prompt)), JInt(WordCount(r.response.content)))
    ensures r.Returned? ==> r.response.metadata.JObj?
                            && Get(r.response.metadata.fields, "mock") == Some(JBool(true))
                            && Get(r.response.metadata.fields, "temperature")
                               == Some(GetOr(kwargs, "temperature", JFloat(1.0)))
  {
    match Answer(f, prompt)
    case Err(e) => Raised(Py(e))
    case Ok(content) =>
      var metadata := [("mock", JBool(true)), ("temperature", GetOr(kwargs, "temperature", JFloat(1.0)))];
      LiteralReads(metadata);
      Returned(MakeResponse(f, content, TokenUsage(JInt(WordCount(prompt)), JInt(WordCount(content))), JObj(metadata), now))
  }

  /** Each word followed by a space: what the streaming methods yield. */
  function WordChunks(content: string): (r: seq<string>)
    ensures |r| == WordCount(content)
    ensures forall i :: 0 <= i < |r| ==> r[i] == Split(content)[i] + " "
  {
    var ws := Split(content);
    seq(|ws|, i requires 0 <= i < |ws| => ws[i] + " ")
  }

  /** `generate_stream(prompt)`: the words of the answer, each followed by a
      space; the exception `generate` would raise instead escapes before the
      first chunk. */
  function GenerateStream(f: Facade, prompt: string): (r: Fragments)
    ensures Answer(f, prompt).Err? ==> r == Fragments([], Some(Py(Answer(f, prompt).error)))
    ensures Answer(f, prompt).Ok? ==> r == Fragments(WordChunks(Answer(f, prompt).value), None)
  {
    match Answer(f, prompt)
    case Err(e) => Fragments([], Some(Py(e)))
    case Ok(content) => Fragments(WordChunks(content), None)
  }

  /** The content of the last message, `"No message"` for an empty chat;
      `KeyError` when the last message has no content. */
  function LastContent(messages: seq<Message>): (r: Result<string, PyFault>)
    ensures |messages| == 0 ==> r == Ok("No message")
    ensures |messages| > 0 ==>
              (r.Ok? <==> messages[|messages| - 1].content.Some?)
  {
    if |messages| == 0 then Ok("No message")
    else match messages[|messages| - 1].content
      case Some(c) => Ok(c)
      case None => Err(KeyError("content"))
  }

  /** `sum(len(m['content'].split()) for m in messages)`. */
  function InputTokens(messages: seq<Message>): (r: Result<nat, PyFault>)
    ensures r.Ok? <==> forall i :: 0 <= i < |messages| ==> messages[i].content.Some?
    ensures r.Err? ==> r.error == KeyError("content")
  {
    if |messages| == 0 then Ok(0)
    else match messages[0].content
      case None => Err(KeyError("content"))
      case Some(c) =>
        var rest :- InputTokens(messages[1..]);
        Ok(WordCount(c) + rest)
  }

  /** The chat answer: `"Mock chat response to: "` and the first hundred
      characters of the last message. */
  function ChatAnswer(f: Facade, messages: seq<Message>): (r: Result<string, PyFault>)
    ensures SleepFault(Delay(f)).None? && LastContent(messages).Ok? ==>
              r == Ok("Mock chat response to: " + Take(LastContent(messages).value, 100))
    ensures r.Err? <==> SleepFault(Delay(f)).Some? || LastContent(messages).Err?
    ensures r.Err? && SleepFault(Delay(f)).None? ==> r.error == KeyError("content")
  {
    match SleepFault(Delay(f))
    case Some(e) => Err(e)
    case None =>
      var last :- LastContent(messages);
      Ok("Mock chat response to: " + Take(last, 100))
  }

  /** `chat(messages)`: the chat answer, the summed word counts of all
      messages as input usage, and the message count in the metadata.  A
      message without content raises `KeyError`. */
  function Chat(f: Facade, messages: seq<Message>, now: Time): (r: Outcome)
    ensures r.Returned? <==> ChatAnswer(f, messages).Ok? && InputTokens(messages).Ok?
    ensures r.Returned? ==>
              r.response.content == ChatAnswer(f, messages).value
              && r.response.usage == TokenUsage(JInt(InputTokens(messages).value), JInt(WordCount(r.response.content)))
              && r.response.metadata.JObj?
              && Get(r.response.metadata.fields, "messages_count") == Some(JInt(|messages|))
    ensures SleepFault(Delay(f)).None? && (exists i :: 0 <= i < |messages| && messages[i].content.None?) ==>
              r == Raised(Py(KeyError("content")))
  {
    match ChatAnswer(f, messages)
    case Err(e) => Raised(Py(e))
    case Ok(content) =>
      match InputTokens(messages)
      case Err(e) => Raised(Py(e))
      case Ok(n) =>
        var metadata := [("mock", JBool(true)), ("messages_count", JInt(|messages|))];
        LiteralReads(metadata);
        Returned(MakeResponse(f, content, TokenUsage(JInt(n), JInt(WordCount(content))), JObj(metadata), now))
  }

  /** `chat_stream(messages)`: the words of the chat answer, each followed
      by a space. */
  function ChatStream(f: Facade, messages: seq<Message>): (r: Fragments)
    ensures ChatAnswer(f, messages).Err? ==> r == Fragments([], Some(Py(ChatAnswer(f, messages).error)))
    ensures ChatAnswer(f, messages).Ok? ==> r == Fragments(WordChunks(ChatAnswer(f, messages).value), None)
  {
    match ChatAnswer(f, messages)
    case Err(e) => Fragments([], Some(Py(e)))
    case Ok(content) => Fragments(WordChunks(content), None)
  }

  /** `validate_api_key()`: the mock accepts any credential. */
  function ValidateApiKey(p: Provider): (r: bool)
    ensures r
  {
    true
  }

  // ---------------------------------------------------------------------
  // Lemmas.

  /** A formatting result with `s` in front. */
  function Prepend(s: string, r: Result<string, PyFault>): Result<string, PyFault> {
    match r
    case Ok(x) => Ok(s + x)
    case Err(e) => Err(e)
  }

  /** A template without braces is returned unchanged. */
  lemma {:induction false} FormatPlain(t: string, p: string)
    requires forall i :: 0 <= i < |t| ==> t[i] != '{' && t[i] != '}'
    ensures Format(t, p) == Ok(t)
    decreases |t|
  {
    if |t| > 0 {
      FormatPlain(t[1..], p);
      assert [t[0]] + t[1..] == t;
    }
  }

  /** Formatting a plain prefix keeps it in front. */
  lemma {:induction false} FormatPrefix(s: string, t: string, p: string)
    requires forall i :: 0 <= i < |s| ==> s[i] != '{' && s[i] != '}'
    ensures Format(s + t, p) == Prepend(s, Format(t, p))
    decreases |s|
  {
    if |s| > 0 {
      assert (s + t)[1..] == s[1..] + t;
      FormatPrefix(s[1..], t, p);
      if Format(t, p).Ok? {
        var x := Format(t, p).value;
        assert [s[0]] + (s[1..] + x) == s + x;
      }
    } else {
      assert s + t == t;
      if Format(t, p).Ok? {
        assert s + Format(t, p).value == Format(t, p).value;
      }
    }
  }

  /** A replacement field: `{prompt}` is replaced by the prompt, any other
      field name fails as `KeyError`. */
  lemma FormatField(field: string, rest: string, p: string)
    requires forall i :: 0 <= i < |field| ==> field[i] != '}'
    requires |field| == 0 || field[0] != '{'
    ensures Format("{" + field + "}" + rest, p)
            == if field == "prompt" then Prepend(p, Format(rest, p)) else Err(KeyError(field))
  {
    var t := "{" + field + "}" + rest;
    var u := t[1..];
    assert u == field + "}" + rest;
    assert u[|field|] == '}';
    assert forall i :: 0 <= i < |field| ==> u[i] == field[i];
    assert Find(u, '}') == Some(|field|);
    assert t[1..|field| + 1] == field;
    assert t[|field| + 2..] == rest;
  }

  /** The default template answers `"Mock response to: "` followed by the
      first hundred characters of the prompt. */
  lemma DefaultAnswer(prompt: string)
    ensures Render(JStr(DefaultTemplate), prompt) == Ok("Mock response to: " + Take(prompt, 100))
  {
    var s := "Mock response to: ";
    var t := "{" + "prompt" + "}" + "";
    assert DefaultTemplate == s + t;
    FormatField("prompt", "", Take(prompt, 100));
    FormatPrefix(s, t, Take(prompt, 100));
    assert Take(prompt, 100) + "" == Take(prompt, 100);
  }

  /** What the stream yields, collected, is the answer's words each followed
      by one space; re-splitting it gives the answer's words back.  So a
      streaming consumer sees exactly the words `generate` would return. */
  lemma StreamMatchesGenerate(f: Facade, prompt: string, kwargs: Dict<Json>, now: Time)
    requires Answer(f, prompt).Ok?
    ensures Generate(f, prompt, kwargs, now).Returned?
    ensures Concat(GenerateStream(f, prompt).chunks)
            == Spaced(Split(Generate(f, prompt, kwargs, now).response.content))
    ensures Split(Concat(GenerateStream(f, prompt).chunks))
            == Split(Generate(f, prompt, kwargs, now).response.content)
  {
    var content := Answer(f, prompt).value;
    ChunksSpaced(Split(content));
    assert WordChunks(content) == seq(|Split(content)|, i requires 0 <= i < |Split(content)| => Split(content)[i] + " ");
    SplitSpacedSplit(content);
  }

  /** Collecting word chunks gives the spaced words. */
  lemma {:induction false} ChunksSpaced(ws: seq<string>)
    ensures Concat(seq(|ws|, i requires 0 <= i < |ws| => ws[i] + " ")) == Spaced(ws)
  {
    if |ws| > 0 {
      var cs := seq(|ws|, i requires 0 <= i < |ws| => ws[i] + " ");
      assert cs[1..] == seq(|ws[1..]|, i requires 0 <= i < |ws[1..]| => ws[1..][i] + " ");
      ChunksSpaced(ws[1..]);
      assert ws[0] + " " + Spaced(ws[1..]) == ws[0] + (" " + Spaced(ws[1..]));
    }
  }

  /** The chat stream carries the words of the chat answer. */
  lemma ChatStreamMatchesChat(f: Facade, messages: seq<Message>)
    requires ChatAnswer(f, messages).Ok?
    ensures Split(Concat(ChatStream(f, messages).chunks)) == Split(ChatAnswer(f, messages).value)
  {
    var content := ChatAnswer(f, messages).value;
    ChunksSpaced(Split(content));
    SplitSpacedSplit(content);
  }
}
