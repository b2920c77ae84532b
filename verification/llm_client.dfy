/**
  `LLMClient`: a facade, the interaction history and the default
  parameters every call merges its keyword arguments into.

  Every call catches what its facade raises and answers with an error
  response (or, streaming, a final `Error: ...` fragment) instead.  A call
  that succeeds is recorded in the history when the caller asks for that.
  The history methods slice the history as `Interactions.Recent` does, so
  `n == 0` takes every exchange.
 */
module LlmClient {

  import opened Base
  import opened Dict
  import opened Text
  import opened Json
  import opened Errors
  import opened LlmFacade
  import opened Interactions
  import Facades

  datatype Client = Client(facade: Facade, history: History, defaults: Dict<Json>)

  /** `LLMClient(facade, history_size)`: no default parameters and an empty
      history bounded by `history_size`, which must be a valid deque bound. */
  function New(facade: Facade, historySize: Json): (r: Result<Client, Exc>)
    ensures r.Ok? <==> Interactions.New(historySize).Ok?
    ensures r.Err? ==> r.error == Interactions.New(historySize).error
    ensures r.Ok? ==> r.value.facade == facade && r.value.defaults == []
                      && IsEmpty(r.value.history) && Valid(r.value.history)
  {
    var h :- Interactions.New(historySize);
    Ok(Client(facade, h, []))
  }

  /** `{**self._default_params, **kwargs}`. */
  function Params(c: Client, kwargs: Dict<Json>): Dict<Json> {
    Update(c.defaults, kwargs)
  }

  /** The response the client's `except` block returns. */
  function Failure(f: Facade, e: Exc, now: Time): (r: Response)
    ensures r == ErrorResponse(f, Errors.Message(e), now)
  {
    Response("", f.modelName, f.providerName, JNull, JNull, now, Some(Errors.Message(e)))
  }

  /** The conversation `generate` sends with history: every stored exchange,
      then the prompt. */
  function WithHistory(h: History, prompt: string): seq<Message> {
    AsMessages(h, None) + [UserMessage(prompt)]
  }

  /** Whether a call with `use_history` goes through the chat method. */
  predicate ChatsWithHistory(c: Client, useHistory: bool) {
    useHistory && !IsEmpty(c.history)
  }

  /** `generate(prompt, use_history, save_to_history, **kwargs)`. */
  function Generate(t: Transport, c: Client, prompt: string, useHistory: bool, save: bool,
                    kwargs: Dict<Json>, now: Time): (r: (Client, Response))
    ensures r.0.facade == c.facade && r.0.defaults == c.defaults
    ensures r.1.model == c.facade.modelName && r.1.provider == c.facade.providerName
    ensures save && r.1.error.None? ==> r.0.history == Add(c.history, prompt, r.1)
    ensures !save || r.1.error.Some? ==> r.0 == c
    ensures var o := if ChatsWithHistory(c, useHistory)
                     then Facades.Chat(t, c.facade, WithHistory(c.history, prompt), Params(c, kwargs), now)
                     else Facades.Generate(t, c.facade, prompt, Params(c, kwargs), now);
            r.1 == if o.Raised? then Failure(c.facade, o.exc, now) else o.response
  {
    var params := Params(c, kwargs);
    var outcome :=
      if ChatsWithHistory(c, useHistory)
      then Facades.Chat(t, c.facade, WithHistory(c.history, prompt), params, now)
      else Facades.Generate(t, c.facade, prompt, params, now);
    match outcome
    case Raised(e) => (c, Failure(c.facade, e, now))
    case Returned(response) =>
      if save && response.error.None? then (c.(history := Add(c.history, prompt, response)), response)
      else (c, response)
  }

  /** The facade stream `generate_stream` consumes: the chat stream over the
      history and the prompt, or the plain generation stream. */
  function FacadeStream(t: Transport, c: Client, prompt: string, useHistory: bool, kwargs: Dict<Json>): Fragments {
    if ChatsWithHistory(c, useHistory)
    then Facades.ChatStream(t, c.facade, WithHistory(c.history, prompt), Params(c, kwargs))
    else Facades.GenerateStream(t, c.facade, prompt, Params(c, kwargs))
  }

  /** `generate_stream(prompt, use_history, save_to_history, **kwargs)`,
      consumed to the end: the facade's fragments, then one error fragment
      if the facade raised.  Only a stream that did not raise is recorded,
      as one response holding everything it yielded. */
  function GenerateStream(t: Transport, c: Client, prompt: string, useHistory: bool, save: bool,
                          kwargs: Dict<Json>, now: Time): (r: (Client, seq<string>))
    ensures var s := FacadeStream(t, c, prompt, useHistory, kwargs);
            && (s.raised.Some? ==> r == (c, s.chunks + [ErrorFragment(Errors.Message(s.raised.value))]))
            && (s.raised.None? ==> r.1 == s.chunks)
            && (s.raised.None? && save ==>
                  r.0 == c.(history := Add(c.history, prompt, StreamResponse(c.facade, r.1, now))))
            && (s.raised.None? && !save ==> r.0 == c)
  {
    var stream := FacadeStream(t, c, prompt, useHistory, kwargs);
    match stream.raised
    case Some(e) => (c, stream.chunks + [ErrorFragment(Errors.Message(e))])
    case None =>
      if save then (c.(history := Add(c.history, prompt, StreamResponse(c.facade, stream.chunks, now))), stream.chunks)
      else (c, stream.chunks)
  }

  /** The response a finished stream is recorded as: the joined fragments. */
  function StreamResponse(f: Facade, chunks: seq<string>, now: Time): (r: Response)
    ensures r == MakeResponse(f, Concat(chunks), JNull, JNull, now)
  {
    Response(Concat(chunks), f.modelName, f.providerName, JNull, JNull, now, None)
  }

  /** `next((m['content'] for m in reversed(messages) if m.get('role') ==
      'user'), '')`: the content of the last user message, `""` when there
      is none, `KeyError` when that message has no content. */
  function LastUserContent(ms: seq<Message>): (r: Result<string, PyFault>)
    ensures (forall i :: 0 <= i < |ms| ==> ms[i].role != Some("user")) ==> r == Ok("")
    ensures forall i :: 0 <= i < |ms| && ms[i].role == Some("user")
                        && (forall j :: i < j < |ms| ==> ms[j].role != Some("user"))
                        ==> (if ms[i].content.Some? then r == Ok(ms[i].content.value)
                             else r == Err(KeyError("content")))
  {
    if |ms| == 0 then Ok("")
    else
      var last := ms[|ms| - 1];
      if last.role == Some("user") then
        match last.content
        case Some(text) => Ok(text)
        case None => Err(KeyError("content"))
      else
        var r := LastUserContent(ms[..|ms| - 1]);
        assert forall i :: 0 <= i < |ms| - 1 ==> ms[i] == ms[..|ms| - 1][i];
        r
  }

  /** `chat(messages, save_to_history, **kwargs)`.  A successful chat is
      recorded under the last user message's content, unless that is
      empty; reading it can raise, which turns the answer into an error
      response. */
  function Chat(t: Transport, c: Client, messages: seq<Message>, save: bool,
                kwargs: Dict<Json>, now: Time): (r: (Client, Response))
    ensures r.0.facade == c.facade && r.0.defaults == c.defaults
    ensures r.1.model == c.facade.modelName && r.1.provider == c.facade.providerName
    ensures r.0 != c ==> save && r.1.error.None?
                         && LastUserContent(messages).Ok? && LastUserContent(messages).value != ""
                         && r.0.history == Add(c.history, LastUserContent(messages).value, r.1)
    ensures var o := Facades.Chat(t, c.facade, messages, Params(c, kwargs), now);
            && (o.Raised? ==> r == (c, Failure(c.facade, o.exc, now)))
            && (o.Returned? && (!save || o.response.error.Some? || |messages| == 0) ==> r == (c, o.response))
            && (o.Returned? && save && o.response.error.None? && |messages| > 0 ==>
                  match LastUserContent(messages)
                  case Err(fault) => r == (c, Failure(c.facade, Py(fault), now))
                  case Ok(user) =>
                    r == (if user != "" then c.(history := Add(c.history, user, o.response)) else c, o.response))
  {
    match Facades.Chat(t, c.facade, messages, Params(c, kwargs), now)
    case Raised(e) => (c, Failure(c.facade, e, now))
    case Returned(response) =>
      if save && response.error.None? && |messages| > 0 then
        match LastUserContent(messages)
        case Err(fault) => (c, Failure(c.facade, Py(fault), now))
        case Ok(user) =>
          if user != "" then (c.(history := Add(c.history, user, response)), response)
          else (c, response)
      else (c, response)
  }

  /** The conversation `multi_shot_generate` sends: the exchanges
      `get_history(n_shots)` returns, then the prompt. */
  function ShotMessages(h: History, prompt: string, nShots: Option<int>): seq<Message> {
    AsMessages(h, nShots) + [UserMessage(prompt)]
  }

  /** `multi_shot_generate(prompt, n_shots, **kwargs)`: a chat over the
      newest `n_shots` exchanges and the prompt.  A `save_to_history`
      keyword reaches `chat`'s own parameter; a `messages` keyword collides
      with the positional conversation and escapes. */
  function MultiShot(t: Transport, c: Client, prompt: string, nShots: Option<int>,
                     kwargs: Dict<Json>, now: Time): (r: (Client, Outcome))
    ensures Clash(kwargs, ["self", "messages"]).Some? ==> r == (c, Raised(Clash(kwargs, ["self", "messages"]).value))
    ensures Clash(kwargs, ["self", "messages"]).None? ==>
              var save := !HasKey(kwargs, "save_to_history") || Truthy(Get(kwargs, "save_to_history").value);
              var chat := Chat(t, c, ShotMessages(c.history, prompt, nShots), save,
                               Remove(kwargs, "save_to_history"), now);
              r == (chat.0, Returned(chat.1))
  {
    match Clash(kwargs, ["self", "messages"])
    case Some(e) => (c, Raised(e))
    case None =>
      var save := match Get(kwargs, "save_to_history") case Some(v) => Truthy(v) case None => true;
      var chat := Chat(t, c, ShotMessages(c.history, prompt, nShots), save,
                       Remove(kwargs, "save_to_history"), now);
      (chat.0, Returned(chat.1))
  }

  /** `set_default_params(**kwargs)`: the new values join the defaults,
      replacing earlier ones. */
  function SetDefaultParams(c: Client, kwargs: Dict<Json>): (r: Client)
    ensures r.facade == c.facade && r.history == c.history
    ensures forall k :: Get(r.defaults, k) == if HasKey(kwargs, k) then Get(kwargs, k) else Get(c.defaults, k)
  {
    forall k ensures Get(Update(c.defaults, kwargs), k)
                     == if HasKey(kwargs, k) then Get(kwargs, k) else Get(c.defaults, k) {
      GetUpdate(c.defaults, kwargs, k);
    }
    c.(defaults := Update(c.defaults, kwargs))
  }

  /** `get_history(n)`: the history's `list(...)[-n:]`, everything for
      `None` (and, as written, for 0). */
  function GetHistory(c: Client, n: Option<int>): (r: seq<Interaction>)
    ensures n.None? || n == Some(0) ==> r == c.history.entries
    ensures n.Some? && n.value > 0 ==> r == Newest(c.history, n)
    ensures |r| <= |c.history.entries| && r == c.history.entries[|c.history.entries| - |r|..]
  {
    RecentCases(c.history, n);
    Recent(c.history, n)
  }

  /** `clear_history()`: no exchanges; the facade and defaults stay. */
  function ClearHistory(c: Client): (r: Client)
    ensures r.facade == c.facade && r.defaults == c.defaults
    ensures IsEmpty(r.history) && r.history.maxLen == c.history.maxLen
  {
    c.(history := Clear(c.history))
  }

  /** `get_model_info()`: the facade's. */
  function ModelInfo(c: Client): (r: Json)
    ensures r.JObj? && Get(r.fields, "model_name") == Some(JStr(c.facade.modelName))
    ensures Get(r.fields, "provider") == Some(JStr(c.facade.providerName))
  {
    LlmFacade.GetModelInfo(c.facade)
  }

  // ---------------------------------------------------------------------
  // Lemmas.

  /** A call's keyword arguments take precedence over the defaults, which
      fill in the rest. */
  lemma KeywordsOverDefaults(c: Client, kwargs: Dict<Json>, k: string)
    ensures Get(Params(c, kwargs), k) == if HasKey(kwargs, k) then Get(kwargs, k) else Get(c.defaults, k)
  {
    GetUpdate(c.defaults, kwargs, k);
  }

  /** Defaults set in two steps act as one layered set: the call's keywords,
      then the later defaults, then the earlier ones. */
  lemma DefaultsLayer(c: Client, d: Dict<Json>, kwargs: Dict<Json>, k: string)
    ensures Get(Params(SetDefaultParams(c, d), kwargs), k)
            == if HasKey(kwargs, k) then Get(kwargs, k)
               else if HasKey(d, k) then Get(d, k) else Get(c.defaults, k)
  {
    KeywordsOverDefaults(SetDefaultParams(c, d), kwargs, k);
  }

  /** With nothing in the history, `use_history` changes nothing: the prompt
      goes to `generate` on its own. */
  lemma EmptyHistoryIgnored(t: Transport, c: Client, prompt: string, save: bool, kwargs: Dict<Json>, now: Time)
    requires IsEmpty(c.history)
    ensures Generate(t, c, prompt, true, save, kwargs, now) == Generate(t, c, prompt, false, save, kwargs, now)
    ensures GenerateStream(t, c, prompt, true, save, kwargs, now)
            == GenerateStream(t, c, prompt, false, save, kwargs, now)
  {
  }

  /** With history, `generate` sends every stored exchange as a user and an
      assistant turn, oldest first, and the prompt as the final user turn. */
  lemma HistoryConversation(c: Client, prompt: string, i: nat)
    requires i < |c.history.entries|
    ensures |WithHistory(c.history, prompt)| == 2 * |c.history.entries| + 1
    ensures WithHistory(c.history, prompt)[2 * i] == UserMessage(c.history.entries[i].prompt)
    ensures WithHistory(c.history, prompt)[2 * i + 1] == AssistantMessage(c.history.entries[i].response)
    ensures WithHistory(c.history, prompt)[2 * |c.history.entries|] == UserMessage(prompt)
  {
    MessagesAlternate(c.history, None, i);
  }

  /** A generation that succeeds and is saved becomes the newest exchange,
      and the history stays within its bound. */
  lemma SavedExchange(t: Transport, c: Client, prompt: string, useHistory: bool, kwargs: Dict<Json>, now: Time)
    requires Valid(c.history) && c.history.maxLen != Some(0)
    requires Generate(t, c, prompt, useHistory, true, kwargs, now).1.error.None?
    ensures var (c2, response) := Generate(t, c, prompt, useHistory, true, kwargs, now);
            Valid(c2.history)
            && |c2.history.entries| > 0
            && c2.history.entries[|c2.history.entries| - 1] == Record(prompt, response)
  {
  }

  /** A saved stream that did not raise is recorded as exactly what it
      yielded, joined. */
  lemma StreamRecorded(t: Transport, c: Client, prompt: string, useHistory: bool, kwargs: Dict<Json>, now: Time)
    requires c.history.maxLen != Some(0)
    requires FacadeStream(t, c, prompt, useHistory, kwargs).raised.None?
    ensures var (c2, chunks) := GenerateStream(t, c, prompt, useHistory, true, kwargs, now);
            |c2.history.entries| > 0
            && c2.history.entries[|c2.history.entries| - 1].response == Concat(chunks)
            && c2.history.entries[|c2.history.entries| - 1].prompt == prompt
  {
  }

  /** With an empty history, a multi-shot generation is a chat over the
      prompt alone. */
  lemma FirstShot(t: Transport, c: Client, prompt: string, nShots: Option<int>, kwargs: Dict<Json>, now: Time)
    requires IsEmpty(c.history)
    ensures ShotMessages(c.history, prompt, nShots) == [UserMessage(prompt)]
  {
  }

  /** A saved chat that answers without error becomes the newest exchange,
      under the content of the conversation's last user message, when that
      content is not empty; the history stays within its bound. */
  lemma ChatRecorded(t: Transport, c: Client, messages: seq<Message>, kwargs: Dict<Json>, now: Time, user: string)
    requires Valid(c.history) && c.history.maxLen != Some(0)
    requires LastUserContent(messages) == Ok(user) && user != ""
    requires Chat(t, c, messages, true, kwargs, now).1.error.None?
    ensures var (c2, response) := Chat(t, c, messages, true, kwargs, now);
            Valid(c2.history)
            && c2.history.entries[|c2.history.entries| - 1] == Record(user, response)
  {
    ChatSaves(t, c, messages, kwargs, now, user);
  }

  /** The history after such a chat is the old one with the exchange added. */
  lemma ChatSaves(t: Transport, c: Client, messages: seq<Message>, kwargs: Dict<Json>, now: Time, user: string)
    requires LastUserContent(messages) == Ok(user) && user != ""
    requires Chat(t, c, messages, true, kwargs, now).1.error.None?
    ensures Chat(t, c, messages, true, kwargs, now).0.history == Add(c.history, user, Chat(t, c, messages, true, kwargs, now).1)
  {
    assert |messages| > 0;
  }

  /** A multi-shot conversation over a positive `n_shots` is the newest
      `n_shots` exchanges (all of them when there are fewer), each as a user
      and an assistant turn, then the prompt: `2 * min(n_shots, size) + 1`
      messages. */
  lemma ShotsSent(h: History, prompt: string, k: int)
    requires k > 0
    ensures var m := if |h.entries| <= k then |h.entries| else k;
            var ms := ShotMessages(h, prompt, Some(k));
            && |ms| == 2 * m + 1
            && ms == Messages(h.entries[|h.entries| - m..]) + [UserMessage(prompt)]
            && ms[2 * m] == UserMessage(prompt)
  {
  }

  /** As written, `n_shots=0` sends every stored exchange before the prompt,
      the same conversation `generate` sends with history. */
  lemma ZeroShotsSendAll(h: History, prompt: string)
    ensures ShotMessages(h, prompt, Some(0)) == WithHistory(h, prompt)
    ensures |ShotMessages(h, prompt, Some(0))| == 2 * |h.entries| + 1
  {
    ZeroRecentIsEverything(h);
  }

  /** A multi-shot generation that succeeds, with no `save_to_history`
      keyword, records the prompt and the response as the newest exchange. */
  lemma MultiShotRecorded(t: Transport, c: Client, prompt: string, nShots: Option<int>,
                          kwargs: Dict<Json>, now: Time)
    requires Valid(c.history) && c.history.maxLen != Some(0) && prompt != ""
    requires Clash(kwargs, ["self", "messages"]).None? && !HasKey(kwargs, "save_to_history")
    requires MultiShot(t, c, prompt, nShots, kwargs, now).1.Returned?
    requires MultiShot(t, c, prompt, nShots, kwargs, now).1.response.error.None?
    ensures var (c2, o) := MultiShot(t, c, prompt, nShots, kwargs, now);
            c2.history.entries[|c2.history.entries| - 1] == Record(prompt, o.response)
  {
    var ms := ShotMessages(c.history, prompt, nShots);
    assert ms[|ms| - 1] == UserMessage(prompt);
    assert LastUserContent(ms) == Ok(prompt);
    ChatRecorded(t, c, ms, Remove(kwargs, "save_to_history"), now, prompt);
  }
}
