/**
  A facade as its callers see it: one of the seven vendor facades, chosen
  by the vendor the facade was created for.  The client calls
  `facade.generate(prompt, **params)` and `facade.chat(messages, **params)`
  (and their streaming forms); Python binds the keyword arguments first, so
  a `prompt` (or `messages`) keyword raises `TypeError` before any vendor
  code runs.

  The Hugging Face chat stream is the one as written, which ends silently
  when the chat completion fails; `HuggingFaceVendor.ChatStreamFallback` is
  the corrected one that continues with the text-generation stream.
 */
module Facades {

  import opened Base
  import opened Dict
  import opened Json
  import opened Errors
  import opened LlmFacade
  import MockVendor
  import AnthropicVendor
  import BedrockVendor
  import TogetherVendor
  import GoogleVendor
  import HuggingFaceVendor
  import GrokVendor

  /** The parameters `generate(self, prompt, **kwargs)` binds positionally. */
  const PromptBound: seq<string> := ["self", "prompt"]

  /** The parameters `chat(self, messages, **kwargs)` binds positionally. */
  const MessagesBound: seq<string> := ["self", "messages"]

  /** `facade.generate(prompt, **params)`. */
  function Generate(t: Transport, f: Facade, prompt: string, params: Dict<Json>, now: Time): (r: Outcome)
    ensures Clash(params, PromptBound).Some? ==> r == Raised(Clash(params, PromptBound).value)
    ensures r.Returned? ==> r.response.model == f.modelName && r.response.provider == f.providerName
  {
    match Clash(params, PromptBound)
    case Some(e) => Raised(e)
    case None =>
      match f.vendor
      case Mock => MockVendor.Generate(f, prompt, params, now)
      case Anthropic => Returned(AnthropicVendor.Generate(t, f, prompt, params, now))
      case Bedrock => Returned(BedrockVendor.Generate(t, f, prompt, params, now))
      case Together => Returned(TogetherVendor.Generate(t, f, prompt, params, now))
      case Google => Returned(GoogleVendor.Generate(t, f, prompt, params, now))
      case HuggingFace => Returned(HuggingFaceVendor.Generate(t, f, prompt, params, now))
      case Grok => Returned(GrokVendor.Generate(t, f, prompt, params, now))
  }

  /** `facade.generate_stream(prompt, **params)`, consumed to the end. */
  function GenerateStream(t: Transport, f: Facade, prompt: string, params: Dict<Json>): (r: Fragments)
    ensures Clash(params, PromptBound).Some? ==> r == Fragments([], Clash(params, PromptBound))
  {
    match Clash(params, PromptBound)
    case Some(e) => Fragments([], Some(e))
    case None =>
      match f.vendor
      case Mock => MockVendor.GenerateStream(f, prompt)
      case Anthropic => AnthropicVendor.GenerateStream(t, f, prompt, params)
      case Bedrock => BedrockVendor.GenerateStream(t, f, prompt, params)
      case Together => TogetherVendor.GenerateStream(t, f, prompt, params)
      case Google => GoogleVendor.GenerateStream(t, f, prompt, params)
      case HuggingFace => HuggingFaceVendor.GenerateStream(t, f, prompt, params)
      case Grok => GrokVendor.GenerateStream(t, f, prompt, params)
  }

  /** `facade.chat(messages, **params)`. */
  function Chat(t: Transport, f: Facade, messages: seq<Message>, params: Dict<Json>, now: Time): (r: Outcome)
    ensures Clash(params, MessagesBound).Some? ==> r == Raised(Clash(params, MessagesBound).value)
    ensures r.Returned? ==> r.response.model == f.modelName && r.response.provider == f.providerName
  {
    match Clash(params, MessagesBound)
    case Some(e) => Raised(e)
    case None =>
      match f.vendor
      case Mock => MockVendor.Chat(f, messages, now)
      case Anthropic => Returned(AnthropicVendor.Chat(t, f, messages, params, now))
      case Bedrock => BedrockVendor.Chat(t, f, messages, params, now)
      case Together => Returned(TogetherVendor.Chat(t, f, messages, params, now))
      case Google => Returned(GoogleVendor.Chat(t, f, messages, params, now))
      case HuggingFace => HuggingFaceVendor.Chat(t, f, messages, params, now)
      case Grok => Returned(GrokVendor.Chat(t, f, messages, params, now))
  }

  /** `facade.chat_stream(messages, **params)`, consumed to the end. */
  function ChatStream(t: Transport, f: Facade, messages: seq<Message>, params: Dict<Json>): (r: Fragments)
    ensures Clash(params, MessagesBound).Some? ==> r == Fragments([], Clash(params, MessagesBound))
  {
    match Clash(params, MessagesBound)
    case Some(e) => Fragments([], Some(e))
    case None =>
      match f.vendor
      case Mock => MockVendor.ChatStream(f, messages)
      case Anthropic => AnthropicVendor.ChatStream(t, f, messages, params)
      case Bedrock => BedrockVendor.ChatStream(t, f, messages, params)
      case Together => TogetherVendor.ChatStream(t, f, messages, params)
      case Google => GoogleVendor.ChatStream(t, f, messages, params)
      case HuggingFace => HuggingFaceVendor.ChatStream(t, f, messages, params)
      case Grok => GrokVendor.ChatStream(t, f, messages, params)
  }

  // ---------------------------------------------------------------------
  // Lemmas.

  /** A `prompt` keyword raises `TypeError` from `generate` for every
      vendor, before the vendor is reached; nothing else raises that. */
  lemma PromptClash(t: Transport, f: Facade, prompt: string, params: Dict<Json>, now: Time)
    requires !HasKey(params, "self")
    ensures HasKey(params, "prompt") <==> Generate(t, f, prompt, params, now) == Raised(ArgumentClash("prompt"))
  {
    assert PromptBound[1..] == ["prompt"] && ["prompt"][1..] == [];
    assert Clash(params, PromptBound)
           == if HasKey(params, "prompt") then Some(ArgumentClash("prompt")) else None;
    if !HasKey(params, "prompt") && f.vendor == Mock {
      assert MockVendor.Generate(f, prompt, params, now).Raised? ==> MockVendor.Generate(f, prompt, params, now).exc.Py?;
    }
  }

  /** A `messages` keyword raises `TypeError` from `chat` for every vendor;
      nothing else raises that. */
  lemma MessagesClash(t: Transport, f: Facade, messages: seq<Message>, params: Dict<Json>, now: Time)
    requires !HasKey(params, "self")
    ensures HasKey(params, "messages") <==> Chat(t, f, messages, params, now) == Raised(ArgumentClash("messages"))
  {
    assert MessagesBound[1..] == ["messages"] && ["messages"][1..] == [];
    assert Clash(params, MessagesBound)
           == if HasKey(params, "messages") then Some(ArgumentClash("messages")) else None;
    if !HasKey(params, "messages") {
      match f.vendor
      case Mock =>
        assert MockVendor.Chat(f, messages, now).Raised? ==> MockVendor.Chat(f, messages, now).exc.Py?;
      case Bedrock =>
        assert BedrockVendor.Chat(t, f, messages, params, now) != Raised(ArgumentClash("messages"));
      case HuggingFace =>
        assert HuggingFaceVendor.Chat(t, f, messages, params, now) != Raised(ArgumentClash("messages"));
      case _ =>
    }
  }

  /** Apart from the mock, no facade's `generate` lets an exception escape
      once the arguments bind: every vendor failure becomes an error
      response. */
  lemma GenerateCatches(t: Transport, f: Facade, prompt: string, params: Dict<Json>, now: Time)
    requires f.vendor != Mock
    requires !HasKey(params, "self") && !HasKey(params, "prompt")
    ensures Generate(t, f, prompt, params, now).Returned?
  {
  }

  /** The vendors whose streams catch every failure: nothing escapes their
      `generate_stream`, and nothing escapes the chat streams of Anthropic,
      Google and Grok. */
  lemma StreamsCatch(t: Transport, f: Facade, prompt: string, messages: seq<Message>, params: Dict<Json>)
    requires f.vendor != Mock
    requires Clash(params, PromptBound).None?
    ensures GenerateStream(t, f, prompt, params).raised.None?
    ensures f.vendor in {Anthropic, Google, Grok} && Clash(params, MessagesBound).None?
            ==> ChatStream(t, f, messages, params).raised.None?
  {
  }

  /** A chat stream that raises without a binding clash is a Bedrock,
      Together or Hugging Face stream given a `prompt` keyword (their
      rendered-prompt calls bind it positionally), or a mock chat that
      fails. */
  lemma ChatStreamRaises(t: Transport, f: Facade, messages: seq<Message>, params: Dict<Json>)
    requires Clash(params, MessagesBound).None?
    requires ChatStream(t, f, messages, params).raised.Some?
    ensures f.vendor == Mock
            || (f.vendor in {Bedrock, Together, HuggingFace}
                && ChatStream(t, f, messages, params).raised == Some(ArgumentClash("prompt")))
  {
  }
}
