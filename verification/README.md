# llmabstraction provider core, modelled in Dafny

This project models the core of the `llmabstraction` Python library: one
client interface in front of seven large-language-model vendors (a mock,
Anthropic, AWS Bedrock, Together, Google, Hugging Face and xAI Grok). The
modelled pieces are:

- `LLMResponse` and the abstract `LLMFacade` (module `LlmFacade`);
- the abstract `LLMProvider` with its model catalog and `create_facade`
  (module `LlmProvider`);
- the seven concrete facade and provider pairs (`MockVendor` to
  `GrokVendor`, with the shared prompt formats in `Prompts` and the catalog
  records in `Catalogs`);
- the dispatch from a facade to its vendor (`Facades`);
- `LLMInteractionHistory` and `LLMClient` (`Interactions`, `LlmClient`);
- `LLMProviderFactory` and `LLMClientFactory` (`ProviderFactory`,
  `ClientFactory`);
- `ConfigLoader` with its fallback properties reader (`ConfigLoader`);
- the `LLMSystem` entry point (`System`).

Python values are modelled as a `Json` datatype, with `JNull` for `None`.
Python dicts are ordered association lists (`Dict.Dict`) with Python's
semantics: assignment replaces in place, and a read finds the key's one
entry. Python exceptions are the `Errors.Exc` and `Json.PyFault`
datatypes. An operation that can raise returns a `Result` or an `Outcome`,
and generators return their yielded fragments plus the exception they end
with, if any. Each vendor SDK, and the HTTP endpoint Grok posts to, is a
parameter: a `Transport` that maps a request (the SDK call and its keyword
arguments as a `Json` value) to a reply or a failure message, maps a
streaming request to its items and an optional failure, and parses JSON
text. The clock is a `Time` parameter. The process environment and the two
configuration files are parameters. The process-wide singletons
(`LLMProviderFactory`, `LLMClientFactory`, `LLMSystem`) are values threaded
through the operations.

## Model

| member | source | states |
|---|---|---|
| LlmFacade.NewFacade | llmcore/llm_facade.py:51-66 | A facade keeps the model and provider names; a missing configuration becomes the empty dict, a given one is kept as it is |
| LlmFacade.MakeResponse | llmcore/llm_facade.py:16-40 | A successful response has no error, carries the content, and names the facade's model and provider |
| LlmFacade.ErrorResponse | llmcore/llm_facade.py:16-40 | A failed response has empty content, no usage or metadata, the error text, and the facade's model and provider |
| LlmFacade.GetModelInfo | llmcore/llm_facade.py:124-135 | The model information has exactly the keys model_name, provider and llmconfig, holding the facade's names and configuration |
| LlmFacade.GetMaxTokens | llmcore/llm_facade.py:155-162 | The configured max_tokens when there is one, 4096 otherwise |
| LlmFacade.SupportsStreaming | llmcore/llm_facade.py:137-144 | Every facade claims streaming support |
| LlmFacade.SupportsChat | llmcore/llm_facade.py:146-153 | Every facade claims chat support |
| LlmFacade.Clash | core/llm_client.py:134-142 | Passing keyword arguments to a method fails exactly when one of them names a parameter the method already binds, and the failure names that parameter |
| LlmFacade.CaughtStream | providers/anthropic_provider.py:62-83 | A caught stream yields each item's text up to the first fault, then one `Error: ...` fragment if the iteration faulted or the transport failed, and nothing after |
| LlmFacade.YieldsAll | providers/anthropic_provider.py:62-83 | A stream whose every item yields text yields exactly those texts, in order, and does not fault |
| LlmFacade.YieldsSkip | providers/together_provider.py:59-80 | Items that yield nothing can be dropped from the front of a stream without changing what it yields or where it faults |
| LlmFacade.TextStream | providers/anthropic_provider.py:62-83 | A stream of text pieces yields the pieces, followed by one error fragment when the transport fails |
| LlmProvider.NewProvider | core/llm_provider.py:25-39 | A provider keeps its name and credential; a falsy configuration becomes the empty dict, a truthy one is kept |
| LlmProvider.AvailableModels | providers/anthropic_provider.py:197-199 | The model names are exactly the catalog's keys, each once |
| LlmProvider.SupportsModel | core/llm_provider.py:90-100 | A model is supported exactly when it is a string key of the catalog |
| LlmProvider.ModelInfo | core/llm_provider.py:78-88 | A model's information is its catalog entry, and there is one exactly for supported models |
| LlmProvider.CreateFacade | providers/anthropic_provider.py:201-217 | A model outside the catalog fails with the available models listed; otherwise the facade has the provider's vendor, name and credential, and its configuration layers the catalog entry, the keyword arguments and the vendor's own additions |
| LlmProvider.WithProviderConfig | providers/bedrock_provider.py:261-278 | The Bedrock and Grok facades also take the provider's configuration, last, and fail when it is not a dict |
| LlmProvider.KeywordOverridesRecord | providers/anthropic_provider.py:201-217 | A keyword argument given to create_facade wins over the catalog entry's value for the same key |
| LlmProvider.MockDelaySet | llmproviders/mock_provider.py:131-153 | A mock facade's response_delay is the keyword's, else the catalog entry's, else 0.01 for a model named with "fast" and 0.1 otherwise |
| LlmProvider.NameKept | core/llm_provider.py:102-109 | get_provider_name returns the name the provider was built with, and every facade it creates carries that name |
| LlmProvider.FacadeModelSupported | core/llm_provider.py:90-100 | Every facade a provider creates is for a model the provider supports |
| LlmProvider.CatalogModels | providers/anthropic_provider.py:153-199 | For a catalog built from distinct names, the available models are those names in order, and each model's information records its own name |
| Prompts.RenderedAllLabelled | providers/together_provider.py:123-136 | When every role has a label, the rendered turns are one `<Label>: <content>` per message, in order |
| Prompts.RenderedNoneLabelled | providers/bedrock_provider.py:138-149 | Messages whose roles have no label contribute no turns |
| Prompts.RenderedAppend | providers/together_provider.py:123-136 | Rendering a conversation renders each part and concatenates the results |
| Prompts.TurnPromptShape | providers/together_provider.py:123-136 | A turn prompt is the rendered turns joined by blank lines, then the closing `Assistant:` cue |
| Prompts.BedrockSingleTurn | providers/bedrock_provider.py:138-149 | One user message becomes `Human: <content>` followed by the `Assistant:` cue |
| Prompts.SystemTurns | providers/together_provider.py:123-136 | Together renders a system message as a `System:` turn, while Bedrock drops it |
| Prompts.LinePromptSnoc | providers/huggingface_provider.py:140-147 | The Hugging Face prompt puts one capitalised `<Role>: <content>` line per message, joined by newlines |
| MockVendor.New | llmproviders/mock_provider.py:95-125 | The mock provider keeps its name and credential |
| MockVendor.Models | llmproviders/mock_provider.py:100-129 | The mock catalog lists mock-model, mock-model-large and mock-model-fast, in that order |
| MockVendor.SleepFault | llmproviders/mock_provider.py:31 | Sleeping fails exactly for a delay that is not a non-negative number |
| MockVendor.Render | llmproviders/mock_provider.py:33 | A non-string template fails on format; a string template is formatted with the first 100 characters of the prompt |
| MockVendor.Answer | llmproviders/mock_provider.py:29-33 | The mock answer fails when the delay cannot be slept, and otherwise renders the template |
| MockVendor.Generate | llmproviders/mock_provider.py:29-42 | Mock generation raises what the sleep or format raises; otherwise it returns the rendered answer, word counts of prompt and answer as usage, and metadata marking a mock call with the requested temperature, 1.0 by default |
| MockVendor.WordChunks | llmproviders/mock_provider.py:49-52 | The stream is one fragment per whitespace-separated word, each followed by a space |
| MockVendor.GenerateStream | llmproviders/mock_provider.py:44-53 | The mock stream raises before yielding when the answer fails, and otherwise yields the answer's words |
| MockVendor.LastContent | llmproviders/mock_provider.py:59 | With no messages the mock answers "No message"; otherwise it reads the last message's content, which must be present |
| MockVendor.InputTokens | llmproviders/mock_provider.py:67 | Counting input tokens fails with KeyError('content') exactly when some message has no content |
| MockVendor.ChatAnswer | llmproviders/mock_provider.py:57-60 | The mock chat answer is "Mock chat response to: " and the first 100 characters of the last content, failing when the sleep or the last content fails |
| MockVendor.Chat | llmproviders/mock_provider.py:55-72 | Mock chat returns exactly when the answer and the token count both succeed, with the message count in its metadata; a message without content makes it raise KeyError |
| MockVendor.ChatStream | llmproviders/mock_provider.py:74-84 | The mock chat stream yields the chat answer's words, or raises before yielding |
| MockVendor.ValidateApiKey | llmproviders/mock_provider.py:155-157 | The mock provider accepts any credential |
| MockVendor.DefaultAnswer | llmproviders/mock_provider.py:23-26 | The default template answers "Mock response to: " and the first 100 characters of the prompt |
| MockVendor.FormatField | llmproviders/mock_provider.py:33 | A `{prompt}` field is replaced by the prompt; any other named field fails with KeyError |
| MockVendor.FormatPlain | llmproviders/mock_provider.py:33 | A template without braces formats to itself |
| MockVendor.StreamMatchesGenerate | llmproviders/mock_provider.py:29-53 | The concatenated stream is the generated content's words, each followed by a space, so it splits into the same words |
| MockVendor.ChatStreamMatchesChat | llmproviders/mock_provider.py:55-84 | The concatenated chat stream splits into the same words as the chat answer |
| AnthropicVendor.New | providers/anthropic_provider.py:153-195 | The Anthropic provider keeps its name and credential |
| AnthropicVendor.Models | providers/anthropic_provider.py:160-199 | The Anthropic catalog lists its four Claude 3 models in order |
| AnthropicVendor.Create | providers/anthropic_provider.py:85-124 | A message call that fails or whose reply cannot be read gives an error response; otherwise the content is the first content block's text |
| AnthropicVendor.Stream | providers/anthropic_provider.py:126-147 | The text stream yields the streamed texts, ends with one error fragment on failure, and never raises |
| AnthropicVendor.GenerateIsSingleTurnChat | providers/anthropic_provider.py:19-147 | Generating from a prompt is exactly chatting with one user message carrying the prompt, for both the plain and the streaming calls |
| AnthropicVendor.RequestDefaults | providers/anthropic_provider.py:27-36 | Without keyword arguments the request uses the facade's model, 1024 tokens, temperature 1.0, and the prompt as one user message |
| AnthropicVendor.MessageReply | providers/anthropic_provider.py:39-49 | A reply reads as its first block's text, its input and output token counts, and its stop reason; a reply without blocks reads as empty content |
| AnthropicVendor.StreamPieces | providers/anthropic_provider.py:126-147 | A chat stream of text pieces yields those pieces, then one error fragment when the stream fails |
| BedrockVendor.New | providers/bedrock_provider.py:155-255 | The Bedrock provider keeps its name and credential |
| BedrockVendor.Models | providers/bedrock_provider.py:160-259 | The Bedrock catalog lists its ten models in order |
| BedrockVendor.Generate | providers/bedrock_provider.py:20-96 | A failed invocation gives an error response with that message; the response succeeds exactly when the call is answered and the reply can be read for the model's family |
| BedrockVendor.GenerateStream | providers/bedrock_provider.py:98-125 | The stream yields each decoded chunk's text, ends with one error fragment on failure, and never raises |
| BedrockVendor.Chat | providers/bedrock_provider.py:127-131 | Chat renders the conversation as a Human/Assistant prompt and generates from it, raising only when the keyword arguments already hold "prompt" |
| BedrockVendor.ChatStream | providers/bedrock_provider.py:133-136 | The chat stream streams the rendered prompt, raising only when the keyword arguments already hold "prompt" |
| BedrockVendor.RequestCarriesPrompt | providers/bedrock_provider.py:25-60 | Each model family's body carries the prompt (framed as Human/Assistant for Claude) and the token limit under that family's key, with 1024 tokens and temperature 0.7 by default |
| BedrockVendor.TitanLimit | providers/bedrock_provider.py:45-53 | A Titan body puts the token limit in its textGenerationConfig |
| BedrockVendor.AnsweredReply | providers/bedrock_provider.py:62-87 | A parsed reply gives the family's generated text, the invocation metrics as usage, and the whole reply body as metadata |
| BedrockVendor.TitanReply | providers/bedrock_provider.py:74-76 | A Titan reply reads as its first result's outputText, and as empty text when it has no results |
| BedrockVendor.UnparsableReply | providers/bedrock_provider.py:62-96 | A reply body that is not JSON gives an error response with empty content |
| BedrockVendor.CompletionStream | providers/bedrock_provider.py:109-121 | A stream of chunks whose JSON holds completions yields exactly those completions |
| BedrockVendor.RefusedStream | providers/bedrock_provider.py:111-125 | A refused stream yields one error fragment and nothing else |
| BedrockVendor.SingleTurnChat | providers/bedrock_provider.py:127-149 | Chatting with one user message generates from `Human: <content>` followed by the `Assistant:` cue |
| TogetherVendor.New | providers/together_provider.py:142-211 | The Together provider keeps its name and credential |
| TogetherVendor.Models | providers/together_provider.py:147-215 | The Together catalog lists its seven models in order |
| TogetherVendor.Generate | providers/together_provider.py:19-57 | A failed completion gives an error response with that message; a readable reply succeeds, with the raw reply as metadata |
| TogetherVendor.GenerateStream | providers/together_provider.py:59-80 | The stream yields the text of each chunk that has choices, ends with one error fragment on failure, and never raises |
| TogetherVendor.Chat | providers/together_provider.py:82-116 | Chat completes the rendered conversation, carries no metadata, and succeeds exactly when the call is answered with readable output |
| TogetherVendor.ChatStream | providers/together_provider.py:118-121 | The chat stream streams the rendered conversation, raising only when the keyword arguments already hold "prompt" |
| TogetherVendor.CompletionReply | providers/together_provider.py:39-46 | A reply reads as its first choice's text, with the reply's usage, empty by default |
| TogetherVendor.GenerateDefaults | providers/together_provider.py:26-37 | Without keyword arguments a completion asks for 512 tokens, temperature 0.7, top_p 0.7, top_k 50 and repetition penalty 1.0 |
| TogetherVendor.ChatIgnoresSampling | providers/together_provider.py:82-116 | Chat passes on only the token limit and the temperature; other sampling arguments do not change it |
| TogetherVendor.ChatSendsConversation | providers/together_provider.py:92-97 | Chat sends the conversation rendered as System/User/Assistant turns |
| TogetherVendor.ChunkShapes | providers/together_provider.py:75-76 | A stream chunk without choices, or with none, yields nothing; otherwise it yields its first choice's text |
| HuggingFaceVendor.New | providers/huggingface_provider.py:153-231 | The Hugging Face provider keeps its name and credential |
| HuggingFaceVendor.Models | providers/huggingface_provider.py:158-235 | The Hugging Face catalog lists its eight models in order |
| HuggingFaceVendor.Generate | providers/huggingface_provider.py:19-56 | A failed text generation gives an error response with that message; a success counts words of prompt and answer as usage and carries no metadata |
| HuggingFaceVendor.GenerateStream | providers/huggingface_provider.py:58-79 | The stream yields the streamed texts, ends with one error fragment on failure, and never raises |
| HuggingFaceVendor.Chat | providers/huggingface_provider.py:81-115 | A successful chat completion is answered; a failed one falls back to generating from the line prompt, raising only when the keyword arguments already hold "prompt" |
| HuggingFaceVendor.ChatStream | providers/huggingface_provider.py:117-138 | As written: the chat stream yields each non-empty delta, and a failure ends the stream without yielding the fallback's fragments |
| HuggingFaceVendor.ChatStreamFallback | providers/huggingface_provider.py:117-138 | Corrected: after a failure the chat stream goes on with the fallback stream's fragments |
| HuggingFaceVendor.TextReply | providers/huggingface_provider.py:39-47 | A text reply is the content, with word counts of prompt and answer as usage |
| HuggingFaceVendor.ChatReply | providers/huggingface_provider.py:98-109 | A chat reply reads as its first choice's message content, with prompt and completion token counts as usage |
| HuggingFaceVendor.ChatFallsBack | providers/huggingface_provider.py:111-115 | A failed chat completion answers what generating from the line prompt answers |
| HuggingFaceVendor.DeltaStream | providers/huggingface_provider.py:126-133 | A stream of deltas yields exactly their contents, as written and as corrected |
| HuggingFaceVendor.SilentFallback | providers/huggingface_provider.py:135-138 | With a failing chat stream and a failing fallback, the as-written stream yields nothing at all, while the corrected one yields the fallback's error fragment |
| HuggingFaceVendor.FallbackNotSilent | providers/huggingface_provider.py:135-138 | After a chat stream failure, the corrected stream yields something whenever the fallback stream does |
| GrokVendor.New | providers/grok_provider.py:198-222 | The Grok provider keeps its name and credential |
| GrokVendor.Models | providers/grok_provider.py:203-226 | The Grok catalog lists grok-beta and grok-vision-beta |
| GrokVendor.Generate | providers/grok_provider.py:25-68 | A failed post gives an error response with that message; the response succeeds exactly when the reply can be read |
| GrokVendor.Chat | providers/grok_provider.py:110-152 | Chat posts the messages, carries no metadata, and succeeds exactly when the reply can be read |
| GrokVendor.EventStream | providers/grok_provider.py:95-108 | The event stream yields each data line's delta content, ends with one error fragment on failure, and never raises |
| GrokVendor.GenerateStream | providers/grok_provider.py:70-108 | The generate stream never raises |
| GrokVendor.ChatStream | providers/grok_provider.py:154-192 | The chat stream never raises |
| GrokVendor.GenerateIsSingleTurnChat | providers/grok_provider.py:25-192 | Generating from a prompt gives the content, usage and error of chatting with one user message, and the two streams are the same |
| GrokVendor.EndpointDefault | providers/grok_provider.py:20-46 | Posts go to `<api_base>/chat/completions`, the base being https://api.x.ai/v1 unless configured |
| GrokVendor.PayloadDefaults | providers/grok_provider.py:33-39 | The payload carries the messages and the stream flag, with temperature 0.7 and 1024 tokens by default |
| GrokVendor.CompletionReply | providers/grok_provider.py:49-57 | A reply reads as its first choice's message content, with the choice's finish reason as metadata |
| GrokVendor.IgnoredLines | providers/grok_provider.py:95-100 | Empty lines, lines not starting with `data: `, and the `[DONE]` marker yield nothing |
| GrokVendor.DataLine | providers/grok_provider.py:98-104 | A data line yields its first choice's non-empty delta content |
| GoogleVendor.New | llmproviders/google_provider.py:170-226 | The Google provider keeps its name and credential |
| GoogleVendor.Models | llmproviders/google_provider.py:175-230 | The Google catalog lists its five Gemini models in order |
| GoogleVendor.HistoryEntry | llmproviders/google_provider.py:99-101 | A history entry needs a role, then a content, failing with KeyError on the first one missing |
| GoogleVendor.History | llmproviders/google_provider.py:98-101 | The history has one entry per earlier message, or fails with the first message's failure |
| GoogleVendor.LastContent | llmproviders/google_provider.py:111-114 | The message sent is the last message's content; no messages fail with IndexError |
| GoogleVendor.ChatInput | llmproviders/google_provider.py:98-114 | Chat input succeeds exactly when the history of the earlier messages and the last content both do |
| GoogleVendor.Generate | llmproviders/google_provider.py:19-60 | A failed call gives an error response with that message; the response succeeds exactly when the reply can be read |
| GoogleVendor.GenerateStream | llmproviders/google_provider.py:62-87 | The stream yields each chunk's non-empty text, ends with one error fragment on failure, and never raises |
| GoogleVendor.Chat | llmproviders/google_provider.py:89-136 | Malformed messages give an error response; otherwise a failed call gives one with its message, and the response succeeds exactly when the reply can be read |
| GoogleVendor.ChatStream | llmproviders/google_provider.py:138-164 | Malformed messages give one error fragment; otherwise the stream yields each chunk's non-empty text and never raises |
| GoogleVendor.HistoryReplays | llmproviders/google_provider.py:98-101 | User and system messages replay as the user, others as the model, each with its content as the only part |
| GoogleVendor.EmptyChat | llmproviders/google_provider.py:111-114 | Chatting with no messages fails with IndexError, as a response and as a stream |
| GoogleVendor.RolelessTurn | llmproviders/google_provider.py:99-101 | An earlier message without a role fails the chat with KeyError('role') |
| GoogleVendor.SingleMessage | llmproviders/google_provider.py:98-114 | A single message is sent as it is, with an empty history |
| GoogleVendor.ChunkShapes | llmproviders/google_provider.py:81-83 | A chunk yields its text unless the text is empty |
| GoogleVendor.GenerateDefaults | llmproviders/google_provider.py:27-32 | Without keyword arguments generation asks for 2048 tokens, temperature 0.9, top_p 1.0 and top_k 40 |
| Facades.Generate | llmcore/llm_facade.py:69-81 | Calling a facade's generate with a keyword that names a bound parameter raises; otherwise the response names the facade's model and provider |
| Facades.GenerateStream | llmcore/llm_facade.py:83-95 | A clashing keyword makes the stream raise before it yields |
| Facades.Chat | llmcore/llm_facade.py:97-109 | Calling chat with a keyword that names a bound parameter raises; otherwise the response names the facade's model and provider |
| Facades.ChatStream | llmcore/llm_facade.py:111-122 | A clashing keyword makes the chat stream raise before it yields; otherwise the vendor's chat stream runs, for Hugging Face the one as written, which ends silently after a failed chat completion |
| Facades.PromptClash | core/llm_client.py:142 | A "prompt" keyword makes generate raise, and it is the only one that does |
| Facades.MessagesClash | core/llm_client.py:214 | A "messages" keyword makes chat raise, and it is the only one that does |
| Facades.GenerateCatches | providers/anthropic_provider.py:53-60 | Every vendor except the mock catches its failures in generate |
| Facades.StreamsCatch | providers/anthropic_provider.py:81-83 | Every vendor's generate stream except the mock's never raises; nor do the Anthropic, Google and Grok chat streams |
| Facades.ChatStreamRaises | providers/bedrock_provider.py:133-136 | A chat stream raises only for the mock, or for a Bedrock, Together or Hugging Face stream given a "prompt" keyword |
| Interactions.New | core/llm_client.py:25-33 | A history starts empty; its bound is absent for None and is the size for a non-negative integer, and a negative or non-integer size is refused |
| Interactions.Add | core/llm_client.py:35-50 | Adding appends the exchange, dropping the oldest one when the history is full, and a zero-sized history stays empty |
| Interactions.SizeAfterAdd | core/llm_client.py:35-50 | Adding grows the size by one until the bound, then keeps it at the bound |
| Interactions.AddAllKeepsNewest | core/llm_client.py:35-50 | After any sequence of additions the history is the newest exchanges up to its bound |
| Interactions.KeptTwice | core/llm_client.py:33 | Keeping the newest entries twice keeps the same entries |
| Interactions.Recent | core/llm_client.py:52-64 | As written: None gives every exchange, a positive n the newest n, and zero or a negative n slices from the front as Python does |
| Interactions.Newest | core/llm_client.py:52-64 | Corrected: the newest n exchanges, none for zero or a negative n, all for None |
| Interactions.ZeroRecentIsEverything | core/llm_client.py:63-64 | As written, asking for the newest 0 exchanges returns all of them and -1 drops the oldest; the corrected version returns none |
| Interactions.RecentAgrees | core/llm_client.py:63-64 | For None or a positive count the as-written and corrected histories agree |
| Interactions.Messages | core/llm_client.py:66-81 | Each exchange becomes a user message with the prompt followed by an assistant message with the response |
| Interactions.AsMessages | core/llm_client.py:66-81 | The message form has two messages per exchange that `get_history(n)` returns as written, so `n == 0` gives every exchange |
| Interactions.RecentCases | core/llm_client.py:52-64 | The history's `[-n:]` slice is everything for `None` and 0, the newest n for a positive n, and always a suffix of the history |
| Interactions.MessagesAlternate | core/llm_client.py:66-81 | The message form alternates the user prompt and the assistant response of each exchange `get_history(n)` returns, in order |
| Interactions.Clear | core/llm_client.py:83-85 | Clearing empties the history and keeps its bound |
| LlmClient.New | core/llm_client.py:105-116 | A client wraps the facade with an empty history of the given size and no defaults, failing as the history does |
| LlmClient.Failure | core/llm_client.py:149-156 | A caught exception becomes the facade's error response with the exception's text |
| LlmClient.Generate | core/llm_client.py:118-156 | Generate chats with the history when asked and the history is not empty, and generates otherwise; an exception becomes an error response; a successful response is saved when asked, and nothing else changes |
| LlmClient.GenerateStream | core/llm_client.py:158-197 | The client yields the facade's fragments (the chat stream over the history when asked and the history is not empty) and, when saving, records their concatenation; an exception adds one error fragment and saves nothing |
| LlmClient.StreamResponse | core/llm_client.py:187-192 | A finished stream is recorded as a successful response whose content is the joined fragments |
| LlmClient.LastUserContent | core/llm_client.py:216-221 | The saved prompt is the content of the last user message, empty when there is none |
| LlmClient.Chat | core/llm_client.py:199-232 | Chat answers what the facade answers; a successful chat is saved when asked under the last user message's content exactly when that is non-empty, a missing content turns the answer into an error response, and nothing else changes the history |
| LlmClient.MultiShot | core/llm_client.py:234-248 | Multi-shot chats with the exchanges `get_as_messages(n_shots)` returns as written, followed by the prompt, saving unless told not to; a "messages" keyword raises |
| LlmClient.SetDefaultParams | core/llm_client.py:250-257 | New defaults override the old ones key by key and keep the rest |
| LlmClient.ClearHistory | core/llm_client.py:271-273 | Clearing the history keeps the facade, the defaults and the bound |
| LlmClient.ModelInfo | core/llm_client.py:275-282 | The client reports its facade's model and provider names |
| LlmClient.KeywordsOverDefaults | core/llm_client.py:134 | A call's keyword arguments win over the client's defaults key by key |
| LlmClient.DefaultsLayer | core/llm_client.py:250-257 | Defaults set later sit between the call's arguments and the earlier defaults |
| LlmClient.EmptyHistoryIgnored | core/llm_client.py:136-142 | With an empty history, asking to use it changes nothing |
| LlmClient.HistoryConversation | core/llm_client.py:136-140 | The conversation sent with history is every stored exchange as a user and an assistant message, then the prompt |
| LlmClient.SavedExchange | core/llm_client.py:144-145 | A saved generation ends the history with the prompt and the response |
| LlmClient.StreamRecorded | core/llm_client.py:183-193 | A saved stream ends the history with the prompt and the joined fragments |
| LlmClient.FirstShot | core/llm_client.py:246-248 | Without history, multi-shot sends the prompt alone |
| LlmClient.GetHistory | core/llm_client.py:259-269 | The client's history slice is every exchange for None and, as written, for 0; the newest n for a positive n; always a suffix of the history |
| LlmClient.ChatRecorded | core/llm_client.py:215-220 | A saved chat that succeeds ends the history with the last user message's non-empty content and the response, within the bound |
| LlmClient.ShotsSent | core/llm_client.py:246-248 | For a positive n_shots the conversation is the newest min(n_shots, size) exchanges as user and assistant turns, then the prompt: 2·min(n_shots, size)+1 messages |
| LlmClient.ZeroShotsSendAll | core/llm_client.py:246-248 | As written, n_shots=0 sends every stored exchange and then the prompt, the same conversation as generating with history |
| LlmClient.MultiShotRecorded | core/llm_client.py:234-248 | A multi-shot generation that succeeds without a save_to_history keyword ends the history with the prompt and the response |
| ProviderFactory.Register | llmcore/llm_provider_factory.py:41-50 | Registering puts the class under the lower-cased name and leaves every other key and the cache alone |
| ProviderFactory.EnvironmentKey | llmcore/llm_provider_factory.py:86-88 | A missing credential is read from `<NAME>_API_KEY`, the name upper-cased, and is None when that variable is unset |
| ProviderFactory.GetProvider | llmcore/llm_provider_factory.py:52-101 | A cached instance is returned as it is; an unregistered name fails with the registered keys; otherwise the class is built with the name as requested and the credential, and cached when asked under the lower-cased key only |
| ProviderFactory.AvailableProviders | llmcore/llm_provider_factory.py:103-110 | The available providers are exactly the registered keys, each once |
| ProviderFactory.ClearCache | llmcore/llm_provider_factory.py:124-134 | Clearing a named provider drops only its cached instance; no name clears the whole cache; registrations stay |
| ProviderFactory.RegisterIgnoresCase | llmcore/llm_provider_factory.py:112-122 | Any spelling of a registered name is registered, and registering adds exactly that key |
| ProviderFactory.RegisteredBuilds | llmcore/llm_provider_factory.py:83-95 | A request under any spelling builds the registered class with the name as requested |
| ProviderFactory.CredentialFromEnvironment | llmcore/llm_provider_factory.py:86-95 | Without a credential the instance gets the environment's `<NAME>_API_KEY` |
| ProviderFactory.CacheIgnoresArguments | llmcore/llm_provider_factory.py:73-74 | A second cached request under any spelling returns the first instance whatever its own credential and configuration |
| ProviderFactory.ClearedRebuilds | llmcore/llm_provider_factory.py:124-134 | After clearing a provider the next request builds a fresh instance |
| ProviderFactory.UnregisteredFails | llmcore/llm_provider_factory.py:77-81 | An unregistered name fails, listing the available providers, and changes nothing |
| ClientFactory.LoadConfig | core/llm_client_factory.py:45-66 | An unreadable file raises and changes nothing; a parsed one is stored, and its defaults section sets the provider and model, mock and mock-model by default |
| ClientFactory.SetDefaults | core/llm_client_factory.py:68-77 | The defaults become the given provider and model; the configuration stays |
| ClientFactory.Attempt | core/llm_client_factory.py:112-135 | A client is created only for a registered provider supporting the model; its facade is the one the provider creates and its history is empty |
| ClientFactory.Resolve | core/llm_client_factory.py:101-110 | A missing provider or model name is replaced by the default |
| ClientFactory.FallsBack | core/llm_client_factory.py:140-143 | A failure falls back to the mock exactly when the configuration is truthy, asks for it, and the provider was not the mock |
| ClientFactory.CreateClient | core/llm_client_factory.py:80-151 | No provider or model fails at once; otherwise the first attempt's result, or on failure the mock retry when the configuration asks for it |
| ClientFactory.Retry | core/llm_client_factory.py:145-149 | The mock retry is a plain attempt with the mock model and no credential, never retried itself |
| ClientFactory.ProviderModels | core/llm_client_factory.py:174-189 | A provider's models, or an empty list on any failure |
| ClientFactory.NoProviderNeverFallsBack | core/llm_client_factory.py:102-105 | Without a provider or default the call fails, whatever the configuration |
| ClientFactory.MockNeverRetried | core/llm_client_factory.py:140-151 | A request for the mock is never retried |
| ClientFactory.CreatedClient | core/llm_client_factory.py:114-132 | A created client is for the requested model, from the provider the registry returns, with an empty history |
| ClientFactory.MockDefaults | core/llm_client_factory.py:56-59 | A configuration without defaults selects mock and mock-model |
| ClientFactory.DefaultsUsed | core/llm_client_factory.py:101-110 | After set_defaults, a call without names creates the client the defaults name |
| ConfigLoader.Assign | utils/config_loader.py:25-31 | Each key reads the value of its last assignment, and keys never assigned are absent |
| ConfigLoader.PropertyLine | utils/config_loader.py:28-31 | A `key=value` line reads back as that key and value, even when the value holds `=` |
| ConfigLoader.LaterLineWins | utils/config_loader.py:25-31 | A later line for a key overrides earlier ones and leaves other keys alone |
| ConfigLoader.Property | utils/config_loader.py:121-123 | A property is read from the environment first, then from the file, then the default |
| ConfigLoader.EnvironmentFirst | utils/config_loader.py:33-34 | A variable set in the environment decides the property, even when empty |
| ConfigLoader.GetIntProperty | utils/config_loader.py:36-38 | An empty or missing value gives the default; otherwise the value must parse as an integer |
| ConfigLoader.IntRoundTrip | utils/config_loader.py:36-38 | Every integer's decimal form parses back to it |
| ConfigLoader.IntProperty | utils/config_loader.py:36-38 | A property holding an integer's decimal form reads as that integer |
| ConfigLoader.GetBoolProperty | utils/config_loader.py:40-42 | An empty or missing value gives the default; otherwise true exactly for true, yes or 1 in any case |
| ConfigLoader.BoolSpellings | utils/config_loader.py:40-42 | YES and True read as true, on reads as false |
| ConfigLoader.LoadModels | utils/config_loader.py:96-119 | A parsed models file is used as it is; a missing or unreadable one gives the default configuration |
| ConfigLoader.ProviderConfig | utils/config_loader.py:137-147 | A provider's configuration is its entry under providers, None when absent |
| ConfigLoader.ModelConfig | utils/config_loader.py:149-159 | A model's configuration is its entry under models, None when absent |
| ConfigLoader.DefaultProvider | utils/config_loader.py:161-163 | The default provider is the defaults section's, mock when absent |
| ConfigLoader.DefaultModel | utils/config_loader.py:165-167 | The default model is the defaults section's, mock-model when absent |
| ConfigLoader.AvailableProviders | utils/config_loader.py:205-207 | The configured providers are exactly the keys of the providers section |
| ConfigLoader.ProviderModels | utils/config_loader.py:209-222 | A provider's models are its entry's models list, empty when the provider or the list is absent |
| ConfigLoader.AllModels | utils/config_loader.py:224-226 | All models are the models section, empty when absent |
| ConfigLoader.MissingModelsFile | utils/config_loader.py:105-119 | Without a models file the defaults are mock and mock-model and there are no providers or models |
| ConfigLoader.ReloadForgets | utils/config_loader.py:228-232 | Reloading gives what a fresh load gives, whatever was loaded before |
| ConfigLoader.ConfiguredVariable | utils/config_loader.py:195-201 | A key found through the provider's api_key_env variable is never empty |
| ConfigLoader.GetApiKey | utils/config_loader.py:169-203 | As written: a non-empty environment variable wins, then the property as read with the environment first, then the provider's own variable; a key returned is never empty |
| ConfigLoader.GetApiKeyFixed | utils/config_loader.py:169-203 | Corrected: the properties file is consulted directly after the environment |
| ConfigLoader.ApiKeyAgrees | utils/config_loader.py:185-193 | Unless the variable is set to the empty string, the as-written and corrected lookups agree |
| ConfigLoader.EmptyVariableHides | utils/config_loader.py:190-193 | With the variable set but empty, the as-written lookup skips the file's key, which the corrected one returns |
| ConfigLoader.EmptyVariableHidesProperty | utils/config_loader.py:190-193 | With GROK_API_KEY set to the empty string and the file holding a key, the as-written lookup finds none |
| System.ModelsPath | llmutils/system_initializer.py:81-84 | The models file path extends the configuration directory |
| System.Initialize | llmutils/system_initializer.py:54-88 | A second initialize does nothing; the first loads the configuration, registers the built-in providers and loads the factory's configuration, and succeeds exactly when that load does |
| System.InitializeOnce | llmutils/system_initializer.py:62-64 | Once initialized, initialize changes nothing whatever directory it is given |
| System.MissingModelsFileFatal | llmutils/system_initializer.py:70-85 | A missing models file leaves the system uninitialized with the default configuration loaded |
| System.InitializeRegisters | llmutils/system_initializer.py:102-116 | After initialize exactly the seven built-in providers are registered |
| System.BuiltinClasses | llmutils/system_initializer.py:102-116 | Each built-in name is registered with its vendor's class |
| System.RegisterAllKeys | llmutils/system_initializer.py:114-116 | Registering a list adds exactly its keys and leaves the cache alone |
| System.RegisteredClass | llmutils/system_initializer.py:114-116 | The class registered last under a key is the one found there |
| System.WithApiKey | llmutils/system_initializer.py:135-138 | Without an explicit api_key, the key `get_api_key` finds as written is added when it is non-empty; nothing else changes |
| System.Bind | llmutils/system_initializer.py:140-144 | api_key and history_size are taken from the keyword arguments, None and 50 by default, and the rest are passed on |
| System.CreateClient | llmutils/system_initializer.py:118-144 | Before initialize the call fails; otherwise the client factory creates the client with the key `get_api_key` finds as written added |
| System.ExplicitKeyKept | llmutils/system_initializer.py:135-144 | An explicit api_key is passed on unchanged |
| System.ConfiguredKeyInjected | llmutils/system_initializer.py:135-144 | Without an explicit api_key, the key the as-written `get_api_key` finds is passed on, and `None` when it finds none |
| System.ListProviders | llmutils/system_initializer.py:146-150 | The registered providers, each once, or a failure before initialize |
| System.ListModels | llmutils/system_initializer.py:152-169 | A provider's models from the client factory, or all configured model names, or a failure before initialize |
| System.GetModelInfo | llmutils/system_initializer.py:171-184 | A model's configuration, an empty dict when absent, or a failure before initialize |
| System.GetProviderInfo | llmutils/system_initializer.py:186-199 | A provider's configuration, an empty dict when absent, or a failure before initialize |
| System.ReloadConfig | llmutils/system_initializer.py:205-216 | Reloading reads both files again and keeps the registry and the initialized flag |
| System.GuardsBeforeInitialize | llmutils/system_initializer.py:118-216 | Every guarded operation fails before initialize and changes nothing |

## Left out

- Network and SDK calls are the `Transport` parameter. The model does not say what a vendor answers, only what the facade sends and how it reads the answer.
- `time.sleep` in the mock and the `datetime.now()` timestamps are left out; the time is a parameter.
- Logging, every `__repr__`, and the module-level `initialize_system` helper are left out, because they only log or delegate.
- `validate_api_key` of the six network providers is left out, because each is a live API call. The mock's is modelled.
- Thread safety and the locking around the singletons are left out. The singletons are one value threaded through the calls.
- `System.Initialize` takes the table of provider classes as a parameter (`System.ClassOf` gives the real one). This keeps the seven vendor catalogs out of the initialisation proofs.
- The computation of the default configuration directory from the module's own path is left out. The directory is a parameter.
- `properties_configurator` is not part of this model. The fallback reader defined next to `ConfigLoader` is modelled.
- Exception texts are approximations: `str(e)` of an SDK or parsing failure is whatever message the transport gives, or a fixed text per Python exception kind.
- A stream consumed only partly is not modelled. Generators are modelled as fully drained.
- Byte decoding of Bedrock's stream chunks and of Grok's `iter_lines()` lines (`line.decode('utf-8')`) is not modelled. Chunk bytes and lines are text.
- Json.AsText: a reply's text field that is not a string (such as a `None` message content) is read as a failure, so the facade answers an error response or an error fragment, and the Hugging Face chat falls back to text generation. Python passes such a value through as the response content; the model's `Response.content` is a string.
- `int()` accepts `_` separators and non-ASCII digits in Python. The model only accepts ASCII digits with an optional sign and surrounding whitespace.
- Case mapping (`lower`, `upper`, `capitalize`) is modelled for ASCII letters only.
- Floating-point values are opaque constants. Nothing computes with them.
- `str.format` in the mock template is modelled for `{prompt}` fields, doubled braces and plain text. Format specs and positional fields fail as an unknown field.
- Keyword arguments are dicts with distinct keys, as Python guarantees.
- Trivial getters (`get_default_provider`, `get_default_model`, `get_config`, `get_available_models` of each vendor, `size`, `is_empty`, `is_initialized`, the loader's `models_config` and `properties`) are plain functions without rows.
- Prompts.Rendered: its own contract only bounds the number of turns. What the turns are is stated by `Prompts.RenderedAllLabelled` and `Prompts.RenderedNoneLabelled`.
- GrokVendor.GenerateStream: its own contract only says it never raises. What it yields is stated on `GrokVendor.EventStream`, which it calls.
- GrokVendor.ChatStream: its own contract only says it never raises. What it yields is stated on `GrokVendor.EventStream`, which it calls.
- AnthropicVendor.Generate, Chat, GenerateStream and ChatStream carry no contract of their own. They delegate to `AnthropicVendor.Create` and `AnthropicVendor.Stream`.

## Findings

The entry points (`Facades.ChatStream`, the client's history methods, `System.CreateClient`) run the code as written; the corrected members below are stated beside it and related to it by the named lemmas.

| source | as written | input that shows it | evidently intended | confidence | as-written member | corrected member |
|---|---|---|---|---|---|---|
| providers/huggingface_provider.py:135-138 | `chat_stream` is a generator, so `return self.generate_stream(...)` in its `except` block ends the stream without yielding the fallback's fragments | a chat stream that fails before its first delta: the caller receives no fragments and no error | yield the fallback stream's fragments (`yield from`) | high, not executed | HuggingFaceVendor.ChatStream, HuggingFaceVendor.SilentFallback | HuggingFaceVendor.ChatStreamFallback, HuggingFaceVendor.FallbackNotSilent |
| core/llm_client.py:63-64 | `list(self._history)[-n:]` with `n == 0` is `[0:]`, the whole history | `get_history(0)` or `multi_shot_generate(prompt, n_shots=0)` with stored exchanges returns or sends every exchange | no exchanges for `n == 0` | medium, not executed | Interactions.Recent, Interactions.ZeroRecentIsEverything | Interactions.Newest, Interactions.RecentAgrees |
| utils/config_loader.py:190-193 | the properties lookup goes through `get`, which reads the environment first, so a variable set to `""` hides the file's key | provider "grok", environment `GROK_API_KEY=""`, properties file line `GROK_API_KEY=k`: no key is found | fall back to the properties file's value | medium, not executed | ConfigLoader.GetApiKey, ConfigLoader.EmptyVariableHidesProperty | ConfigLoader.GetApiKeyFixed, ConfigLoader.ApiKeyAgrees |
