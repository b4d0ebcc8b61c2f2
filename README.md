# switchai core, modelled in Dafny

switchai puts one facade in front of several AI vendors. This project models
three parts of it:

- **The facade `SwitchAI`** (`MainClient`). The provider name is lower-cased
  and looked up in a static, ordered registry of provider modules. The model
  is looked up in that provider's `SUPPORTED_MODELS` table, and the first
  category that lists it wins. A missing model is reported with the providers
  that do list it. The API key is the explicit argument, falling back to the
  environment. After construction, each of `chat`, `embed`, `transcribe` and
  `generate_image` passes only when the stored category is its own.
- **The OpenAI adapter** (`OpenAI`). Canonical chat inputs become the wire
  dicts the OpenAI SDK takes:
  - a `ChatChoice` is flattened;
  - user content becomes a list of text and image items;
  - an image becomes a URL reference or a base64 data URI;
  - `None` tools become the `NOT_GIVEN` sentinel.

  The SDK's chat, embedding and transcription responses are mapped field for
  field into the canonical records.
- **The `Browser` superclient** (`BrowserClient`). It refuses caller tools and
  injects one `get_website` tool. It calls chat once. If the first choice
  calls tools, it appends that choice and one `tool` message per `get_website`
  call to the caller's message list, then calls chat once more without tools.

`Results` holds `Option`, `Result` and `MapAll`, the walk that stops at the
first failure, as a raising Python loop or comprehension does. `Schema` holds
the canonical records, a Python/JSON `Value`, the exceptions, and `PyList`,
the mutable list shared between caller and callee.

Outside code becomes a parameter:

| outside code | parameter |
|---|---|
| the environment | `env: map<string, string>` |
| each vendor | `Vendor`, its reply to the k-th request to the adapter |
| `is_url`, `encode_image`, Python's `str` | `isUrl`, `encodeImage`, `pyStr` |
| `json.loads` | `loads`, `None` where it would raise |
| the HTTP GET in `fetch_website` | `http`, returning an `HttpOutcome` |

The adapter (`ProviderAdapter`) keeps the requests it has received in
`requests`. That is how call counts and call arguments are stated.

The contracts follow the code in a few places where one might expect
otherwise:

- One might expect an environment variable that is set but empty to fail.
  It still counts as a key; only an absent key (`None`) fails
  (`MainClient.Credential`).
- The message list is typed as holding strings too, so one might expect a
  plain string to become a user turn. `_adapt_message` indexes it by
  `"role"`, so the OpenAI adapter raises `TypeError` on it
  (`OpenAI.AdaptMessage`, `OpenAI.AdaptChatInputs`).
- `fetch_website(**arguments)` is bound before the call. Arguments that are
  not a dict of exactly `url` therefore raise out of `Browser.chat`, after the
  messages appended so far (`BrowserClient.UrlArgument`,
  `BrowserClient.BadArgumentsEndTheChat`).
- An empty caller `tools` list is the list the tool is appended to, so the
  caller sees it grow (`BrowserClient.Browser.Chat`).

## Model

| member | source | states |
|---|---|---|
| MainClient.SwitchAI.New | src/switchai/main_client.py:20-24 | construction resolves the lower-cased provider; on failure the error is returned; on success the stored provider is `Lower(provider)`, the category is the resolved one, and the fresh adapter holds the model, the resolved key and no requests |
| MainClient.SwitchAI.GetProviderClient | src/switchai/main_client.py:26-77 | the imperative resolution returns exactly `Resolve`: provider check, then model, then credential |
| MainClient.Find | src/switchai/main_client.py:33 | a provider module is found iff its name is registered, and the one found is a registry entry with that name |
| MainClient.FoundNamesAreLower | src/switchai/main_client.py:21-33 | lookups use the lower-cased input, so only a lower-case registered name can be found, and such a name is found from every spelling of it |
| MainClient.LowerIsLower | src/switchai/main_client.py:21 | lower-casing is idempotent |
| MainClient.ResolveUnknownProvider | src/switchai/main_client.py:33-37 | resolution fails with `UnknownProvider` carrying exactly the registered names iff the provider is not registered, whatever the model and key |
| MainClient.FirstCategory | src/switchai/main_client.py:45-49 | `None` iff no category lists the model; otherwise the category of the first listing entry in table order |
| MainClient.FindCategory | src/switchai/main_client.py:42-49 | the flag loop with `break` yields `FirstCategory`, and the flag is set iff a category was found |
| MainClient.Alternatives | src/switchai/main_client.py:53-60 | a name is an alternative iff some registered provider with that name lists the model |
| MainClient.AlternativesInRegistryOrder | src/switchai/main_client.py:53-60 | the alternatives keep registry order: they distribute over concatenation of registries |
| MainClient.NoAlternativeMeansNowhere | src/switchai/main_client.py:62 | the alternatives are empty iff no registered provider lists the model |
| MainClient.ResolveUnsupportedModel | src/switchai/main_client.py:51-69 | an unlisted model fails with `UnsupportedElsewhere(alternatives)` or, when there are none, `UnsupportedEverywhere`, whatever the key; the chosen provider is never an alternative when names are distinct; `UnsupportedEverywhere` iff no provider lists the model |
| MainClient.ResolveSupportedModel | src/switchai/main_client.py:45-77 | a listed model resolves, to the first listing category (`FirstCategory`), the stored provider and the credential's key, exactly when a key is passed or in the environment; otherwise the only error is `MissingKey` |
| MainClient.Credential | src/switchai/main_client.py:71-77 | an explicit key (an empty one too) wins; otherwise the environment's entry; `None` iff both are absent |
| MainClient.GateIsExclusive | src/switchai/main_client.py:95-112 | a category passes at most one gate, and each operation's own category passes exactly its gate |
| MainClient.SwitchAI.Chat | src/switchai/main_client.py:86-97 | with category `chat` the request is forwarded unchanged and the vendor's reply returned; otherwise the error comes back and the adapter receives nothing |
| MainClient.SwitchAI.Embed | src/switchai/main_client.py:99-102 | the same gate for `embed` |
| MainClient.SwitchAI.Transcribe | src/switchai/main_client.py:104-107 | the same gate for `transcribe` |
| MainClient.SwitchAI.GenerateImage | src/switchai/main_client.py:109-112 | the same gate for `generate_image` |
| Results.MapAll | src/switchai/providers/_openai.py:22 | the walk succeeds iff every element does, and then yields each element's result in order; a failure is the first failing element's error |
| Results.MapAllStopsAtFailure | src/switchai/providers/_openai.py:51-52 | once a prefix has failed, later elements do not change the outcome |
| OpenAI.AdaptImageContent | src/switchai/providers/_openai.py:65-70 | the result is an `image_url` item with just `type` and `image_url`, the reference holds just `url`, and that is the image itself when `is_url` holds |
| OpenAI.ImagePathsNeverCross | src/switchai/providers/_openai.py:65-70 | an image item becomes `{"type": "image_url", "image_url": {"url": u}}` with `u` the image itself when `is_url` holds, and otherwise the data-URI prefix followed by exactly `encode_image(image)` |
| OpenAI.AdaptContentItem | src/switchai/providers/_openai.py:58-63 | fails exactly on a non-dict or a text item without `text`; a text item keeps only `type` and `text`; an image item becomes `AdaptImageContent` of it; any other dict is unchanged |
| OpenAI.AdaptedItemIsFixedPoint | src/switchai/providers/_openai.py:58-63 | adapting an adapted item again changes nothing |
| OpenAI.UserMessage | src/switchai/providers/_openai.py:46-56 | the result is `{"role": "user", "content": [...]}`; list content is adapted item by item, keeping length and order, and fails iff an item fails; string content becomes one text item; missing or other content becomes an empty list |
| OpenAI.AdaptUserMessage | src/switchai/providers/_openai.py:46-56 | the appending loop computes `UserMessage`, stopping at the first failing item |
| OpenAI.ChoiceWire | src/switchai/providers/_openai.py:34-44 | role and content are copied; the `tool_calls` key is present iff the choice has a non-empty list of calls, and then holds one entry per call, in order, with its arguments in `str` form |
| OpenAI.AdaptChatChoice | src/switchai/providers/_openai.py:34-44 | the in-place loop over the dumped calls yields `ChoiceWire` |
| OpenAI.StringifiedDictIsWire | src/switchai/providers/_openai.py:40-42 | rewriting a dumped call replaces only its arguments, by their `str` form; id and name are kept |
| OpenAI.AdaptMessage | src/switchai/providers/_openai.py:25-32 | a `ChatChoice` becomes `ChoiceWire` of it; a dict with role `user` becomes `UserMessage`; any other dict is kept; a dict without `role` raises `KeyError("role")` and a plain string `TypeError`; every success is a dict |
| OpenAI.AdaptedMessageIsFixedPoint | src/switchai/providers/_openai.py:25-32 | adapting an adapted message again, as a dict, changes nothing (except a `ChatChoice` with role `user`) |
| OpenAI.AdaptTools | src/switchai/providers/_openai.py:72-73 | `None` becomes `NOT_GIVEN` and nothing else does; any list, the empty one too, is passed through |
| OpenAI.AdaptChatInputs | src/switchai/providers/_openai.py:20-32 | succeeds iff every message adapts; then one adapted message per input, in order; non-user dicts unchanged; tools as `AdaptTools`; any plain-string message makes it fail |
| OpenAI.AdaptToolCall | src/switchai/providers/_openai.py:92-95 | id and name copied, arguments are the decoded vendor string; fails with the decode error iff decoding fails |
| OpenAI.AdaptChoice | src/switchai/providers/_openai.py:88-101 | index, role, content and finish reason copied; tool calls `None` iff the vendor's are; otherwise one call per vendor call, in order |
| OpenAI.AdaptChatResponse | src/switchai/providers/_openai.py:76-104 | id, object and model copied; usage prompt to input, completion to output, total to total; one choice per vendor choice, in order |
| OpenAI.AdaptEmbeddingResponse | src/switchai/providers/_openai.py:107-124 | id `None`; object and model copied; usage prompt to input and total to total; one embedding per vendor item, in order, index and data copied |
| OpenAI.AdaptTranscription | src/switchai/providers/_openai.py:127-129 | the text copied verbatim |
| BrowserClient.FetchWebsite | src/switchai/superclients/browser.py:11-26 | total: a 2xx response gives its content; any other status, a request error or any other exception gives its description string |
| BrowserClient.NotFoundIsDescribed | src/switchai/superclients/browser.py:23-24 | a 404 gives `Error response 404 while requesting <url>` |
| BrowserClient.UrlArgument | src/switchai/superclients/browser.py:81-82 | `fetch_website(**arguments)` binds iff the arguments are a dict of exactly `url`, and otherwise raises `TypeError` |
| BrowserClient.OtherToolsAreIgnored | src/switchai/superclients/browser.py:79-80 | calls not named `get_website` change nothing in the tool round |
| BrowserClient.OneMessagePerGetWebsiteCall | src/switchai/superclients/browser.py:79-90 | with bindable arguments, the round appends exactly one `tool` message per `get_website` call, in call order, each with the fetched page, the call's id and the name |
| BrowserClient.RoundStopsAtError | src/switchai/superclients/browser.py:79-82 | once a call has raised, later calls add nothing |
| BrowserClient.BadArgumentsFailTheRound | src/switchai/superclients/browser.py:81-82 | any `get_website` call with unbindable arguments makes the round fail |
| BrowserClient.RoundFailsOnlyWithTypeError | src/switchai/superclients/browser.py:82 | the only error a round ends with is the binding `TypeError` |
| BrowserClient.BrowserChat | src/switchai/superclients/browser.py:43-94 | caller tools are refused iff non-empty, before any call; at most two chat calls, appended after the earlier ones; each forwards `temperature`, `max_tokens` and `n` and never streams |
| BrowserClient.FirstRoundOutcomes | src/switchai/superclients/browser.py:53-94 | the first call carries the caller's messages and exactly the `get_website` tool; no choices raises `IndexError` after one call; no tool calls returns the first response after one call, with messages unchanged and nothing fetched |
| BrowserClient.SecondRoundAnswersEveryCall | src/switchai/superclients/browser.py:76-92 | with tool calls and bindable arguments, exactly two calls are made; the second carries no tools and the caller's messages, the assistant turn and one `tool` message per `get_website` call in order; its response is the result |
| BrowserClient.FailedRoundKeepsEarlierMessages | src/switchai/superclients/browser.py:79-90 | a failed round failed at a `get_website` call with unbindable arguments, after an error-free prefix whose messages it keeps |
| BrowserClient.BadArgumentsEndTheChat | src/switchai/superclients/browser.py:78-82 | a `get_website` call with unbindable arguments ends `chat` with `TypeError` after one call; the messages are the caller's, the assistant turn, and the tool messages of the calls before the first failing call, which is at or before it |
| BrowserClient.Browser.New | src/switchai/superclients/browser.py:37-41 | construction succeeds iff the wrapped client's category is `chat` |
| BrowserClient.Browser.Chat | src/switchai/superclients/browser.py:43-94 | the method's result, the caller's message list, the adapter's requests and the fetched URLs are those of `BrowserChat`; a caller `tools` list ends as exactly the `get_website` tool unless refused |
| BrowserClient.Browser.AnswerToolCalls | src/switchai/superclients/browser.py:79-90 | the loop appends `ToolRound`'s messages to the caller's list and stops with its error |

## Left out

- Provider discovery through `glob` and `importlib`, and the removal of `"_init__"`: the registry is a fixed, ordered sequence of provider modules.
- The reflective lookup of `<Provider>ClientAdapter`: the adapter is `ProviderAdapter`, which forwards to a vendor oracle.
- `os.environ.get`: the environment is a map parameter.
- The vendor SDKs, the client adapter classes that call them, and the other vendors' adapters: these are not part of this model, and each vendor is an oracle.
- Exceptions from the vendor: the `Vendor` oracle is total, so an SDK call that raises out of `chat` or `Browser.chat` cannot happen in the model. In particular, the model has no run where `Browser.chat` raises from its second call after `messages` has been extended.
- Failures of `is_url` and `encode_image`: they are total parameters, so `encode_image` failing on an unreadable path is not modelled.
- `is_url`, `encode_image`, Python's `str` of a dict and `json.loads`: these are function parameters whose behaviour is not constrained. No round trip between `str` and `json.loads` is claimed, because `str` of a dict is not JSON.
- `httpx` and the User-Agent header: the HTTP GET is the `http` parameter. `str(response.content)` is taken as the content string.
- Streaming: the generator returned when `stream` is true is not modelled. Only the `stream` flag is forwarded.
- Floating-point numbers: temperatures and embedding values are `real`s that are only copied.
- Dict insertion order: dicts are maps.
- The exact wording of the error messages: errors are variants that carry the names they would list.
- A vendor response whose `usage` is `None`, and other malformed SDK objects: the SDK records are total datatypes.
- `response_format` and `stream` on `Browser.chat` are accepted but not forwarded. They are not parameters of `BrowserClient.BrowserChat`.
- Aliasing between the message list and the adapter: the adapter receives a snapshot of the list at each call, so later appends do not reach an earlier request.
- `setup.py`: packaging metadata only.
- MainClient.Lower: lower-cases ASCII letters only, because full Unicode case mapping is not modelled.
- BrowserClient.BrowserChat: states the request count, the forwarding and the refusal itself; the per-branch results are stated by `FirstRoundOutcomes`, `SecondRoundAnswersEveryCall` and `BadArgumentsEndTheChat`.
