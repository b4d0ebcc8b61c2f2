/** The OpenAI adapter: canonical chat inputs to the wire dicts the OpenAI SDK
    takes, and the SDK's response objects back to the canonical records.

    The helpers the adapter imports are parameters: `isUrl` and `encodeImage`
    (the image utilities), `pyStr` (Python's `str` of a value) and `loads`
    (`json.loads`, `None` where it would raise). */
module OpenAI {
  import opened Results
  import opened Schema

  // ---------------------------------------------------------------------------
  // Requests

  /** The `tools` argument handed to the SDK: the `NOT_GIVEN` sentinel or a list. */
  datatype Tools = NotGiven | Given(tools: seq<Value>)

  /** The two fields of `OpenAIChatInputsAdapter`. */
  datatype ChatInputs = ChatInputs(messages: seq<Value>, tools: Tools)

  const IMAGE_DATA_PREFIX: string := "data:image/jpeg;base64,"

  /** `d.get(key, default)`. */
  function Get(fields: map<string, Value>, key: string, default: Value): Value
  {
    if key in fields then fields[key] else default
  }

  /** The item is a dict whose `type` entry is the given string. */
  predicate HasType(item: Value, kind: string)
  {
    item.Obj? && Get(item.fields, "type", Null) == Str(kind)
  }

  function TextItem(text: Value): Value
  {
    Obj(map["type" := Str("text"), "text" := text])
  }

  function ImageUrlItem(url: Value): Value
  {
    Obj(map["type" := Str("image_url"), "image_url" := Obj(map["url" := url])])
  }

  /** `_adapt_image_content`. */
  function AdaptImageContent(item: map<string, Value>, isUrl: Value -> bool, encodeImage: Value -> string): (r: Value)
    ensures HasType(r, "image_url") && r.fields.Keys == {"type", "image_url"}
    ensures r.fields["image_url"].Obj? && r.fields["image_url"].fields.Keys == {"url"}
    ensures isUrl(Get(item, "image", Null)) ==> r.fields["image_url"].fields["url"] == Get(item, "image", Null)
  {
    var image := Get(item, "image", Null);
    if isUrl(image) then ImageUrlItem(image)
    else ImageUrlItem(Str(IMAGE_DATA_PREFIX + encodeImage(image)))
  }

  /** An image is passed by reference exactly when `isUrl` holds of it and is
      inlined as a base64 data URI otherwise: the two paths never cross. */
  lemma ImagePathsNeverCross(item: map<string, Value>, isUrl: Value -> bool, encodeImage: Value -> string)
    ensures var image := Get(item, "image", Null);
            var r := AdaptImageContent(item, isUrl, encodeImage);
            r.Obj? && r.fields.Keys == {"type", "image_url"} && r.fields["type"] == Str("image_url") &&
            var reference := r.fields["image_url"];
            reference.Obj? && reference.fields.Keys == {"url"} &&
            (isUrl(image) ==> reference.fields["url"] == image) &&
            (!isUrl(image) ==> var url := reference.fields["url"];
                                 url.Str? && |url.text| >= |IMAGE_DATA_PREFIX| &&
                                 url.text[..|IMAGE_DATA_PREFIX|] == IMAGE_DATA_PREFIX &&
                                 url.text[|IMAGE_DATA_PREFIX|..] == encodeImage(image))
  {
    var image := Get(item, "image", Null);
    if !isUrl(image) {
      var text := IMAGE_DATA_PREFIX + encodeImage(image);
      assert text[..|IMAGE_DATA_PREFIX|] == IMAGE_DATA_PREFIX;
      assert text[|IMAGE_DATA_PREFIX|..] == encodeImage(image);
    }
  }

  /** `_adapt_content_item`: `.get` fails on a non-dict and `["text"]` on a text
      item without text. */
  function AdaptContentItem(item: Value, isUrl: Value -> bool, encodeImage: Value -> string): (r: Result<Value, PyError>)
    ensures r.Err? <==> !item.Obj? || (HasType(item, "text") && "text" !in item.fields)
    ensures r.Ok? && HasType(item, "text") ==>
              r.value.Obj? && r.value.fields.Keys == {"type", "text"} && r.value.fields["type"] == Str("text") &&
              r.value.fields["text"] == item.fields["text"]
    ensures r.Ok? && HasType(item, "image") ==> r.value == AdaptImageContent(item.fields, isUrl, encodeImage)
    ensures r.Ok? && !HasType(item, "text") && !HasType(item, "image") ==> r.value == item
  {
    match item
    case Obj(fields) =>
      if HasType(item, "text") then
        if "text" in fields then Ok(TextItem(fields["text"])) else Err(KeyError("text"))
      else if HasType(item, "image") then Ok(AdaptImageContent(fields, isUrl, encodeImage))
      else Ok(item)
    case _ => Err(AttributeError)
  }

  /** An adapted item is left as it is by a second adaptation. */
  lemma AdaptedItemIsFixedPoint(item: Value, isUrl: Value -> bool, encodeImage: Value -> string)
    requires AdaptContentItem(item, isUrl, encodeImage).Ok?
    ensures var adapted := AdaptContentItem(item, isUrl, encodeImage).value;
            AdaptContentItem(adapted, isUrl, encodeImage) == Ok(adapted)
  {
    var adapted := AdaptContentItem(item, isUrl, encodeImage).value;
    if HasType(item, "text") {
      assert adapted == TextItem(item.fields["text"]);
      assert TextItem(adapted.fields["text"]) == adapted;
    }
  }

  function ItemAdapter(isUrl: Value -> bool, encodeImage: Value -> string): Value -> Result<Value, PyError>
  {
    item => AdaptContentItem(item, isUrl, encodeImage)
  }

  function UserWire(content: seq<Value>): Value
  {
    Obj(map["role" := Str("user"), "content" := List(content)])
  }

  /** `_adapt_user_message`: a list is adapted item by item, a string becomes
      one text item, anything else (also a missing content) an empty list. */
  function UserMessage(message: map<string, Value>, isUrl: Value -> bool, encodeImage: Value -> string)
    : (r: Result<Value, PyError>)
    ensures r.Ok? ==> exists content :: r.value == UserWire(content)
    ensures var original := Get(message, "content", List([]));
            match original
            case List(items) =>
              (r.Ok? <==> forall i :: 0 <= i < |items| ==> AdaptContentItem(items[i], isUrl, encodeImage).Ok?) &&
              (r.Ok? ==> var content := r.value.fields["content"].items;
                           |content| == |items| &&
                           forall i :: 0 <= i < |items| ==> content[i] == AdaptContentItem(items[i], isUrl, encodeImage).value)
            case Str(s) => r == Ok(UserWire([TextItem(Str(s))]))
            case _ => r == Ok(UserWire([]))
  {
    match Get(message, "content", List([]))
    case List(items) =>
      (match MapAll(items, ItemAdapter(isUrl, encodeImage))
       case Err(e) => Err(e)
       case Ok(content) => Ok(UserWire(content)))
    case Str(s) => Ok(UserWire([TextItem(Str(s))]))
    case _ => Ok(UserWire([]))
  }

  /** The loop of `_adapt_user_message` that appends each adapted item. */
  method AdaptUserMessage(message: map<string, Value>, isUrl: Value -> bool, encodeImage: Value -> string)
    returns (r: Result<Value, PyError>)
    ensures r == UserMessage(message, isUrl, encodeImage)
  {
    var originalContent := Get(message, "content", List([]));
    var adaptedContent: seq<Value> := [];
    if originalContent.List? {
      var items := originalContent.items;
      var f := ItemAdapter(isUrl, encodeImage);
      var i := 0;
      while i < |items|
        invariant 0 <= i <= |items|
        invariant MapAll(items[..i], f) == Ok(adaptedContent)
      {
        MapAllStep(items, f, i);
        var adapted := AdaptContentItem(items[i], isUrl, encodeImage);
        if adapted.Err? {
          MapAllStopsAtFailure(items, f, i + 1);
          return Err(adapted.error);
        }
        adaptedContent := adaptedContent + [adapted.value];
        i := i + 1;
      }
      assert items[..i] == items;
      assert MapAll(items, ItemAdapter(isUrl, encodeImage)) == Ok(adaptedContent);
    } else if originalContent.Str? {
      adaptedContent := adaptedContent + [TextItem(originalContent)];
      assert adaptedContent == [TextItem(Str(originalContent.text))];
    }
    return Ok(UserWire(adaptedContent));
  }

  function ContentValue(content: Option<string>): Value
  {
    match content
    case Some(s) => Str(s)
    case None => Null
  }

  /** pydantic's `tool_call.dict()`. */
  function ToolCallDict(call: ChatToolCall): Value
  {
    Obj(map["id" := Str(call.id),
            "function" := Obj(map["name" := Str(call.fn.name), "arguments" := call.fn.arguments])])
  }

  /** A tool call as `_adapt_chat_choice` hands it on. */
  function ToolCallWire(call: ChatToolCall, pyStr: Value -> string): Value
  {
    Obj(map["id" := Str(call.id),
            "function" := Obj(map["name" := Str(call.fn.name), "arguments" := Str(pyStr(call.fn.arguments))])])
  }

  /** `tool["function"]["arguments"] = str(tool["function"]["arguments"])`. */
  function StringifyArguments(tool: Value, pyStr: Value -> string): Value
  {
    if tool.Obj? && "function" in tool.fields && tool.fields["function"].Obj? &&
       "arguments" in tool.fields["function"].fields
    then
      var f := tool.fields["function"].fields;
      Obj(tool.fields["function" := Obj(f["arguments" := Str(pyStr(f["arguments"]))])])
    else tool
  }

  /** The wire form of a tool call is its dict with only the arguments replaced
      by their `str` form; the id and name are kept. */
  lemma StringifiedDictIsWire(call: ChatToolCall, pyStr: Value -> string)
    ensures StringifyArguments(ToolCallDict(call), pyStr) == ToolCallWire(call, pyStr)
    ensures var w := ToolCallWire(call, pyStr);
            w.fields.Keys == ToolCallDict(call).fields.Keys &&
            w.fields["id"] == Str(call.id) &&
            w.fields["function"].fields.Keys == {"name", "arguments"} &&
            w.fields["function"].fields["name"] == Str(call.fn.name) &&
            w.fields["function"].fields["arguments"] == Str(pyStr(call.fn.arguments))
  {
    var d := ToolCallDict(call);
    var f := d.fields["function"].fields;
    assert f["arguments" := Str(pyStr(f["arguments"]))] ==
           map["name" := Str(call.fn.name), "arguments" := Str(pyStr(call.fn.arguments))];
  }

  /** `_adapt_chat_choice`: role and content copied; `tool_calls` present only
      for a non-empty list of calls. */
  function ChoiceWire(choice: ChatChoice, pyStr: Value -> string): (w: map<string, Value>)
    ensures "role" in w && w["role"] == Str(choice.message.role)
    ensures "content" in w && w["content"] == ContentValue(choice.message.content)
    ensures "tool_calls" in w <==> choice.toolCalls.Some? && |choice.toolCalls.value| > 0
    ensures w.Keys <= {"role", "content", "tool_calls"}
    ensures "tool_calls" in w ==>
              var calls := choice.toolCalls.value;
              w["tool_calls"].List? && |w["tool_calls"].items| == |calls| &&
              forall i :: 0 <= i < |calls| ==> w["tool_calls"].items[i] == ToolCallWire(calls[i], pyStr)
  {
    var base := map["role" := Str(choice.message.role), "content" := ContentValue(choice.message.content)];
    match choice.toolCalls
    case Some(calls) =>
      if |calls| > 0
      then base["tool_calls" := List(seq(|calls|, i requires 0 <= i < |calls| => ToolCallWire(calls[i], pyStr)))]
      else base
    case None => base
  }

  /** The loop of `_adapt_chat_choice` that rewrites each dumped call's
      arguments in place. */
  method AdaptChatChoice(choice: ChatChoice, pyStr: Value -> string) returns (adapted: map<string, Value>)
    ensures adapted == ChoiceWire(choice, pyStr)
  {
    adapted := map["role" := Str(choice.message.role), "content" := ContentValue(choice.message.content)];
    if choice.toolCalls.Some? && |choice.toolCalls.value| > 0 {
      var calls := choice.toolCalls.value;
      var adaptedTools := seq(|calls|, i requires 0 <= i < |calls| => ToolCallDict(calls[i]));
      var i := 0;
      while i < |adaptedTools|
        invariant 0 <= i <= |calls| == |adaptedTools|
        invariant forall j :: 0 <= j < i ==> adaptedTools[j] == ToolCallWire(calls[j], pyStr)
        invariant forall j :: i <= j < |calls| ==> adaptedTools[j] == ToolCallDict(calls[j])
      {
        StringifiedDictIsWire(calls[i], pyStr);
        adaptedTools := adaptedTools[i := StringifyArguments(adaptedTools[i], pyStr)];
        i := i + 1;
      }
      assert adaptedTools == seq(|calls|, i requires 0 <= i < |calls| => ToolCallWire(calls[i], pyStr));
      adapted := adapted["tool_calls" := List(adaptedTools)];
    }
  }

  /** `_adapt_message`: a ChatChoice is flattened, a user dict translated and
      any other dict kept; a plain string cannot be subscripted by `"role"`. */
  function AdaptMessage(message: InputMessage, isUrl: Value -> bool, encodeImage: Value -> string,
                        pyStr: Value -> string): (r: Result<Value, PyError>)
    ensures r.Ok? ==> r.value.Obj?
    ensures message.Turn? ==> r == Ok(Obj(ChoiceWire(message.choice, pyStr)))
    ensures message.Text? ==> r == Err(TypeError)
    ensures message.Mapping? && "role" !in message.fields ==> r == Err(KeyError("role"))
    ensures message.Mapping? && "role" in message.fields && message.fields["role"] == Str("user") ==>
              r == UserMessage(message.fields, isUrl, encodeImage)
    ensures message.Mapping? && "role" in message.fields && message.fields["role"] != Str("user") ==>
              r == Ok(Obj(message.fields))
  {
    match message
    case Turn(choice) => Ok(Obj(ChoiceWire(choice, pyStr)))
    case Text(_) => Err(TypeError)
    case Mapping(fields) =>
      if "role" !in fields then Err(KeyError("role"))
      else if fields["role"] == Str("user") then UserMessage(fields, isUrl, encodeImage)
      else Ok(Obj(fields))
  }

  /** Adapting a message a second time, as a dict, changes nothing, except for
      a ChatChoice whose role is `"user"` (its string content would become a
      list). */
  lemma AdaptedMessageIsFixedPoint(message: InputMessage, isUrl: Value -> bool, encodeImage: Value -> string,
                                   pyStr: Value -> string)
    requires AdaptMessage(message, isUrl, encodeImage, pyStr).Ok?
    requires message.Turn? ==> message.choice.message.role != "user"
    ensures var adapted := AdaptMessage(message, isUrl, encodeImage, pyStr).value;
            AdaptMessage(Mapping(adapted.fields), isUrl, encodeImage, pyStr) == Ok(adapted)
  {
    var adapted := AdaptMessage(message, isUrl, encodeImage, pyStr).value;
    if message.Mapping? && message.fields["role"] == Str("user") {
      var content := adapted.fields["content"].items;
      assert adapted == UserWire(content);
      var original := Get(message.fields, "content", List([]));
      forall i | 0 <= i < |content|
        ensures AdaptContentItem(content[i], isUrl, encodeImage) == Ok(content[i])
      {
        if original.List? {
          AdaptedItemIsFixedPoint(original.items[i], isUrl, encodeImage);
        } else {
          AdaptedItemIsFixedPoint(content[i], isUrl, encodeImage);
        }
      }
      var again := MapAll(content, ItemAdapter(isUrl, encodeImage));
      assert again.Ok?;
      assert again.value == content;
    }
  }

  function MessageAdapter(isUrl: Value -> bool, encodeImage: Value -> string, pyStr: Value -> string)
    : InputMessage -> Result<Value, PyError>
  {
    message => AdaptMessage(message, isUrl, encodeImage, pyStr)
  }

  /** `_adapt_tools`. */
  function AdaptTools(tools: Option<seq<Value>>): (r: Tools)
    ensures r == NotGiven <==> tools.None?
    ensures tools.Some? ==> r == Given(tools.value)
  {
    if tools.None? then NotGiven else Given(tools.value)
  }

  /** `OpenAIChatInputsAdapter(messages, tools)`: one adapted message per input
      message, in order; a dict whose role is not `"user"` is kept as it is. */
  function AdaptChatInputs(messages: seq<InputMessage>, tools: Option<seq<Value>>, isUrl: Value -> bool,
                           encodeImage: Value -> string, pyStr: Value -> string): (r: Result<ChatInputs, PyError>)
    ensures r.Ok? <==> forall i :: 0 <= i < |messages| ==> AdaptMessage(messages[i], isUrl, encodeImage, pyStr).Ok?
    ensures r.Ok? ==>
              |r.value.messages| == |messages| &&
              (forall i :: 0 <= i < |messages| ==>
                 r.value.messages[i] == AdaptMessage(messages[i], isUrl, encodeImage, pyStr).value) &&
              r.value.tools == AdaptTools(tools)
    ensures r.Ok? ==> forall i :: 0 <= i < |messages| && messages[i].Mapping? && messages[i].fields["role"] != Str("user") ==>
                        r.value.messages[i] == Obj(messages[i].fields)
    ensures (exists i :: 0 <= i < |messages| && messages[i].Text?) ==> r.Err?
  {
    match MapAll(messages, MessageAdapter(isUrl, encodeImage, pyStr))
    case Err(e) => Err(e)
    case Ok(adapted) => Ok(ChatInputs(adapted, AdaptTools(tools)))
  }

  // ---------------------------------------------------------------------------
  // Responses: the SDK's objects

  datatype WireFunction = WireFunction(name: string, arguments: string)

  datatype WireToolCall = WireToolCall(id: string, fn: WireFunction)

  datatype WireMessage = WireMessage(role: string, content: Option<string>, toolCalls: Option<seq<WireToolCall>>)

  datatype WireChoice = WireChoice(index: int, message: WireMessage, finishReason: string)

  datatype CompletionUsage = CompletionUsage(promptTokens: int, completionTokens: int, totalTokens: int)

  datatype ChatCompletion = ChatCompletion(id: string, kind: string, model: string,
                                           usage: CompletionUsage, choices: seq<WireChoice>)

  datatype WireEmbedding = WireEmbedding(index: int, embedding: seq<real>)

  datatype WireEmbeddingUsage = WireEmbeddingUsage(promptTokens: int, totalTokens: int)

  datatype CreateEmbeddingResponse = CreateEmbeddingResponse(kind: string, model: string,
                                                             usage: WireEmbeddingUsage, data: seq<WireEmbedding>)

  datatype Transcription = Transcription(text: string)

  // ---------------------------------------------------------------------------
  // Responses: the adapters

  /** One `ChatToolCall` with its arguments decoded from JSON. */
  function AdaptToolCall(call: WireToolCall, loads: string -> Option<Value>): (r: Result<ChatToolCall, PyError>)
    ensures r.Ok? <==> loads(call.fn.arguments).Some?
    ensures r.Ok? ==> r.value.id == call.id && r.value.fn.name == call.fn.name &&
                      loads(call.fn.arguments) == Some(r.value.fn.arguments)
    ensures r.Err? ==> r.error == JsonDecodeError(call.fn.arguments)
  {
    match loads(call.fn.arguments)
    case None => Err(JsonDecodeError(call.fn.arguments))
    case Some(arguments) => Ok(ChatToolCall(call.id, Function(call.fn.name, arguments)))
  }

  function ToolCallAdapter(loads: string -> Option<Value>): WireToolCall -> Result<ChatToolCall, PyError>
  {
    call => AdaptToolCall(call, loads)
  }

  /** One `ChatChoice`: index, role, content and finish reason copied; the tool
      calls are `None` exactly when the SDK's are, and otherwise correspond one
      to one, in order. */
  function AdaptChoice(choice: WireChoice, loads: string -> Option<Value>): (r: Result<ChatChoice, PyError>)
    ensures r.Ok? <==> choice.message.toolCalls.None? ||
                       forall i :: 0 <= i < |choice.message.toolCalls.value| ==>
                         loads(choice.message.toolCalls.value[i].fn.arguments).Some?
    ensures r.Ok? ==>
              r.value.index == choice.index && r.value.finishReason == choice.finishReason &&
              r.value.message == ChatMessage(choice.message.role, choice.message.content) &&
              (r.value.toolCalls.None? <==> choice.message.toolCalls.None?)
    ensures r.Ok? && choice.message.toolCalls.Some? ==>
              var calls := choice.message.toolCalls.value;
              var adapted := r.value.toolCalls.value;
              |adapted| == |calls| &&
              forall i :: 0 <= i < |calls| ==>
                adapted[i].id == calls[i].id && adapted[i].fn.name == calls[i].fn.name &&
                loads(calls[i].fn.arguments) == Some(adapted[i].fn.arguments)
  {
    var message := ChatMessage(choice.message.role, choice.message.content);
    match choice.message.toolCalls
    case None => Ok(ChatChoice(choice.index, message, None, choice.finishReason))
    case Some(calls) =>
      match MapAll(calls, ToolCallAdapter(loads))
      case Err(e) => Err(e)
      case Ok(adapted) => Ok(ChatChoice(choice.index, message, Some(adapted), choice.finishReason))
  }

  function ChoiceAdapter(loads: string -> Option<Value>): WireChoice -> Result<ChatChoice, PyError>
  {
    choice => AdaptChoice(choice, loads)
  }

  /** `OpenAIChatResponseAdapter`: id, object and model copied, the usage
      counters renamed, one choice per SDK choice, in order. */
  function AdaptChatResponse(response: ChatCompletion, loads: string -> Option<Value>): (r: Result<ChatResponse, PyError>)
    ensures r.Ok? <==> forall i :: 0 <= i < |response.choices| ==> AdaptChoice(response.choices[i], loads).Ok?
    ensures r.Ok? ==>
              r.value.id == response.id && r.value.kind == response.kind && r.value.model == response.model &&
              r.value.usage == ChatUsage(response.usage.promptTokens, response.usage.completionTokens,
                                         response.usage.totalTokens) &&
              |r.value.choices| == |response.choices| &&
              forall i :: 0 <= i < |response.choices| ==>
                r.value.choices[i] == AdaptChoice(response.choices[i], loads).value
  {
    match MapAll(response.choices, ChoiceAdapter(loads))
    case Err(e) => Err(e)
    case Ok(choices) =>
      Ok(ChatResponse(response.id, response.kind, response.model,
                      ChatUsage(response.usage.promptTokens, response.usage.completionTokens, response.usage.totalTokens),
                      choices))
  }

  /** `OpenAITextEmbeddingResponseAdapter`: no id, object and model copied, the
      usage counters renamed, one embedding per SDK item, in order. */
  function AdaptEmbeddingResponse(response: CreateEmbeddingResponse): (r: TextEmbeddingResponse)
    ensures r.id.None? && r.kind == response.kind && r.model == response.model
    ensures r.usage.inputTokens == response.usage.promptTokens && r.usage.totalTokens == response.usage.totalTokens
    ensures |r.embeddings| == |response.data|
    ensures forall i :: 0 <= i < |response.data| ==>
              r.embeddings[i].index == response.data[i].index && r.embeddings[i].data == response.data[i].embedding
  {
    TextEmbeddingResponse(None, response.kind, response.model,
                          EmbeddingUsage(response.usage.promptTokens, response.usage.totalTokens),
                          seq(|response.data|, i requires 0 <= i < |response.data| =>
                                Embedding(response.data[i].index, response.data[i].embedding)))
  }

  /** `OpenAITranscriptionResponseAdapter`: the text, verbatim. */
  function AdaptTranscription(response: Transcription): (r: TranscriptionResponse)
    ensures r.text == response.text
  {
    TranscriptionResponse(response.text)
  }
}
