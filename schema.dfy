/** The canonical, vendor-neutral records of switchai, the values that flow in
    and out of the adapters, and the errors Python raises along the way. */
module Schema {
  import opened Results

  /** A Python value as the adapters see it: the JSON-like values that appear in
      message dicts, tool definitions and tool-call arguments. The insertion
      order of a dict is not modelled. */
  datatype Value =
    | Null
    | Bool(truth: bool)
    | Num(number: real)
    | Str(text: string)
    | List(items: seq<Value>)
    | Obj(fields: map<string, Value>)

  /** The exceptions the modelled code can raise on malformed input. */
  datatype PyError =
    | TypeError                      // subscripting a non-dict, `**` on a non-mapping or with the wrong keys
    | AttributeError                 // `.get` on something that is not a dict
    | KeyError(key: string)          // `d[key]` with `key` missing
    | JsonDecodeError(document: string)

  datatype ChatMessage = ChatMessage(role: string, content: Option<string>)

  /** `arguments` holds the parsed structure, never the encoded text. */
  datatype Function = Function(name: string, arguments: Value)

  datatype ChatToolCall = ChatToolCall(id: string, fn: Function)

  datatype ChatChoice = ChatChoice(index: int, message: ChatMessage,
                                   toolCalls: Option<seq<ChatToolCall>>,
                                   finishReason: string)

  datatype ChatUsage = ChatUsage(inputTokens: int, outputTokens: int, totalTokens: int)

  /** `kind` is the response's `object` field. */
  datatype ChatResponse = ChatResponse(id: string, kind: string, model: string,
                                       usage: ChatUsage, choices: seq<ChatChoice>)

  /** The embedding vector is copied and never inspected. */
  datatype Embedding = Embedding(index: int, data: seq<real>)

  datatype EmbeddingUsage = EmbeddingUsage(inputTokens: int, totalTokens: int)

  datatype TextEmbeddingResponse = TextEmbeddingResponse(id: Option<string>, kind: string, model: string,
                                                         usage: EmbeddingUsage, embeddings: seq<Embedding>)

  datatype TranscriptionResponse = TranscriptionResponse(text: string)

  /** Whatever the vendor returns for an image request; opaque here. */
  datatype ImageGenerationResponse = ImageGenerationResponse(images: seq<Value>)

  /** One element of a chat message list: a plain string, a prior ChatChoice,
      or a dict. */
  datatype InputMessage =
    | Text(text: string)
    | Turn(choice: ChatChoice)
    | Mapping(fields: map<string, Value>)

  /** A Python list: a mutable object shared by reference between caller and
      callee. */
  class PyList<T> {
    var items: seq<T>

    constructor (items: seq<T>)
      ensures this.items == items
    {
      this.items := items;
    }

    method Append(x: T)
      modifies this
      ensures items == old(items) + [x]
    {
      items := items + [x];
    }
  }
}
