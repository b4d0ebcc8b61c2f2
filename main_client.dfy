/** The SwitchAI facade: resolution of a (provider, model, key) triple against
    the registry of provider modules, and the category gate in front of the
    four operations. */
module MainClient {
  import opened Results
  import opened Schema

  // ---------------------------------------------------------------------------
  // Categories and the gate

  datatype Operation = ChatOp | EmbedOp | TranscribeOp | GenerateImageOp

  /** The category string an operation demands. */
  function CategoryOf(op: Operation): string
  {
    match op
    case ChatOp => "chat"
    case EmbedOp => "embed"
    case TranscribeOp => "transcribe"
    case GenerateImageOp => "generate_image"
  }

  /** The gate of each operation: it passes exactly when the stored category is
      the operation's own. */
  predicate Permits(category: string, op: Operation)
  {
    category == CategoryOf(op)
  }

  /** Every category passes at most one gate, and one of the four known
      categories passes exactly its own. */
  lemma GateIsExclusive(category: string, a: Operation, b: Operation)
    ensures Permits(category, a) && Permits(category, b) ==> a == b
    ensures Permits(CategoryOf(a), b) <==> a == b
  {
  }

  // ---------------------------------------------------------------------------
  // The registry

  /** A provider module: its name (the `_<name>.py` file), its
      `SUPPORTED_MODELS` table in dict order, and its `API_KEY_NAMING`. */
  datatype ProviderModule = ProviderModule(name: string,
                                           supportedModels: seq<(string, set<string>)>,
                                           apiKeyNaming: string)

  function Names(registry: seq<ProviderModule>): seq<string>
  {
    seq(|registry|, i requires 0 <= i < |registry| => registry[i].name)
  }

  predicate NamesDistinct(registry: seq<ProviderModule>)
  {
    forall i, j :: 0 <= i < j < |registry| ==> registry[i].name != registry[j].name
  }

  /** The module imported for a provider name. */
  function Find(registry: seq<ProviderModule>, name: string): (r: Option<ProviderModule>)
    ensures r.Some? <==> name in Names(registry)
    ensures r.Some? ==> exists i :: 0 <= i < |registry| && registry[i] == r.value && r.value.name == name
  {
    if registry == [] then None
    else if registry[0].name == name then
      assert Names(registry)[0] == name;
      Some(registry[0])
    else
      assert Names(registry) == [registry[0].name] + Names(registry[1..]);
      var r := Find(registry[1..], name);
      assert r.Some? ==> exists i :: 0 <= i < |registry| && registry[i] == r.value;
      r
  }

  /** Some category of the table lists the model. */
  predicate Lists(table: seq<(string, set<string>)>, model: string)
  {
    exists i :: 0 <= i < |table| && model in table[i].1
  }

  /** The category the provider file declares for the model: the first, in
      table order, whose models contain it. */
  function FirstCategory(table: seq<(string, set<string>)>, model: string): (r: Option<string>)
    ensures r.None? <==> !Lists(table, model)
    ensures r.Some? ==> exists i :: 0 <= i < |table| && model in table[i].1 && r.value == table[i].0 &&
                                    forall j :: 0 <= j < i ==> model !in table[j].1
  {
    if table == [] then None
    else if model in table[0].1 then Some(table[0].0)
    else
      var r := FirstCategory(table[1..], model);
      assert forall i :: 0 < i < |table| ==> table[i] == table[1..][i - 1];
      assert Lists(table[1..], model) ==> Lists(table, model);
      r
  }

  /** The loop over `SUPPORTED_MODELS.items()` with its two flags and the early
      `break`. */
  method FindCategory(table: seq<(string, set<string>)>, modelName: string)
    returns (modelSupported: bool, modelCategory: Option<string>)
    ensures modelCategory == FirstCategory(table, modelName)
    ensures modelSupported <==> modelCategory.Some?
  {
    modelSupported := false;
    modelCategory := None;
    var i := 0;
    while i < |table|
      invariant 0 <= i <= |table|
      invariant !modelSupported && modelCategory.None?
      invariant FirstCategory(table[i..], modelName) == FirstCategory(table, modelName)
    {
      if modelName in table[i].1 {
        modelSupported := true;
        modelCategory := Some(table[i].0);
        break;
      }
      assert table[i..][1..] == table[i + 1..];
      i := i + 1;
    }
  }

  /** The registered providers that list the model in some category, in
      registry order (the comprehension at the `alternative_providers`
      assignment). */
  function Alternatives(registry: seq<ProviderModule>, model: string): (r: seq<string>)
    ensures |r| <= |registry|
    ensures forall name :: name in r <==>
              exists i :: 0 <= i < |registry| && registry[i].name == name && Lists(registry[i].supportedModels, model)
  {
    if registry == [] then []
    else
      var rest := Alternatives(registry[1..], model);
      assert forall i :: 0 < i < |registry| ==> registry[i] == registry[1..][i - 1];
      (if Lists(registry[0].supportedModels, model) then [registry[0].name] else []) + rest
  }

  /** Alternatives keeps registry order: it distributes over concatenation. */
  lemma {:induction false} AlternativesInRegistryOrder(a: seq<ProviderModule>, b: seq<ProviderModule>, model: string)
    ensures Alternatives(a + b, model) == Alternatives(a, model) + Alternatives(b, model)
  {
    if a == [] {
      assert a + b == b;
    } else {
      var head := if Lists(a[0].supportedModels, model) then [a[0].name] else [];
      assert (a + b)[0] == a[0];
      assert (a + b)[1..] == a[1..] + b;
      assert Alternatives(a + b, model) == head + Alternatives(a[1..] + b, model);
      AlternativesInRegistryOrder(a[1..], b, model);
      assert Alternatives(a, model) == head + Alternatives(a[1..], model);
    }
  }

  /** No alternative exists exactly when no registered provider lists the
      model. */
  lemma NoAlternativeMeansNowhere(registry: seq<ProviderModule>, model: string)
    ensures Alternatives(registry, model) == [] <==>
              forall i :: 0 <= i < |registry| ==> !Lists(registry[i].supportedModels, model)
  {
    var alts := Alternatives(registry, model);
    if alts != [] {
      assert alts[0] in alts;
    }
  }

  // ---------------------------------------------------------------------------
  // Lower-casing

  function LowerChar(c: char): char
  {
    if 'A' <= c <= 'Z' then (c as int + 32) as char else c
  }

  /** `str.lower()` on ASCII letters. */
  function Lower(s: string): (r: string)
    ensures |r| == |s|
  {
    seq(|s|, i requires 0 <= i < |s| => LowerChar(s[i]))
  }

  predicate IsLower(s: string)
  {
    Lower(s) == s
  }

  lemma LowerIsLower(s: string)
    ensures IsLower(Lower(s))
  {
    var t := Lower(s);
    assert forall i :: 0 <= i < |s| ==> Lower(t)[i] == t[i];
  }

  /** Since the input name is lower-cased before lookup, a provider can only be
      reached through a lower-case registered name; any such name is reached
      from every spelling of it. */
  lemma FoundNamesAreLower(registry: seq<ProviderModule>, input: string)
    ensures Find(registry, Lower(input)).Some? ==> IsLower(Find(registry, Lower(input)).value.name)
    ensures forall i :: 0 <= i < |registry| && IsLower(registry[i].name) && Lower(registry[i].name) == Lower(input) ==>
              Find(registry, Lower(input)).Some?
  {
    LowerIsLower(input);
    if Find(registry, Lower(input)).Some? {
      assert Find(registry, Lower(input)).value.name == Lower(input);
    }
    forall i | 0 <= i < |registry| && IsLower(registry[i].name) && Lower(registry[i].name) == Lower(input)
      ensures Lower(input) in Names(registry)
    {
      assert Names(registry)[i] == Lower(input);
    }
  }

  // ---------------------------------------------------------------------------
  // Resolution

  datatype ConfigError =
    | UnknownProvider(supported: seq<string>)
    | UnsupportedElsewhere(alternatives: seq<string>)
    | UnsupportedEverywhere
    | MissingKey(apiKeyNaming: string)
    | CategoryMismatch(modelName: string, op: Operation)

  datatype Resolution = Resolved(provider: string, category: string, apiKey: string)

  /** The explicit key if one was passed (an empty string counts), else the
      environment's value under the provider's key name. */
  function Credential(apiKey: Option<string>, env: map<string, string>, keyName: string): (r: Option<string>)
    ensures r.None? <==> apiKey.None? && keyName !in env
    ensures apiKey.Some? ==> r == apiKey
    ensures apiKey.None? && keyName in env ==> r == Some(env[keyName])
  {
    if apiKey.Some? then apiKey
    else if keyName in env then Some(env[keyName])
    else None
  }

  /** What `_get_provider_client` decides for the stored (already lower-cased)
      provider name: provider first, then model, then credential. */
  function Resolve(registry: seq<ProviderModule>, provider: string, modelName: string,
                   apiKey: Option<string>, env: map<string, string>): Result<Resolution, ConfigError>
  {
    match Find(registry, provider)
    case None => Err(UnknownProvider(Names(registry)))
    case Some(providerModule) =>
      match FirstCategory(providerModule.supportedModels, modelName)
      case None =>
        var alternatives := Alternatives(registry, modelName);
        if alternatives != [] then Err(UnsupportedElsewhere(alternatives)) else Err(UnsupportedEverywhere)
      case Some(category) =>
        match Credential(apiKey, env, providerModule.apiKeyNaming)
        case None => Err(MissingKey(providerModule.apiKeyNaming))
        case Some(key) => Ok(Resolved(provider, category, key))
  }

  /** An unknown provider fails, whatever the model and key, with exactly the
      registered names; a known one never fails that way. */
  lemma ResolveUnknownProvider(registry: seq<ProviderModule>, provider: string, modelName: string,
                               apiKey: Option<string>, env: map<string, string>)
    ensures provider !in Names(registry) <==>
              Resolve(registry, provider, modelName, apiKey, env) == Err(UnknownProvider(Names(registry)))
    ensures var r := Resolve(registry, provider, modelName, apiKey, env);
            provider in Names(registry) ==> !(r.Err? && r.error.UnknownProvider?)
  {
  }

  /** A model the chosen provider does not list fails, whatever the key, with
      the providers that do list it; with distinct registry names the chosen
      provider is never among them, and the "nowhere" error comes exactly when
      no provider lists the model. */
  lemma ResolveUnsupportedModel(registry: seq<ProviderModule>, provider: string, modelName: string,
                                apiKey: Option<string>, env: map<string, string>)
    requires Find(registry, provider).Some?
    requires !Lists(Find(registry, provider).value.supportedModels, modelName)
    ensures var alternatives := Alternatives(registry, modelName);
            Resolve(registry, provider, modelName, apiKey, env) ==
              if alternatives != [] then Err(UnsupportedElsewhere(alternatives)) else Err(UnsupportedEverywhere)
    ensures NamesDistinct(registry) ==> provider !in Alternatives(registry, modelName)
    ensures Resolve(registry, provider, modelName, apiKey, env) == Err(UnsupportedEverywhere) <==>
              forall i :: 0 <= i < |registry| ==> !Lists(registry[i].supportedModels, modelName)
  {
    NoAlternativeMeansNowhere(registry, modelName);
    var chosen := Find(registry, provider).value;
    if NamesDistinct(registry) {
      var j :| 0 <= j < |registry| && registry[j] == chosen;
      forall i | 0 <= i < |registry| && registry[i].name == provider
        ensures !Lists(registry[i].supportedModels, modelName)
      {
        assert i == j;
      }
    }
  }

  /** A known provider that lists the model resolves to the first listing
      category, and then only the credential can fail. */
  lemma ResolveSupportedModel(registry: seq<ProviderModule>, provider: string, modelName: string,
                              apiKey: Option<string>, env: map<string, string>)
    requires Find(registry, provider).Some?
    ensures var table := Find(registry, provider).value.supportedModels;
            var keyName := Find(registry, provider).value.apiKeyNaming;
            var r := Resolve(registry, provider, modelName, apiKey, env);
            Lists(table, modelName) ==>
              (r.Ok? || r == Err(MissingKey(keyName))) &&
              (r.Ok? <==> apiKey.Some? || keyName in env) &&
              (r.Ok? ==> Some(r.value.category) == FirstCategory(table, modelName)) &&
              (r == Err(MissingKey(keyName)) <==> apiKey.None? && keyName !in env) &&
              (r.Ok? ==> r.value.provider == provider &&
                         r.value.apiKey == (if apiKey.Some? then apiKey.value else env[keyName]) &&
                         exists i :: 0 <= i < |table| && modelName in table[i].1 && r.value.category == table[i].0 &&
                                     forall j :: 0 <= j < i ==> modelName !in table[j].1)
  {
  }

  // ---------------------------------------------------------------------------
  // The provider adapter and the facade

  datatype EmbedInputs = Single(text: string) | Batch(texts: seq<string>)

  /** A call as it reaches the provider's adapter. */
  datatype Request =
    | ChatRequest(messages: seq<InputMessage>, temperature: Option<real>, maxTokens: Option<int>,
                  n: Option<int>, tools: Option<seq<Value>>, stream: bool)
    | EmbedRequest(inputs: EmbedInputs)
    | TranscribeRequest(audioPath: string, language: Option<string>)
    | ImageRequest(prompt: string, count: int)

  /** The vendor behind an adapter: its reply to the k-th request (k counts the
      earlier requests), for each of the four operations. */
  datatype Vendor = Vendor(chat: (nat, Request) -> ChatResponse,
                           embed: (nat, Request) -> TextEmbeddingResponse,
                           transcribe: (nat, Request) -> TranscriptionResponse,
                           generateImage: (nat, Request) -> ImageGenerationResponse)

  /** The `<Provider>ClientAdapter` built from the model name and key: it
      forwards each call to the vendor and keeps the calls it received. */
  class ProviderAdapter {
    const modelName: string
    const apiKey: string
    const vendor: Vendor
    var requests: seq<Request>

    constructor (modelName: string, apiKey: string, vendor: Vendor)
      ensures this.modelName == modelName && this.apiKey == apiKey && this.vendor == vendor
      ensures requests == []
    {
      this.modelName := modelName;
      this.apiKey := apiKey;
      this.vendor := vendor;
      requests := [];
    }

    method Chat(messages: seq<InputMessage>, temperature: Option<real>, maxTokens: Option<int>,
                n: Option<int>, tools: Option<seq<Value>>, stream: bool) returns (response: ChatResponse)
      modifies this
      ensures var request := ChatRequest(messages, temperature, maxTokens, n, tools, stream);
              requests == old(requests) + [request] && response == vendor.chat(|old(requests)|, request)
    {
      var request := ChatRequest(messages, temperature, maxTokens, n, tools, stream);
      response := vendor.chat(|requests|, request);
      requests := requests + [request];
    }

    method Embed(inputs: EmbedInputs) returns (response: TextEmbeddingResponse)
      modifies this
      ensures requests == old(requests) + [EmbedRequest(inputs)]
      ensures response == vendor.embed(|old(requests)|, EmbedRequest(inputs))
    {
      response := vendor.embed(|requests|, EmbedRequest(inputs));
      requests := requests + [EmbedRequest(inputs)];
    }

    method Transcribe(audioPath: string, language: Option<string>) returns (response: TranscriptionResponse)
      modifies this
      ensures requests == old(requests) + [TranscribeRequest(audioPath, language)]
      ensures response == vendor.transcribe(|old(requests)|, TranscribeRequest(audioPath, language))
    {
      response := vendor.transcribe(|requests|, TranscribeRequest(audioPath, language));
      requests := requests + [TranscribeRequest(audioPath, language)];
    }

    method GenerateImage(prompt: string, n: int) returns (response: ImageGenerationResponse)
      modifies this
      ensures requests == old(requests) + [ImageRequest(prompt, n)]
      ensures response == vendor.generateImage(|old(requests)|, ImageRequest(prompt, n))
    {
      response := vendor.generateImage(|requests|, ImageRequest(prompt, n));
      requests := requests + [ImageRequest(prompt, n)];
    }
  }

  /** The facade. Its four fields are constants: set once at construction and
      changed by no operation. */
  class SwitchAI {
    const provider: string
    const modelName: string
    const client: ProviderAdapter
    const modelCategory: string

    constructor (provider: string, modelName: string, client: ProviderAdapter, modelCategory: string)
      ensures this.provider == provider && this.modelName == modelName
      ensures this.client == client && this.modelCategory == modelCategory
    {
      this.provider := provider;
      this.modelName := modelName;
      this.client := client;
      this.modelCategory := modelCategory;
    }

    /** `__init__`: lower-cases the provider, resolves eagerly and fails fast. */
    static method New(registry: seq<ProviderModule>, provider: string, modelName: string,
                      apiKey: Option<string>, env: map<string, string>, vendor: Vendor)
      returns (r: Result<SwitchAI, ConfigError>)
      ensures var res := Resolve(registry, Lower(provider), modelName, apiKey, env);
              (res.Err? ==> r == Err(res.error)) &&
              (res.Ok? ==>
                 (r.Ok? && fresh(r.value) && fresh(r.value.client) &&
                  r.value.provider == Lower(provider) && r.value.modelName == modelName &&
                  r.value.modelCategory == res.value.category &&
                  r.value.client.modelName == modelName && r.value.client.apiKey == res.value.apiKey &&
                  r.value.client.vendor == vendor && r.value.client.requests == []))
    {
      var lowered := Lower(provider);
      var resolution := GetProviderClient(registry, lowered, modelName, apiKey, env);
      match resolution
      case Err(e) =>
        r := Err(e);
      case Ok(res) =>
        var adapter := new ProviderAdapter(modelName, res.apiKey, vendor);
        var facade := new SwitchAI(lowered, modelName, adapter, res.category);
        r := Ok(facade);
    }

    /** `_get_provider_client` up to the construction of the adapter. */
    static method GetProviderClient(registry: seq<ProviderModule>, provider: string, modelName: string,
                                    apiKey: Option<string>, env: map<string, string>)
      returns (r: Result<Resolution, ConfigError>)
      ensures r == Resolve(registry, provider, modelName, apiKey, env)
    {
      var providerModules := Names(registry);
      if provider !in providerModules {
        return Err(UnknownProvider(providerModules));
      }
      var providerModule := Find(registry, provider).value;
      var modelSupported, modelCategory := FindCategory(providerModule.supportedModels, modelName);
      if !modelSupported {
        var alternativeProviders := Alternatives(registry, modelName);
        if alternativeProviders != [] {
          return Err(UnsupportedElsewhere(alternativeProviders));
        }
        return Err(UnsupportedEverywhere);
      }
      var key := apiKey;
      if key.None? {
        key := if providerModule.apiKeyNaming in env then Some(env[providerModule.apiKeyNaming]) else None;
      }
      if key.None? {
        return Err(MissingKey(providerModule.apiKeyNaming));
      }
      return Ok(Resolved(provider, modelCategory.value, key.value));
    }

    method Chat(messages: seq<InputMessage>, temperature: Option<real>, maxTokens: Option<int>,
                n: Option<int>, tools: Option<seq<Value>>, stream: bool)
      returns (r: Result<ChatResponse, ConfigError>)
      modifies client
      ensures var request := ChatRequest(messages, temperature, maxTokens, n, tools, stream);
              if Permits(modelCategory, ChatOp)
              then client.requests == old(client.requests) + [request] &&
                   r == Ok(client.vendor.chat(|old(client.requests)|, request))
              else client.requests == old(client.requests) && r == Err(CategoryMismatch(modelName, ChatOp))
    {
      if modelCategory != "chat" {
        return Err(CategoryMismatch(modelName, ChatOp));
      }
      var response := client.Chat(messages, temperature, maxTokens, n, tools, stream);
      return Ok(response);
    }

    method Embed(inputs: EmbedInputs) returns (r: Result<TextEmbeddingResponse, ConfigError>)
      modifies client
      ensures if Permits(modelCategory, EmbedOp)
              then client.requests == old(client.requests) + [EmbedRequest(inputs)] &&
                   r == Ok(client.vendor.embed(|old(client.requests)|, EmbedRequest(inputs)))
              else client.requests == old(client.requests) && r == Err(CategoryMismatch(modelName, EmbedOp))
    {
      if modelCategory != "embed" {
        return Err(CategoryMismatch(modelName, EmbedOp));
      }
      var response := client.Embed(inputs);
      return Ok(response);
    }

    method Transcribe(audioPath: string, language: Option<string>)
      returns (r: Result<TranscriptionResponse, ConfigError>)
      modifies client
      ensures var request := TranscribeRequest(audioPath, language);
              if Permits(modelCategory, TranscribeOp)
              then client.requests == old(client.requests) + [request] &&
                   r == Ok(client.vendor.transcribe(|old(client.requests)|, request))
              else client.requests == old(client.requests) && r == Err(CategoryMismatch(modelName, TranscribeOp))
    {
      if modelCategory != "transcribe" {
        return Err(CategoryMismatch(modelName, TranscribeOp));
      }
      var response := client.Transcribe(audioPath, language);
      return Ok(response);
    }

    method GenerateImage(prompt: string, n: int) returns (r: Result<ImageGenerationResponse, ConfigError>)
      modifies client
      ensures if Permits(modelCategory, GenerateImageOp)
              then client.requests == old(client.requests) + [ImageRequest(prompt, n)] &&
                   r == Ok(client.vendor.generateImage(|old(client.requests)|, ImageRequest(prompt, n)))
              else client.requests == old(client.requests) && r == Err(CategoryMismatch(modelName, GenerateImageOp))
    {
      if modelCategory != "generate_image" {
        return Err(CategoryMismatch(modelName, GenerateImageOp));
      }
      var response := client.GenerateImage(prompt, n);
      return Ok(response);
    }
  }
}
