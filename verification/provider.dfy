/**
 * The pure parts of crates/ai/src/provider/mod.rs: the chat request and its
 * serde form, the HTTP requests each provider builds, and the decoding of the
 * JSON bodies the providers answer with. Sending a request is not modelled:
 * a request is a value, and a response body is an input.
 */
module Provider {
  import opened Errors
  import opened JsonValue

  datatype Message = Message(role: string, content: string)

  datatype ResponseFormat = Json | Text

  /** `temperature` is an `f32`, kept as a real. */
  datatype ChatRequest = ChatRequest(
    messages: seq<Message>,
    temperature: real,
    responseFormat: Option<ResponseFormat>,
    model: Option<string>)

  datatype Usage = Usage(promptTokens: nat, completionTokens: nat)
  datatype ChatResponse = ChatResponse(content: string, usage: Usage)

  /** An embedding (`Vec<f32>`). */
  type Embedding = seq<real>

  /** The two provider structs, with the settings they were built with. */
  datatype ProviderConfig =
    | OllamaProvider(baseUrl: string, modelName: Option<string>)
    | OpenAICompatibleProvider(baseUrl: string, apiKey: Option<string>, modelName: Option<string>)

  /** What a provider hands to its HTTP client. */
  datatype HttpRequest = HttpRequest(post: bool, url: string, bearer: Option<string>, body: Option<Value>)

  const U32_LIMIT: int := 0x1_0000_0000
  const DefaultOllamaModel: string := "llama3"

  // ---------------------------------------------------------------------
  // serde forms

  /** `#[serde(tag = "type")]` with the renames `json_object` and `text`. */
  function FormatToJson(f: ResponseFormat): Value {
    Object(map["type" := String(if f == Json then "json_object" else "text")])
  }

  function FormatFromJson(v: Value): Option<ResponseFormat> {
    var tag := AsStr(Get(v, "type"));
    if tag == Some("json_object") then Some(Json)
    else if tag == Some("text") then Some(Text)
    else None
  }

  lemma FormatRoundTrip(f: ResponseFormat)
    ensures FormatFromJson(FormatToJson(f)) == Some(f)
    ensures FormatToJson(f) != FormatToJson(if f == Json then Text else Json)
  {
    assert Get(FormatToJson(f), "type") == String(if f == Json then "json_object" else "text");
  }

  function MessageToJson(m: Message): Value {
    Object(map["role" := String(m.role), "content" := String(m.content)])
  }

  function MessagesToJson(ms: seq<Message>): (r: seq<Value>)
    ensures |r| == |ms|
  {
    if ms == [] then [] else [MessageToJson(ms[0])] + MessagesToJson(ms[1..])
  }

  function MessageFromJson(v: Value): Option<Message> {
    match (AsStr(Get(v, "role")), AsStr(Get(v, "content")))
    case (Some(r), Some(c)) => Some(Message(r, c))
    case _ => None
  }

  function MessagesFromJson(vs: seq<Value>): Option<seq<Message>> {
    if vs == [] then Some([])
    else match (MessageFromJson(vs[0]), MessagesFromJson(vs[1..]))
      case (Some(m), Some(rest)) => Some([m] + rest)
      case _ => None
  }

  /** The messages a provider sends can be read back unchanged from its body. */
  lemma {:induction false} MessagesRoundTrip(ms: seq<Message>)
    ensures MessagesFromJson(MessagesToJson(ms)) == Some(ms)
  {
    if ms != [] {
      var m := ms[0];
      assert Get(MessageToJson(m), "role") == String(m.role);
      assert Get(MessageToJson(m), "content") == String(m.content);
      MessagesRoundTrip(ms[1..]);
      assert MessagesToJson(ms)[1..] == MessagesToJson(ms[1..]);
      assert [m] + ms[1..] == ms;
    }
  }

  /**
   * `serde_json::to_value(&request)`. `model` has no `skip_serializing_if`,
   * so the key is always present, holding `null` when the request has none.
   */
  function RequestToJson(req: ChatRequest): Value {
    Object(map[
      "messages" := Array(MessagesToJson(req.messages)),
      "temperature" := Number(Float(req.temperature)),
      "response_format" := (match req.responseFormat case Some(f) => FormatToJson(f) case None => Null),
      "model" := (match req.model case Some(m) => String(m) case None => Null)])
  }

  // ---------------------------------------------------------------------
  // Ollama

  /** `request.model.or(self.model_name).unwrap_or("llama3")` */
  function OllamaModel(requested: Option<string>, configured: Option<string>): string {
    match requested
    case Some(m) => m
    case None => configured.UnwrapOr(DefaultOllamaModel)
  }

  /** The `format` field: `"json"` for JSON mode, empty otherwise. */
  function OllamaFormat(f: Option<ResponseFormat>): string {
    if f == Some(Json) then "json" else ""
  }

  function OllamaChatBody(req: ChatRequest, configured: Option<string>): Value {
    Object(map[
      "model" := String(OllamaModel(req.model, configured)),
      "messages" := Array(MessagesToJson(req.messages)),
      "stream" := Bool(false),
      "format" := String(OllamaFormat(req.responseFormat))])
  }

  // ---------------------------------------------------------------------
  // Requests per provider

  /**
   * The HTTP request `chat_completion` sends. For the OpenAI-compatible
   * provider the serialised request is patched in place: the configured model
   * is inserted only when the object has no "model" key.
   */
  method ChatHttpRequest(p: ProviderConfig, req: ChatRequest) returns (http: HttpRequest)
    ensures http.post && http.body.Some?
    ensures p.OllamaProvider? ==>
      && http.url == p.baseUrl + "/api/chat"
      && http.bearer == None
      && http.body == Some(OllamaChatBody(req, p.modelName))
      && Get(http.body.value, "model")
           == String(if req.model.Some? then req.model.value
                     else if p.modelName.Some? then p.modelName.value
                     else "llama3")
      && Get(http.body.value, "format") == String(if req.responseFormat == Some(Json) then "json" else "")
      && Get(http.body.value, "stream") == Bool(false)
    ensures Get(http.body.value, "messages").Array?
    ensures MessagesFromJson(Get(http.body.value, "messages").items) == Some(req.messages)
    ensures p.OpenAICompatibleProvider? ==>
      && http.url == p.baseUrl + "/chat/completions"
      && http.bearer == p.apiKey
      && http.body == Some(RequestToJson(req))
      && (req.model.None? ==> Get(http.body.value, "model") == Null)
  {
    MessagesRoundTrip(req.messages);
    match p
    case OllamaProvider(baseUrl, modelName) =>
      http := HttpRequest(true, baseUrl + "/api/chat", None, Some(OllamaChatBody(req, modelName)));
    case OpenAICompatibleProvider(baseUrl, apiKey, modelName) =>
      var bearer: Option<string> := None;
      if apiKey.Some? {
        bearer := apiKey;
      }
      var reqJson := RequestToJson(req);
      if reqJson.Object? {
        if "model" !in reqJson.fields {
          // The insertion of the configured model lives here, and it is dead:
          // the serialised request always has a "model" key.
          assert false;
        }
      }
      http := HttpRequest(true, baseUrl + "/chat/completions", bearer, Some(reqJson));
  }

  /** `list_models`: a GET of the provider's model list. */
  function ListModelsHttpRequest(p: ProviderConfig): (http: HttpRequest)
    ensures !http.post && http.body == None
    ensures http.bearer.Some? <==> p.OpenAICompatibleProvider? && p.apiKey.Some?
  {
    match p
    case OllamaProvider(baseUrl, _) => HttpRequest(false, baseUrl + "/api/tags", None, None)
    case OpenAICompatibleProvider(baseUrl, apiKey, _) => HttpRequest(false, baseUrl + "/models", apiKey, None)
  }

  /** `generate_embedding`: fixed embedding models per provider. */
  function EmbeddingHttpRequest(p: ProviderConfig, text: string): (http: HttpRequest)
    ensures http.post && http.body.Some?
    ensures p.OllamaProvider? ==> Get(http.body.value, "prompt") == String(text)
    ensures p.OpenAICompatibleProvider? ==> Get(http.body.value, "input") == String(text) && http.bearer == p.apiKey
  {
    match p
    case OllamaProvider(baseUrl, _) =>
      HttpRequest(true, baseUrl + "/api/embeddings", None,
        Some(Object(map["model" := String("all-minilm"), "prompt" := String(text)])))
    case OpenAICompatibleProvider(baseUrl, apiKey, _) =>
      HttpRequest(true, baseUrl + "/embeddings", apiKey,
        Some(Object(map["input" := String(text), "model" := String("text-embedding-3-small")])))
  }

  // ---------------------------------------------------------------------
  // Response bodies

  /** `as_u64().unwrap_or(0) as u32`: absent or non-u64 counts read as 0, and the cast keeps the low 32 bits. */
  function TokenCount(v: Value): nat {
    match AsU64(v)
    case Some(n) => n % U32_LIMIT
    case None => 0
  }

  /** The content of a chat answer, from the path where the provider puts it. */
  function ChatContentPath(p: ProviderConfig, body: Value): Value {
    match p
    case OllamaProvider(_, _) => Get(Get(body, "message"), "content")
    case OpenAICompatibleProvider(_, _, _) => Get(Get(At(Get(body, "choices"), 0), "message"), "content")
  }

  function ChatUsage(p: ProviderConfig, body: Value): Usage {
    match p
    case OllamaProvider(_, _) =>
      Usage(TokenCount(Get(body, "prompt_eval_count")), TokenCount(Get(body, "eval_count")))
    case OpenAICompatibleProvider(_, _, _) =>
      Usage(TokenCount(Get(Get(body, "usage"), "prompt_tokens")),
            TokenCount(Get(Get(body, "usage"), "completion_tokens")))
  }

  function DecodeChat(p: ProviderConfig, body: Value): Result<ChatResponse> {
    match AsStr(ChatContentPath(p, body))
    case Some(c) => Ok(ChatResponse(c, ChatUsage(p, body)))
    case None =>
      Err(AI(if p.OllamaProvider? then "Invalid Ollama response" else "Invalid AI response format"))
  }

  /** The body an Ollama server sends for an answer. */
  function OllamaAnswer(content: string, promptTokens: U64, evalTokens: U64): Value {
    Object(map[
      "message" := Object(map["role" := String("assistant"), "content" := String(content)]),
      "prompt_eval_count" := Number(PosInt(promptTokens)),
      "eval_count" := Number(PosInt(evalTokens))])
  }

  /** The body an OpenAI-compatible server sends for an answer. */
  function OpenAIAnswer(content: string, promptTokens: U64, completionTokens: U64): Value {
    var choice := Object(map["message" := Object(map["role" := String("assistant"), "content" := String(content)])]);
    Object(map[
      "choices" := Array([choice]),
      "usage" := Object(map[
        "prompt_tokens" := Number(PosInt(promptTokens)),
        "completion_tokens" := Number(PosInt(completionTokens))])])
  }

  /** Decoding recovers content and counts (counts below 2^32) from a well-formed answer. */
  lemma DecodeChatAnswers(p: ProviderConfig, content: string, a: U64, b: U64)
    requires a < U32_LIMIT && b < U32_LIMIT
    ensures p.OllamaProvider? ==>
      DecodeChat(p, OllamaAnswer(content, a, b)) == Ok(ChatResponse(content, Usage(a, b)))
    ensures p.OpenAICompatibleProvider? ==>
      DecodeChat(p, OpenAIAnswer(content, a, b)) == Ok(ChatResponse(content, Usage(a, b)))
  {
    if p.OllamaProvider? {
      var body := OllamaAnswer(content, a, b);
      assert Get(body, "message") == Object(map["role" := String("assistant"), "content" := String(content)]);
      assert ChatContentPath(p, body) == String(content);
      assert Get(body, "prompt_eval_count") == Number(PosInt(a));
      assert Get(body, "eval_count") == Number(PosInt(b));
    } else {
      var body := OpenAIAnswer(content, a, b);
      var choice := Object(map["message" := Object(map["role" := String("assistant"), "content" := String(content)])]);
      assert Get(body, "choices") == Array([choice]);
      assert At(Get(body, "choices"), 0) == choice;
      assert ChatContentPath(p, body) == String(content);
      var usage := Get(body, "usage");
      assert Get(usage, "prompt_tokens") == Number(PosInt(a));
      assert Get(usage, "completion_tokens") == Number(PosInt(b));
    }
  }

  /** A body whose content is missing or not a string is an AI error, whatever the rest of it holds. */
  lemma DecodeChatNeedsStringContent(p: ProviderConfig, body: Value)
    ensures DecodeChat(p, body).Err? <==> !ChatContentPath(p, body).String?
    ensures DecodeChat(p, body).Err? ==> DecodeChat(p, body).error.AI?
    ensures DecodeChat(p, body).Ok? ==> DecodeChat(p, body).value.content == ChatContentPath(p, body).s
  {
  }

  /** Counts that are absent, or not numbers, read as zero, for any body that carries a content string. */
  lemma MissingUsageIsZero(p: ProviderConfig, body: Value)
    requires ChatContentPath(p, body).String?
    ensures p.OllamaProvider? && !Get(body, "prompt_eval_count").Number? && !Get(body, "eval_count").Number? ==>
      DecodeChat(p, body) == Ok(ChatResponse(ChatContentPath(p, body).s, Usage(0, 0)))
    ensures p.OpenAICompatibleProvider? && !Get(body, "usage").Object? ==>
      DecodeChat(p, body) == Ok(ChatResponse(ChatContentPath(p, body).s, Usage(0, 0)))
    ensures (p.OpenAICompatibleProvider? && !Get(Get(body, "usage"), "prompt_tokens").Number?
             && !Get(Get(body, "usage"), "completion_tokens").Number?) ==>
      DecodeChat(p, body) == Ok(ChatResponse(ChatContentPath(p, body).s, Usage(0, 0)))
  {
  }

  /** `filter_map(|m| m[key].as_str())` over the entries of a model list. */
  function NamesOf(entries: seq<Value>, key: string): seq<string> {
    if entries == [] then []
    else match AsStr(Get(entries[0], key))
      case Some(n) => [n] + NamesOf(entries[1..], key)
      case None => NamesOf(entries[1..], key)
  }

  /** `list_models`' body decoding: `models[*].name` for Ollama, `data[*].id` otherwise. */
  function DecodeModels(p: ProviderConfig, body: Value): seq<string> {
    var (arrayKey, nameKey) := if p.OllamaProvider? then ("models", "name") else ("data", "id");
    match AsArray(Get(body, arrayKey))
    case Some(entries) => NamesOf(entries, nameKey)
    case None => []
  }

  function ModelEntries(names: seq<string>, key: string): (r: seq<Value>)
    ensures |r| == |names|
  {
    if names == [] then [] else [Object(map[key := String(names[0])])] + ModelEntries(names[1..], key)
  }

  lemma {:induction false} NamesOfEntries(names: seq<string>, key: string)
    ensures NamesOf(ModelEntries(names, key), key) == names
  {
    if names != [] {
      var e := Object(map[key := String(names[0])]);
      assert Get(e, key) == String(names[0]);
      assert ModelEntries(names, key)[1..] == ModelEntries(names[1..], key);
      NamesOfEntries(names[1..], key);
      assert [names[0]] + names[1..] == names;
    }
  }

  /** Entries without a string name are dropped, the others keep their order. */
  lemma {:induction false} NamesOfAppend(xs: seq<Value>, ys: seq<Value>, key: string)
    ensures NamesOf(xs + ys, key) == NamesOf(xs, key) + NamesOf(ys, key)
  {
    if xs != [] {
      assert (xs + ys)[1..] == xs[1..] + ys;
      NamesOfAppend(xs[1..], ys, key);
    } else {
      assert xs + ys == ys;
    }
  }

  /** Model listings: every listed name comes back in order; a body without the array gives none. */
  lemma DecodeModelsListing(p: ProviderConfig, names: seq<string>, bad: Value)
    requires !bad.Array?
    ensures p.OllamaProvider? ==>
      DecodeModels(p, Object(map["models" := Array(ModelEntries(names, "name"))])) == names
    ensures p.OpenAICompatibleProvider? ==>
      DecodeModels(p, Object(map["data" := Array(ModelEntries(names, "id"))])) == names
    ensures DecodeModels(p, Object(map["models" := bad, "data" := bad])) == []
  {
    NamesOfEntries(names, "name");
    NamesOfEntries(names, "id");
    var o1 := Object(map["models" := Array(ModelEntries(names, "name"))]);
    assert Get(o1, "models") == Array(ModelEntries(names, "name"));
    var o2 := Object(map["data" := Array(ModelEntries(names, "id"))]);
    assert Get(o2, "data") == Array(ModelEntries(names, "id"));
    var o3 := Object(map["models" := bad, "data" := bad]);
    assert Get(o3, "models") == bad && Get(o3, "data") == bad;
  }

  /** `serde_json::from_value::<Vec<f32>>`: an array of numbers, or an AI error. */
  function EmbeddingFromJson(v: Value): Result<Embedding> {
    match AsArray(v)
    case None => Err(AI("invalid type: expected a sequence"))
    case Some(items) =>
      if forall i :: 0 <= i < |items| ==> AsF64(items[i]).Some? then
        Ok(seq(|items|, i requires 0 <= i < |items| => AsF64(items[i]).value))
      else Err(AI("invalid type: expected f32"))
  }

  /** `generate_embedding`'s body decoding: `embedding` (Ollama) or `data[0].embedding`. */
  function DecodeEmbedding(p: ProviderConfig, body: Value): (r: Result<Embedding>)
    ensures r.Err? ==> r.error.AI?
    ensures r.Ok? <==>
      && EmbeddingPath(p, body).Array?
      && forall i :: 0 <= i < |EmbeddingPath(p, body).items| ==> AsF64(EmbeddingPath(p, body).items[i]).Some?
    ensures r.Ok? ==> |r.value| == |EmbeddingPath(p, body).items|
    ensures r.Ok? ==> forall i :: 0 <= i < |r.value| ==> r.value[i] == AsF64(EmbeddingPath(p, body).items[i]).value
  {
    EmbeddingFromJson(EmbeddingPath(p, body))
  }

  function EmbeddingPath(p: ProviderConfig, body: Value): Value {
    match p
    case OllamaProvider(_, _) => Get(body, "embedding")
    case OpenAICompatibleProvider(_, _, _) => Get(At(Get(body, "data"), 0), "embedding")
  }
}
