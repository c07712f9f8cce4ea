/**
 * The domain records (src/domain/models.rs) and the rules attached to them: the role display,
 * the `AIConfig` validation and serde rules, the ingestion length rule and the export format
 * names. Records this model needs that the file does not show (agent and tool definitions,
 * message roles) take the shape their uses in the core give them.
 */
module Models {
  import opened Wrappers
  import opened Text
  import opened Json

  // ----- users and roles -----

  datatype UserRole = Admin | User

  /** `Display for UserRole` (also the serde name of each variant). */
  function RoleName(r: UserRole): string {
    match r
    case Admin => "Admin"
    case User => "User"
  }

  /** Reading a role name back: the inverse of `RoleName`. */
  function RoleFromName(s: string): (r: Option<UserRole>)
    ensures r.Some? ==> RoleName(r.value) == s
  {
    if s == "Admin" then Some(Admin) else if s == "User" then Some(User) else None
  }

  lemma RoleNameRoundTrip(r: UserRole)
    ensures RoleFromName(RoleName(r)) == Some(r)
  {
  }

  datatype UserRecord = UserRecord(id: string, username: string, passwordHash: string, role: UserRole)

  datatype Claims = Claims(sub: string, role: UserRole, exp: nat)

  // ----- AI configuration -----

  datatype AIProvider = OpenAI | Ollama | Groq

  function ProviderName(p: AIProvider): string {
    match p
    case OpenAI => "OpenAI"
    case Ollama => "Ollama"
    case Groq => "Groq"
  }

  function ProviderFromName(s: string): (r: Option<AIProvider>)
    ensures r.Some? ==> ProviderName(r.value) == s
  {
    if s == "OpenAI" then Some(OpenAI)
    else if s == "Ollama" then Some(Ollama)
    else if s == "Groq" then Some(Groq)
    else None
  }

  const UsizeLimit := 0x1_0000_0000_0000_0000

  /** Rust's `usize` on a 64-bit target. */
  type Usize = x: int | 0 <= x < UsizeLimit

  datatype AIConfig = AIConfig(
    provider: AIProvider,
    modelName: string,
    embeddingModel: string,
    apiKey: string,
    embeddingDim: Usize,
    baseUrl: Option<string>)

  /** The fields that `#[derive(Validate)]` rejects, in declaration order: both model names
      need at least one character and `base_url`, when present, must parse as a URL (the URL
      parser is the `isUrl` parameter). */
  function InvalidFields(c: AIConfig, isUrl: string -> bool): (r: seq<string>)
    ensures ("model_name" in r) <==> c.modelName == ""
    ensures ("embedding_model" in r) <==> c.embeddingModel == ""
    ensures ("base_url" in r) <==> (c.baseUrl.Some? && !isUrl(c.baseUrl.value))
    ensures |r| <= 3
  {
    (if c.modelName == "" then ["model_name"] else [])
    + (if c.embeddingModel == "" then ["embedding_model"] else [])
    + (if c.baseUrl.Some? && !isUrl(c.baseUrl.value) then ["base_url"] else [])
  }

  /** Value of a non-empty string of ASCII digits. */
  function DigitsValue(s: string): nat
    requires forall i :: 0 <= i < |s| ==> IsAsciiDigit(s[i])
  {
    if s == [] then 0
    else
      assert IsAsciiDigit(s[|s| - 1]);
      DigitsValue(s[..|s| - 1]) * 10 + (s[|s| - 1] as int - '0' as int)
  }

  predicate AllDigits(s: string) {
    forall i :: 0 <= i < |s| ==> IsAsciiDigit(s[i])
  }

  /** A JSON integer literal read as a `usize`: plain digits whose value fits. */
  function ParseUsizeLiteral(lit: string): (r: Option<Usize>)
    ensures r.Some? ==> lit != [] && AllDigits(lit)
  {
    if lit != [] && AllDigits(lit) && DigitsValue(lit) < UsizeLimit then Some(DigitsValue(lit))
    else None
  }

  lemma {:induction false} DigitsValueOfNatToString(n: nat)
    ensures AllDigits(NatToString(n)) && DigitsValue(NatToString(n)) == n
  {
    if n >= 10 {
      DigitsValueOfNatToString(n / 10);
      var s := NatToString(n);
      assert s[..|s| - 1] == NatToString(n / 10);
    }
  }

  /** `serde_json::to_value(&config)`: `api_key` is `skip_serializing`, so it never appears. */
  function SerializeAIConfig(c: AIConfig): (j: Json)
    ensures j.JObject? && forall i :: 0 <= i < |j.fields| ==> j.fields[i].key != "api_key"
  {
    JObject([
      Member("provider", JString(ProviderName(c.provider))),
      Member("model_name", JString(c.modelName)),
      Member("embedding_model", JString(c.embeddingModel)),
      Member("embedding_dim", JNumber(NatToString(c.embeddingDim))),
      Member("base_url", if c.baseUrl.Some? then JString(c.baseUrl.value) else JNull)])
  }

  /** `serde_json::from_value::<AIConfig>`: every field but `api_key` and `base_url` is
      required; a missing `api_key` defaults to the empty secret, and a missing or null
      `base_url` is `None`. Fields the struct does not have are ignored. */
  function DeserializeAIConfig(j: Json): (r: Option<AIConfig>)
    ensures r.Some? && Get(j, "api_key").None? ==> r.value.apiKey == ""
    ensures r.Some? ==> j.JObject?
  {
    var provider := ReadProvider(j);
    var model := GetStr(j, "model_name");
    var embedding := GetStr(j, "embedding_model");
    var apiKey := ReadApiKey(j);
    var dim := ReadDim(j);
    var baseUrl := ReadBaseUrl(j);
    if j.JObject? && provider.Some? && model.Some? && embedding.Some? && apiKey.Some? && dim.Some? && baseUrl.Some? then
      Some(AIConfig(provider.value, model.value, embedding.value, apiKey.value, dim.value, baseUrl.value))
    else None
  }

  function ReadProvider(j: Json): Option<AIProvider> {
    match GetStr(j, "provider")
    case Some(p) => ProviderFromName(p)
    case None => None
  }

  function ReadApiKey(j: Json): (r: Option<string>)
    ensures Get(j, "api_key").None? ==> r == Some("")
  {
    match Get(j, "api_key")
    case None => Some("")
    case Some(JString(k)) => Some(k)
    case Some(_) => None
  }

  function ReadDim(j: Json): Option<Usize> {
    match Get(j, "embedding_dim")
    case Some(JNumber(lit)) => ParseUsizeLiteral(lit)
    case _ => None
  }

  function ReadBaseUrl(j: Json): Option<Option<string>> {
    match Get(j, "base_url")
    case None => Some(None)
    case Some(JNull) => Some(None)
    case Some(JString(u)) => Some(Some(u))
    case Some(_) => None
  }

  /** A configuration survives a round trip through JSON except for its API key, which comes
      back as the empty default. */
  lemma AIConfigRoundTrip(c: AIConfig)
    ensures DeserializeAIConfig(SerializeAIConfig(c)) == Some(c.(apiKey := ""))
  {
    var j := SerializeAIConfig(c);
    SerializedFieldsReadBack(c);
    assert ReadProvider(j) == Some(c.provider);
    assert GetStr(j, "model_name") == Some(c.modelName);
    assert GetStr(j, "embedding_model") == Some(c.embeddingModel);
    assert ReadApiKey(j) == Some("");
    assert ReadDim(j) == Some(c.embeddingDim);
    assert ReadBaseUrl(j) == Some(c.baseUrl);
  }

  lemma SerializedFieldsReadBack(c: AIConfig)
    ensures var j := SerializeAIConfig(c);
      && ReadProvider(j) == Some(c.provider)
      && GetStr(j, "model_name") == Some(c.modelName)
      && GetStr(j, "embedding_model") == Some(c.embeddingModel)
      && ReadDim(j) == Some(c.embeddingDim)
      && ReadBaseUrl(j) == Some(c.baseUrl)
  {
    SerializedNamesReadBack(c);
    SerializedDimReadBack(c);
    SerializedBaseUrlReadBack(c);
  }

  lemma SerializedNamesReadBack(c: AIConfig)
    ensures var j := SerializeAIConfig(c);
      && ReadProvider(j) == Some(c.provider)
      && GetStr(j, "model_name") == Some(c.modelName)
      && GetStr(j, "embedding_model") == Some(c.embeddingModel)
  {
    SerializedProviderReadBack(c);
    var j := SerializeAIConfig(c);
    LookupFirst(j.fields, "model_name", 1);
    LookupFirst(j.fields, "embedding_model", 2);
  }

  lemma SerializedProviderReadBack(c: AIConfig)
    ensures ReadProvider(SerializeAIConfig(c)) == Some(c.provider)
  {
    var j := SerializeAIConfig(c);
    LookupFirst(j.fields, "provider", 0);
  }

  lemma SerializedDimReadBack(c: AIConfig)
    ensures ReadDim(SerializeAIConfig(c)) == Some(c.embeddingDim)
  {
    var j := SerializeAIConfig(c);
    DigitsValueOfNatToString(c.embeddingDim);
    LookupFirst(j.fields, "embedding_dim", 3);
  }

  lemma SerializedBaseUrlReadBack(c: AIConfig)
    ensures ReadBaseUrl(SerializeAIConfig(c)) == Some(c.baseUrl)
  {
    var j := SerializeAIConfig(c);
    LookupFirst(j.fields, "base_url", 4);
  }

  // ----- ingestion, export -----

  /** `#[validate(length(min = 10))]` on `IngestionRequest::content`: counted in characters. */
  predicate ValidIngestionContent(content: string) {
    |content| >= 10
  }

  datatype ExportFormat = JsonLd | Turtle | GraphML

  /** The serde names of the export formats. */
  function ExportFormatName(f: ExportFormat): string {
    match f
    case JsonLd => "jsonld"
    case Turtle => "turtle"
    case GraphML => "graphml"
  }

  /** Deserializing an export format accepts exactly the three names. */
  function ParseExportFormat(s: string): (r: Option<ExportFormat>)
    ensures r.Some? <==> s in {"jsonld", "turtle", "graphml"}
    ensures r.Some? ==> ExportFormatName(r.value) == s
  {
    if s == "jsonld" then Some(JsonLd)
    else if s == "turtle" then Some(Turtle)
    else if s == "graphml" then Some(GraphML)
    else None
  }

  lemma ExportFormatRoundTrip(f: ExportFormat)
    ensures ParseExportFormat(ExportFormatName(f)) == Some(f)
  {
  }

  // ----- graph records -----

  datatype GraphEntity = GraphEntity(name: string, category: string)
  datatype GraphRelation = GraphRelation(source: string, target: string, relationType: string)
  datatype ExportedGraph = ExportedGraph(generatedAt: string, domain: string, nodes: seq<GraphEntity>, edges: seq<GraphRelation>)

  /** `VisNode` and `VisEdge`; `caption` is the field serialized as "label". */
  datatype VisNode = VisNode(id: string, caption: string, group: string)
  datatype VisEdge = VisEdge(from: string, to: string, caption: string)
  datatype GraphData = GraphData(nodes: seq<VisNode>, edges: seq<VisEdge>)

  /** A retrieved fragment: chunk id, its text, and the graph entities connected to it. */
  datatype HybridContext = HybridContext(chunkId: string, content: string, connectedEntities: seq<string>)

  // ----- agents and tools -----

  datatype MessageRole = UserMessage | AssistantMessage

  datatype ChatMessage = ChatMessage(role: MessageRole, content: string)

  /** An HTTP tool: its configured method (`verb`), URL template and optional body template. */
  datatype HttpConfig = HttpConfig(verb: string, url: string, bodyTemplate: Option<Json>)

  /** The tagged implementation of a tool. */
  datatype ToolType = Http(http: HttpConfig) | Cypher | Cli

  datatype ToolDefinition = ToolDefinition(id: string, name: string, description: string, inputSchema: Json, implementation: ToolType)

  datatype AgentConfig = AgentConfig(id: string, name: string, description: string, systemPrompt: string, model: Option<string>, tools: seq<string>)

  datatype AgentChatRequest = AgentChatRequest(agentId: string, message: string)

  datatype AgentChatResponse = AgentChatResponse(response: string, usedTools: seq<string>)

  datatype ChatRequest = ChatRequest(message: string)

  /** One cited fragment of a chat answer. Its `relevance` is the constant 1.0 and is not kept. */
  datatype SourceReference = SourceReference(index: nat, chunkId: string, shortContent: string, concepts: seq<string>)

  datatype ChatResponse = ChatResponse(response: string, sources: seq<SourceReference>)
}
