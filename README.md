# LaMuralla GraphRAG backend — a Dafny model of its core

LaMuralla is a GraphRAG backend for clinical and social knowledge graphs. Users upload documents,
which are turned into text and ingested into a Neo4j graph. Chat answers draw on retrieved
graph evidence, and configurable agents run a ReAct loop with dynamically bound tools
(HTTP services, Cypher queries against the graph, and disabled CLI tools). This project models the
logic at the core of that backend and proves what it does:

* the agent turn (`run_agent`): slot binding of the agent's tools, the preamble with its retrieved
  context, the order of the calls into the repository and the LLM, and the cleaning of the ReAct
  answer (`clean_react_output`);
* the tool executor: `{{input.k}}` URL substitution with `application/x-www-form-urlencoded`
  values (section 5.2 of the WHATWG URL Standard), verb selection, the HTTP outcome, the Cypher
  argument dispatch with its "no data" rule, the CLI refusal and the text that defines a slot;
* the AI client's pure parts: the JSON slice extractor, base-URL normalisation, and the embedding
  request with its guard and response checks, over a client object whose configuration is
  updated in place;
* the chat handler's evidence text and source list, and its base-URL trim;
* file-format classification and the plain-text UTF-8 path (RFC 3629) of the document
  transmuter;
* the JSON-LD export's node mapping (JSON-LD 1.1);
* the error-to-response mapping, the domain model's names, validation and serde rules;
* the file-backed agent repository's paths, errors and lenient listings;
* the authentication and RBAC middleware decisions;
* the admin force-reset sequence, the user-management guards, the ingestion fold over the
  multipart fields, and the environment-to-configuration resolution at startup.

One module per source file: `AgentService`, `Executor`, `RigClient`, `Chat`, `Transmutation`,
`Export`, `Errors`, `Models`, `AgentRepo`, `Middleware`, `Admin`, `Users`, `Ingest`, `Startup`.
Helper modules hold what the Rust code takes from its libraries: `Wrappers` (Option/Result),
`Text` (the `str` operations used: `find`, `rfind`, `trim*`, `replace`, ASCII case mapping),
`Utf8` (UTF-8 encoding and decoding after RFC 3629), `Json` (a `serde_json::Value` and its
compact text), `FormEncoding` (the WHATWG byte serializer) and `Ports` (the repository and AI
service the handlers call, after `src/domain/ports.rs`).

The collaborators are stubs. `Ports.Backend` is a class that records every call it receives in
its `trace` and keeps the stored users in `users`. Each of its replies comes from an oracle
fixed at construction: `fault` gives a failure by position and call, and `embed`, `retrieve`,
`recall` and `complete` give the other replies. The handlers' effects are therefore stated as
the exact sequence of calls they make, and what they return is stated from the replies.

## Model

| member | source | states |
|---|---|---|
| AgentService.CleanShape | src/application/agent_service.rs:47-53 | with neither "Final Answer:" nor "final answer:" in it the response comes back unchanged; otherwise the answer has no backtick at either end |
| AgentService.CleanWithShape | src/application/agent_service.rs:44-53 | the same two cases for any pair of markers |
| AgentService.AnswerAfterEnds | src/application/agent_service.rs:49 | the text after the marker, trimmed of whitespace and then of backticks, neither starts nor ends with a backtick |
| AgentService.CleanAtNone | src/application/agent_service.rs:47-53 | a response holding neither marker is its own cleaning |
| AgentService.CleanUsesLastExact | src/application/agent_service.rs:44-49 | an exact marker at `i` with none after it makes the answer the text after `i` |
| AgentService.CleanAtExact | src/application/agent_service.rs:44-49 | the answer is taken after the last exact marker |
| AgentService.CleanAtLower | src/application/agent_service.rs:45-49 | without an exact marker, the answer is taken after the last lower-case marker |
| AgentService.CleanUsesLastLower | src/application/agent_service.rs:45-49 | a lower-case marker at `i` with none after it, and no exact marker anywhere, makes the answer the text after `i` |
| AgentService.CleanUsesLastExactMarker | src/application/agent_service.rs:39-49 | the same for "Final Answer:" in `clean_react_output` |
| AgentService.CleanUsesLastLowerMarker | src/application/agent_service.rs:40-49 | the same for "final answer:" when "Final Answer:" is absent |
| AgentService.AbsentAfterLast | src/application/agent_service.rs:44 | nothing after the last occurrence of a marker holds that marker |
| AgentService.TrimmedAnswerSlice | src/application/agent_service.rs:49 | the trimmed answer is a contiguous slice of the text it was cut from |
| AgentService.AnswerAfterIsSlice | src/application/agent_service.rs:49 | the answer after a position is a slice of the response from that position on |
| AgentService.AnswerAfterLastHasNoMarker | src/application/agent_service.rs:44-49 | the answer after the last marker does not contain that marker |
| AgentService.CleanedHasNoMarker | src/application/agent_service.rs:39-49 | the cleaned answer never contains the marker that was matched |
| AgentService.CleanedHasNoMatchedMarker | src/application/agent_service.rs:39-49 | the same for "Final Answer:" and "final answer:" |
| AgentService.CleanKeepsLaterLowerMarker | src/application/agent_service.rs:44-49 | the exact marker wins over a later lower-case one: "Final Answer:final answer:" cleans to "final answer:" |
| AgentService.CleanLoneLowerMarker | src/application/agent_service.rs:45-49 | "final answer:" alone cleans to the empty answer |
| AgentService.CleanNotIdempotent | src/application/agent_service.rs:37-53 | cleaning twice can differ from cleaning once |
| AgentService.CleanKeepsEmphasis | src/application/agent_service.rs:49 | `**` around the answer is kept; only backticks are stripped |
| AgentService.BuildPreamble | src/application/agent_service.rs:76-88 | the loop that grows the context block yields the system prompt followed by the header, one `- "<trimmed content>"` line per fragment in order and the closing rule, or the prompt alone with no fragments |
| AgentService.PreambleIsPromptIffNoContext | src/application/agent_service.rs:77-88 | the preamble equals the system prompt exactly when no fragment was retrieved |
| AgentService.ContextLinesPrefix | src/application/agent_service.rs:80-82 | the lines of the first `n` fragments are a prefix of the lines of all of them |
| AgentService.ContextLineAt | src/application/agent_service.rs:80-82 | fragment `i`'s line follows the lines of the fragments before it |
| AgentService.BindSlots | src/application/agent_service.rs:98-121 | the binding loop yields exactly the bindings of the tool ids that resolve, in list order |
| AgentService.BindingsOrdered | src/application/agent_service.rs:101-120 | every binding is for a slot below ten and below the number of ids seen, at strictly increasing slots, so there are at most ten |
| AgentService.BindingAt | src/application/agent_service.rs:101-121 | the id at position `i < 10` is bound to slot `i` exactly when it resolves; the binding carries the resolved tool and gets the repository handle exactly when the tool is a Cypher tool |
| AgentService.ModelFor | src/application/agent_service.rs:94 | the agent's model override when present, else the configured model |
| AgentService.TurnOfLoadedAgent | src/application/agent_service.rs:65-121 | a loaded agent's turn is the agent turn whose builder is the real preamble, model and slot binding |
| AgentService.UnknownAgentTouchesNothing | src/application/agent_service.rs:65 | an agent that does not load fails the turn with its error before any call to the backend |
| AgentService.TurnCases | src/application/agent_service.rs:66-75 | the turn stops at the first failing call among saving the user message, embedding and retrieval, with that call's error; after a successful retrieval the rest is the history stage |
| AgentService.RunAgent | src/application/agent_service.rs:64-150 | the backend receives exactly the calls of the turn, the result is the turn's result, and the stored users do not change |
| AgentService.BuildAgent | src/application/agent_service.rs:76-121 | the client, the model, the preamble and the slot bindings are those of the configuration, the agent and the retrieved fragments |
| AgentService.AgentClientIgnoresEndpointConfig | src/application/agent_service.rs:91-93 | the agent's client sends to the OpenAI endpoint with the configured key, whatever provider and base URL are configured |
| AgentService.Answer | src/application/agent_service.rs:128-136 | the history stage's calls and result |
| AgentService.AskModel | src/application/agent_service.rs:134-142 | the chat stage's calls and result; a failed chat becomes an AI error |
| AgentService.SaveAnswer | src/application/agent_service.rs:139-149 | the cleaned answer is saved as the assistant's message and returned with no used tools |
| AgentService.TurnReachesHistory | src/application/agent_service.rs:65-128 | the first calls are save, embed and retrieve, each made only when the one before succeeded, then the history stage |
| AgentService.HistoryOrder | src/application/agent_service.rs:128-142 | the history stage reads ten messages, then chats with them only if the read succeeded, then saves the cleaned answer only if the chat succeeded |
| AgentService.TurnOrder | src/application/agent_service.rs:66-142 | the whole turn makes at most six calls in the fixed order save, embed, retrieve (k = 3), history (10), chat, save answer, each only after the previous one succeeded |
| AgentService.TurnEarlyFailure | src/application/agent_service.rs:66-75 | a turn of one, two or three calls ends with the error of its last call |
| AgentService.TurnLateFailure | src/application/agent_service.rs:128-136 | a turn that stops at the history read or at the chat ends with that error, the chat's as "Agent execution failed: …" |
| AgentService.TurnSuccess | src/application/agent_service.rs:142-149 | a turn succeeds exactly when it makes all six calls and the last save succeeds; it answers with the saved text and an empty `used_tools` |
| AgentService.AnswerSavedOnlyAfterChat | src/application/agent_service.rs:134-142 | the assistant's message is saved only as the sixth call, after a successful chat, and it is the cleaned chat answer |
| Executor.SubstituteUrl | src/infrastructure/tools/executor.rs:24-32 | the substitution loop yields the template with every argument filled in; non-object arguments leave the template unchanged |
| Executor.SubstitutionInstantiates | src/infrastructure/tools/executor.rs:25-31 | on a well-formed template, textual replacement key by key fills exactly the template's holes with the encoded arguments |
| Executor.ReplaceFills | src/infrastructure/tools/executor.rs:30 | replacing `{{input.k}}` in a rendered template fills exactly the holes named `k` |
| Executor.FillKeepsWellFormed | src/infrastructure/tools/executor.rs:29-30 | filling a hole with brace-free text keeps the template well formed, so no placeholder is created |
| Executor.EncodedArgBraceFree | src/infrastructure/tools/executor.rs:28-29 | an encoded argument never contains a brace |
| Executor.InstantiateStep | src/infrastructure/tools/executor.rs:26-30 | substituting the first argument and then the rest is the same as substituting all of them |
| Executor.NonObjectArgsKeepTemplate | src/infrastructure/tools/executor.rs:25 | arguments that are not a JSON object leave the URL as configured |
| Executor.SelectVerb | src/infrastructure/tools/executor.rs:33-37 | POST and PUT exactly for their names in any ASCII case; everything else is GET |
| Executor.UpperMatches | src/infrastructure/tools/executor.rs:33 | upper-casing and comparing agrees with comparing ignoring ASCII case |
| Executor.HttpOutcomeIgnoresStatus | src/infrastructure/tools/executor.rs:41-45 | the result is the body text for any status; only a failed send or read gives an AI error |
| Executor.AsDatabaseError | src/infrastructure/tools/executor.rs:57-90 | a repository failure becomes a database error, and a success passes through |
| Executor.ExecuteCypher | src/infrastructure/tools/executor.rs:49-97 | every error is a database error, and without a repository handle the answer is the misconfiguration text |
| Executor.SchemaActionFirst | src/infrastructure/tools/executor.rs:52-60 | `action == "get_schema"` answers the schema whatever else the arguments hold |
| Executor.QueryBeforeConcept | src/infrastructure/tools/executor.rs:62-71 | a string `query` runs that query even when `concept_name` is present |
| Executor.UnmatchedArgsMisconfigured | src/infrastructure/tools/executor.rs:52-97 | arguments with none of the three shapes get the misconfiguration text as a success |
| Executor.NoDataExactlyWhenEmpty | src/infrastructure/tools/executor.rs:78-88 | the serialised neighborhood is under 50 bytes exactly when it has no nodes and no edges |
| Executor.EmptyGraphText | src/infrastructure/tools/executor.rs:78 | the empty neighborhood serialises as `{"nodes":[],"edges":[]}` |
| Executor.EmptyGraphBytes | src/infrastructure/tools/executor.rs:83 | that text is 23 bytes long |
| Executor.Execute | src/infrastructure/tools/executor.rs:20-100 | CLI tools are always refused; an HTTP tool only fails with an AI error and a Cypher tool only with a database error |
| Executor.ExecuteCommon | src/infrastructure/tools/executor.rs:14-101 | the imperative executor agrees with `Execute` |
| Executor.SlotName | src/infrastructure/tools/executor.rs:146-155 | slot `i` is named `tool_<i>`: six characters, "tool_" and the digit whose value is `i` |
| Executor.SlotNamesDistinct | src/infrastructure/tools/executor.rs:146-155 | the ten slot names are pairwise different |
| Executor.Definition | src/infrastructure/tools/executor.rs:127-135 | the name is the slot's, the description is "<name> (INTERNAL_ID: <slot>) - <description>", and the parameters are the tool's input schema |
| Executor.Call | src/infrastructure/tools/executor.rs:137-139 | a slot's call executes its own tool definition |
| FormEncoding.SerializeByte | src/infrastructure/tools/executor.rs:29 | alphanumerics and `*-._` pass through, space becomes `+`, every other byte becomes `%XX` in upper-case hex |
| FormEncoding.ByteSerializeWellFormed | src/infrastructure/tools/executor.rs:29 | the encoding holds only pass-through characters, `+` and `%` followed by two hex digits |
| FormEncoding.FormEncodeHasNoBraces | src/infrastructure/tools/executor.rs:29 | an encoded value never contains `{` or `}` |
| FormEncoding.DecodeByteSerialize | src/infrastructure/tools/executor.rs:29 | decoding the byte serialisation gives the bytes back |
| FormEncoding.FormEncodeRoundTrip | src/infrastructure/tools/executor.rs:29 | decoding a form-encoded string gives back its UTF-8 bytes |
| RigClient.JsonEnd | src/infrastructure/ai/rig_client.rs:29 | the end of the slice is within the text |
| RigClient.CleanJsonResponse | src/infrastructure/ai/rig_client.rs:27-32 | the result is always a contiguous slice of the input; with no `{` it is a prefix, with no `}` a suffix |
| RigClient.CleanJsonFrames | src/infrastructure/ai/rig_client.rs:28-31 | from the first `{` through the last `}` inclusive when the first comes before the last |
| RigClient.CleanJsonIdempotent | src/infrastructure/ai/rig_client.rs:27-32 | extracting twice is extracting once |
| RigClient.CleanJsonKeepsReversedBraces | src/infrastructure/ai/rig_client.rs:30 | for any text whose last `}` comes before its first `{`, the text comes back unchanged |
| RigClient.RigBaseUrl | src/infrastructure/ai/rig_client.rs:34-41 | the base never ends with "/v1" and is a prefix of the configured or default URL; a URL ending in neither `/` nor "/v1" is kept as it is |
| RigClient.RigBaseIgnoresTrailingSlash | src/infrastructure/ai/rig_client.rs:36 | one trailing `/` makes no difference |
| RigClient.RigBaseDefault | src/infrastructure/ai/rig_client.rs:35-41 | without a configured URL the base is "https://api.openai.com" |
| RigClient.RigBaseCanEndWithSlash | src/infrastructure/ai/rig_client.rs:36-41 | the slash trim runs before the "/v1" trim, so the base can end with `/` |
| RigClient.EmbeddingUrl | src/infrastructure/ai/rig_client.rs:65-66 | the base without trailing slashes, followed by "/embeddings": only `/` characters are cut, none remains at the end, and a base not ending in `/` is kept whole |
| RigClient.EmbeddingUrlDefault | src/infrastructure/ai/rig_client.rs:65-66 | the default endpoint is "https://api.openai.com/v1/embeddings", keeping "/v1" |
| RigClient.EmbeddingRequestFor | src/infrastructure/ai/rig_client.rs:68-74 | a bearer token from the API key, and a body with the text as `input` and the embedding model as `model` |
| RigClient.EmbeddingField | src/infrastructure/ai/rig_client.rs:88-91 | the embedding is found only under `data`, as an array |
| RigClient.Floats | src/infrastructure/ai/rig_client.rs:93-94 | a vector exactly when the value is an array of numbers, one entry per element |
| RigClient.ReadEmbedding | src/infrastructure/ai/rig_client.rs:79-94 | a non-success status is an AI error, unreadable JSON or a non-numeric array a parse error, and a missing `data[0].embedding` an AI error; success needs all checks passed |
| RigClient.EmbeddingOutcome | src/infrastructure/ai/rig_client.rs:59-96 | blank text is a validation error and is the only one; a failed send is an AI error; success needs a sent request |
| RigClient.RigAIService.constructor | src/infrastructure/ai/rig_client.rs:20-25 | the client starts with its configuration and no request sent |
| RigClient.RigAIService.UpdateConfig | src/infrastructure/ai/rig_client.rs:50-57 | the configuration read back afterwards is the one given, and the call succeeds |
| RigClient.RigAIService.GenerateEmbedding | src/infrastructure/ai/rig_client.rs:59-97 | the result is the embedding outcome; blank text sends nothing, any other text sends exactly one request; the configuration does not change |
| RigClient.RigAIService.CheckReply | src/infrastructure/ai/rig_client.rs:79-96 | the imperative checks agree with `ReadEmbedding` |
| Chat.CleanContentShape | src/interface/handlers/chat.rs:43 | the cleaned content has no newline and no whitespace at either end |
| Chat.ShortContent | src/interface/handlers/chat.rs:55 | a prefix of the cleaned content of length at most 200 |
| Chat.EvidenceText | src/interface/handlers/chat.rs:39-50 | the text always starts with the evidence header, and is the header alone exactly when nothing was retrieved |
| Chat.SourcesInOrder | src/interface/handlers/chat.rs:41-58 | one source per retrieved context, in order, with index position + 1 and chunk id and concepts copied |
| Chat.BuildEvidence | src/interface/handlers/chat.rs:36-59 | the loop builds exactly the evidence text and the source list |
| Chat.EntriesPrefix | src/interface/handlers/chat.rs:41-50 | the entries of the first `n` contexts are a prefix of all entries |
| Chat.EntryAt | src/interface/handlers/chat.rs:47-50 | context `i`'s `FUENTE [i+1]` entry follows the entries before it |
| Chat.ChatBaseUrl | src/interface/handlers/chat.rs:63-64 | the base never ends with `/` and is a prefix of the configured or default URL; a URL ending in neither `/` nor "/v1" is kept as it is |
| Chat.BaseUrlsDisagree | src/interface/handlers/chat.rs:63-64 | the chat handler and the AI client normalise "http://h/v1/" differently |
| Chat.ChatClient | src/interface/handlers/chat.rs:62-66 | the handler's client carries the configured key and the normalised base URL |
| Chat.AgentAndChatClientsDiffer | src/interface/handlers/chat.rs:62-66 | with an Ollama base URL the chat handler sends to the local server and the agent to OpenAI, with the same key |
| Chat.ChatHandler | src/interface/handlers/chat.rs:23-101 | the backend receives exactly the calls of the chat turn with the handler's fixed instructions, and the result is the turn's result |
| Chat.ChatOrder | src/interface/handlers/chat.rs:28-95 | embed, then retrieve five contexts, then prompt, each only after the previous one succeeded |
| Chat.ChatResult | src/interface/handlers/chat.rs:94-100 | a failed prompt becomes "LLM Error: …" as an AI error; success answers with the reply and the sources |
| Transmutation.FileName | src/interface/transmutation.rs:12 | present exactly when the last component of the path, trailing slashes ignored, is neither empty nor ".."; then it is that component, without `/` |
| Transmutation.LastComponent | src/interface/transmutation.rs:12 | the text after the last `/`: a `/`-free suffix that is the whole text or is preceded by `/` |
| Transmutation.NameExtension | src/interface/transmutation.rs:12 | present exactly when the name is not ".." and its last `.` is not its first character; it is the text after the last `.` |
| Transmutation.FormatTable | src/interface/transmutation.rs:13-21 | an extension maps to a format exactly when it is in that format's list |
| Transmutation.Extract | src/interface/transmutation.rs:32-39 | plain text succeeds exactly on valid UTF-8, with the decoded text |
| Transmutation.UnsupportedBeforeParsing | src/interface/transmutation.rs:29-30 | an unclassified file gives "Formato no soportado: <name>" whatever the parsers do |
| Transmutation.PlainTextIsUtf8 | src/interface/transmutation.rs:38 | a plain-text file converts exactly when its bytes are UTF-8, and the text encodes back to them |
| Transmutation.PlainTextRoundTrip | src/interface/transmutation.rs:38 | the UTF-8 encoding of any text converts back to that text |
| Transmutation.FileNameLower | src/interface/transmutation.rs:12 | lower-casing commutes with taking the file name |
| Transmutation.NameExtensionLower | src/interface/transmutation.rs:12 | lower-casing commutes with taking the extension |
| Transmutation.ExtensionLower | src/interface/transmutation.rs:12 | the same for a whole path |
| Transmutation.ClassificationIgnoresCase | src/interface/transmutation.rs:12-21 | a name and its lower-case form get the same format |
| Transmutation.DotfileHasNoFormat | src/interface/transmutation.rs:12 | ".pdf" and "README" have no format |
| Export.TypeUriCases | src/interface/handlers/export.rs:40-45 | Person, Condition and Intervention map to `mhealth:<category>`, every other category to `schema:Thing` |
| Export.CommunityResourceIsThing | src/interface/handlers/export.rs:23-45 | "CommunityResource" is typed `schema:Thing` although the context names it |
| Export.NodeId | src/interface/handlers/export.rs:48 | the id is "mhealth:" followed by the name character for character, each space as `_`; it holds no space |
| Export.NodeIdOfPlainName | src/interface/handlers/export.rs:48 | a name without spaces is kept as it is after the prefix |
| Export.NodeFields | src/interface/handlers/export.rs:47-49 | a node's `@id` and `@type` are its id and its type URI |
| Export.NodeRoundTrip | src/interface/handlers/export.rs:50-51 | name and category are copied unchanged: the entity is read back from its node |
| Export.EdgeRoundTrip | src/interface/handlers/export.rs:66 | edges pass through unchanged |
| Export.NodesOf | src/interface/handlers/export.rs:39-53 | one node per entity |
| Export.NodesAt | src/interface/handlers/export.rs:39-53 | node `i` is the mapping of entity `i` |
| Export.ExportJsonLd | src/interface/handlers/export.rs:16-70 | a repository failure is returned as it is; otherwise the document of the exported graph |
| Export.DocumentShape | src/interface/handlers/export.rs:36-67 | the document holds the context, `@graph` with one node per entity in order, and `meta:edges` with the edges unchanged |
| Export.NodeIdentities | src/interface/handlers/export.rs:47-49 | every node carries its entity's id and type |
| Export.ContextIsConstant | src/interface/handlers/export.rs:23-64 | `@context` is the same for every graph |
| Errors.IntoResponse | src/domain/errors.rs:36-47 | 400, 403, 502 and 500 for their variants, both ways; the body is an object with one string `error` field; the message is the display text for validation, guard and configuration errors |
| Errors.InternalDetailNotLeaked | src/domain/errors.rs:40-42 | parse, AI and database errors give fixed messages that do not depend on their detail |
| Errors.ValidationDetailShown | src/domain/errors.rs:21-37 | a validation error shows "Validation error: " followed by its detail |
| Models.RoleFromName | src/domain/models.rs:15-22 | a parsed role displays as the name it was parsed from |
| Models.RoleNameRoundTrip | src/domain/models.rs:15-22 | the display of a role parses back to it, so the display is injective |
| Models.ProviderFromName | src/domain/models.rs:41-46 | a parsed provider has the name it was parsed from |
| Models.InvalidFields | src/domain/models.rs:52-64 | `model_name` and `embedding_model` are reported exactly when empty, `base_url` exactly when present and not a URL |
| Models.ParseUsizeLiteral | src/domain/models.rs:62 | only non-empty decimal digit strings parse |
| Models.SerializeAIConfig | src/domain/models.rs:59 | the serialised configuration never has an `api_key` field |
| Models.DeserializeAIConfig | src/domain/models.rs:48-64 | a missing `api_key` reads as the empty string; only objects deserialise |
| Models.ReadApiKey | src/domain/models.rs:59 | a missing `api_key` defaults to "" |
| Models.AIConfigRoundTrip | src/domain/models.rs:52-64 | serialising and deserialising gives the configuration back with an empty API key |
| Models.SerializedFieldsReadBack | src/domain/models.rs:52-64 | every serialised field reads back as its value |
| Models.SerializedNamesReadBack | src/domain/models.rs:54-58 | the provider and the two model names read back |
| Models.SerializedProviderReadBack | src/domain/models.rs:54 | the provider reads back |
| Models.SerializedDimReadBack | src/domain/models.rs:62 | the embedding dimension reads back |
| Models.SerializedBaseUrlReadBack | src/domain/models.rs:64 | the optional base URL reads back, absent as absent |
| Models.ParseExportFormat | src/domain/models.rs:169-177 | exactly "jsonld", "turtle" and "graphml" are accepted, each as the format of that name |
| Models.ExportFormatRoundTrip | src/domain/models.rs:169-177 | every format's name parses back to it |
| AgentRepo.New | src/infrastructure/persistence/agent_repo.rs:11-14 | all trailing `/` are removed and nothing else |
| AgentRepo.NewIgnoresTrailingSlash | src/infrastructure/persistence/agent_repo.rs:13 | one more trailing `/` makes no difference |
| AgentRepo.AgentAndToolPathsDiffer | src/infrastructure/persistence/agent_repo.rs:17-27 | an agent's file is never a tool's file |
| AgentRepo.ReadToString | src/infrastructure/persistence/agent_repo.rs:18 | a file reads as text exactly when it exists and is valid UTF-8 |
| AgentRepo.ReadToStringBytes | src/infrastructure/persistence/agent_repo.rs:18 | the text read encodes back to the file's bytes |
| AgentRepo.LoadOutcome | src/infrastructure/persistence/agent_repo.rs:16-24 | an unreadable file is a configuration error naming the path, an unparsable one a parse error, otherwise the parsed value |
| AgentRepo.GetAgentOk | src/infrastructure/persistence/agent_repo.rs:16-24 | an agent loads exactly when its file reads and parses to it |
| AgentRepo.ListMatching | src/infrastructure/persistence/agent_repo.rs:36-66 | the listing loop keeps exactly the parsable entries, in glob order |
| AgentRepo.ListAgents | src/infrastructure/persistence/agent_repo.rs:36-66 | the parsable agents under `<base>/agents/*.yaml` |
| AgentRepo.ListTools | src/infrastructure/persistence/agent_repo.rs:68-95 | the parsable tools under `<base>/tools/*.yaml` |
| AgentRepo.ParsableBounded | src/infrastructure/persistence/agent_repo.rs:44-59 | the listing is never longer than the matched entries |
| AgentRepo.ParsableMembers | src/infrastructure/persistence/agent_repo.rs:44-59 | a value is listed exactly when some entry parses to it |
| AgentRepo.ParsableAllGood | src/infrastructure/persistence/agent_repo.rs:44-59 | when every entry parses, the listing is all of them, in order |
| Middleware.Next.Run | src/interface/middleware.rs:41 | the next handler runs once with the request's claims |
| Middleware.JwtSecret | src/interface/middleware.rs:30 | JWT_SECRET when set, else the development fallback |
| Middleware.Authenticate | src/interface/middleware.rs:22-36 | success exactly when the session cookie is present and decodes, with the decoded claims; otherwise 401 |
| Middleware.AuthMiddleware | src/interface/middleware.rs:14-42 | a refused request gets 401 and the next handler does not run; an accepted one runs it once with the claims attached |
| Middleware.AdminCheck | src/interface/middleware.rs:50-54 | 401 exactly without claims, 403 exactly for a non-admin role, admitted exactly for an admin |
| Middleware.RequireAdmin | src/interface/middleware.rs:45-57 | a refused request does not run the next handler; an admitted one runs it once |
| Middleware.AdminGateDecision | src/interface/middleware.rs:22-56 | through both layers, only a decodable cookie with an admin role reaches the handler |
| Middleware.MissingCookieRefused | src/interface/middleware.rs:22-27 | without the cookie the answer is 401 whatever the decoder |
| Admin.UpdateConfig | src/interface/handlers/admin.rs:31-45 | the repository receives exactly the reset sequence's calls, the result is its result, and the AI configuration changes only when the sequence configured it |
| Admin.ResetSequence | src/interface/handlers/admin.rs:35-44 | without `force_reset` a safety-guard error and no call; otherwise reset, then index creation with the payload's dimension, then the configuration, each only after the previous one succeeded; success returns the fixed message |
| Admin.FailureKeepsConfig | src/interface/handlers/admin.rs:37-40 | a failed sequence never changes the configuration, and fails with the guard or the failing call's error |
| Users.Dtos | src/interface/handlers/users.rs:19-23 | one DTO per user |
| Users.DtosFaithful | src/interface/handlers/users.rs:19-23 | DTO `i` carries user `i`'s id and name, and a role name that parses back to its role |
| Users.ListUsers | src/interface/handlers/users.rs:14-26 | the stored users as DTOs, or the repository's error; nothing is changed |
| Users.CreateUser | src/interface/handlers/users.rs:29-51 | the store and the reply follow the creation turn |
| Users.DuplicateRefused | src/interface/handlers/users.rs:34-36 | a name found by the lookup is refused with "Username already exists" and the store is unchanged |
| Users.CreateOutcome | src/interface/handlers/users.rs:34-50 | a hashing failure stores nothing; a stored user has the requested name and role, the fresh id and the hash, never the raw password |
| Users.CreateKeepsNamesUnique | src/interface/handlers/users.rs:34-48 | with a working lookup, creation keeps usernames unique |
| Users.LookupFailureAdmitsDuplicate | src/interface/handlers/users.rs:34 | a failed lookup lets a duplicate name in |
| Users.AdminName | src/interface/handlers/users.rs:59 | ADMIN_USER when set, else "admin" |
| Users.DeleteUser | src/interface/handlers/users.rs:54-68 | the store and the reply follow the deletion turn |
| Users.AdminSurvivesDelete | src/interface/handlers/users.rs:59-67 | deleting the admin's name is a safety-guard error that touches nothing; any other deletion removes exactly that name when it succeeds |
| Ingest.ProcessRouting | src/interface/handlers/ingest.rs:48-74 | "image/" and "audio/" media are described or transcribed and framed with the file name; everything else goes through the transmuter |
| Ingest.StepEffect | src/interface/handlers/ingest.rs:39-96 | only "file" and "content" fields act; a contributing field extends the text and sets the flag; any other leaves both alone |
| Ingest.FoundIffContributed | src/interface/handlers/ingest.rs:35-97 | the flag is set exactly when some field contributed |
| Ingest.GatherExtends | src/interface/handlers/ingest.rs:78-94 | the text gathered from the first fields is a prefix of the final text |
| Ingest.FinishOutcome | src/interface/handlers/ingest.rs:99-109 | the last message is "DONE" exactly when the text was ingested successfully, the refusal exactly when it was not ingestible, and the ingestion error otherwise |
| Ingest.ShortTextNotIngested | src/interface/handlers/ingest.rs:99 | five bytes or fewer are never ingested |
| Ingest.ProcessFile | src/interface/handlers/ingest.rs:45-84 | one file field's notes and text, as routed |
| Ingest.IngestDocument | src/interface/handlers/ingest.rs:34-110 | the loop's messages are those of the fold and its finish, and the text is ingested exactly when it is ingestible |
| Startup.Var | src/main.rs:79 | a variable is read exactly when it is set |
| Startup.ProviderOf | src/main.rs:91-95 | Ollama and Groq exactly for their names in any ASCII case; anything else is OpenAI |
| Startup.ProviderNameSelects | src/main.rs:91-95 | every provider's name selects it |
| Startup.ParseUsize | src/main.rs:86-88 | only digit strings, optionally after one `+`, parse |
| Startup.ParseUsizePrinted | src/main.rs:86-88 | every printed `usize` parses back to itself |
| Startup.ApiKey | src/main.rs:80-82 | AI_API_KEY, else OPENAI_API_KEY, else "" |
| Startup.DefaultDimParses | src/main.rs:86-87 | the default dimension "1536" parses |
| Startup.InitialConfigFields | src/main.rs:79-104 | startup aborts exactly on an unparsable dimension; otherwise each field is its variable or its default, and the base URL is absent exactly when unset |
| Startup.EmptyEnvironmentDefaults | src/main.rs:79-104 | an empty environment gives OpenAI, "gpt-4o", "text-embedding-3-small", no key, 1536 and no base URL |
| Startup.AdminCredentials | src/main.rs:117-118 | ADMIN_USER and ADMIN_PASS, else "admin" and "admin123" |
| Startup.BindAddress | src/main.rs:186-187 | "0.0.0.0:" followed by PORT, else "3000" |
| Ports.FindUser | src/domain/ports.rs:29 | a user is found exactly when the name is stored, and it is a stored user of that name |
| Ports.WithoutUser | src/interface/handlers/users.rs:65 | the users of other names, and none of the deleted name |
| Ports.Backend.Command | src/domain/ports.rs:14-15 | the call is recorded and its result is the oracle's; the users are unchanged |
| Ports.Backend.SaveChatMessage | src/application/agent_service.rs:66 | the message is recorded as a call, and it succeeds unless the oracle fails it |
| Ports.Backend.GenerateEmbedding | src/domain/ports.rs:36 | the call is recorded and the embedding is the oracle's |
| Ports.Backend.FindHybridContext | src/domain/ports.rs:19 | the call with its limit is recorded and the fragments are the oracle's |
| Ports.Backend.GetConversationHistory | src/application/agent_service.rs:128 | the call is recorded and the history is the oracle's |
| Ports.Backend.AgentChat | src/application/agent_service.rs:134-136 | the chat with its client, model, preamble, slots, history and message is recorded; the reply is the oracle's |
| Ports.Backend.Prompt | src/interface/handlers/chat.rs:94 | the prompt with its client, model, preamble and message is recorded; the reply is the oracle's |
| Ports.Backend.GetUserByUsername | src/domain/ports.rs:29 | the lookup is recorded and finds the stored user unless the oracle fails it |
| Ports.Backend.CreateUser | src/domain/ports.rs:28 | the user is appended exactly when the call succeeds |
| Ports.Backend.DeleteUser | src/interface/handlers/users.rs:65 | the name's users are removed exactly when the call succeeds |
| Ports.Backend.ListUsers | src/interface/handlers/users.rs:17 | the stored users, unless the oracle fails the call |
| Text.RFindSpec | src/application/agent_service.rs:44-45 | `rfind` reports an occurrence with none after it, and nothing exactly when the pattern is absent |
| Text.RFindLast | src/application/agent_service.rs:44-45 | an occurrence with none after it is the one `rfind` reports |
| Text.ReplaceCharRemoves | src/interface/handlers/chat.rs:43 | replacing a character by another leaves none of the first |
| Text.ReplaceCharAt | src/interface/handlers/export.rs:48 | replacing a character keeps the length and changes exactly the positions that held it |
| Text.TrimEndStr | src/infrastructure/ai/rig_client.rs:38 | repeated suffix removal leaves a prefix that no longer ends with the suffix, and a text not ending with it is kept |
| Text.TrimEndStrAppend | src/infrastructure/ai/rig_client.rs:38 | one more copy of the suffix at the end makes no difference, so only whole copies are cut |
| Utf8.DecodeEncode | src/interface/transmutation.rs:38 | decoding the UTF-8 encoding of a text gives the text back |
| Utf8.EncodeDecode | src/interface/transmutation.rs:38 | whatever decodes is the encoding of its text: valid UTF-8 and encoded text are the same byte strings |
| Utf8.ByteLenAscii | src/interface/handlers/ingest.rs:99 | a text takes one byte per character exactly when it is ASCII |

## Left out

- Network, database and file I/O: the repository, the LLM calls (`chat`, `prompt`), the embedding
  HTTP send and the tools' HTTP sends are oracles fixed at construction (`Ports.Backend`,
  `RigClient.HttpClient`, the `send` parameter of `Executor.Execute`); the file system is a map
  from path to bytes and the glob an abstract function.
- Concurrency: the `tokio::spawn` of the Cypher branch and its join error, the `RwLock` around the
  AI service, and the mpsc channel and spawned task of the ingest handler are modelled
  sequentially; the channel is the sequence of messages sent. The `spawn_blocking` join error
  of the transmuter branch ("Error Thread: …") is not modelled: `Ingest.Process` has the
  transmuter's own outcome only.
- Floating point: embeddings are sequences of opaque integers, JSON numbers are their literal
  text, and the chat source's `relevance: 1.0` is a fixed field.
- Library parsers and serialisers: lopdf, the DOCX zip/XML reader, calamine, csv and html2text
  are oracles of the transmuter (only their dispatch and the plain-text path are modelled);
  `mime_guess` is the `mimeOf` oracle; serde_yaml and the agent/tool parsing are the `parse`
  oracle of the repository.
- Middleware.AuthMiddleware: the cookie jar's construction is not modelled; the model starts
  from the request's parsed cookies. The source builds the jar with `Key::from(COOKIE_KEY)`, a
  54-byte key, while `cookie::Key::from` is documented to need at least 64 bytes and to panic
  otherwise, and it calls a two-argument `from_headers`, the signature of the signed and
  private jars rather than of `CookieJar`.
- Crypto and authentication: bcrypt hashing, JWT decoding and validation, and cookie parsing are
  oracles; the UUID generator is a parameter (`freshId`).
- Text: case mapping is ASCII-only, while Rust's `to_lowercase` and `to_uppercase` are Unicode.
  Path handling is the final component after the last `/`; `.` components and other `Path`
  normalisations are not modelled.
- serde_json key order: objects keep their fields in the order they are built.
- The `AgentConfig` and `ToolDefinition` structs are not part of this model's `models.rs`; their
  fields are taken from their uses in `executor.rs`, `agent_service.rs` and `agent_repo.rs`.
- Models.ValidIngestionContent: only the ten-character minimum of `IngestionRequest` is modelled,
  as a predicate; the other derive-generated validations are not.
- The ingestion service's internals (chunking, extraction, graph writes) are an oracle that
  reports progress and an outcome; `list_available_agents`, `graph.rs`, `agents.rs`, `ui.rs`,
  the DTO declarations, Swagger/OpenAPI and the router wiring in `main.rs` are not modelled.
- Stream framing: the ingest handler's messages are modelled without the trailing newline each
  one is sent with.
- AgentService.TurnOrder, TurnCases, TurnReachesHistory, TurnEarlyFailure, TurnLateFailure and
  TurnSuccess are stated for any agent builder; `TurnOfLoadedAgent` ties them to the real one.

## Behaviour worth knowing

Each item is a fact about the code, and the lemma named states it.

- Form encoding writes a space as `+` (`FormEncoding.SerializeByte`).
- `clean_react_output` is not idempotent (`AgentService.CleanNotIdempotent`), and it strips
  backticks but not `**` (`AgentService.CleanKeepsEmphasis`).
- An empty retrieval adds no context section to the preamble
  (`AgentService.PreambleIsPromptIffNoContext`), and `used_tools` is always empty
  (`AgentService.TurnSuccess`).
- The agent turn's client always sends to OpenAI's endpoint, while the chat handler uses the
  configured base URL (`AgentService.AgentClientIgnoresEndpointConfig`,
  `Chat.AgentAndChatClientsDiffer`).
- The chat handler trims "/v1" before `/`, the AI client `/` before "/v1", so the two disagree
  on the same URL (`Chat.BaseUrlsDisagree`); the embedding endpoint cuts only slashes, so it
  keeps "/v1" (`RigClient.EmbeddingUrl`, `RigClient.EmbeddingUrlDefault`).
- `parse::<usize>` accepts a leading `+` (`Startup.ParseUsize`).
- A failed username lookup lets a duplicate user be created
  (`Users.LookupFailureAdmitsDuplicate`).
- "CommunityResource" has an entry in the JSON-LD context but is typed `schema:Thing`
  (`Export.CommunityResourceIsThing`).
- `update_config` on the AI client cannot fail, so the `?` after it in the admin handler never
  fires (`RigClient.RigAIService.UpdateConfig`).
- Substituting one key leaves the other placeholders as they were when the template's literal
  text and keys are free of braces (`Executor.FillKeepsWellFormed`); in a template that is not
  well formed, a substitution can complete a new placeholder that spans the filled hole.
