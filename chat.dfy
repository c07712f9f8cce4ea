/**
 * The RAG chat handler (src/interface/handlers/chat.rs): embed the question, fetch the five
 * most relevant fragments, number them as evidence for the model, prompt the model through a
 * client built for the configured base URL, and answer with the model's text and the list of
 * cited sources. The repository and the AI service are the `Backend` stub of Ports.
 */
module Chat {
  import opened Wrappers
  import opened Text
  import opened Errors
  import opened Models
  import opened Ports
  import RigClient
  import AgentService

  /** The number of fragments the handler asks for. */
  const RetrievalLimit := 5
  /** Characters of a fragment kept in its source entry. */
  const ShortContentLength := 200
  const EvidenceHeader := "EVIDENCIA RECUPERADA DEL SISTEMA:\n"
  const LlmErrorPrefix := "LLM Error: "

  /** The instruction text that precedes the evidence in the system prompt, as the handler's raw
      string literal has it, indentation included. The functions below take the instructions as
      a parameter, `instructions`; the handler fills it with this text. */
  const Instructions := "\n        Act\U{00FA}a como \"LaMuralla AI\", un asistente experto en an\U{00E1}lisis cl\U{00ED}nico y social.\n        \n        TU TAREA:\n        Responder a la pregunta del usuario bas\U{00E1}ndote EXCLUSIVAMENTE en las FUENTES proporcionadas.\n        \n        REGLAS DE RESPUESTA:\n        1. Tono profesional, emp\U{00E1}tico y basado en evidencia.\n        2. CITAS OBLIGATORIAS: Cada afirmaci\U{00F3}n debe estar respaldada por su fuente.\n           - Formato: \"El paciente muestra mejora en autonom\U{00ED}a [1], relacionado con su asistencia al taller [2].\"\n           - Usa [n] al final de las frases.\n        3. Si la informaci\U{00F3}n no est\U{00E1} en las fuentes, di expl\U{00ED}citamente: \"No tengo evidencia registrada sobre esto.\"\n        4. Usa Markdown para negritas y listas.\n        \n        CONTEXTO:\n        "

  /** The indentation that closes the system prompt after the evidence. */
  const PromptTail := "\n        "

  /** A fragment's text on one line: every line break becomes a space, then the ends are
      trimmed. */
  function CleanContent(content: string): string {
    Trim(Replace(content, "\n", " "))
  }

  /** The cleaned text has no line break and no whitespace at either end. */
  lemma CleanContentShape(content: string)
    ensures var r := CleanContent(content);
      (forall i :: 0 <= i < |r| ==> r[i] != '\n')
      && (r == [] || (!IsWhitespace(r[0]) && !IsWhitespace(r[|r| - 1])))
  {
    var flat := Replace(content, "\n", " ");
    ReplaceCharRemoves(content, '\n', ' ');
    var r := Trim(flat);
    var k := |flat| - |TrimStart(flat)|;
    assert forall i :: 0 <= i < |r| ==> r[i] == flat[k + i];
  }

  /** `chars().take(200)`: at most the first 200 characters. */
  function ShortContent(clean: string): (r: string)
    ensures r <= clean
    ensures |r| == if |clean| < ShortContentLength then |clean| else ShortContentLength
  {
    if |clean| < ShortContentLength then clean else clean[..ShortContentLength]
  }

  /** The evidence paragraph for the fragment at position `i`, numbered from one. */
  function Entry(i: nat, doc: HybridContext): string {
    "FUENTE [" + NatToString(i + 1) + "]:\n- Texto: \"" + CleanContent(doc.content)
      + "\"\n- Entidades Clave en Grafo: [" + Join(doc.connectedEntities, ", ") + "]\n\n"
  }

  function Entries(docs: seq<HybridContext>): string {
    if docs == [] then "" else Entries(docs[..|docs| - 1]) + Entry(|docs| - 1, docs[|docs| - 1])
  }

  /** The evidence text: the header, even with no fragments, then one paragraph per fragment. */
  function EvidenceText(docs: seq<HybridContext>): (r: string)
    ensures EvidenceHeader <= r
    ensures docs == [] <==> r == EvidenceHeader
  {
    EvidenceHeader + Entries(docs)
  }

  /** The source entry for the fragment at position `i`. */
  function SourceFor(i: nat, doc: HybridContext): SourceReference {
    SourceReference(i + 1, doc.chunkId, ShortContent(CleanContent(doc.content)), doc.connectedEntities)
  }

  /** `f` applied to every item together with its position, in order. */
  function Numbered<T, U>(f: (nat, T) -> U, xs: seq<T>): seq<U> {
    if xs == [] then [] else Numbered(f, xs[..|xs| - 1]) + [f(|xs| - 1, xs[|xs| - 1])]
  }

  /** Position `i` of a numbered list holds item `i` with its number. */
  lemma {:induction false} NumberedAt<T, U>(f: (nat, T) -> U, xs: seq<T>)
    ensures |Numbered(f, xs)| == |xs|
    ensures forall i :: 0 <= i < |xs| ==> Numbered(f, xs)[i] == f(i, xs[i])
    decreases |xs|
  {
    if xs != [] {
      var init := xs[..|xs| - 1];
      NumberedAt(f, init);
      forall i | 0 <= i < |xs|
        ensures Numbered(f, xs)[i] == f(i, xs[i])
      {
        if i < |init| {
          assert init[i] == xs[i];
        }
      }
    }
  }

  /** The source list: one source per fragment, numbered in retrieval order. */
  function SourcesOf(docs: seq<HybridContext>): seq<SourceReference> {
    Numbered(SourceFor, docs)
  }

  /** One source per fragment, in retrieval order: numbered from one, with the fragment's chunk
      id and concepts and at most 200 characters of its cleaned text. */
  lemma SourcesInOrder(docs: seq<HybridContext>)
    ensures |SourcesOf(docs)| == |docs|
    ensures forall i :: 0 <= i < |docs| ==>
      SourcesOf(docs)[i].index == i + 1 && SourcesOf(docs)[i].chunkId == docs[i].chunkId
      && SourcesOf(docs)[i].concepts == docs[i].connectedEntities
      && SourcesOf(docs)[i].shortContent == ShortContent(CleanContent(docs[i].content))
  {
    NumberedAt(SourceFor, docs);
  }

  /** The evidence-building loop of `chat_handler`. */
  method BuildEvidence(docs: seq<HybridContext>) returns (contextText: string, sources: seq<SourceReference>)
    ensures contextText == EvidenceText(docs) && sources == SourcesOf(docs)
  {
    var entries := "";
    sources := [];
    var i := 0;
    while i < |docs|
      invariant 0 <= i <= |docs|
      invariant entries == Entries(docs[..i]) && sources == SourcesOf(docs[..i])
    {
      var doc := docs[i];
      assert docs[..i + 1][..i] == docs[..i];
      entries := entries + Entry(i, doc);
      sources := sources + [SourceFor(i, doc)];
      i := i + 1;
    }
    assert docs[..i] == docs;
    contextText := EvidenceHeader + entries;
  }

  /** Fragment `i`'s paragraph follows the paragraphs of the fragments before it. */
  lemma {:induction false} EntriesPrefix(docs: seq<HybridContext>, n: nat)
    requires n <= |docs|
    ensures Entries(docs[..n]) <= Entries(docs)
    decreases |docs|
  {
    if n < |docs| {
      var init := docs[..|docs| - 1];
      assert init[..n] == docs[..n];
      EntriesPrefix(init, n);
    } else {
      assert docs[..n] == docs;
    }
  }

  lemma EntryAt(docs: seq<HybridContext>, i: nat)
    requires i < |docs|
    ensures Entries(docs[..i]) + Entry(i, docs[i]) <= Entries(docs)
  {
    assert docs[..i + 1][..i] == docs[..i];
    EntriesPrefix(docs, i + 1);
  }

  /** `clean_base`: the configured base URL (else the OpenAI one) without every trailing "/v1"
      and then without every trailing '/'. Here the slashes go last, so the result never ends
      with one. */
  function ChatBaseUrl(baseUrl: Option<string>): (r: string)
    ensures !EndsWith(r, "/")
    ensures r <= baseUrl.GetOr(RigClient.DefaultBaseUrl)
    ensures var u := baseUrl.GetOr(RigClient.DefaultBaseUrl); !EndsWith(u, "/") && !EndsWith(u, "/v1") ==> r == u
  {
    var u := baseUrl.GetOr(RigClient.DefaultBaseUrl);
    TrimEndCharUnlessEnding(u, '/');
    var r := TrimEndChar(TrimEndStr(baseUrl.GetOr(RigClient.DefaultBaseUrl), "/v1"), '/');
    assert r != [] ==> r[|r| - 1..] == [r[|r| - 1]];
    r
  }

  /** The two normalisations disagree: a slash after the version segment stops this one from
      removing it, while the AI client's removes both. */
  lemma BaseUrlsDisagree()
    ensures ChatBaseUrl(Some("http://h/v1/")) == "http://h/v1"
    ensures RigClient.RigBaseUrl(Some("http://h/v1/")) == "http://h"
  {
    var b := "http://h/v1/";
    assert !EndsWith(b, "/v1");
    assert b == "http://h/v1" + ['/'];
    TrimEndCharAppend("http://h/v1", '/');
    TrimEndCharKeeps("http://h/v1", '/');
    var v := "http://h/v1";
    assert EndsWith(v, "/v1");
    assert v[..|v| - 3] == "http://h";
    assert !EndsWith("http://h", "/v1");
  }

  /** The handler's client: `openai::Client::from_url` with the configured key and the
      normalised base URL. */
  function ChatClient(config: AIConfig): (c: LlmClient)
    ensures c.apiKey == config.apiKey
    ensures c.baseUrl == ChatBaseUrl(config.baseUrl)
  {
    LlmClient(ChatBaseUrl(config.baseUrl), config.apiKey)
  }

  /** With a local Ollama configuration the two handlers send to different places: the chat
      handler to the configured server, the agent to OpenAI's endpoint, with the same key. */
  lemma AgentAndChatClientsDiffer(config: AIConfig)
    requires config.provider == Ollama && config.baseUrl == Some("http://localhost:11434/v1")
    ensures ChatClient(config) == LlmClient("http://localhost:11434", config.apiKey)
    ensures AgentService.AgentClient(config) == LlmClient(OpenAiApiBase, config.apiKey)
    ensures ChatClient(config) != AgentService.AgentClient(config)
  {
    var b := "http://localhost:11434/v1";
    var h := "http://localhost:11434";
    assert EndsWith(b, "/v1");
    assert b[..|b| - 3] == h;
    assert !EndsWith(h, "/v1");
    assert h != [] && h[|h| - 1] != '/';
    TrimEndCharKeeps(h, '/');
    assert h[8] != OpenAiApiBase[8];
  }

  /** The system prompt: the instructions, the evidence, and the closing indentation. */
  function SystemPrompt(instructions: string, contextText: string): string {
    instructions + contextText + PromptTail
  }

  /** The model call the handler makes for the retrieved fragments. */
  function PromptCall(config: AIConfig, instructions: string, docs: seq<HybridContext>, message: string): Effect {
    Effect.Prompt(ChatClient(config), config.modelName, SystemPrompt(instructions, EvidenceText(docs)), message)
  }

  datatype ChatOutcome = ChatOutcome(trace: seq<Effect>, result: Result<ChatResponse, AppError>)

  /** What `chat_handler` does to the backend's call log, and what it answers. */
  function ChatTurn(store: Backend, trace: seq<Effect>, config: AIConfig, instructions: string, message: string): ChatOutcome {
    var t1 := trace + [Effect.GenerateEmbedding(message)];
    match store.embed(message)
    case Err(e) => ChatOutcome(t1, Err(e))
    case Ok(v) =>
      var t2 := t1 + [Effect.FindHybridContext(RetrievalLimit)];
      match store.retrieve(v, RetrievalLimit)
      case Err(e) => ChatOutcome(t2, Err(e))
      case Ok(docs) =>
        var call := PromptCall(config, instructions, docs, message);
        var t3 := t2 + [call];
        match store.complete(call)
        case Err(e) => ChatOutcome(t3, Err(AIError(LlmErrorPrefix + e)))
        case Ok(answer) => ChatOutcome(t3, Ok(ChatResponse(answer, SourcesOf(docs))))
  }

  /** `chat_handler`, with the configuration read from the AI service passed in. */
  method ChatHandler(store: Backend, config: AIConfig, req: ChatRequest) returns (r: Result<ChatResponse, AppError>)
    modifies store
    ensures store.trace == ChatTurn(store, old(store.trace), config, Instructions, req.message).trace
    ensures r == ChatTurn(store, old(store.trace), config, Instructions, req.message).result
    ensures store.users == old(store.users)
  {
    var embedding := store.GenerateEmbedding(req.message);
    if embedding.Err? {
      return Err(embedding.error);
    }
    var docs := store.FindHybridContext(embedding.value, RetrievalLimit);
    if docs.Err? {
      return Err(docs.error);
    }
    var contextText, sources := BuildEvidence(docs.value);
    var client := LlmClient(ChatBaseUrl(config.baseUrl), config.apiKey);
    var systemPrompt := SystemPrompt(Instructions, contextText);
    var answer := store.Prompt(client, config.modelName, systemPrompt, req.message);
    if answer.Err? {
      return Err(AIError(LlmErrorPrefix + answer.error));
    }
    r := Ok(ChatResponse(answer.value, sources));
  }

  /** The handler embeds, then retrieves five fragments, then prompts the model with their
      evidence; each call happens only when the one before it succeeded. */
  lemma ChatOrder(store: Backend, trace: seq<Effect>, config: AIConfig, instructions: string, message: string)
    ensures var log := ChatTurn(store, trace, config, instructions, message).trace; var k := |trace|;
      k + 1 <= |log| <= k + 3 && log[..k] == trace && log[k] == Effect.GenerateEmbedding(message)
      && (|log| > k + 1 <==> store.embed(message).Ok?)
      && (|log| > k + 1 ==> log[k + 1] == Effect.FindHybridContext(5))
      && (|log| > k + 2 <==> store.embed(message).Ok? && store.retrieve(store.embed(message).value, 5).Ok?)
      && (|log| > k + 2 ==>
            log[k + 2] == PromptCall(config, instructions, store.retrieve(store.embed(message).value, 5).value, message))
  {
    var t1 := trace + [Effect.GenerateEmbedding(message)];
    assert t1[..|trace|] == trace;
    if store.embed(message).Ok? {
      var t2 := t1 + [Effect.FindHybridContext(RetrievalLimit)];
      assert t2[..|trace|] == trace;
      var docs := store.retrieve(store.embed(message).value, RetrievalLimit);
      if docs.Ok? {
        var t3 := t2 + [PromptCall(config, instructions, docs.value, message)];
        assert t3[..|trace|] == trace;
      }
    }
  }

  /** The handler answers exactly when the model call was made and succeeded, with the model's
      text and one source per retrieved fragment; a failed model call is an AI error carrying
      the provider's text. */
  lemma ChatResult(store: Backend, trace: seq<Effect>, config: AIConfig, instructions: string, message: string)
    ensures var out := ChatTurn(store, trace, config, instructions, message); var log := out.trace; var k := |trace|;
      (out.result.Ok? <==> |log| == k + 3 && store.complete(log[k + 2]).Ok?)
      && (|log| == k + 3 && store.complete(log[k + 2]).Err? ==>
            out.result == Err(AIError(LlmErrorPrefix + store.complete(log[k + 2]).error)))
      && (out.result.Ok? ==>
            out.result.value.response == store.complete(log[k + 2]).value
            && out.result.value.sources == SourcesOf(store.retrieve(store.embed(message).value, 5).value))
  {
    ChatOrder(store, trace, config, instructions, message);
  }
}
