/**
 * `AgentService` (src/application/agent_service.rs): one chat turn with a configured agent.
 * The turn loads the agent, saves the user's message, retrieves context for it, builds the
 * preamble and the numbered tool slots, asks the LLM, cleans the ReAct answer and saves it.
 * The repository, the AI service and the LLM are the `Ports.Backend` stub; the agent and tool
 * files are an `AgentRepo` file system with its YAML parse functions.
 */
module AgentService {
  import opened Wrappers
  import opened Text
  import opened Errors
  import opened Models
  import opened Ports
  import AgentRepo
  import Executor

  // ----- cleaning the ReAct answer -----

  const Tag := "Final Answer:"
  const TagLower := "final answer:"

  /** The answer after a marker that ends at `start`: whitespace trimmed, then every leading and
      trailing backtick. */
  function AnswerAfter(response: string, start: nat): string
    requires start <= |response|
  {
    TrimChar(TrimEnd(TrimStart(response[start..])), '`')
  }

  /** Where the answer starts: just after the last `exact` marker, else just after the last
      `lower` marker; `None` when neither occurs. */
  function MarkerEnd(response: string, exact: string, lower: string): (r: Option<nat>)
    ensures r.Some? ==> r.value <= |response|
  {
    match RFind(response, exact)
    case Some(i) => Some(i + |exact|)
    case None =>
      match RFind(response, lower)
      case Some(i) => Some(i + |lower|)
      case None => None
  }

  /** Cleaning with a pair of markers: the answer after `MarkerEnd`, or the response unchanged. */
  function CleanWith(response: string, exact: string, lower: string): string {
    var index := MarkerEnd(response, exact, lower);
    if index.Some? then AnswerAfter(response, index.value) else response
  }

  /** `clean_react_output`: the markers are "Final Answer:" and its lower-case form. */
  function CleanReactOutput(response: string): string {
    CleanWith(response, Tag, TagLower)
  }

  /** A response with neither marker is returned unchanged; otherwise the answer has no
      backtick at either end. */
  lemma CleanShape(response: string)
    ensures !Contains(response, Tag) && !Contains(response, TagLower) ==> CleanReactOutput(response) == response
    ensures Contains(response, Tag) || Contains(response, TagLower) ==>
      var r := CleanReactOutput(response); r == [] || (r[0] != '`' && r[|r| - 1] != '`')
  {
    CleanWithShape(response, Tag, TagLower);
  }

  lemma CleanWithShape(response: string, exact: string, lower: string)
    ensures !Contains(response, exact) && !Contains(response, lower) ==> CleanWith(response, exact, lower) == response
    ensures Contains(response, exact) || Contains(response, lower) ==>
      var r := CleanWith(response, exact, lower); r == [] || (r[0] != '`' && r[|r| - 1] != '`')
  {
    RFindSpec(response, exact);
    RFindSpec(response, lower);
    match RFind(response, exact)
    case Some(i) =>
      CleanAtExact(response, exact, lower, i);
      AnswerAfterEnds(response, i + |exact|);
    case None =>
      match RFind(response, lower)
      case Some(i) =>
        CleanAtLower(response, exact, lower, i);
        AnswerAfterEnds(response, i + |lower|);
      case None =>
        CleanAtNone(response, exact, lower);
  }

  /** The answer has no backtick at either end. */
  lemma AnswerAfterEnds(response: string, start: nat)
    requires start <= |response|
    ensures var r := AnswerAfter(response, start); r == [] || (r[0] != '`' && r[|r| - 1] != '`')
  {
    TrimCharEnds(TrimEnd(TrimStart(response[start..])), '`');
  }

  lemma CleanAtNone(response: string, exact: string, lower: string)
    requires RFind(response, exact) == None && RFind(response, lower) == None
    ensures CleanWith(response, exact, lower) == response
  {
  }

  /** The last exact marker decides the answer, whatever lower-case markers follow it. */
  lemma CleanUsesLastExact(response: string, exact: string, lower: string, i: nat)
    requires OccursAt(response, exact, i)
    requires forall j :: i < j ==> !OccursAt(response, exact, j)
    ensures CleanWith(response, exact, lower) == AnswerAfter(response, i + |exact|)
  {
    RFindLast(response, exact, i);
    CleanAtExact(response, exact, lower, i);
  }

  lemma CleanAtExact(response: string, exact: string, lower: string, i: nat)
    requires RFind(response, exact) == Some(i)
    ensures CleanWith(response, exact, lower) == AnswerAfter(response, i + |exact|)
  {
  }

  lemma CleanAtLower(response: string, exact: string, lower: string, i: nat)
    requires RFind(response, exact) == None && RFind(response, lower) == Some(i)
    ensures CleanWith(response, exact, lower) == AnswerAfter(response, i + |lower|)
  {
  }

  /** The lower-case marker counts only when the exact one is absent; then its last
      occurrence decides the answer. */
  lemma CleanUsesLastLower(response: string, exact: string, lower: string, i: nat)
    requires !Contains(response, exact)
    requires OccursAt(response, lower, i)
    requires forall j :: i < j ==> !OccursAt(response, lower, j)
    ensures CleanWith(response, exact, lower) == AnswerAfter(response, i + |lower|)
  {
    RFindLast(response, lower, i);
    RFindSpec(response, exact);
    CleanAtLower(response, exact, lower, i);
  }

  lemma CleanUsesLastExactMarker(response: string, i: nat)
    requires OccursAt(response, Tag, i)
    requires forall j :: i < j ==> !OccursAt(response, Tag, j)
    ensures CleanReactOutput(response) == AnswerAfter(response, i + |Tag|)
  {
    CleanUsesLastExact(response, Tag, TagLower, i);
  }

  lemma CleanUsesLastLowerMarker(response: string, i: nat)
    requires !Contains(response, Tag)
    requires OccursAt(response, TagLower, i)
    requires forall j :: i < j ==> !OccursAt(response, TagLower, j)
    ensures CleanReactOutput(response) == AnswerAfter(response, i + |TagLower|)
  {
    CleanUsesLastLower(response, Tag, TagLower, i);
  }

  /** Nothing after the last occurrence of a marker holds the marker again. */
  lemma AbsentAfterLast(response: string, marker: string, i: nat)
    requires i + |marker| <= |response| && |marker| > 0
    requires forall j :: i < j ==> !OccursAt(response, marker, j)
    ensures !Contains(response[i + |marker|..], marker)
  {
    var start := i + |marker|;
    var s := response[start..];
    forall j | 0 <= j <= |s|
      ensures !OccursAt(s, marker, j)
    {
      if j + |marker| <= |s| {
        assert s[j..j + |marker|] == response[start + j..start + j + |marker|];
        assert !OccursAt(response, marker, start + j);
      }
    }
  }

  /** The trimmed answer of `s` is a slice of `s`, with the two whitespace trims given as
      arguments so the slices are chained over plain variables. */
  lemma TrimmedAnswerSlice(s: string, u: string, t: string) returns (a: nat, b: nat)
    requires u == TrimStart(s) && t == TrimEnd(u)
    ensures a <= b <= |s| && TrimChar(t, '`') == s[a..b]
  {
    var k := TrimCharSlice(t, '`');
    var r := TrimChar(t, '`');
    var p := |s| - |u|;
    SliceChain(s, u, t, r, p, k);
    a := p + k;
    b := a + |r|;
  }

  lemma AnswerAfterIsSlice(response: string, start: nat) returns (a: nat, b: nat)
    requires start <= |response|
    ensures a <= b <= |response[start..]| && AnswerAfter(response, start) == response[start..][a..b]
  {
    var s := response[start..];
    a, b := TrimmedAnswerSlice(s, TrimStart(s), TrimEnd(TrimStart(s)));
  }

  /** The answer after the last occurrence of a marker holds no occurrence of that marker. */
  lemma AnswerAfterLastHasNoMarker(response: string, marker: string, i: nat)
    requires OccursAt(response, marker, i) && |marker| > 0
    requires forall j :: i < j ==> !OccursAt(response, marker, j)
    ensures !Contains(AnswerAfter(response, i + |marker|), marker)
  {
    var start := i + |marker|;
    AbsentAfterLast(response, marker, i);
    var a, b := AnswerAfterIsSlice(response, start);
    AbsentFromSlice(response[start..], a, b, marker);
  }

  /** The cleaned answer never contains the marker that was matched. */
  lemma CleanedHasNoMarker(response: string, exact: string, lower: string)
    requires |exact| > 0 && |lower| > 0
    ensures Contains(response, exact) ==> !Contains(CleanWith(response, exact, lower), exact)
    ensures !Contains(response, exact) && Contains(response, lower) ==> !Contains(CleanWith(response, exact, lower), lower)
  {
    RFindSpec(response, exact);
    RFindSpec(response, lower);
    if Contains(response, exact) {
      var i := RFind(response, exact).value;
      CleanUsesLastExact(response, exact, lower, i);
      AnswerAfterLastHasNoMarker(response, exact, i);
    } else if Contains(response, lower) {
      var i := RFind(response, lower).value;
      CleanUsesLastLower(response, exact, lower, i);
      AnswerAfterLastHasNoMarker(response, lower, i);
    }
  }

  lemma CleanedHasNoMatchedMarker(response: string)
    ensures Contains(response, Tag) ==> !Contains(CleanReactOutput(response), Tag)
    ensures !Contains(response, Tag) && Contains(response, TagLower) ==> !Contains(CleanReactOutput(response), TagLower)
  {
    CleanedHasNoMarker(response, Tag, TagLower);
  }

  /** The exact marker has its only capital `A` at position 6, so an occurrence at `i` is the
      last one when no capital `A` follows its own. */
  lemma LastTag(s: string, i: nat)
    requires OccursAt(s, Tag, i)
    requires forall j :: i + 6 < j < |s| ==> s[j] != 'A'
    ensures forall j :: i < j ==> !OccursAt(s, Tag, j)
  {
    forall j | i < j
      ensures !OccursAt(s, Tag, j)
    {
      if j + |Tag| <= |s| {
        assert s[j..j + |Tag|][6] == s[j + 6];
      }
    }
  }

  lemma NoCapitalA(s: string)
    requires s == TagLower || s == " **Done**"
    ensures forall j :: 0 <= j < |s| ==> s[j] != 'A'
  {
  }

  lemma TagCapitals()
    ensures forall j :: 0 <= j < |Tag| && j != 6 ==> Tag[j] != 'A'
  {
  }

  /** After an exact marker, a lower-case one is ordinary answer text and is kept. */
  lemma CleanKeepsLaterLowerMarker()
    ensures CleanReactOutput(Tag + TagLower) == TagLower
  {
    var s := Tag + TagLower;
    assert s[..|Tag|] == Tag;
    NoCapitalA(TagLower);
    TagCapitals();
    forall j | 6 < j < |s|
      ensures s[j] != 'A'
    {
      if j < |Tag| {
        assert s[j] == Tag[j];
      } else {
        assert s[j] == TagLower[j - |Tag|];
      }
    }
    LastTag(s, 0);
    CleanUsesLastExactMarker(s, 0);
    assert s[|Tag|..] == TagLower;
    LowerTagEdges();
    TrimKeeps(TagLower);
    TrimCharKeeps(TagLower, '`');
  }

  lemma LowerTagEdges()
    ensures !IsWhitespace(TagLower[0]) && !IsWhitespace(TagLower[|TagLower| - 1])
    ensures TagLower[0] != '`' && TagLower[|TagLower| - 1] != '`'
    ensures TagLower[0] != Tag[0]
  {
  }

  /** A lone lower-case marker cleans to the empty answer. */
  lemma CleanLoneLowerMarker()
    ensures CleanReactOutput(TagLower) == ""
  {
    var once := TagLower;
    LowerTagEdges();
    ShortTextLacks(once, Tag);
    assert once[0..|TagLower|] == TagLower;
    CleanUsesLastLowerMarker(once, 0);
    assert once[|TagLower|..] == [];
    TrimKeeps([]);
    TrimCharKeeps([], '`');
  }

  /** Cleaning is not idempotent: an exact marker followed by a lower-case one leaves the
      lower-case marker in the answer, and a second cleaning cuts at it. */
  lemma CleanNotIdempotent()
    ensures CleanReactOutput(Tag + TagLower) == TagLower
    ensures CleanReactOutput(CleanReactOutput(Tag + TagLower)) == ""
  {
    CleanKeepsLaterLowerMarker();
    CleanLoneLowerMarker();
  }

  /** Markdown emphasis is not stripped: only backticks are. */
  /** The answer after " **Done**" keeps the emphasis markers. */
  lemma SpacedEmphasisAnswer()
    ensures AnswerAfter(" **Done**", 0) == "**Done**"
  {
    var done := "**Done**";
    assert " **Done**"[0..] == [' '] + done;
    TrimDropsLeading(' ', done);
    TrimCharKeeps(done, '`');
  }

  /** In the sample response below, the exact marker at the end of the first line is the last one. */
  lemma EmphasisSampleLastTag(s: string, i: nat)
    requires s == "Thought: x\n" + Tag + " **Done**" && i == |"Thought: x\n"|
    ensures OccursAt(s, Tag, i) && forall j :: i < j ==> !OccursAt(s, Tag, j)
  {
    var suffix := " **Done**";
    assert s[i..i + |Tag|] == Tag;
    NoCapitalA(suffix);
    TagCapitals();
    forall j | i + 6 < j < |s|
      ensures s[j] != 'A'
    {
      if j < i + |Tag| {
        assert s[j] == Tag[j - i];
      } else {
        assert s[j] == suffix[j - i - |Tag|];
      }
    }
    LastTag(s, i);
  }

  /** Markdown emphasis after the marker is kept: only backticks are stripped. */
  lemma CleanKeepsEmphasis()
    ensures CleanReactOutput("Thought: x\n" + Tag + " **Done**") == "**Done**"
  {
    var s := "Thought: x\n" + Tag + " **Done**";
    var i := |"Thought: x\n"|;
    EmphasisSampleLastTag(s, i);
    CleanUsesLastExactMarker(s, i);
    assert s[i + |Tag|..] == " **Done**"[0..];
    SpacedEmphasisAnswer();
  }

  // ----- preamble -----

  const ContextHeader := "\n\n### CONTEXTO (BASE DE DATOS):\n"
  const ContextFooter := "---\n"

  /** The line one retrieved fragment contributes. */
  function ContextLine(doc: HybridContext): string {
    "- \"" + Trim(doc.content) + "\"\n"
  }

  function ContextLines(docs: seq<HybridContext>): string {
    if docs == [] then "" else ContextLines(docs[..|docs| - 1]) + ContextLine(docs[|docs| - 1])
  }

  /** The context section: nothing at all without fragments. */
  function ContextBlock(docs: seq<HybridContext>): string {
    if docs == [] then "" else ContextHeader + ContextLines(docs) + ContextFooter
  }

  /** The preamble loop of `run_agent`: the agent's system prompt followed by the context. */
  method BuildPreamble(systemPrompt: string, docs: seq<HybridContext>) returns (preamble: string)
    ensures preamble == systemPrompt + ContextBlock(docs)
  {
    var context := "";
    if |docs| > 0 {
      var lines := "";
      var i := 0;
      while i < |docs|
        invariant 0 <= i <= |docs|
        invariant lines == ContextLines(docs[..i])
      {
        assert docs[..i + 1][..i] == docs[..i];
        lines := lines + ContextLine(docs[i]);
        i := i + 1;
      }
      assert docs[..i] == docs;
      context := ContextHeader + lines + ContextFooter;
    }
    preamble := systemPrompt + context;
  }

  /** Without fragments the preamble is the system prompt exactly; with any, it is longer. */
  lemma PreambleIsPromptIffNoContext(systemPrompt: string, docs: seq<HybridContext>)
    ensures systemPrompt + ContextBlock(docs) == systemPrompt <==> docs == []
  {
    if docs != [] {
      assert |systemPrompt + ContextBlock(docs)| > |systemPrompt|;
    }
  }

  /** The fragment lines come in retrieval order: the lines of a longer list extend those of
      any prefix of it. */
  lemma {:induction false} ContextLinesPrefix(docs: seq<HybridContext>, n: nat)
    requires n <= |docs|
    ensures ContextLines(docs[..n]) <= ContextLines(docs)
    decreases |docs|
  {
    if n < |docs| {
      var init := docs[..|docs| - 1];
      assert init[..n] == docs[..n];
      ContextLinesPrefix(init, n);
    } else {
      assert docs[..n] == docs;
    }
  }

  /** Fragment `i`'s line follows the lines of the fragments before it. */
  lemma ContextLineAt(docs: seq<HybridContext>, i: nat)
    requires i < |docs|
    ensures ContextLines(docs[..i]) + ContextLine(docs[i]) <= ContextLines(docs)
  {
    assert docs[..i + 1][..i] == docs[..i];
    ContextLinesPrefix(docs, i + 1);
  }

  // ----- tool slots -----

  /** The slots bound for the tools at positions below `n`: position i goes to slot i when the
      tool resolves and i is below the slot count; Cypher tools get the repository handle. */
  function Bindings(resolve: string -> Result<ToolDefinition, AppError>, ids: seq<string>, n: nat): seq<SlotBinding>
    requires n <= |ids|
  {
    if n == 0 then []
    else
      var i := n - 1;
      var earlier := Bindings(resolve, ids, i);
      if resolve(ids[i]).Ok? && i < Executor.SlotCount then
        var tool := resolve(ids[i]).value;
        earlier + [SlotBinding(i, tool, tool.implementation.Cypher?)]
      else earlier
  }

  /** The slot-binding loop of `run_agent`. */
  method BindSlots(resolve: string -> Result<ToolDefinition, AppError>, ids: seq<string>) returns (slots: seq<SlotBinding>)
    ensures slots == Bindings(resolve, ids, |ids|)
  {
    slots := [];
    var i := 0;
    while i < |ids|
      invariant 0 <= i <= |ids|
      invariant slots == Bindings(resolve, ids, i)
    {
      var found := resolve(ids[i]);
      if found.Ok? {
        var tool := found.value;
        var withRepository := tool.implementation.Cypher?;
        if i < Executor.SlotCount {
          slots := slots + [SlotBinding(i, tool, withRepository)];
        }
      }
      i := i + 1;
    }
  }

  /** Bound slots are below the slot count and strictly increasing, so no two tools share a
      slot and at most ten are bound. */
  lemma {:induction false} BindingsOrdered(resolve: string -> Result<ToolDefinition, AppError>, ids: seq<string>, n: nat)
    requires n <= |ids|
    ensures forall a :: 0 <= a < |Bindings(resolve, ids, n)| ==> Bindings(resolve, ids, n)[a].slot < n && Bindings(resolve, ids, n)[a].slot < Executor.SlotCount
    ensures forall a, b :: 0 <= a < b < |Bindings(resolve, ids, n)| ==> Bindings(resolve, ids, n)[a].slot < Bindings(resolve, ids, n)[b].slot
    ensures |Bindings(resolve, ids, n)| <= n && |Bindings(resolve, ids, n)| <= Executor.SlotCount
  {
    if n > 0 {
      BindingsOrdered(resolve, ids, n - 1);
    }
  }

  /** Slot i holds a tool exactly when position i exists, is below the slot count and its id
      resolves; it holds that tool, with the repository handle exactly for a Cypher tool. */
  lemma {:induction false} BindingAt(resolve: string -> Result<ToolDefinition, AppError>, ids: seq<string>, n: nat, i: nat)
    requires n <= |ids|
    ensures (exists a :: 0 <= a < |Bindings(resolve, ids, n)| && Bindings(resolve, ids, n)[a].slot == i)
      <==> i < n && i < Executor.SlotCount && resolve(ids[i]).Ok?
    ensures forall a :: 0 <= a < |Bindings(resolve, ids, n)| && Bindings(resolve, ids, n)[a].slot == i ==>
      Bindings(resolve, ids, n)[a].tool == resolve(ids[i]).value
      && (Bindings(resolve, ids, n)[a].withRepository <==> resolve(ids[i]).value.implementation.Cypher?)
  {
    if n > 0 {
      BindingAt(resolve, ids, n - 1, i);
      BindingsOrdered(resolve, ids, n - 1);
      var earlier := Bindings(resolve, ids, n - 1);
      var all := Bindings(resolve, ids, n);
      assert all[..|earlier|] == earlier;
      if i < n - 1 && i < Executor.SlotCount && resolve(ids[i]).Ok? {
        var a :| 0 <= a < |earlier| && earlier[a].slot == i;
        assert all[a] == earlier[a];
      } else if i == n - 1 && i < Executor.SlotCount && resolve(ids[i]).Ok? {
        assert all[|earlier|].slot == i;
      }
      forall a | 0 <= a < |all| && all[a].slot == i
        ensures i < n && i < Executor.SlotCount && resolve(ids[i]).Ok?
        ensures all[a].tool == resolve(ids[i]).value
        ensures all[a].withRepository <==> resolve(ids[i]).value.implementation.Cypher?
      {
        if a < |earlier| {
          assert all[a] == earlier[a];
        }
      }
    }
  }

  // ----- the turn -----

  const RetrievalLimit := 3
  const HistoryLimit := 10

  /** Everything a turn reads besides the backend: the agent files and the AI configuration. */
  datatype Setup = Setup(
    repo: AgentRepo.FileAgentRepository,
    fs: AgentRepo.FileSystem,
    parseAgent: string -> Result<AgentConfig, string>,
    parseTool: string -> Result<ToolDefinition, string>,
    aiConfig: AIConfig)

  function LoadAgent(setup: Setup, id: string): Result<AgentConfig, AppError> {
    AgentRepo.GetAgent(setup.repo, setup.fs, setup.parseAgent, id)
  }

  function ResolveTool(setup: Setup): string -> Result<ToolDefinition, AppError> {
    id => AgentRepo.GetTool(setup.repo, setup.fs, setup.parseTool, id)
  }

  /** The model an agent runs on: its own override, else the configured default. */
  function ModelFor(agent: AgentConfig, config: AIConfig): (model: string)
    ensures agent.model.Some? ==> model == agent.model.value
    ensures agent.model.None? ==> model == config.modelName
  {
    agent.model.GetOr(config.modelName)
  }

  /** The agent `run_agent` builds before it reads the history: its client, its model, its
      preamble and its bound tool slots. */
  datatype AgentCall = AgentCall(client: LlmClient, model: string, preamble: string, slots: seq<SlotBinding>)

  /** The client of an agent turn: `openai::Client::new` with the configured key only, so the
      library's OpenAI endpoint whatever provider and base URL are configured. */
  function AgentClient(config: AIConfig): LlmClient {
    LlmClient(OpenAiApiBase, config.apiKey)
  }

  /** The agent built for a turn: the OpenAI client with the configured key, the agent's own
      model or the configured one, its system prompt followed by the retrieved context, and the
      tools that resolve, in slots. */
  function Prepare(setup: Setup, agent: AgentConfig, docs: seq<HybridContext>): AgentCall {
    AgentCall(AgentClient(setup.aiConfig), ModelFor(agent, setup.aiConfig), agent.systemPrompt + ContextBlock(docs),
      Bindings(ResolveTool(setup), agent.tools, |agent.tools|))
  }

  /** The agent's client sends to the OpenAI endpoint with the configured key, and changing the
      configured provider or base URL does not change it. */
  lemma AgentClientIgnoresEndpointConfig(config: AIConfig, provider: AIProvider, baseUrl: Option<string>)
    ensures AgentClient(config).baseUrl == OpenAiApiBase && AgentClient(config).apiKey == config.apiKey
    ensures AgentClient(config.(provider := provider, baseUrl := baseUrl)) == AgentClient(config)
  {
  }

  /** The LLM call of a turn: the built agent, the stored history and the user's message. */
  function ChatCall(built: AgentCall, req: AgentChatRequest, history: seq<ChatMessage>): Effect {
    Effect.AgentChat(built.client, built.model, built.preamble, built.slots, history, req.message)
  }

  /** The calls a turn (or the rest of one) makes on the backend, in order, and what it
      returns. */
  datatype Steps = Steps(calls: seq<Effect>, result: Result<AgentChatResponse, AppError>)

  /** The call `e` followed by the rest of the turn. */
  function Then(e: Effect, rest: Steps): Steps {
    Steps([e] + rest.calls, rest.result)
  }

  /** How `run_agent` builds its agent from the retrieved context. */
  function Builder(setup: Setup, agent: AgentConfig): seq<HybridContext> -> AgentCall {
    docs => Prepare(setup, agent, docs)
  }

  /** One turn, with `n` calls already in the backend's log: an agent that does not load ends
      it at once, otherwise it is the agent's turn. */
  function Turn(store: Backend, n: nat, setup: Setup, username: string, req: AgentChatRequest): Steps {
    match LoadAgent(setup, req.agentId)
    case Err(e) => Steps([], Err(e))
    case Ok(agent) => AgentTurn(store, n, username, req, Builder(setup, agent))
  }

  /** The turn of a loaded agent, which `build` makes from the retrieved context. This and
      each stage below is the rest of the turn from one call on: it makes its call, and a
      failing call ends the turn. A call's fault is looked up by its position in the log, as
      `Backend` does. */
  function AgentTurn(store: Backend, n: nat, username: string, req: AgentChatRequest,
                     build: seq<HybridContext> -> AgentCall): Steps
  {
    var save := Effect.SaveChatMessage(username, req.agentId, UserMessage, req.message);
    if store.fault(n, save).Some? then Steps([save], Err(store.fault(n, save).value))
    else Then(save, EmbedStage(store, n + 1, username, req, build))
  }

  function EmbedStage(store: Backend, n: nat, username: string, req: AgentChatRequest,
                      build: seq<HybridContext> -> AgentCall): Steps
  {
    var call := Effect.GenerateEmbedding(req.message);
    match store.embed(req.message)
    case Err(e) => Steps([call], Err(e))
    case Ok(embedding) => Then(call, RetrieveStage(store, n + 1, username, req, build, embedding))
  }

  function RetrieveStage(store: Backend, n: nat, username: string, req: AgentChatRequest,
                         build: seq<HybridContext> -> AgentCall, embedding: Embedding): Steps
  {
    var call := Effect.FindHybridContext(RetrievalLimit);
    match store.retrieve(embedding, RetrievalLimit)
    case Err(e) => Steps([call], Err(e))
    case Ok(docs) => Then(call, HistoryStage(store, n + 1, username, req, build(docs)))
  }

  function HistoryStage(store: Backend, n: nat, username: string, req: AgentChatRequest, built: AgentCall): Steps {
    var call := Effect.GetConversationHistory(username, req.agentId, HistoryLimit);
    match store.recall(username, req.agentId, HistoryLimit)
    case Err(e) => Steps([call], Err(e))
    case Ok(history) => Then(call, ChatStage(store, n + 1, username, req, built, history))
  }

  function ChatStage(store: Backend, n: nat, username: string, req: AgentChatRequest, built: AgentCall,
                     history: seq<ChatMessage>): Steps
  {
    var chat := ChatCall(built, req, history);
    match store.complete(chat)
    case Err(msg) => Steps([chat], Err(AIError("Agent execution failed: " + msg)))
    case Ok(raw) => Then(chat, SaveAnswerStage(store, n + 1, username, req, CleanReactOutput(raw)))
  }

  function SaveAnswerStage(store: Backend, n: nat, username: string, req: AgentChatRequest, answer: string): Steps {
    var save := Effect.SaveChatMessage(username, req.agentId, AssistantMessage, answer);
    if store.fault(n, save).Some? then Steps([save], Err(store.fault(n, save).value))
    else Steps([save], Ok(AgentChatResponse(answer, [])))
  }

  /** A turn whose agent loads is that agent's turn, with the agent built by `Prepare`. */
  lemma TurnOfLoadedAgent(store: Backend, n: nat, setup: Setup, username: string, req: AgentChatRequest)
    requires LoadAgent(setup, req.agentId).Ok?
    ensures var agent := LoadAgent(setup, req.agentId).value;
      Turn(store, n, setup, username, req) == AgentTurn(store, n, username, req, Builder(setup, agent))
      && forall docs :: Builder(setup, agent)(docs) == Prepare(setup, agent, docs)
  {
  }

  /** An agent that does not load fails the turn before anything reaches the backend. */
  lemma UnknownAgentTouchesNothing(store: Backend, n: nat, setup: Setup, username: string, req: AgentChatRequest)
    requires LoadAgent(setup, req.agentId).Err?
    ensures Turn(store, n, setup, username, req) == Steps([], Err(LoadAgent(setup, req.agentId).error))
  {
  }

  /** An agent's turn, case by case: it stops at the first call that fails, and once the
      retrieval succeeds the rest of it is the history stage with the built agent. */
  lemma TurnCases(store: Backend, n: nat, username: string, req: AgentChatRequest, build: seq<HybridContext> -> AgentCall)
    ensures var save := Effect.SaveChatMessage(username, req.agentId, UserMessage, req.message);
      var out := AgentTurn(store, n, username, req, build);
      (store.fault(n, save).Some? ==> out == Steps([save], Err(store.fault(n, save).value)))
      && (store.fault(n, save).None? && store.embed(req.message).Err? ==>
            out == Steps([save] + [Effect.GenerateEmbedding(req.message)], Err(store.embed(req.message).error)))
      && (store.fault(n, save).None? && store.embed(req.message).Ok? ==>
            var docs := store.retrieve(store.embed(req.message).value, RetrievalLimit);
            var prefix := [save] + [Effect.GenerateEmbedding(req.message)] + [Effect.FindHybridContext(RetrievalLimit)];
            (docs.Err? ==> out == Steps(prefix, Err(docs.error)))
            && (docs.Ok? ==> var h := HistoryStage(store, n + 3, username, req, build(docs.value));
                             out == Steps(prefix + h.calls, h.result)))
  {
    var save := Effect.SaveChatMessage(username, req.agentId, UserMessage, req.message);
    var embed := Effect.GenerateEmbedding(req.message);
    var find := Effect.FindHybridContext(RetrievalLimit);
    if store.fault(n, save).None? && store.embed(req.message).Ok? {
      var docs := store.retrieve(store.embed(req.message).value, RetrievalLimit);
      var s3 := RetrieveStage(store, n + 2, username, req, build, store.embed(req.message).value);
      assert AgentTurn(store, n, username, req, build).calls == [save] + ([embed] + s3.calls);
      AppendAssoc([save], [embed], s3.calls);
      if docs.Ok? {
        var h := HistoryStage(store, n + 3, username, req, build(docs.value));
        assert s3.calls == [find] + h.calls;
        AppendAssoc([save] + [embed], [find], h.calls);
      }
    }
  }

  lemma AppendAssoc<T>(a: seq<T>, b: seq<T>, c: seq<T>)
    ensures (a + b) + c == a + (b + c)
  {
  }

  /** `run_agent`: load the agent, save the question, embed it, retrieve the context and build
      the agent; the rest of the turn is `Answer`. */
  method RunAgent(store: Backend, setup: Setup, username: string, req: AgentChatRequest) returns (r: Result<AgentChatResponse, AppError>)
    modifies store
    ensures store.trace == old(store.trace) + Turn(store, |old(store.trace)|, setup, username, req).calls
    ensures r == Turn(store, |old(store.trace)|, setup, username, req).result
    ensures store.users == old(store.users)
  {
    ghost var t0 := store.trace;
    var agentResult := LoadAgent(setup, req.agentId);
    if agentResult.Err? {
      return Err(agentResult.error);
    }
    var agent := agentResult.value;
    ghost var build := Builder(setup, agent);
    TurnOfLoadedAgent(store, |t0|, setup, username, req);
    TurnCases(store, |t0|, username, req, build);
    ghost var save := Effect.SaveChatMessage(username, req.agentId, UserMessage, req.message);
    ghost var embed := Effect.GenerateEmbedding(req.message);
    ghost var find := Effect.FindHybridContext(RetrievalLimit);
    var saved := store.SaveChatMessage(username, req.agentId, UserMessage, req.message);
    if saved.Err? {
      return Err(saved.error);
    }
    var embedding := store.GenerateEmbedding(req.message);
    AppendAssoc(t0, [save], [embed]);
    if embedding.Err? {
      return Err(embedding.error);
    }
    var docs := store.FindHybridContext(embedding.value, RetrievalLimit);
    ghost var prefix := [save] + [embed] + [find];
    AppendAssoc(t0, [save] + [embed], [find]);
    if docs.Err? {
      return Err(docs.error);
    }
    ghost var t3 := store.trace;
    assert t3 == t0 + prefix && |t3| == |t0| + 3;
    var built := BuildAgent(setup, agent, docs.value);
    assert built == build(docs.value);
    ghost var h := HistoryStage(store, |t0| + 3, username, req, built);
    r := Answer(store, username, req, built);
    assert store.trace == t3 + h.calls && r == h.result;
    AppendAssoc(t0, prefix, h.calls);
  }

  /** The middle of `run_agent`: the preamble loop, the client, the model choice and the
      slot-binding loop. */
  method BuildAgent(setup: Setup, agent: AgentConfig, docs: seq<HybridContext>) returns (built: AgentCall)
    ensures built == Prepare(setup, agent, docs)
  {
    var preamble := BuildPreamble(agent.systemPrompt, docs);
    var client := LlmClient(OpenAiApiBase, setup.aiConfig.apiKey);
    var model := ModelFor(agent, setup.aiConfig);
    var slots := BindSlots(ResolveTool(setup), agent.tools);
    built := AgentCall(client, model, preamble, slots);
  }

  /** The second half of `run_agent`: read the conversation history, then hand over to
      `AskModel`. */
  method Answer(store: Backend, username: string, req: AgentChatRequest, built: AgentCall)
    returns (r: Result<AgentChatResponse, AppError>)
    modifies store
    ensures store.trace == old(store.trace) + HistoryStage(store, |old(store.trace)|, username, req, built).calls
    ensures r == HistoryStage(store, |old(store.trace)|, username, req, built).result
    ensures store.users == old(store.users)
  {
    ghost var t0 := store.trace;
    ghost var recallCall := Effect.GetConversationHistory(username, req.agentId, HistoryLimit);
    var history := store.GetConversationHistory(username, req.agentId, HistoryLimit);
    if history.Err? {
      return Err(history.error);
    }
    ghost var rest := ChatStage(store, |t0| + 1, username, req, built, history.value);
    assert HistoryStage(store, |t0|, username, req, built) == Then(recallCall, rest);
    r := AskModel(store, username, req, built, history.value);
    AppendAssoc(t0, [recallCall], rest.calls);
  }

  /** Ask the built agent with the history and the user's message, then save its cleaned
      answer. */
  method AskModel(store: Backend, username: string, req: AgentChatRequest, built: AgentCall, history: seq<ChatMessage>)
    returns (r: Result<AgentChatResponse, AppError>)
    modifies store
    ensures store.trace == old(store.trace) + ChatStage(store, |old(store.trace)|, username, req, built, history).calls
    ensures r == ChatStage(store, |old(store.trace)|, username, req, built, history).result
    ensures store.users == old(store.users)
  {
    ghost var t0 := store.trace;
    ghost var chat := ChatCall(built, req, history);
    var raw := store.AgentChat(built.client, built.model, built.preamble, built.slots, history, req.message);
    if raw.Err? {
      return Err(AIError("Agent execution failed: " + raw.error));
    }
    ghost var rest := SaveAnswerStage(store, |t0| + 1, username, req, CleanReactOutput(raw.value));
    assert ChatStage(store, |t0|, username, req, built, history) == Then(chat, rest);
    r := SaveAnswer(store, username, req, raw.value);
    AppendAssoc(t0, [chat], rest.calls);
  }

  /** The end of `run_agent`: clean the LLM's answer, save it as the assistant's message and
      return it. */
  method SaveAnswer(store: Backend, username: string, req: AgentChatRequest, raw: string) returns (r: Result<AgentChatResponse, AppError>)
    modifies store
    ensures store.trace == old(store.trace) + SaveAnswerStage(store, |old(store.trace)|, username, req, CleanReactOutput(raw)).calls
    ensures r == SaveAnswerStage(store, |old(store.trace)|, username, req, CleanReactOutput(raw)).result
    ensures store.users == old(store.users)
  {
    var answer := CleanReactOutput(raw);
    var saved := store.SaveChatMessage(username, req.agentId, AssistantMessage, answer);
    if saved.Err? {
      return Err(saved.error);
    }
    r := Ok(AgentChatResponse(answer, []));
  }

  /** The first three calls of an agent's turn: the question is saved, embedded and used to
      retrieve context, each only after the one before succeeded; once the retrieval succeeds,
      the rest of the turn is the history stage with the built agent. */
  lemma TurnReachesHistory(store: Backend, n: nat, username: string, req: AgentChatRequest, build: seq<HybridContext> -> AgentCall)
    ensures var out := AgentTurn(store, n, username, req, build); var c := out.calls;
      1 <= |c| && c[0] == Effect.SaveChatMessage(username, req.agentId, UserMessage, req.message)
      && (|c| > 1 ==> store.fault(n, c[0]).None? && c[1] == Effect.GenerateEmbedding(req.message))
      && (|c| > 2 ==> store.embed(req.message).Ok? && c[2] == Effect.FindHybridContext(RetrievalLimit))
      && (|c| > 3 ==> store.retrieve(store.embed(req.message).value, RetrievalLimit).Ok?)
      && (|c| > 3 ==> var h := HistoryStage(store, n + 3, username, req,
                                            build(store.retrieve(store.embed(req.message).value, RetrievalLimit).value));
                      c[3..] == h.calls && out.result == h.result)
  {
    var c := AgentTurn(store, n, username, req, build).calls;
    var save := Effect.SaveChatMessage(username, req.agentId, UserMessage, req.message);
    var embed := Effect.GenerateEmbedding(req.message);
    var find := Effect.FindHybridContext(RetrievalLimit);
    if store.fault(n, save).None? && store.embed(req.message).Ok? {
      var docs := store.retrieve(store.embed(req.message).value, RetrievalLimit);
      var s3 := RetrieveStage(store, n + 2, username, req, build, store.embed(req.message).value);
      assert c == [save] + ([embed] + s3.calls);
      if docs.Ok? {
        var s4 := HistoryStage(store, n + 3, username, req, build(docs.value));
        assert s3.calls == [find] + s4.calls;
        assert c == [save, embed, find] + s4.calls;
      }
    }
  }

  /** The last three calls of a turn: the history is read, the LLM is asked with the agent's
      model, prompt plus context, tool slots, that history and the user's message, and its
      cleaned answer is saved, each only after the one before succeeded. */
  lemma HistoryOrder(store: Backend, n: nat, username: string, req: AgentChatRequest, built: AgentCall)
    ensures var h := HistoryStage(store, n, username, req, built).calls;
      1 <= |h| <= 3 && h[0] == Effect.GetConversationHistory(username, req.agentId, HistoryLimit)
      && (|h| > 1 ==> store.recall(username, req.agentId, HistoryLimit).Ok?
                      && h[1] == ChatCall(built, req, store.recall(username, req.agentId, HistoryLimit).value))
      && (|h| > 2 ==> store.complete(h[1]).Ok?
                      && h[2] == Effect.SaveChatMessage(username, req.agentId, AssistantMessage,
                                                        CleanReactOutput(store.complete(h[1]).value)))
  {
    var history := store.recall(username, req.agentId, HistoryLimit);
    if history.Ok? {
      var chat := ChatCall(built, req, history.value);
      var s5 := ChatStage(store, n + 1, username, req, built, history.value);
      assert HistoryStage(store, n, username, req, built).calls
          == [Effect.GetConversationHistory(username, req.agentId, HistoryLimit)] + s5.calls;
      if store.complete(chat).Ok? {
        assert s5.calls == [chat, Effect.SaveChatMessage(username, req.agentId, AssistantMessage,
                                                         CleanReactOutput(store.complete(chat).value))];
      }
    }
  }

  /** The calls of an agent's turn, in order: the user's message is saved, then embedded, then
      context is retrieved with k = 3, the last 10 messages are read, the LLM is asked with the
      agent built from that context, and its cleaned answer is saved. Each call is made only
      when the one before it succeeded. */
  lemma TurnOrder(store: Backend, n: nat, username: string, req: AgentChatRequest, build: seq<HybridContext> -> AgentCall)
    ensures var c := AgentTurn(store, n, username, req, build).calls;
      1 <= |c| <= 6
      && c[0] == Effect.SaveChatMessage(username, req.agentId, UserMessage, req.message)
      && (|c| > 1 ==> store.fault(n, c[0]).None? && c[1] == Effect.GenerateEmbedding(req.message))
      && (|c| > 2 ==> store.embed(req.message).Ok? && c[2] == Effect.FindHybridContext(RetrievalLimit))
      && (|c| > 3 ==> store.retrieve(store.embed(req.message).value, RetrievalLimit).Ok?
                      && c[3] == Effect.GetConversationHistory(username, req.agentId, HistoryLimit))
      && (|c| > 4 ==> store.recall(username, req.agentId, HistoryLimit).Ok?
                      && c[4] == ChatCall(build(store.retrieve(store.embed(req.message).value, RetrievalLimit).value),
                                          req, store.recall(username, req.agentId, HistoryLimit).value))
      && (|c| > 5 ==> store.complete(c[4]).Ok?
                      && c[5] == Effect.SaveChatMessage(username, req.agentId, AssistantMessage,
                                                        CleanReactOutput(store.complete(c[4]).value)))
  {
    var c := AgentTurn(store, n, username, req, build).calls;
    TurnReachesHistory(store, n, username, req, build);
    if |c| > 3 {
      var docs := store.retrieve(store.embed(req.message).value, RetrievalLimit).value;
      var h := HistoryStage(store, n + 3, username, req, build(docs)).calls;
      HistoryOrder(store, n + 3, username, req, build(docs));
      assert c[3..] == h;
      assert c[3] == h[0];
      assert |c| > 4 ==> c[4] == h[1];
      assert |c| > 5 ==> c[5] == h[2];
    }
  }

  /** An agent's turn that stops within its first three calls ends with the error of the call
      that failed: the question's save, the embedding or the retrieval. */
  lemma TurnEarlyFailure(store: Backend, n: nat, username: string, req: AgentChatRequest, build: seq<HybridContext> -> AgentCall)
    ensures var out := AgentTurn(store, n, username, req, build); var c := out.calls;
      (|c| == 1 ==> store.fault(n, c[0]).Some? && out.result == Err(store.fault(n, c[0]).value))
      && (|c| == 2 ==> store.embed(req.message).Err? && out.result == Err(store.embed(req.message).error))
      && (|c| == 3 ==> store.embed(req.message).Ok?
                       && store.retrieve(store.embed(req.message).value, RetrievalLimit).Err?
                       && out.result == Err(store.retrieve(store.embed(req.message).value, RetrievalLimit).error))
  {
    var out := AgentTurn(store, n, username, req, build);
    TurnOrder(store, n, username, req, build);
    var save := Effect.SaveChatMessage(username, req.agentId, UserMessage, req.message);
    if store.fault(n, save).None? && store.embed(req.message).Ok? {
      var docs := store.retrieve(store.embed(req.message).value, RetrievalLimit);
      if docs.Ok? {
        assert |HistoryStage(store, n + 3, username, req, build(docs.value)).calls| >= 1;
      }
    }
  }

  /** An agent's turn that stops at the history or the chat ends with that call's error, the
      chat's error wrapped as an AI error. */
  lemma TurnLateFailure(store: Backend, n: nat, username: string, req: AgentChatRequest, build: seq<HybridContext> -> AgentCall)
    ensures var out := AgentTurn(store, n, username, req, build); var c := out.calls;
      (|c| == 4 ==> store.recall(username, req.agentId, HistoryLimit).Err?
                    && out.result == Err(store.recall(username, req.agentId, HistoryLimit).error))
      && (|c| == 5 ==> store.complete(c[4]).Err?
                       && out.result == Err(AIError("Agent execution failed: " + store.complete(c[4]).error)))
  {
    var out := AgentTurn(store, n, username, req, build);
    TurnOrder(store, n, username, req, build);
    if |out.calls| == 4 || |out.calls| == 5 {
      var built := build(store.retrieve(store.embed(req.message).value, RetrievalLimit).value);
      var history := store.recall(username, req.agentId, HistoryLimit);
      assert out.result == HistoryStage(store, n + 3, username, req, built).result;
      if history.Ok? {
        assert out.result == ChatStage(store, n + 4, username, req, built, history.value).result;
      }
    }
  }

  /** An agent's turn succeeds exactly when its last call, the answer's save, does; it then
      answers with the saved text and no used tools. */
  lemma TurnSuccess(store: Backend, n: nat, username: string, req: AgentChatRequest, build: seq<HybridContext> -> AgentCall)
    ensures var out := AgentTurn(store, n, username, req, build); var c := out.calls;
      (|c| == 6 ==> (out.result.Ok? <==> store.fault(n + 5, c[5]).None?))
      && (|c| == 6 && out.result.Err? ==> out.result.error == store.fault(n + 5, c[5]).value)
      && (out.result.Ok? ==> |c| == 6 && c[5].SaveChatMessage?
                             && out.result.value == AgentChatResponse(c[5].content, []))
  {
    var out := AgentTurn(store, n, username, req, build);
    TurnOrder(store, n, username, req, build);
    TurnEarlyFailure(store, n, username, req, build);
    TurnLateFailure(store, n, username, req, build);
    if |out.calls| == 6 {
      var built := build(store.retrieve(store.embed(req.message).value, RetrievalLimit).value);
      var history := store.recall(username, req.agentId, HistoryLimit).value;
      var chat := ChatCall(built, req, history);
      var answer := CleanReactOutput(store.complete(chat).value);
      assert out.result == SaveAnswerStage(store, n + 5, username, req, answer).result;
    }
  }

  /** The assistant's message is saved only as the last call of a turn whose chat succeeded,
      and it is the cleaned chat answer. */
  lemma AnswerSavedOnlyAfterChat(store: Backend, n: nat, setup: Setup, username: string, req: AgentChatRequest)
    ensures var c := Turn(store, n, setup, username, req).calls;
      forall j :: 0 <= j < |c| && c[j].SaveChatMessage? && c[j].role == AssistantMessage ==>
        j == 5 && c[4].AgentChat? && store.complete(c[4]).Ok?
        && c[j].content == CleanReactOutput(store.complete(c[4]).value)
  {
    var c := Turn(store, n, setup, username, req).calls;
    if LoadAgent(setup, req.agentId).Ok? {
      var build := Builder(setup, LoadAgent(setup, req.agentId).value);
      assert c == AgentTurn(store, n, username, req, build).calls;
      TurnOrder(store, n, username, req, build);
      forall j | 0 <= j < |c| && c[j].SaveChatMessage? && c[j].role == AssistantMessage
        ensures j == 5
      {
        assert j != 0;
        assert j != 1 && j != 2 && j != 3 && j != 4;
      }
    } else {
      UnknownAgentTouchesNothing(store, n, setup, username, req);
    }
  }
}
