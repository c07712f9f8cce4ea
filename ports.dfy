/**
 * The collaborators behind the `KGRepository` and `AIService` ports (src/domain/ports.rs), as
 * one stub object. It records every call it receives, in order, in `trace`; it keeps the user
 * table that the user handlers change; and it answers every other call from oracle functions
 * fixed when it is built. `fault(n, e)` says whether the n-th call, `e`, fails, so a test of the
 * callers can make any call at any point fail.
 */
module Ports {
  import opened Wrappers
  import opened Errors
  import opened Models

  /** An embedding vector. The floats are never computed with, so each is kept as an opaque
      integer (its bit pattern). */
  type Embedding = seq<int>

  /** A tool placed in one of the agent's numbered slots; `withRepository` says whether the slot
      was given the graph repository handle. */
  datatype SlotBinding = SlotBinding(slot: nat, tool: ToolDefinition, withRepository: bool)

  /** The LLM client a call goes through: the endpoint it sends to and the key it sends. */
  datatype LlmClient = LlmClient(baseUrl: string, apiKey: string)

  /** The endpoint of the rig library's `openai::Client::new`, which takes only a key. */
  const OpenAiApiBase := "https://api.openai.com/v1"

  /** One call into the repository or the AI service. */
  datatype Effect =
    | SaveChatMessage(username: string, agentId: string, role: MessageRole, content: string)
    | GenerateEmbedding(text: string)
    | FindHybridContext(limit: nat)
    | GetConversationHistory(username: string, agentId: string, limit: nat)
    | AgentChat(client: LlmClient, model: string, preamble: string, slots: seq<SlotBinding>, history: seq<ChatMessage>, message: string)
    | Prompt(client: LlmClient, model: string, preamble: string, message: string)
    | ResetDatabase
    | CreateIndexes(dim: nat)
    | GetUserByUsername(username: string)
    | CreateUser(user: UserRecord)
    | DeleteUser(username: string)
    | ListUsers

  /** The usernames stored, in order. */
  function Usernames(users: seq<UserRecord>): (r: seq<string>)
    ensures |r| == |users| && forall i :: 0 <= i < |users| ==> r[i] == users[i].username
  {
    if users == [] then [] else [users[0].username] + Usernames(users[1..])
  }

  /** The first stored user with the given name. */
  function FindUser(users: seq<UserRecord>, username: string): (r: Option<UserRecord>)
    ensures r.Some? <==> username in Usernames(users)
    ensures r.Some? ==> r.value in users && r.value.username == username
  {
    if users == [] then None
    else if users[0].username == username then Some(users[0])
    else FindUser(users[1..], username)
  }

  /** The table without the users of the given name, the rest in order. */
  function WithoutUser(users: seq<UserRecord>, username: string): (r: seq<UserRecord>)
    ensures username !in Usernames(r)
    ensures forall u :: u in r <==> u in users && u.username != username
  {
    if users == [] then []
    else if users[0].username == username then WithoutUser(users[1..], username)
    else [users[0]] + WithoutUser(users[1..], username)
  }

  function Outcome(err: Option<AppError>): Result<(), AppError> {
    match err
    case None => Ok(())
    case Some(e) => Err(e)
  }

  class Backend {
    /** Every call received, in order. */
    var trace: seq<Effect>
    /** The stored users. */
    var users: seq<UserRecord>

    const fault: (nat, Effect) -> Option<AppError>
    const embed: string -> Result<Embedding, AppError>
    const retrieve: (Embedding, nat) -> Result<seq<HybridContext>, AppError>
    const recall: (string, string, nat) -> Result<seq<ChatMessage>, AppError>
    const complete: Effect -> Result<string, string>

    constructor (users0: seq<UserRecord>, fault: (nat, Effect) -> Option<AppError>,
                 embed: string -> Result<Embedding, AppError>,
                 retrieve: (Embedding, nat) -> Result<seq<HybridContext>, AppError>,
                 recall: (string, string, nat) -> Result<seq<ChatMessage>, AppError>,
                 complete: Effect -> Result<string, string>)
      ensures trace == [] && users == users0
      ensures this.fault == fault && this.embed == embed && this.retrieve == retrieve
      ensures this.recall == recall && this.complete == complete
    {
      trace := [];
      users := users0;
      this.fault := fault;
      this.embed := embed;
      this.retrieve := retrieve;
      this.recall := recall;
      this.complete := complete;
    }

    /** A call that only succeeds or fails. */
    method Command(e: Effect) returns (r: Result<(), AppError>)
      modifies this
      ensures trace == old(trace) + [e] && users == old(users)
      ensures r == Outcome(fault(|old(trace)|, e))
    {
      r := Outcome(fault(|trace|, e));
      trace := trace + [e];
    }

    method SaveChatMessage(username: string, agentId: string, role: MessageRole, content: string) returns (r: Result<(), AppError>)
      modifies this
      ensures trace == old(trace) + [Effect.SaveChatMessage(username, agentId, role, content)] && users == old(users)
      ensures r == Outcome(fault(|old(trace)|, Effect.SaveChatMessage(username, agentId, role, content)))
    {
      r := Command(Effect.SaveChatMessage(username, agentId, role, content));
    }

    method GenerateEmbedding(text: string) returns (r: Result<Embedding, AppError>)
      modifies this
      ensures trace == old(trace) + [Effect.GenerateEmbedding(text)] && users == old(users)
      ensures r == embed(text)
    {
      r := embed(text);
      trace := trace + [Effect.GenerateEmbedding(text)];
    }

    method FindHybridContext(embedding: Embedding, limit: nat) returns (r: Result<seq<HybridContext>, AppError>)
      modifies this
      ensures trace == old(trace) + [Effect.FindHybridContext(limit)] && users == old(users)
      ensures r == retrieve(embedding, limit)
    {
      r := retrieve(embedding, limit);
      trace := trace + [Effect.FindHybridContext(limit)];
    }

    method GetConversationHistory(username: string, agentId: string, limit: nat) returns (r: Result<seq<ChatMessage>, AppError>)
      modifies this
      ensures trace == old(trace) + [Effect.GetConversationHistory(username, agentId, limit)] && users == old(users)
      ensures r == recall(username, agentId, limit)
    {
      r := recall(username, agentId, limit);
      trace := trace + [Effect.GetConversationHistory(username, agentId, limit)];
    }

    /** The LLM round trip of an agent through `client`: the provider's error text on failure. */
    method AgentChat(client: LlmClient, model: string, preamble: string, slots: seq<SlotBinding>, history: seq<ChatMessage>, message: string)
      returns (r: Result<string, string>)
      modifies this
      ensures trace == old(trace) + [Effect.AgentChat(client, model, preamble, slots, history, message)] && users == old(users)
      ensures r == complete(Effect.AgentChat(client, model, preamble, slots, history, message))
    {
      var e := Effect.AgentChat(client, model, preamble, slots, history, message);
      r := complete(e);
      trace := trace + [e];
    }

    /** A one-shot LLM prompt through `client`: the provider's error text on failure. */
    method Prompt(client: LlmClient, model: string, preamble: string, message: string) returns (r: Result<string, string>)
      modifies this
      ensures trace == old(trace) + [Effect.Prompt(client, model, preamble, message)] && users == old(users)
      ensures r == complete(Effect.Prompt(client, model, preamble, message))
    {
      var e := Effect.Prompt(client, model, preamble, message);
      r := complete(e);
      trace := trace + [e];
    }

    method GetUserByUsername(username: string) returns (r: Result<Option<UserRecord>, AppError>)
      modifies this
      ensures trace == old(trace) + [Effect.GetUserByUsername(username)] && users == old(users)
      ensures fault(|old(trace)|, Effect.GetUserByUsername(username)).Some? ==>
                r == Err(fault(|old(trace)|, Effect.GetUserByUsername(username)).value)
      ensures fault(|old(trace)|, Effect.GetUserByUsername(username)).None? ==> r == Ok(FindUser(users, username))
    {
      var e := Effect.GetUserByUsername(username);
      var err := fault(|trace|, e);
      r := if err.Some? then Err(err.value) else Ok(FindUser(users, username));
      trace := trace + [e];
    }

    method CreateUser(user: UserRecord) returns (r: Result<(), AppError>)
      modifies this
      ensures trace == old(trace) + [Effect.CreateUser(user)]
      ensures r == Outcome(fault(|old(trace)|, Effect.CreateUser(user)))
      ensures users == if r.Ok? then old(users) + [user] else old(users)
    {
      r := Command(Effect.CreateUser(user));
      if r.Ok? {
        users := users + [user];
      }
    }

    method DeleteUser(username: string) returns (r: Result<(), AppError>)
      modifies this
      ensures trace == old(trace) + [Effect.DeleteUser(username)]
      ensures r == Outcome(fault(|old(trace)|, Effect.DeleteUser(username)))
      ensures users == if r.Ok? then WithoutUser(old(users), username) else old(users)
    {
      r := Command(Effect.DeleteUser(username));
      if r.Ok? {
        users := WithoutUser(users, username);
      }
    }

    method ListUsers() returns (r: Result<seq<UserRecord>, AppError>)
      modifies this
      ensures trace == old(trace) + [Effect.ListUsers] && users == old(users)
      ensures r == if fault(|old(trace)|, Effect.ListUsers).Some? then Err(fault(|old(trace)|, Effect.ListUsers).value) else Ok(users)
    {
      var err := fault(|trace|, Effect.ListUsers);
      r := if err.Some? then Err(err.value) else Ok(users);
      trace := trace + [Effect.ListUsers];
    }
  }
}
