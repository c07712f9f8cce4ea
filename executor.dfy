/**
 * The dynamic tool executor (src/infrastructure/tools/executor.rs): what a tool call does for
 * each tool kind, and the definition each of the ten numbered slots shows the LLM. The HTTP
 * client and the graph repository are functions passed in; a `JoinHandle` failure of the
 * spawned repository task is not modelled.
 */
module Executor {
  import opened Wrappers
  import opened Text
  import opened Json
  import opened Errors
  import opened Models
  import FormEncoding
  import Utf8

  // ----- URL templates -----

  /** The placeholder that argument `key` fills. */
  function Placeholder(key: string): string {
    "{{input." + key + "}}"
  }

  /** The text an argument contributes: a string's own text, any other value's JSON text. */
  function ArgText(v: Json): string {
    if v.JString? then v.s else ToText(v)
  }

  function EncodedArg(v: Json): string {
    FormEncoding.FormEncode(ArgText(v))
  }

  /** The URL after replacing, argument by argument in order, every placeholder of the argument
      with its encoded value. */
  function SubstituteAll(url: string, fields: seq<Member>): string
    decreases |fields|
  {
    if fields == [] then url
    else SubstituteAll(Replace(url, Placeholder(fields[0].key), EncodedArg(fields[0].value)), fields[1..])
  }

  /** The URL the HTTP branch requests: only an object's fields substitute anything. */
  function SubstitutedUrl(template: string, args: Json): string {
    if args.JObject? then SubstituteAll(template, args.fields) else template
  }

  /** The substitution loop of the HTTP branch. */
  method SubstituteUrl(template: string, args: Json) returns (url: string)
    ensures url == SubstitutedUrl(template, args)
    ensures !args.JObject? ==> url == template
  {
    url := template;
    if args.JObject? {
      var fields := args.fields;
      var i := 0;
      while i < |fields|
        invariant 0 <= i <= |fields|
        invariant SubstituteAll(url, fields[i..]) == SubstituteAll(template, fields)
      {
        assert fields[i..][1..] == fields[i + 1..];
        url := Replace(url, Placeholder(fields[i].key), EncodedArg(fields[i].value));
        i := i + 1;
      }
      assert fields[i..] == [];
    }
  }

  /** A URL template as literal text and placeholders. */
  datatype Piece = Lit(text: string) | Hole(key: string)

  function PieceText(p: Piece): string {
    match p
    case Lit(t) => t
    case Hole(k) => Placeholder(k)
  }

  function Render(t: seq<Piece>): string {
    if t == [] then "" else PieceText(t[0]) + Render(t[1..])
  }

  predicate BraceFree(s: string) {
    forall i :: 0 <= i < |s| ==> s[i] != '{' && s[i] != '}'
  }

  /** A template whose literal text and placeholder keys hold no braces. */
  predicate WellFormedTemplate(t: seq<Piece>) {
    forall i :: 0 <= i < |t| ==> BraceFree(if t[i].Lit? then t[i].text else t[i].key)
  }

  /** The template with every placeholder of `key` filled with `value`. */
  function Fill(t: seq<Piece>, key: string, value: string): (r: seq<Piece>)
    ensures |r| == |t|
  {
    seq(|t|, i requires 0 <= i < |t| => if t[i] == Hole(key) then Lit(value) else t[i])
  }

  /** The template as the arguments fill it: each placeholder whose key is an argument becomes
      that argument's encoded value; the others stay. */
  function Instantiate(t: seq<Piece>, fields: seq<Member>): (r: seq<Piece>)
    ensures |r| == |t|
  {
    seq(|t|, i requires 0 <= i < |t| =>
      if t[i].Hole? && Lookup(fields, t[i].key).Some? then Lit(EncodedArg(Lookup(fields, t[i].key).value)) else t[i])
  }

  lemma PlaceholderShape(k: string)
    ensures |Placeholder(k)| == |k| + 10
    ensures Placeholder(k)[0] == '{' && Placeholder(k)[1] == '{' && Placeholder(k)[2] == 'i'
    ensures forall j :: 2 <= j < 8 ==> Placeholder(k)[j] != '{'
    ensures forall j :: 0 <= j < |k| ==> Placeholder(k)[8 + j] == k[j]
    ensures Placeholder(k)[8 + |k|] == '}' && Placeholder(k)[9 + |k|] == '}'
  {
  }

  /** One differing position rules out an occurrence. */
  lemma MismatchAt(s: string, p: string, i: nat, j: nat)
    requires j < |p| && i + j < |s| && s[i + j] != p[j]
    ensures !OccursAt(s, p, i)
  {
    if i + |p| <= |s| {
      assert s[i..i + |p|][j] == s[i + j];
    }
  }

  /** No placeholder of `k` starts inside literal text without braces. */
  lemma NoPlaceholderInLiteral(x: string, rest: string, k: string)
    requires BraceFree(x)
    ensures forall i :: 0 <= i < |x| ==> !OccursAt(x + rest, Placeholder(k), i)
  {
    PlaceholderShape(k);
    forall i | 0 <= i < |x|
      ensures !OccursAt(x + rest, Placeholder(k), i)
    {
      MismatchAt(x + rest, Placeholder(k), i, 0);
    }
  }

  /** No placeholder of `k` starts inside a placeholder of another brace-free key. */
  lemma NoPlaceholderInOtherHole(k2: string, rest: string, k: string)
    requires BraceFree(k2) && BraceFree(k) && k2 != k
    ensures forall i :: 0 <= i < |Placeholder(k2)| ==> !OccursAt(Placeholder(k2) + rest, Placeholder(k), i)
  {
    PlaceholderShape(k);
    PlaceholderShape(k2);
    var s := Placeholder(k2) + rest;
    var p := Placeholder(k);
    forall i | 0 <= i < |Placeholder(k2)|
      ensures !OccursAt(s, p, i)
    {
      if i == 0 {
        if |k| == |k2| {
          var j :| 0 <= j < |k| && k[j] != k2[j];
          MismatchAt(s, p, 0, 8 + j);
        } else if |k| < |k2| {
          MismatchAt(s, p, 0, 8 + |k|);
        } else {
          MismatchAt(s, p, 0, 8 + |k2|);
        }
      } else if i == 1 {
        MismatchAt(s, p, 1, 1);
      } else {
        if 8 <= i < 8 + |k2| {
          assert s[i] == k2[i - 8];
        }
        MismatchAt(s, p, i, 0);
      }
    }
  }

  /** Replacing the placeholders of one key with brace-free text fills exactly those
      placeholders: it neither creates nor destroys any other. */
  lemma {:induction false} ReplaceFills(t: seq<Piece>, k: string, v: string)
    requires WellFormedTemplate(t) && BraceFree(k) && BraceFree(v)
    ensures Replace(Render(t), Placeholder(k), v) == Render(Fill(t, k, v))
  {
    if t == [] {
      assert Fill(t, k, v) == [];
    } else {
      var rest := Render(t[1..]);
      assert WellFormedTemplate(t[1..]) by {
        forall i | 0 <= i < |t[1..]| ensures BraceFree(if t[1..][i].Lit? then t[1..][i].text else t[1..][i].key) {
          assert t[1..][i] == t[i + 1];
        }
      }
      ReplaceFills(t[1..], k, v);
      assert Fill(t, k, v)[1..] == Fill(t[1..], k, v);
      assert BraceFree(if t[0].Lit? then t[0].text else t[0].key);
      match t[0]
      case Lit(x) =>
        NoPlaceholderInLiteral(x, rest, k);
        ReplaceSkipsPrefix(x, rest, Placeholder(k), v);
      case Hole(k2) =>
        if k2 == k {
          PlaceholderShape(k);
          assert (Placeholder(k) + rest)[..|Placeholder(k)|] == Placeholder(k);
          assert (Placeholder(k) + rest)[|Placeholder(k)|..] == rest;
        } else {
          NoPlaceholderInOtherHole(k2, rest, k);
          ReplaceSkipsPrefix(Placeholder(k2), rest, Placeholder(k), v);
        }
    }
  }

  lemma FillKeepsWellFormed(t: seq<Piece>, k: string, v: string)
    requires WellFormedTemplate(t) && BraceFree(v)
    ensures WellFormedTemplate(Fill(t, k, v))
  {
  }

  lemma EncodedArgBraceFree(v: Json)
    ensures BraceFree(EncodedArg(v))
  {
    FormEncoding.FormEncodeHasNoBraces(ArgText(v));
  }

  /** Filling the first argument and then the rest is filling all of them, the first one
      taking precedence. */
  lemma InstantiateStep(t: seq<Piece>, fields: seq<Member>)
    requires fields != []
    ensures Instantiate(Fill(t, fields[0].key, EncodedArg(fields[0].value)), fields[1..]) == Instantiate(t, fields)
  {
    var f := Fill(t, fields[0].key, EncodedArg(fields[0].value));
    forall i | 0 <= i < |t|
      ensures Instantiate(f, fields[1..])[i] == Instantiate(t, fields)[i]
    {
      if t[i].Hole? && t[i].key != fields[0].key {
        assert Lookup(fields, t[i].key) == Lookup(fields[1..], t[i].key);
      }
    }
  }

  /** Every `{{input.<k>}}` of a well-formed URL template is replaced by the form-encoded text of
      argument k (its first occurrence), and placeholders without an argument stay as they are. */
  lemma {:induction false} SubstitutionInstantiates(t: seq<Piece>, fields: seq<Member>)
    requires WellFormedTemplate(t)
    requires forall i :: 0 <= i < |fields| ==> BraceFree(fields[i].key)
    ensures SubstituteAll(Render(t), fields) == Render(Instantiate(t, fields))
    decreases |fields|
  {
    if fields == [] {
      assert Instantiate(t, fields) == t;
    } else {
      var k, v := fields[0].key, EncodedArg(fields[0].value);
      EncodedArgBraceFree(fields[0].value);
      ReplaceFills(t, k, v);
      FillKeepsWellFormed(t, k, v);
      SubstitutionInstantiates(Fill(t, k, v), fields[1..]);
      InstantiateStep(t, fields);
    }
  }

  /** Arguments that are not an object leave the template as it is. */
  lemma NonObjectArgsKeepTemplate(template: string, args: Json)
    requires !args.JObject?
    ensures SubstitutedUrl(template, args) == template
  {
  }

  // ----- HTTP tools -----

  datatype Verb = Get | Post | Put

  /** The request method: `to_uppercase` of the configured one, matched against POST and PUT. */
  function SelectVerb(configured: string): (v: Verb)
    ensures v == Post <==> EqualsIgnoringAsciiCase(configured, "POST")
    ensures v == Put <==> EqualsIgnoringAsciiCase(configured, "PUT")
    ensures v == Get <==> !EqualsIgnoringAsciiCase(configured, "POST") && !EqualsIgnoringAsciiCase(configured, "PUT")
  {
    var upper := AsciiUpper(configured);
    UpperMatches(configured, "POST");
    UpperMatches(configured, "PUT");
    if upper == "POST" then Post else if upper == "PUT" then Put else Get
  }

  lemma UpperMatches(s: string, target: string)
    requires forall i :: 0 <= i < |target| ==> 'A' <= target[i] <= 'Z'
    ensures AsciiUpper(s) == target <==> EqualsIgnoringAsciiCase(s, target)
  {
    if |s| == |target| {
      if AsciiUpper(s) == target {
        forall i | 0 <= i < |s| ensures AsciiLowerChar(s[i]) == AsciiLowerChar(target[i]) {
          assert AsciiUpperChar(s[i]) == target[i];
        }
      }
      if EqualsIgnoringAsciiCase(s, target) {
        forall i | 0 <= i < |s| ensures AsciiUpper(s)[i] == target[i] {
          assert AsciiLowerChar(s[i]) == AsciiLowerChar(target[i]);
        }
      }
    }
  }

  /** The request the HTTP branch sends: the arguments go as the JSON body only when the tool
      has a body template. */
  datatype HttpRequest = HttpRequest(verb: Verb, url: string, jsonBody: Option<Json>)

  /** What the HTTP client reports: a failed send, or a status and the body read (or the error
      reading it). */
  datatype HttpReply = SendFailed(error: string) | Replied(status: nat, body: Result<string, string>)

  function RequestFor(config: HttpConfig, args: Json): HttpRequest {
    HttpRequest(SelectVerb(config.verb), SubstitutedUrl(config.url, args),
      if config.bodyTemplate.Some? then Some(args) else None)
  }

  function HttpOutcome(reply: HttpReply): Result<string, AppError> {
    match reply
    case SendFailed(e) => Err(AIError(e))
    case Replied(_, Err(e)) => Err(AIError(e))
    case Replied(_, Ok(text)) => Ok(text)
  }

  /** Any status code is a success carrying the body text; only transport failures are errors,
      and those are AI errors. */
  lemma HttpOutcomeIgnoresStatus(reply: HttpReply)
    ensures HttpOutcome(reply).Ok? <==> reply.Replied? && reply.body.Ok?
    ensures HttpOutcome(reply).Ok? ==> HttpOutcome(reply).value == reply.body.value
    ensures HttpOutcome(reply).Err? ==> HttpOutcome(reply).error.AIError?
  {
  }

  // ----- Cypher tools -----

  /** The read side of the graph repository that Cypher tools use. */
  datatype GraphReader = GraphReader(
    schema: Result<string, AppError>,
    runQuery: string -> Result<string, AppError>,
    neighborhood: string -> Result<GraphData, AppError>)

  const CypherMisconfigured := "Error de configuración de herramienta Cypher."

  function NoData(concept: string): string {
    "No se encontraron datos para '" + concept + "'."
  }

  /** A repository error, re-wrapped as a database error carrying its display text. */
  function AsDatabaseError(r: Result<string, AppError>): (o: Result<string, AppError>)
    ensures o.Ok? <==> r.Ok?
    ensures o.Ok? ==> o.value == r.value
    ensures o.Err? ==> o.error == DatabaseError(Display(r.error))
  {
    match r
    case Ok(s) => Ok(s)
    case Err(e) => Err(DatabaseError(Display(e)))
  }

  function NodeJson(n: VisNode): Json {
    JObject([Member("id", JString(n.id)), Member("label", JString(n.caption)), Member("group", JString(n.group))])
  }

  function EdgeJson(e: VisEdge): Json {
    JObject([Member("from", JString(e.from)), Member("to", JString(e.to)), Member("label", JString(e.caption))])
  }

  /** `GraphDataResponse` as serde serializes it: fields in declaration order. */
  function GraphJson(g: GraphData): Json {
    JObject([Member("nodes", JArray(NodesJson(g.nodes))), Member("edges", JArray(EdgesJson(g.edges)))])
  }

  function NodesJson(nodes: seq<VisNode>): (r: seq<Json>)
    ensures |r| == |nodes| && (nodes != [] ==> r[0] == NodeJson(nodes[0]))
  {
    if nodes == [] then [] else [NodeJson(nodes[0])] + NodesJson(nodes[1..])
  }

  function EdgesJson(edges: seq<VisEdge>): (r: seq<Json>)
    ensures |r| == |edges| && (edges != [] ==> r[0] == EdgeJson(edges[0]))
  {
    if edges == [] then [] else [EdgeJson(edges[0])] + EdgesJson(edges[1..])
  }

  /** The answer to a `concept_name` lookup: the neighbourhood's JSON text, unless it is under 50
      bytes, which reads as "no data". */
  function NeighborhoodAnswer(concept: string, g: GraphData): string {
    var text := ToText(GraphJson(g));
    if Utf8.ByteLen(text) < 50 then NoData(concept) else text
  }

  /** The Cypher branch: the schema action first, then a string `query`, then a string
      `concept_name`; with no repository handle, or none of these, the fixed configuration text. */
  function ExecuteCypher(repo: Option<GraphReader>, args: Json): (r: Result<string, AppError>)
    ensures r.Err? ==> r.error.DatabaseError?
    ensures repo.None? ==> r == Ok(CypherMisconfigured)
  {
    match repo
    case None => Ok(CypherMisconfigured)
    case Some(reader) =>
      if GetStr(args, "action") == Some("get_schema") then AsDatabaseError(reader.schema)
      else if GetStr(args, "query").Some? then AsDatabaseError(reader.runQuery(GetStr(args, "query").value))
      else if GetStr(args, "concept_name").Some? then
        var concept := GetStr(args, "concept_name").value;
        match reader.neighborhood(concept)
        case Err(e) => Err(DatabaseError(Display(e)))
        case Ok(g) => Ok(NeighborhoodAnswer(concept, g))
      else Ok(CypherMisconfigured)
  }

  /** The schema action wins over any query or concept argument. */
  lemma SchemaActionFirst(reader: GraphReader, args: Json)
    requires GetStr(args, "action") == Some("get_schema")
    ensures ExecuteCypher(Some(reader), args) == AsDatabaseError(reader.schema)
  {
  }

  /** A string query wins over a concept name whenever the action is not the schema. */
  lemma QueryBeforeConcept(reader: GraphReader, args: Json, q: string)
    requires GetStr(args, "action") != Some("get_schema") && GetStr(args, "query") == Some(q)
    ensures ExecuteCypher(Some(reader), args) == AsDatabaseError(reader.runQuery(q))
  {
  }

  /** Arguments naming none of the three shapes never reach the repository. */
  lemma UnmatchedArgsMisconfigured(reader: GraphReader, args: Json)
    requires GetStr(args, "action") != Some("get_schema")
    requires GetStr(args, "query").None? && GetStr(args, "concept_name").None?
    ensures ExecuteCypher(Some(reader), args) == Ok(CypherMisconfigured)
  {
  }

  /** A JSON object's text is at least as long as its first member's `"key":value` text, plus
      the braces and, when more members follow, a comma and their text. */
  lemma ObjectTextLength(fields: seq<Member>)
    requires fields != []
    ensures |ToText(JObject(fields))| == 2 + |Quote(fields[0].key)| + 1 + |ToText(fields[0].value)|
      + (if |fields| == 1 then 0 else 1 + |FieldsText(fields[1..])|)
  {
  }

  lemma FieldsTextLength(fields: seq<Member>)
    requires fields != []
    ensures |FieldsText(fields)| == |Quote(fields[0].key)| + 1 + |ToText(fields[0].value)|
      + (if |fields| == 1 then 0 else 1 + |FieldsText(fields[1..])|)
  {
  }

  /** Three string members: two braces, two commas, three colons, six quoted strings. */
  lemma TripleTextLength(k1: string, v1: string, k2: string, v2: string, k3: string, v3: string)
    ensures |ToText(JObject([Member(k1, JString(v1)), Member(k2, JString(v2)), Member(k3, JString(v3))]))|
      >= 19 + |k1| + |k2| + |k3|
  {
    var fields := [Member(k1, JString(v1)), Member(k2, JString(v2)), Member(k3, JString(v3))];
    ObjectTextLength(fields);
    assert fields[1..] == [Member(k2, JString(v2)), Member(k3, JString(v3))];
    FieldsTextLength(fields[1..]);
    assert fields[1..][1..] == [Member(k3, JString(v3))];
    FieldsTextLength(fields[1..][1..]);
  }

  lemma NodeTextLength(n: VisNode)
    ensures |ToText(NodeJson(n))| >= 31
  {
    TripleTextLength("id", n.id, "label", n.caption, "group", n.group);
  }

  lemma EdgeTextLength(e: VisEdge)
    ensures |ToText(EdgeJson(e))| >= 30
  {
    TripleTextLength("from", e.from, "to", e.to, "label", e.caption);
  }

  /** The graph's text: 23 characters of frame around the two item lists. */
  lemma GraphTextLength(g: GraphData)
    ensures |ToText(GraphJson(g))| >= 23 + |ItemsText(NodesJson(g.nodes))| + |ItemsText(EdgesJson(g.edges))|
  {
    var fields := GraphJson(g).fields;
    ObjectTextLength(fields);
    assert fields[1..] == [fields[1]];
    FieldsTextLength(fields[1..]);
    assert ToText(fields[0].value) == "[" + ItemsText(NodesJson(g.nodes)) + "]";
    assert ToText(fields[1].value) == "[" + ItemsText(EdgesJson(g.edges)) + "]";
  }

  lemma QuotedNames()
    ensures Quote("nodes") == "\"nodes\"" && Quote("edges") == "\"edges\""
  {
    EscapePlain("nodes");
    EscapePlain("edges");
  }

  lemma EmptyFieldsText(nodes: Member, edges: Member)
    requires nodes == Member("nodes", JArray([])) && edges == Member("edges", JArray([]))
    ensures FieldsText([nodes, edges]) == Quote("nodes") + ":" + "[]" + "," + (Quote("edges") + ":" + "[]")
  {
    assert ToText(JArray([])) == "[]";
    assert [nodes, edges][1..] == [edges];
  }

  lemma EmptyGraphFrame(qn: string, qe: string)
    requires qn == "\"nodes\"" && qe == "\"edges\""
    ensures "{" + (qn + ":" + "[]" + "," + (qe + ":" + "[]")) + "}" == "{\"nodes\":[],\"edges\":[]}"
  {
  }

  /** The empty graph serializes as `{"nodes":[],"edges":[]}`. */
  lemma EmptyGraphText()
    ensures ToText(GraphJson(GraphData([], []))) == "{\"nodes\":[],\"edges\":[]}"
  {
    var nodes, edges := Member("nodes", JArray([])), Member("edges", JArray([]));
    assert GraphJson(GraphData([], [])) == JObject([nodes, edges]);
    assert ToText(JObject([nodes, edges])) == "{" + FieldsText([nodes, edges]) + "}";
    EmptyFieldsText(nodes, edges);
    QuotedNames();
    EmptyGraphFrame(Quote("nodes"), Quote("edges"));
  }

  lemma EmptyGraphBytes()
    ensures Utf8.ByteLen(ToText(GraphJson(GraphData([], [])))) == 23
  {
    EmptyGraphText();
    AsciiFrame("{\"nodes\":[],\"edges\":[]}");
  }

  lemma AsciiFrame(text: string)
    requires text == "{\"nodes\":[],\"edges\":[]}"
    ensures Utf8.ByteLen(text) == 23
  {
    forall i | 0 <= i < |text| ensures text[i] < '\U{80}' {
    }
    Utf8.ByteLenAscii(text);
  }

  /** The 50-byte rule reads "no data" exactly for an empty neighbourhood: the empty graph's
      JSON is 23 bytes and any node or edge adds at least 30. */
  lemma {:induction false} NoDataExactlyWhenEmpty(g: GraphData)
    ensures Utf8.ByteLen(ToText(GraphJson(g))) < 50 <==> g.nodes == [] && g.edges == []
  {
    if g.nodes == [] && g.edges == [] {
      assert g == GraphData([], []);
      EmptyGraphBytes();
    } else {
      Utf8.ByteLenAtLeastLength(ToText(GraphJson(g)));
      GraphTextLength(g);
      if g.nodes != [] {
        NodeTextLength(g.nodes[0]);
      } else {
        EdgeTextLength(g.edges[0]);
      }
    }
  }

  // ----- dispatch -----

  const CliDisabled := ConfigError("CLI tools disabled")

  /** What a tool call returns, by the tool's kind. */
  function Execute(definition: ToolDefinition, repo: Option<GraphReader>, args: Json, send: HttpRequest -> HttpReply): (r: Result<string, AppError>)
    ensures definition.implementation.Cli? ==> r == Err(CliDisabled)
    ensures definition.implementation.Http? && r.Err? ==> r.error.AIError?
    ensures definition.implementation.Cypher? && r.Err? ==> r.error.DatabaseError?
  {
    match definition.implementation
    case Http(config) => HttpOutcome(send(RequestFor(config, args)))
    case Cypher => ExecuteCypher(repo, args)
    case Cli => Err(CliDisabled)
  }

  /** `execute_common`. */
  method ExecuteCommon(definition: ToolDefinition, repo: Option<GraphReader>, args: Json, send: HttpRequest -> HttpReply)
    returns (r: Result<string, AppError>)
    ensures r == Execute(definition, repo, args, send)
  {
    match definition.implementation {
      case Http(config) =>
        var url := SubstituteUrl(config.url, args);
        var request := HttpRequest(SelectVerb(config.verb), url, None);
        if config.bodyTemplate.Some? {
          request := request.(jsonBody := Some(args));
        }
        r := HttpOutcome(send(request));
      case Cypher =>
        r := ExecuteCypher(repo, args);
      case Cli =>
        r := Err(CliDisabled);
    }
  }

  // ----- slots -----

  /** The number of numbered tool slots an agent has. */
  const SlotCount := 10

  /** The internal name of slot `i`: `tool_0` to `tool_9`. */
  function SlotName(i: nat): (r: string)
    requires i < SlotCount
    ensures |r| == 6 && r[..5] == "tool_" && IsAsciiDigit(r[5])
    ensures r[5] as int - '0' as int == i
  {
    "tool_" + [('0' as int + i) as char]
  }

  /** Different slots have different names. */
  lemma SlotNamesDistinct(i: nat, j: nat)
    requires i < SlotCount && j < SlotCount && i != j
    ensures SlotName(i) != SlotName(j)
  {
    assert SlotName(i)[5] != SlotName(j)[5];
  }

  datatype ToolSlot = ToolSlot(index: nat, definition: ToolDefinition, repo: Option<GraphReader>)

  /** The definition rig sends to the LLM for a slot. */
  datatype SlotDefinition = SlotDefinition(name: string, description: string, parameters: Json)

  /** The slot's definition: named after the slot, described by the tool's own name, the slot
      name and the tool's description, with the tool's input schema as parameters. */
  function Definition(slot: ToolSlot): (d: SlotDefinition)
    requires slot.index < SlotCount
    ensures d.name == SlotName(slot.index)
    ensures d.parameters == slot.definition.inputSchema
    ensures StartsWith(d.description, slot.definition.name + " (INTERNAL_ID: " + d.name + ") - ")
    ensures EndsWith(d.description, slot.definition.description)
    ensures d.description == slot.definition.name + " (INTERNAL_ID: " + d.name + ") - " + slot.definition.description
  {
    var prefix := slot.definition.name + " (INTERNAL_ID: " + SlotName(slot.index) + ") - ";
    var d := SlotDefinition(SlotName(slot.index), prefix + slot.definition.description, slot.definition.inputSchema);
    assert d.description[|d.description| - |slot.definition.description|..] == slot.definition.description;
    d
  }

  /** `Tool::call` of a slot. */
  method Call(slot: ToolSlot, args: Json, send: HttpRequest -> HttpReply) returns (r: Result<string, AppError>)
    ensures r == Execute(slot.definition, slot.repo, args, send)
  {
    r := ExecuteCommon(slot.definition, slot.repo, args, send);
  }
}
