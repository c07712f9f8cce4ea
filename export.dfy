/**
 * `export_jsonld` (src/interface/handlers/export.rs): the knowledge graph as a JSON-LD
 * document (JSON-LD 1.1, sections 3.1 and 4.9): a constant `@context`, one `@graph` node per
 * entity with an `@id` built from its name and an `@type` chosen by its category, and the
 * relations passed through under "meta:edges".
 */
module Export {
  import opened Wrappers
  import opened Text
  import opened Json
  import opened Errors
  import opened Models

  const IdPrefix := "mhealth:"
  const OtherType := "schema:Thing"

  /** The `@context` object, the same for every export. */
  const Context := JObject([
    Member("schema", JString("http://schema.org/")),
    Member("mhealth", JString("http://ontologies.lamuralla.org/mental-health#")),
    Member("Person", JString("schema:Person")),
    Member("Condition", JString("schema:MedicalCondition")),
    Member("Intervention", JString("schema:TherapeuticProcedure")),
    Member("CommunityResource", JString("schema:Organization")),
    Member("name", JString("schema:name")),
    Member("category", JString("@type"))])

  /** The `@type` of an entity's category: three categories have a vocabulary term of their
      own, every other one is a plain thing. */
  function TypeUri(category: string): string {
    if category == "Person" then "mhealth:Person"
    else if category == "Condition" then "mhealth:Condition"
    else if category == "Intervention" then "mhealth:Intervention"
    else OtherType
  }

  lemma TypeUriCases(category: string)
    ensures StartsWith(TypeUri(category), IdPrefix) <==> category in ["Person", "Condition", "Intervention"]
    ensures TypeUri(category) == OtherType <==> category !in ["Person", "Condition", "Intervention"]
    ensures StartsWith(TypeUri(category), IdPrefix) ==> TypeUri(category) == IdPrefix + category
  {
    assert OtherType[..|IdPrefix|] != IdPrefix by {
      assert OtherType[1] != IdPrefix[1];
    }
  }

  /** The context names an organization type for community resources, but such a node is
      still typed as a plain thing. */
  lemma CommunityResourceIsThing()
    ensures TypeUri("CommunityResource") == OtherType
    ensures Get(Context, "CommunityResource") == Some(JString("schema:Organization"))
  {
    LookupFirst(Context.fields, "CommunityResource", 5);
  }

  /** The node identifier: the name, spaces turned into underscores, under the `mhealth:`
      prefix. */
  function NodeId(name: string): (r: string)
    ensures StartsWith(r, IdPrefix)
    ensures forall i :: 0 <= i < |r| ==> r[i] != ' '
    ensures |r| == |IdPrefix| + |name|
    ensures forall i :: 0 <= i < |name| ==> r[|IdPrefix| + i] == (if name[i] == ' ' then '_' else name[i])
  {
    ReplaceCharRemoves(name, ' ', '_');
    ReplaceCharAt(name, ' ', '_');
    IdPrefix + Replace(name, " ", "_")
  }

  /** Names without spaces keep their identity: the identifier is the prefixed name. */
  lemma NodeIdOfPlainName(name: string)
    requires forall i :: 0 <= i < |name| ==> name[i] != ' '
    ensures NodeId(name) == IdPrefix + name
  {
    ReplaceAbsent(name, ' ', '_');
  }

  lemma {:induction false} ReplaceAbsent(s: string, c: char, d: char)
    requires forall i :: 0 <= i < |s| ==> s[i] != c
    ensures Replace(s, [c], [d]) == s
    decreases |s|
  {
    if s != [] {
      assert s[..1] == [s[0]] != [c];
      ReplaceAbsent(s[1..], c, d);
      assert [s[0]] + s[1..] == s;
    }
  }

  function NodeJson(e: GraphEntity): Json {
    JObject([
      Member("@id", JString(NodeId(e.name))),
      Member("@type", JString(TypeUri(e.category))),
      Member("name", JString(e.name)),
      Member("category", JString(e.category))])
  }

  /** The entity a node describes: its `name` and `category` fields. */
  function NodeEntity(node: Json): Option<GraphEntity> {
    match (GetStr(node, "name"), GetStr(node, "category"))
    case (Some(n), Some(c)) => Some(GraphEntity(n, c))
    case _ => None
  }

  /** Each node's identifier and type are those of its entity's name and category. */
  lemma NodeFields(e: GraphEntity)
    ensures GetStr(NodeJson(e), "@id") == Some(NodeId(e.name))
    ensures GetStr(NodeJson(e), "@type") == Some(TypeUri(e.category))
  {
    var f := NodeJson(e).fields;
    LookupFirst(f, "@id", 0);
    LookupFirst(f, "@type", 1);
  }

  /** Each node carries its entity's name and category unchanged. */
  lemma NodeRoundTrip(e: GraphEntity)
    ensures NodeEntity(NodeJson(e)) == Some(e)
  {
    var f := NodeJson(e).fields;
    LookupFirst(f, "name", 2);
    LookupFirst(f, "category", 3);
  }

  /** A relation as serde writes it. */
  function EdgeJson(r: GraphRelation): Json {
    JObject([
      Member("source", JString(r.source)),
      Member("target", JString(r.target)),
      Member("relation_type", JString(r.relationType))])
  }

  /** A relation as serde reads it back. */
  function EdgeRelation(v: Json): Option<GraphRelation> {
    match (GetStr(v, "source"), GetStr(v, "target"), GetStr(v, "relation_type"))
    case (Some(s), Some(t), Some(k)) => Some(GraphRelation(s, t, k))
    case _ => None
  }

  lemma EdgeRoundTrip(r: GraphRelation)
    ensures EdgeRelation(EdgeJson(r)) == Some(r)
  {
    var f := EdgeJson(r).fields;
    LookupFirst(f, "source", 0);
    LookupFirst(f, "target", 1);
    LookupFirst(f, "relation_type", 2);
  }

  /** The `@graph` array: one node per entity, in order. */
  function NodesOf(nodes: seq<GraphEntity>): (r: seq<Json>)
    ensures |r| == |nodes|
  {
    if nodes == [] then [] else NodesOf(nodes[..|nodes| - 1]) + [NodeJson(nodes[|nodes| - 1])]
  }

  function EdgesOf(edges: seq<GraphRelation>): (r: seq<Json>)
    ensures |r| == |edges|
  {
    if edges == [] then [] else EdgesOf(edges[..|edges| - 1]) + [EdgeJson(edges[|edges| - 1])]
  }

  lemma {:induction false} NodesAt(nodes: seq<GraphEntity>, i: nat)
    requires i < |nodes|
    ensures NodesOf(nodes)[i] == NodeJson(nodes[i])
    decreases |nodes|
  {
    if i < |nodes| - 1 {
      NodesAt(nodes[..|nodes| - 1], i);
    }
  }

  lemma {:induction false} EdgesAt(edges: seq<GraphRelation>, i: nat)
    requires i < |edges|
    ensures EdgesOf(edges)[i] == EdgeJson(edges[i])
    decreases |edges|
  {
    if i < |edges| - 1 {
      EdgesAt(edges[..|edges| - 1], i);
    }
  }

  /** The exported document. */
  function Document(g: ExportedGraph): Json {
    JObject([
      Member("@context", Context),
      Member("@graph", JArray(NodesOf(g.nodes))),
      Member("meta:edges", JArray(EdgesOf(g.edges)))])
  }

  /** `export_jsonld`: the repository's graph, or its error, and the document built node by
      node. */
  method ExportJsonLd(fetched: Result<ExportedGraph, AppError>) returns (r: Result<Json, AppError>)
    ensures fetched.Err? ==> r == Err(fetched.error)
    ensures fetched.Ok? ==> r == Ok(Document(fetched.value))
  {
    if fetched.Err? {
      return Err(fetched.error);
    }
    var graph := fetched.value;
    var graphNodes: seq<Json> := [];
    var i := 0;
    while i < |graph.nodes|
      invariant i <= |graph.nodes|
      invariant graphNodes == NodesOf(graph.nodes[..i])
    {
      var node := graph.nodes[i];
      var typeUri := TypeUri(node.category);
      graphNodes := graphNodes + [JObject([
        Member("@id", JString(IdPrefix + Replace(node.name, " ", "_"))),
        Member("@type", JString(typeUri)),
        Member("name", JString(node.name)),
        Member("category", JString(node.category))])];
      assert graph.nodes[..i + 1][..i] == graph.nodes[..i];
      i := i + 1;
    }
    assert graph.nodes[..i] == graph.nodes;
    var edges := EdgesOf(graph.edges);
    r := Ok(JObject([
      Member("@context", Context),
      Member("@graph", JArray(graphNodes)),
      Member("meta:edges", JArray(edges))]));
  }

  /** The document's shape: the constant context, one node per entity in order carrying that
      entity, and every relation under "meta:edges", readable back unchanged. */
  lemma DocumentShape(g: ExportedGraph)
    ensures Get(Document(g), "@context") == Some(Context)
    ensures Get(Document(g), "@graph").Some? && Get(Document(g), "@graph").value.JArray?
    ensures var items := Get(Document(g), "@graph").value.items;
      |items| == |g.nodes| &&
      forall i :: 0 <= i < |items| ==> NodeEntity(items[i]) == Some(g.nodes[i])
    ensures Get(Document(g), "meta:edges").Some? && Get(Document(g), "meta:edges").value.JArray?
    ensures var items := Get(Document(g), "meta:edges").value.items;
      |items| == |g.edges| &&
      forall i :: 0 <= i < |items| ==> EdgeRelation(items[i]) == Some(g.edges[i])
  {
    var f := Document(g).fields;
    LookupFirst(f, "@context", 0);
    LookupFirst(f, "@graph", 1);
    LookupFirst(f, "meta:edges", 2);
    forall i | 0 <= i < |g.nodes|
      ensures NodeEntity(NodesOf(g.nodes)[i]) == Some(g.nodes[i])
    {
      NodesAt(g.nodes, i);
      NodeRoundTrip(g.nodes[i]);
    }
    forall i | 0 <= i < |g.edges|
      ensures EdgeRelation(EdgesOf(g.edges)[i]) == Some(g.edges[i])
    {
      EdgesAt(g.edges, i);
      EdgeRoundTrip(g.edges[i]);
    }
  }

  /** Every node of the document is identified without spaces and typed by its category. */
  lemma NodeIdentities(g: ExportedGraph, i: nat)
    requires i < |g.nodes|
    ensures var node := NodesOf(g.nodes)[i];
      GetStr(node, "@id") == Some(NodeId(g.nodes[i].name)) &&
      GetStr(node, "@type") == Some(TypeUri(g.nodes[i].category))
  {
    NodesAt(g.nodes, i);
    NodeFields(g.nodes[i]);
  }

  /** The context does not depend on the graph. */
  lemma ContextIsConstant(g: ExportedGraph, h: ExportedGraph)
    ensures Get(Document(g), "@context") == Get(Document(h), "@context")
  {
    DocumentShape(g);
    DocumentShape(h);
  }
}
