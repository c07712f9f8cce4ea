/**
 * `RigAIService` (src/infrastructure/ai/rig_client.rs): the OpenAI-compatible AI service. It
 * holds the AI configuration, which `update_config` replaces in place, and it asks the
 * embeddings endpoint for a vector through a sequence of checked steps. The HTTP client and
 * the JSON reader are oracles (`HttpClient`); the service logs every request it sends, so that
 * what is sent, and when nothing is, can be stated.
 */
module RigClient {
  import opened Wrappers
  import opened Text
  import opened Json
  import opened Errors
  import opened Models
  import Ports

  const DefaultBaseUrl := "https://api.openai.com/v1"
  const EmptyTextMessage := "Texto vacío para embedding"
  const NetworkErrorPrefix := "Error de Red al contactar OpenAI: "
  const RejectedPrefix := "OpenAI rechazó la petición: "
  const BodyErrorPrefix := "Error leyendo JSON de OpenAI: "
  const MissingEmbeddingMessage := "El JSON de respuesta no contiene 'data[0].embedding'"
  const NotFloatsPrefix := "El embedding no es un array de floats: "

  // ----- clean_json_response -----

  /** The position just after the last '}', or the end of the text when there is none. */
  function JsonEnd(raw: string): (r: nat)
    ensures r <= |raw|
  {
    match RFindChar(raw, '}')
    case Some(i) => i + 1
    case None => |raw|
  }

  /** `clean_json_response`: the text from the first '{' through the last '}'. Without a '{' the
      slice starts at the beginning, without a '}' it runs to the end, and when the first '{'
      does not come before the last '}' the text is kept whole. Both braces are one byte in
      UTF-8, so character positions stand for Rust's byte positions. */
  function CleanJsonResponse(raw: string): (r: string)
    ensures exists a, b :: 0 <= a <= b <= |raw| && r == raw[a..b]
    ensures (forall j :: 0 <= j < |raw| ==> raw[j] != '{') ==> r <= raw
    ensures (forall j :: 0 <= j < |raw| ==> raw[j] != '}') ==> EndsWith(raw, r)
  {
    var start := FindChar(raw, '{').GetOr(0);
    var end := JsonEnd(raw);
    if start >= end then
      assert raw == raw[0..|raw|];
      raw
    else raw[start..end]
  }

  /** When the first '{' (at `i`) comes before the last '}' (at `j`), the result is exactly the
      text from one to the other, both included. */
  lemma CleanJsonFrames(raw: string, i: nat, j: nat)
    requires i < j < |raw| && raw[i] == '{' && raw[j] == '}'
    requires forall m :: 0 <= m < i ==> raw[m] != '{'
    requires forall m :: j < m < |raw| ==> raw[m] != '}'
    ensures CleanJsonResponse(raw) == raw[i..j + 1]
  {
    assert FindChar(raw, '{') == Some(i);
    assert RFindChar(raw, '}') == Some(j);
  }

  /** Extracting again changes nothing. */
  lemma CleanJsonIdempotent(raw: string)
    ensures CleanJsonResponse(CleanJsonResponse(raw)) == CleanJsonResponse(raw)
  {
    var start := FindChar(raw, '{').GetOr(0);
    var end := JsonEnd(raw);
    if start < end {
      var r := raw[start..end];
      assert forall k :: 0 <= k < |r| ==> r[k] == raw[start + k];
      // The first '{' of the slice is at its head, or there is none at all.
      assert FindChar(r, '{').GetOr(0) == 0 by {
        if FindChar(raw, '{').Some? {
          assert r[0] == '{';
        } else {
          assert forall k :: 0 <= k < |r| ==> r[k] != '{';
        }
      }
      // The last '}' of the slice is at its end, or there is none at all.
      assert JsonEnd(r) == |r| by {
        if RFindChar(raw, '}').Some? {
          assert r[|r| - 1] == '}';
        } else {
          assert forall k :: 0 <= k < |r| ==> r[k] != '}';
        }
      }
      assert r[0..|r|] == r;
    }
  }

  /** When the last '}' comes before the first '{', the text is returned whole. */
  lemma CleanJsonKeepsReversedBraces(raw: string, i: nat, j: nat)
    requires j < i < |raw| && raw[i] == '{' && raw[j] == '}'
    requires forall m :: 0 <= m < i ==> raw[m] != '{'
    requires forall m :: j < m < |raw| ==> raw[m] != '}'
    ensures CleanJsonResponse(raw) == raw
  {
    assert FindChar(raw, '{') == Some(i);
    assert RFindChar(raw, '}') == Some(j);
  }

  // ----- base URLs -----

  /** `get_rig_client`: the configured base URL (else the OpenAI one) without its trailing
      slashes, and then, if it ends with "/v1", without every trailing "/v1". */
  function RigBaseUrl(baseUrl: Option<string>): (r: string)
    ensures !EndsWith(r, "/v1")
    ensures r <= baseUrl.GetOr(DefaultBaseUrl)
    ensures var u := baseUrl.GetOr(DefaultBaseUrl); !EndsWith(u, "/") && !EndsWith(u, "/v1") ==> r == u
  {
    var u := baseUrl.GetOr(DefaultBaseUrl);
    TrimEndCharUnlessEnding(u, '/');
    var noSlash := TrimEndChar(baseUrl.GetOr(DefaultBaseUrl), '/');
    if EndsWith(noSlash, "/v1") then TrimEndStr(noSlash, "/v1") else noSlash
  }

  /** Trailing slashes on the configured base make no difference. */
  lemma RigBaseIgnoresTrailingSlash(base: string)
    ensures RigBaseUrl(Some(base + "/")) == RigBaseUrl(Some(base))
  {
    TrimEndCharAppend(base, '/');
  }

  /** The default base loses its version segment. */
  lemma RigBaseDefault()
    ensures RigBaseUrl(None) == "https://api.openai.com"
  {
    var d := DefaultBaseUrl;
    assert TrimEndChar(d, '/') == d;
    assert EndsWith(d, "/v1");
    assert d[..|d| - 3] == "https://api.openai.com";
    assert !EndsWith("https://api.openai.com", "/v1");
  }

  /** The slashes are trimmed before the "/v1" segments, so a slash can remain at the end:
      "http://h//v1" becomes "http://h/". */
  lemma RigBaseCanEndWithSlash()
    ensures RigBaseUrl(Some("http://h//v1")) == "http://h/"
  {
    var b := "http://h//v1";
    assert TrimEndChar(b, '/') == b;
    assert EndsWith(b, "/v1");
    assert b[..|b| - 3] == "http://h/";
    assert !EndsWith("http://h/", "/v1");
  }

  /** The embeddings endpoint: the base URL (same default) without its trailing slashes, plus
      "/embeddings"; a version segment is kept. */
  function EmbeddingUrl(baseUrl: Option<string>): (r: string)
    ensures EndsWith(r, "/embeddings")
    ensures r[..|r| - |"/embeddings"|] <= baseUrl.GetOr(DefaultBaseUrl)
    ensures !EndsWith(r[..|r| - |"/embeddings"|], "/")
    ensures forall i :: |r| - |"/embeddings"| <= i < |baseUrl.GetOr(DefaultBaseUrl)| ==> baseUrl.GetOr(DefaultBaseUrl)[i] == '/'
    ensures var u := baseUrl.GetOr(DefaultBaseUrl); !EndsWith(u, "/") ==> r == u + "/embeddings"
  {
    var u := baseUrl.GetOr(DefaultBaseUrl);
    TrimEndCharCut(u, '/');
    TrimEndCharUnlessEnding(u, '/');
    var b := TrimEndChar(u, '/');
    var r := b + "/embeddings";
    assert r[..|r| - |"/embeddings"|] == b;
    assert b != [] ==> b[|b| - 1..] == [b[|b| - 1]];
    r
  }

  /** With the default base the version segment stays in the embeddings URL. */
  lemma EmbeddingUrlDefault()
    ensures EmbeddingUrl(None) == "https://api.openai.com/v1/embeddings"
  {
    assert TrimEndChar(DefaultBaseUrl, '/') == DefaultBaseUrl;
  }

  // ----- generate_embedding -----

  /** The POST to the embeddings endpoint; the JSON content type is fixed and not kept. */
  datatype EmbeddingRequest = EmbeddingRequest(url: string, authorization: string, body: Json)

  /** A reply: its status code, the status as the HTTP library renders it, and its body text
      (or the error from reading it). */
  datatype HttpReply = HttpReply(status: nat, statusText: string, body: Result<string, string>)

  /** The HTTP client and the JSON reader: `send` gives a reply or the transport error text,
      `parseJson` a value or the parse error text, `floatBits` the value of a JSON number and
      `floatsError` the decoder's complaint about a value that is not an array of numbers. */
  datatype HttpClient = HttpClient(
    send: EmbeddingRequest -> Result<HttpReply, string>,
    parseJson: string -> Result<Json, string>,
    floatBits: string -> int,
    floatsError: Json -> string)

  predicate IsBlank(text: string) {
    Trim(text) == []
  }

  /** `StatusCode::is_success`. */
  predicate IsSuccess(status: nat) {
    200 <= status <= 299
  }

  function EmbeddingRequestFor(config: AIConfig, text: string): (r: EmbeddingRequest)
    ensures r.authorization == "Bearer " + config.apiKey
    ensures GetStr(r.body, "input") == Some(text) && GetStr(r.body, "model") == Some(config.embeddingModel)
  {
    var fields := [Member("input", JString(text)), Member("model", JString(config.embeddingModel))];
    assert "input"[0] != "model"[0];
    LookupFirst(fields, "model", 1);
    EmbeddingRequest(EmbeddingUrl(config.baseUrl), "Bearer " + config.apiKey,
      JObject([Member("input", JString(text)), Member("model", JString(config.embeddingModel))]))
  }

  /** `body.get("data").and_then(|d| d.get(0)).and_then(|item| item.get("embedding"))`. */
  function EmbeddingField(body: Json): (r: Option<Json>)
    ensures r.Some? ==> Get(body, "data").Some? && Get(body, "data").value.JArray?
                        && |Get(body, "data").value.items| > 0
                        && Get(Get(body, "data").value.items[0], "embedding") == r
  {
    match Get(body, "data")
    case Some(JArray(items)) => if |items| > 0 then Get(items[0], "embedding") else None
    case _ => None
  }

  /** `serde_json::from_value::<Vec<f32>>`: an array of numbers, read one by one. */
  function Floats(v: Json, http: HttpClient): (r: Option<Ports.Embedding>)
    ensures r.Some? <==> v.JArray? && forall i :: 0 <= i < |v.items| ==> v.items[i].JNumber?
    ensures r.Some? ==> |r.value| == |v.items|
                        && forall i :: 0 <= i < |v.items| ==> r.value[i] == http.floatBits(v.items[i].literal)
  {
    if v.JArray? && forall i :: 0 <= i < |v.items| ==> v.items[i].JNumber? then
      Some(seq(|v.items|, i requires 0 <= i < |v.items| => http.floatBits(v.items[i].literal)))
    else None
  }

  /** `response.json()`: the body read and parsed; either failure is reported as its text. */
  function BodyJson(reply: HttpReply, http: HttpClient): Result<Json, string> {
    match reply.body
    case Err(e) => Err(e)
    case Ok(text) => http.parseJson(text)
  }

  /** What `generate_embedding` returns for a reply: a failed status is an AI error that shows
      the status and the body text (empty when it cannot be read), an unreadable body a parse
      error, a body without `data[0].embedding` an AI error and a value that is not an array of
      numbers a parse error. */
  function ReadEmbedding(reply: HttpReply, http: HttpClient): (r: Result<Ports.Embedding, AppError>)
    ensures !IsSuccess(reply.status) ==>
      r == Err(AIError(RejectedPrefix + reply.statusText + " - " + reply.body.GetOr("")))
    ensures r.Ok? ==> IsSuccess(reply.status) && BodyJson(reply, http).Ok?
                      && EmbeddingField(BodyJson(reply, http).value).Some?
                      && Floats(EmbeddingField(BodyJson(reply, http).value).value, http) == Some(r.value)
    ensures r.Err? && r.error.ParseError? <==>
      IsSuccess(reply.status)
      && (BodyJson(reply, http).Err?
          || (EmbeddingField(BodyJson(reply, http).value).Some?
              && Floats(EmbeddingField(BodyJson(reply, http).value).value, http).None?))
    ensures IsSuccess(reply.status) && BodyJson(reply, http).Ok? && EmbeddingField(BodyJson(reply, http).value).None? ==>
      r == Err(AIError(MissingEmbeddingMessage))
  {
    if !IsSuccess(reply.status) then
      Err(AIError(RejectedPrefix + reply.statusText + " - " + reply.body.GetOr("")))
    else
      match BodyJson(reply, http)
      case Err(e) => Err(ParseError(BodyErrorPrefix + e))
      case Ok(body) =>
        match EmbeddingField(body)
        case None => Err(AIError(MissingEmbeddingMessage))
        case Some(v) =>
          match Floats(v, http)
          case None => Err(ParseError(NotFloatsPrefix + http.floatsError(v)))
          case Some(xs) => Ok(xs)
  }

  /** What `generate_embedding` returns: blank text is a validation error, a transport failure
      an AI error, and otherwise the reply decides. */
  function EmbeddingOutcome(config: AIConfig, text: string, http: HttpClient): (r: Result<Ports.Embedding, AppError>)
    ensures IsBlank(text) ==> r == Err(ValidationError(EmptyTextMessage))
    ensures r.Err? && r.error.ValidationError? <==> IsBlank(text)
    ensures !IsBlank(text) && http.send(EmbeddingRequestFor(config, text)).Err? ==>
      r == Err(AIError(NetworkErrorPrefix + http.send(EmbeddingRequestFor(config, text)).error))
    ensures r.Ok? ==> !IsBlank(text) && http.send(EmbeddingRequestFor(config, text)).Ok?
                      && r == ReadEmbedding(http.send(EmbeddingRequestFor(config, text)).value, http)
  {
    if IsBlank(text) then Err(ValidationError(EmptyTextMessage))
    else
      match http.send(EmbeddingRequestFor(config, text))
      case Err(e) => Err(AIError(NetworkErrorPrefix + e))
      case Ok(reply) => ReadEmbedding(reply, http)
  }

  /** The service object: its configuration, replaced in place by `update_config`, and the
      requests it has sent. */
  class RigAIService {
    var config: AIConfig
    var sent: seq<EmbeddingRequest>
    const http: HttpClient

    constructor (config: AIConfig, http: HttpClient)
      ensures this.config == config && sent == [] && this.http == http
    {
      this.config := config;
      sent := [];
      this.http := http;
    }

    /** `get_config`. */
    function GetConfig(): AIConfig
      reads this
    {
      config
    }

    /** `update_config`: never fails, and `get_config` then returns the new configuration. */
    method UpdateConfig(c: AIConfig) returns (r: Result<(), AppError>)
      modifies this
      ensures GetConfig() == c && sent == old(sent) && r == Ok(())
    {
      config := c;
      r := Ok(());
    }

    /** `generate_embedding`: blank text is refused before any request is sent; otherwise one
        request is sent and its reply is checked step by step. */
    method GenerateEmbedding(text: string) returns (r: Result<Ports.Embedding, AppError>)
      modifies this
      ensures config == old(config)
      ensures r == EmbeddingOutcome(config, text, http)
      ensures sent == if IsBlank(text) then old(sent) else old(sent) + [EmbeddingRequestFor(config, text)]
    {
      if Trim(text) == [] {
        return Err(ValidationError(EmptyTextMessage));
      }
      var request := EmbeddingRequestFor(config, text);
      sent := sent + [request];
      var response := http.send(request);
      if response.Err? {
        return Err(AIError(NetworkErrorPrefix + response.error));
      }
      r := CheckReply(response.value);
    }

    /** The checks `generate_embedding` makes on a reply, one after the other. */
    method CheckReply(reply: HttpReply) returns (r: Result<Ports.Embedding, AppError>)
      ensures r == ReadEmbedding(reply, http)
    {
      if !(200 <= reply.status <= 299) {
        var errorText := reply.body.GetOr("");
        return Err(AIError(RejectedPrefix + reply.statusText + " - " + errorText));
      }
      var body := BodyJson(reply, http);
      if body.Err? {
        return Err(ParseError(BodyErrorPrefix + body.error));
      }
      var field := EmbeddingField(body.value);
      if field.None? {
        return Err(AIError(MissingEmbeddingMessage));
      }
      var vector := Floats(field.value, http);
      if vector.None? {
        return Err(ParseError(NotFloatsPrefix + http.floatsError(field.value)));
      }
      r := Ok(vector.value);
    }
  }
}
