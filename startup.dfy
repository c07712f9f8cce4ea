/**
 * Start-up configuration (src/main.rs): the initial AI configuration, the administrator
 * credentials and the listening address, each read from an environment variable with a fixed
 * fallback. The environment is a map from variable names to values; a variable that is unset
 * is absent from it.
 */
module Startup {
  import opened Wrappers
  import opened Text
  import opened Models
  import Users

  type Env = map<string, string>

  const DefaultModel := "gpt-4o"
  const DefaultEmbeddingModel := "text-embedding-3-small"
  const DefaultDim := "1536"
  const DefaultAdminPass := "admin123"
  const DefaultPort := "3000"
  const BindHost := "0.0.0.0:"

  /** `std::env::var(name).ok()`. */
  function Var(env: Env, name: string): (r: Option<string>)
    ensures r.Some? <==> name in env
    ensures r.Some? ==> r.value == env[name]
  {
    if name in env then Some(env[name]) else None
  }

  /** The provider named by `AI_PROVIDER`, compared after lower-casing: "ollama" and "groq"
      select those providers and anything else, unset included, selects OpenAI. */
  function ProviderOf(s: string): (p: AIProvider)
    ensures p == Ollama <==> EqualsIgnoringAsciiCase(s, "ollama")
    ensures p == Groq <==> EqualsIgnoringAsciiCase(s, "groq")
  {
    var lower := AsciiLower(s);
    assert lower == "ollama" <==> EqualsIgnoringAsciiCase(s, "ollama") by {
      LowerMatches(s, "ollama");
    }
    assert lower == "groq" <==> EqualsIgnoringAsciiCase(s, "groq") by {
      LowerMatches(s, "groq");
    }
    if lower == "ollama" then Ollama
    else if lower == "groq" then Groq
    else OpenAI
  }

  lemma LowerMatches(s: string, t: string)
    requires AsciiLower(t) == t
    ensures AsciiLower(s) == t <==> EqualsIgnoringAsciiCase(s, t)
  {
    if EqualsIgnoringAsciiCase(s, t) {
      assert forall i :: 0 <= i < |t| ==> AsciiLower(s)[i] == AsciiLowerChar(t[i]) == t[i];
    }
    if AsciiLower(s) == t {
      assert forall i :: 0 <= i < |t| ==> AsciiLowerChar(t[i]) == AsciiLower(t)[i] == t[i];
    }
  }

  /** Every provider's own name selects it again. */
  lemma ProviderNameSelects(p: AIProvider)
    ensures ProviderOf(ProviderName(p)) == p
  {
    var n := ProviderName(p);
    match p
    case OpenAI =>
      assert AsciiLowerChar(n[1]) != AsciiLowerChar("ollama"[1]) && |n| != |"groq"|;
    case Ollama =>
      assert EqualsIgnoringAsciiCase(n, "ollama");
    case Groq =>
      assert EqualsIgnoringAsciiCase(n, "groq");
  }

  /** `str::parse::<usize>` on a 64-bit target: an optional '+' and then one or more decimal
      digits whose value fits. */
  function ParseUsize(s: string): (r: Option<Usize>)
    ensures r.Some? ==> s != [] && (AllDigits(s) || (s[0] == '+' && AllDigits(s[1..])))
  {
    if s != [] && s[0] == '+' then ParseUsizeLiteral(s[1..]) else ParseUsizeLiteral(s)
  }

  /** Printing a `usize` and parsing it back gives it again. */
  lemma ParseUsizePrinted(n: Usize)
    ensures ParseUsize(NatToString(n)) == Some(n)
  {
    DigitsValueOfNatToString(n);
    var s := NatToString(n);
    assert IsAsciiDigit(s[0]);
  }

  /** The API key: `AI_API_KEY`, else `OPENAI_API_KEY`, else empty. A variable that is set
      wins even when it is empty. */
  function ApiKey(env: Env): (k: string)
    ensures "AI_API_KEY" in env ==> k == env["AI_API_KEY"]
    ensures "AI_API_KEY" !in env && "OPENAI_API_KEY" in env ==> k == env["OPENAI_API_KEY"]
    ensures "AI_API_KEY" !in env && "OPENAI_API_KEY" !in env ==> k == ""
  {
    match Var(env, "AI_API_KEY")
    case Some(k) => k
    case None => Var(env, "OPENAI_API_KEY").GetOr("")
  }

  /** The initial AI configuration, or nothing when `AI_EMBEDDING_DIM` is set to something that
      is not a `usize` (start-up then stops). */
  function InitialConfig(env: Env): Option<AIConfig> {
    var provider := ProviderOf(Var(env, "AI_PROVIDER").GetOr("openai"));
    var modelName := Var(env, "AI_MODEL").GetOr(DefaultModel);
    var embeddingModel := Var(env, "AI_EMBEDDING_MODEL").GetOr(DefaultEmbeddingModel);
    match ParseUsize(Var(env, "AI_EMBEDDING_DIM").GetOr(DefaultDim))
    case None => None
    case Some(dim) => Some(AIConfig(provider, modelName, embeddingModel, ApiKey(env), dim, Var(env, "AI_BASE_URL")))
  }

  lemma DefaultDimParses()
    ensures ParseUsize(DefaultDim) == Some(1536)
  {
    assert NatToString(1536) == DefaultDim by {
      assert NatToString(153) == "153" by {
        assert NatToString(15) == "15";
      }
    }
    ParseUsizePrinted(1536);
  }

  /** Start-up fails exactly when the dimension variable is set and does not parse; otherwise
      every field comes from its variable or its fallback, and the base URL is absent exactly
      when its variable is unset. */
  lemma InitialConfigFields(env: Env)
    ensures InitialConfig(env).None? <==>
      "AI_EMBEDDING_DIM" in env && ParseUsize(env["AI_EMBEDDING_DIM"]).None?
    ensures InitialConfig(env).Some? ==>
      var c := InitialConfig(env).value;
      c.provider == ProviderOf(Var(env, "AI_PROVIDER").GetOr("openai")) &&
      c.modelName == (if "AI_MODEL" in env then env["AI_MODEL"] else DefaultModel) &&
      c.embeddingModel == (if "AI_EMBEDDING_MODEL" in env then env["AI_EMBEDDING_MODEL"] else DefaultEmbeddingModel) &&
      c.apiKey == ApiKey(env) &&
      c.embeddingDim == (if "AI_EMBEDDING_DIM" in env then ParseUsize(env["AI_EMBEDDING_DIM"]).value else 1536) &&
      (c.baseUrl.None? <==> "AI_BASE_URL" !in env)
  {
    DefaultDimParses();
  }

  /** With nothing set, the configuration is OpenAI's defaults with no key and no base URL. */
  lemma EmptyEnvironmentDefaults()
    ensures InitialConfig(map[]) == Some(AIConfig(OpenAI, DefaultModel, DefaultEmbeddingModel, "", 1536, None))
  {
    InitialConfigFields(map[]);
    assert ProviderOf("openai") == OpenAI by {
      assert |"openai"| != |"ollama"| || !EqualsIgnoringAsciiCase("openai", "ollama") by {
        assert AsciiLowerChar("openai"[1]) != AsciiLowerChar("ollama"[1]);
      }
      assert |"openai"| != |"groq"|;
    }
  }

  /** The administrator's name and password: `ADMIN_USER` / `ADMIN_PASS`, else "admin" /
      "admin123". The name is the one the user handlers protect from deletion. */
  function AdminCredentials(env: Env): (c: (string, string))
    ensures c.0 == Users.AdminName(Var(env, "ADMIN_USER"))
    ensures c.1 == if "ADMIN_PASS" in env then env["ADMIN_PASS"] else DefaultAdminPass
  {
    (Var(env, "ADMIN_USER").GetOr(Users.DefaultAdmin), Var(env, "ADMIN_PASS").GetOr(DefaultAdminPass))
  }

  /** The listening address: every interface, on `PORT` or 3000. */
  function BindAddress(env: Env): (a: string)
    ensures StartsWith(a, BindHost)
    ensures a[|BindHost|..] == if "PORT" in env then env["PORT"] else DefaultPort
  {
    var port := Var(env, "PORT").GetOr(DefaultPort);
    assert (BindHost + port)[..|BindHost|] == BindHost;
    BindHost + port
  }
}
