/**
 * `FileAgentRepository` (src/infrastructure/persistence/agent_repo.rs): agent and tool
 * definitions kept as YAML files under a base directory. The file system is a map from path to
 * bytes, the glob expansion is a function from pattern to the entries it yields (a `None` entry
 * is one the glob could not read), and the YAML decoder is a parse function per record kind.
 */
module AgentRepo {
  import opened Wrappers
  import opened Text
  import opened Errors
  import opened Models
  import Utf8

  type FileSystem = map<string, seq<Utf8.Byte>>

  /** What a glob pattern expands to: `None` for a bad pattern, else the entries in order. */
  type Glob = string -> Option<seq<Option<string>>>

  datatype FileAgentRepository = FileAgentRepository(basePath: string)

  /** `FileAgentRepository::new`: the base path without its trailing slashes. */
  function New(basePath: string): (r: FileAgentRepository)
    ensures !EndsWith(r.basePath, "/")
    ensures r.basePath <= basePath
    ensures forall i :: |r.basePath| <= i < |basePath| ==> basePath[i] == '/'
  {
    var b := TrimEndChar(basePath, '/');
    assert b != [] ==> b[|b| - 1..] == [b[|b| - 1]];
    TrimEndCharCut(basePath, '/');
    FileAgentRepository(b)
  }

  /** Slashes at the end of the configured path make no difference. */
  lemma {:induction false} NewIgnoresTrailingSlash(basePath: string)
    ensures New(basePath + "/") == New(basePath)
  {
    assert (basePath + "/")[..|basePath|] == basePath;
  }

  function AgentPath(repo: FileAgentRepository, id: string): string {
    repo.basePath + "/agents/" + id + ".yaml"
  }

  function ToolPath(repo: FileAgentRepository, id: string): string {
    repo.basePath + "/tools/" + id + ".yaml"
  }

  /** Agents and tools live in different directories, so an agent file is never a tool file. */
  lemma AgentAndToolPathsDiffer(repo: FileAgentRepository, a: string, t: string)
    ensures AgentPath(repo, a) != ToolPath(repo, t)
  {
    var n := |repo.basePath|;
    assert AgentPath(repo, a)[n + 1] == 'a';
    assert ToolPath(repo, t)[n + 1] == 't';
  }

  /** `fs::read_to_string`: the text of an existing file whose bytes are valid UTF-8. */
  function ReadToString(fs: FileSystem, path: string): (r: Option<string>)
    ensures r.Some? <==> path in fs && Utf8.Decode(fs[path]).Some?
  {
    if path in fs then Utf8.Decode(fs[path]) else None
  }

  /** The text read is exactly the file's bytes, decoded. */
  lemma ReadToStringBytes(fs: FileSystem, path: string)
    ensures ReadToString(fs, path).Some? ==> Utf8.Encode(ReadToString(fs, path).value) == fs[path]
  {
    if path in fs && Utf8.Decode(fs[path]).Some? {
      Utf8.EncodeDecode(fs[path]);
    }
  }

  /** Read and parse one definition file; `kind` names the record in the error text. */
  function Load<T>(fs: FileSystem, path: string, kind: string, parse: string -> Result<T, string>): Result<T, AppError> {
    match ReadToString(fs, path)
    case None => Err(ConfigError(kind + " file not found: " + path))
    case Some(content) =>
      match parse(content)
      case Ok(v) => Ok(v)
      case Err(e) => Err(ParseError("YAML Error in " + path + ": " + e))
  }

  /** A missing or undecodable file is a configuration error, a file that does not parse is a
      parse error, and a file that parses gives its value. */
  lemma LoadOutcome<T>(fs: FileSystem, path: string, kind: string, parse: string -> Result<T, string>)
    ensures ReadToString(fs, path).None? <==> Load(fs, path, kind, parse) == Err(ConfigError(kind + " file not found: " + path))
    ensures ReadToString(fs, path).Some? ==>
      match parse(ReadToString(fs, path).value)
      case Ok(v) => Load(fs, path, kind, parse) == Ok(v)
      case Err(e) => Load(fs, path, kind, parse) == Err(ParseError("YAML Error in " + path + ": " + e))
  {
  }

  function GetAgent(repo: FileAgentRepository, fs: FileSystem, parse: string -> Result<AgentConfig, string>, id: string): Result<AgentConfig, AppError> {
    Load(fs, AgentPath(repo, id), "Agent", parse)
  }

  function GetTool(repo: FileAgentRepository, fs: FileSystem, parse: string -> Result<ToolDefinition, string>, id: string): Result<ToolDefinition, AppError> {
    Load(fs, ToolPath(repo, id), "Tool", parse)
  }

  /** An agent found by `get_agent` is exactly what its file parses to, and only a file that
      exists, is UTF-8 and parses gives one. */
  lemma GetAgentOk(repo: FileAgentRepository, fs: FileSystem, parse: string -> Result<AgentConfig, string>, id: string, a: AgentConfig)
    ensures GetAgent(repo, fs, parse, id) == Ok(a) <==>
      AgentPath(repo, id) in fs && Utf8.Decode(fs[AgentPath(repo, id)]).Some?
      && parse(Utf8.Decode(fs[AgentPath(repo, id)]).value) == Ok(a)
  {
  }

  /** The entries of a listing that read and parse, in glob order; the rest are skipped. */
  function Parsable<T>(fs: FileSystem, entries: seq<Option<string>>, parse: string -> Result<T, string>): seq<T> {
    if entries == [] then []
    else
      var rest := Parsable(fs, entries[1..], parse);
      match entries[0]
      case None => rest
      case Some(path) =>
        match ReadToString(fs, path)
        case None => rest
        case Some(content) =>
          match parse(content)
          case Ok(v) => [v] + rest
          case Err(_) => rest
  }

  /** Whether entry `e` is a readable, parsable file, and what it parses to. */
  function Parsed<T>(fs: FileSystem, e: Option<string>, parse: string -> Result<T, string>): Option<T> {
    if e.Some? && ReadToString(fs, e.value).Some? && parse(ReadToString(fs, e.value).value).Ok? then
      Some(parse(ReadToString(fs, e.value).value).value)
    else None
  }

  /** The glob's entries for a pattern; a bad pattern lists nothing. */
  function Entries(glob: Glob, pattern: string): seq<Option<string>> {
    match glob(pattern)
    case None => []
    case Some(entries) => entries
  }

  /** The lenient listing loop shared by `list_agents` and `list_tools`: it never fails. */
  method ListMatching<T>(fs: FileSystem, glob: Glob, pattern: string, parse: string -> Result<T, string>) returns (items: seq<T>)
    ensures items == Parsable(fs, Entries(glob, pattern), parse)
  {
    var entries := Entries(glob, pattern);
    items := [];
    var i := 0;
    while i < |entries|
      invariant 0 <= i <= |entries|
      invariant items + Parsable(fs, entries[i..], parse) == Parsable(fs, entries, parse)
    {
      assert entries[i..][1..] == entries[i + 1..];
      var found := Parsed(fs, entries[i], parse);
      if found.Some? {
        items := items + [found.value];
      }
      i := i + 1;
    }
    assert entries[i..] == [];
  }

  method ListAgents(repo: FileAgentRepository, fs: FileSystem, glob: Glob, parse: string -> Result<AgentConfig, string>) returns (agents: seq<AgentConfig>)
    ensures agents == Parsable(fs, Entries(glob, repo.basePath + "/agents/*.yaml"), parse)
  {
    agents := ListMatching(fs, glob, repo.basePath + "/agents/*.yaml", parse);
  }

  method ListTools(repo: FileAgentRepository, fs: FileSystem, glob: Glob, parse: string -> Result<ToolDefinition, string>) returns (tools: seq<ToolDefinition>)
    ensures tools == Parsable(fs, Entries(glob, repo.basePath + "/tools/*.yaml"), parse)
  {
    tools := ListMatching(fs, glob, repo.basePath + "/tools/*.yaml", parse);
  }

  /** A listing never holds more records than the glob matched. */
  lemma {:induction false} ParsableBounded<T>(fs: FileSystem, entries: seq<Option<string>>, parse: string -> Result<T, string>)
    ensures |Parsable(fs, entries, parse)| <= |entries|
  {
    if entries != [] {
      ParsableBounded(fs, entries[1..], parse);
    }
  }

  /** A record is listed exactly when some matched entry reads and parses to it. */
  lemma {:induction false} ParsableMembers<T>(fs: FileSystem, entries: seq<Option<string>>, parse: string -> Result<T, string>, v: T)
    ensures v in Parsable(fs, entries, parse) <==> exists i :: 0 <= i < |entries| && Parsed(fs, entries[i], parse) == Some(v)
  {
    if entries != [] {
      ParsableMembers(fs, entries[1..], parse, v);
      if v in Parsable(fs, entries, parse) {
        if v !in Parsable(fs, entries[1..], parse) {
          assert Parsed(fs, entries[0], parse) == Some(v);
        } else {
          var j :| 0 <= j < |entries[1..]| && Parsed(fs, entries[1..][j], parse) == Some(v);
          assert Parsed(fs, entries[j + 1], parse) == Some(v);
        }
      }
      if exists i :: 0 <= i < |entries| && Parsed(fs, entries[i], parse) == Some(v) {
        var i :| 0 <= i < |entries| && Parsed(fs, entries[i], parse) == Some(v);
        if i > 0 {
          assert entries[1..][i - 1] == entries[i];
        }
      }
    }
  }

  /** When every matched file is good, the listing has one record per file, in glob order. */
  lemma {:induction false} ParsableAllGood<T>(fs: FileSystem, entries: seq<Option<string>>, parse: string -> Result<T, string>)
    requires forall i :: 0 <= i < |entries| ==> Parsed(fs, entries[i], parse).Some?
    ensures |Parsable(fs, entries, parse)| == |entries|
    ensures forall i :: 0 <= i < |entries| ==> Parsable(fs, entries, parse)[i] == Parsed(fs, entries[i], parse).value
  {
    if entries != [] {
      assert forall i :: 0 <= i < |entries[1..]| ==> entries[1..][i] == entries[i + 1];
      ParsableAllGood(fs, entries[1..], parse);
    }
  }
}
