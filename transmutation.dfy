/**
 * `DocumentTransmuter` (src/interface/transmutation.rs): the file-type classification of an
 * uploaded file by its extension, and the dispatch of its bytes to the matching text
 * extractor. The PDF, DOCX, XLSX, CSV and HTML extractors are library parsers and enter as
 * oracles (`Parsers`); the plain-text path is UTF-8 decoding as RFC 3629 defines it.
 */
module Transmutation {
  import opened Wrappers
  import opened Text
  import Utf8

  datatype SupportedFormat = PDF | DOCX | XLSX | CSV | HTML | PlainText

  const UnsupportedPrefix := "Formato no soportado: "
  const Utf8ErrorPrefix := "Error UTF-8: "

  /** `Path::file_name`: the last component of the path, trailing slashes ignored; none for an
      empty component or "..". */
  function FileName(path: string): (r: Option<string>)
    ensures r.Some? ==> r.value != [] && r.value != ".."
    ensures r.Some? ==> forall i :: 0 <= i < |r.value| ==> r.value[i] != '/'
    ensures r.Some? <==> LastComponent(TrimEndChar(path, '/')) != [] && LastComponent(TrimEndChar(path, '/')) != ".."
    ensures r.Some? ==> r.value == LastComponent(TrimEndChar(path, '/'))
  {
    var name := LastComponent(TrimEndChar(path, '/'));
    if name == [] || name == ".." then None else Some(name)
  }

  /** The text after the last '/'. */
  function LastComponent(t: string): (r: string)
    ensures forall i :: 0 <= i < |r| ==> r[i] != '/'
    ensures |r| <= |t| && r == t[|t| - |r|..]
    ensures |r| == |t| || t[|t| - |r| - 1] == '/'
  {
    match RFindChar(t, '/') case Some(i) => t[i + 1..] case None => t
  }

  /** The extension of a file name: the text after its last '.', when that dot is not the first
      character ("..": none). */
  function NameExtension(name: string): (r: Option<string>)
    ensures r.Some? <==> name != ".." && RFindChar(name, '.').Some? && RFindChar(name, '.').value > 0
    ensures r.Some? ==> forall i :: 0 <= i < |r.value| ==> r.value[i] != '.'
    ensures r.Some? ==> EndsWith(name, "." + r.value)
  {
    if name == ".." then None
    else match RFindChar(name, '.')
      case None => None
      case Some(i) =>
        if i == 0 then None
        else
          var e := name[i + 1..];
          assert name[|name| - |"." + e|..] == "." + e;
          Some(e)
  }

  /** `Path::extension`. */
  function Extension(path: string): Option<string> {
    match FileName(path)
    case None => None
    case Some(name) => NameExtension(name)
  }

  /** The format of a lower-case extension. */
  function FormatOf(ext: string): Option<SupportedFormat> {
    if ext == "pdf" then Some(PDF)
    else if ext == "docx" then Some(DOCX)
    else if ext == "xlsx" || ext == "xls" then Some(XLSX)
    else if ext == "csv" then Some(CSV)
    else if ext == "html" || ext == "htm" then Some(HTML)
    else if ext == "txt" || ext == "md" || ext == "json" || ext == "xml" then Some(PlainText)
    else None
  }

  /** The extensions each format is recognised by. */
  function ExtensionsOf(f: SupportedFormat): seq<string> {
    match f
    case PDF => ["pdf"]
    case DOCX => ["docx"]
    case XLSX => ["xlsx", "xls"]
    case CSV => ["csv"]
    case HTML => ["html", "htm"]
    case PlainText => ["txt", "md", "json", "xml"]
  }

  /** The classification table read both ways: an extension names a format exactly when it is
      one of that format's extensions. */
  lemma FormatTable(ext: string, f: SupportedFormat)
    ensures FormatOf(ext) == Some(f) <==> ext in ExtensionsOf(f)
  {
  }

  /** `SupportedFormat::from_filename`: the format of the lower-cased extension. */
  function FromFilename(filename: string): Option<SupportedFormat> {
    match Extension(filename)
    case None => None
    case Some(e) =>
      FormatOf(AsciiLower(e))
  }

  /** The text extractors of the binary formats, and the text of the UTF-8 decoder's complaint
      about bytes it rejects. */
  datatype Parsers = Parsers(
    pdf: seq<Utf8.Byte> -> Result<string, string>,
    docx: seq<Utf8.Byte> -> Result<string, string>,
    xlsx: seq<Utf8.Byte> -> Result<string, string>,
    csv: seq<Utf8.Byte> -> Result<string, string>,
    html: seq<Utf8.Byte> -> Result<string, string>,
    utf8Error: seq<Utf8.Byte> -> string)

  /** The text of a file of a known format. */
  function Extract(format: SupportedFormat, data: seq<Utf8.Byte>, parsers: Parsers): (r: Result<string, string>)
    ensures format == PlainText ==>
      (r.Ok? <==> Utf8.Decode(data).Some?) && (r.Ok? ==> Utf8.Encode(r.value) == data)
  {
    match format
    case PDF => parsers.pdf(data)
    case DOCX => parsers.docx(data)
    case XLSX => parsers.xlsx(data)
    case CSV => parsers.csv(data)
    case HTML => parsers.html(data)
    case PlainText =>
      match Utf8.Decode(data)
      case None => Err(Utf8ErrorPrefix + parsers.utf8Error(data))
      case Some(text) => Utf8.EncodeDecode(data); Ok(text)
  }

  /** `DocumentTransmuter::transmute`: classify, then extract. */
  function Transmute(filename: string, data: seq<Utf8.Byte>, parsers: Parsers): Result<string, string> {
    match FromFilename(filename)
    case None => Err(UnsupportedPrefix + filename)
    case Some(format) => Extract(format, data, parsers)
  }

  /** An unsupported file is refused before any extractor runs: the outcome does not depend on
      the extractors at all. */
  lemma UnsupportedBeforeParsing(filename: string, data: seq<Utf8.Byte>, p: Parsers, q: Parsers)
    requires FromFilename(filename).None?
    ensures Transmute(filename, data, p) == Transmute(filename, data, q) == Err(UnsupportedPrefix + filename)
  {
  }

  /** A plain-text file is read exactly when its bytes are valid UTF-8, and what is read is
      the text those bytes encode. */
  lemma PlainTextIsUtf8(filename: string, data: seq<Utf8.Byte>, parsers: Parsers)
    requires FromFilename(filename) == Some(PlainText)
    ensures Transmute(filename, data, parsers).Ok? <==> Utf8.Decode(data).Some?
    ensures Transmute(filename, data, parsers).Ok? ==> Utf8.Encode(Transmute(filename, data, parsers).value) == data
  {
  }

  /** Valid UTF-8 in a plain-text file comes back as exactly the text it encodes. */
  lemma PlainTextRoundTrip(filename: string, s: string, parsers: Parsers)
    requires FromFilename(filename) == Some(PlainText)
    ensures Transmute(filename, Utf8.Encode(s), parsers) == Ok(s)
  {
    Utf8.DecodeEncode(s);
    assert Transmute(filename, Utf8.Encode(s), parsers) == Extract(PlainText, Utf8.Encode(s), parsers);
  }

  // ----- case -----

  /** Lower-casing moves no '/' and no '.'. */
  lemma LowerKeepsSeparators(s: string, c: char)
    requires c == '/' || c == '.'
    ensures forall i :: 0 <= i < |s| ==> (AsciiLower(s)[i] == c <==> s[i] == c)
  {
  }

  lemma LowerSuffix(s: string, k: nat)
    requires k <= |s|
    ensures AsciiLower(s)[k..] == AsciiLower(s[k..])
  {
  }

  lemma RFindCharLower(s: string, c: char)
    requires c == '/' || c == '.'
    ensures RFindChar(AsciiLower(s), c) == RFindChar(s, c)
  {
    LowerKeepsSeparators(s, c);
    var a, b := RFindChar(AsciiLower(s), c), RFindChar(s, c);
    if b.Some? {
      assert AsciiLower(s)[b.value] == c;
    }
    if a.Some? {
      assert s[a.value] == c;
    }
  }

  lemma {:induction false} BackCharLower(s: string, c: char, j: nat)
    requires c == '/' || c == '.'
    requires j <= |s|
    ensures BackChar(AsciiLower(s), c, j) == BackChar(s, c, j)
  {
    LowerKeepsSeparators(s, c);
    if j > 0 && s[j - 1] == c {
      BackCharLower(s, c, j - 1);
    }
  }

  lemma TrimEndCharLower(s: string, c: char)
    requires c == '/' || c == '.'
    ensures TrimEndChar(AsciiLower(s), c) == AsciiLower(TrimEndChar(s, c))
  {
    BackCharLower(s, c, |s|);
    var n := BackChar(s, c, |s|);
    assert AsciiLower(s)[..n] == AsciiLower(s[..n]);
  }

  lemma LastComponentLower(t: string)
    ensures LastComponent(AsciiLower(t)) == AsciiLower(LastComponent(t))
  {
    RFindCharLower(t, '/');
    if RFindChar(t, '/').Some? {
      LowerSuffix(t, RFindChar(t, '/').value + 1);
    }
  }

  /** The last component of a lower-cased path is the lower-cased last component. */
  lemma FileNameLower(path: string)
    ensures FileName(AsciiLower(path)) == match FileName(path) case None => None case Some(n) => Some(AsciiLower(n))
  {
    var t := TrimEndChar(path, '/');
    TrimEndCharLower(path, '/');
    LastComponentLower(t);
    ParentLower(LastComponent(t));
  }

  lemma ParentLower(name: string)
    ensures AsciiLower(name) == ".." <==> name == ".."
  {
    LowerKeepsSeparators(name, '.');
    if AsciiLower(name) == ".." {
      assert name[0] == '.' && name[1] == '.';
    }
  }

  /** The extension of a lower-cased name is the lower-cased extension. */
  lemma NameExtensionLower(name: string)
    ensures NameExtension(AsciiLower(name)) == match NameExtension(name) case None => None case Some(e) => Some(AsciiLower(e))
  {
    var lname := AsciiLower(name);
    RFindCharLower(name, '.');
    ParentLower(name);
    if RFindChar(name, '.').Some? {
      LowerSuffix(name, RFindChar(name, '.').value + 1);
    }
  }

  /** Lower-casing a path lower-cases its extension and nothing else about it. */
  lemma ExtensionLower(path: string)
    ensures Extension(AsciiLower(path)) == match Extension(path) case None => None case Some(e) => Some(AsciiLower(e))
  {
    FileNameLower(path);
    if FileName(path).Some? {
      NameExtensionLower(FileName(path).value);
    }
  }

  lemma LowerIdempotent(s: string)
    ensures AsciiLower(AsciiLower(s)) == AsciiLower(s)
  {
  }

  /** Classification ignores ASCII case. */
  lemma ClassificationIgnoresCase(filename: string)
    ensures FromFilename(AsciiLower(filename)) == FromFilename(filename)
  {
    ExtensionLower(filename);
    if Extension(filename).Some? {
      LowerIdempotent(Extension(filename).value);
    }
  }

  /** A name without a dot, or whose only dot leads it, has no extension and no format. */
  lemma DotfileHasNoFormat()
    ensures FromFilename(".pdf") == None && FromFilename("README") == None
  {
    var d, n := ".pdf", "README";
    assert d[3] != '/' && n[5] != '/';
    assert TrimEndChar(d, '/') == d && TrimEndChar(n, '/') == n;
    assert d[0] != '/' && d[1] != '/' && d[2] != '/';
    assert RFindChar(d, '/') == None;
    assert d[0] == '.' && d[1] != '.' && d[2] != '.' && d[3] != '.';
    assert RFindChar(d, '.') == Some(0);
    assert n[0] != '/' && n[1] != '/' && n[2] != '/' && n[3] != '/' && n[4] != '/';
    assert RFindChar(n, '/') == None;
    assert n[0] != '.' && n[1] != '.' && n[2] != '.' && n[3] != '.' && n[4] != '.' && n[5] != '.';
    assert RFindChar(n, '.') == None;
  }
}
